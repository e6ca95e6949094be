/**
  Static analysis of declared flows (lib/FlowAnalysis.js): which transitions are followed, which states
  they reach from the entry point, and what the reachability labels mean.
 */
module FlowAnalysis {
  import opened Wrappers

  datatype Transition = Transition(input: Option<string>, to: Option<string>, terminal: bool)

  /** Declared behaviour of a state; an unannotated state has no terminal flag. */
  datatype State = State(terminal: Option<bool>, dynamic: bool, transitions: seq<Transition>, localInputKeys: seq<string>)

  /** `ids` are the keys of `states` in declaration order. */
  datatype Definition = Definition(ids: seq<string>, states: map<string, State>, initialState: string, backKey: Option<string>)

  ghost predicate WellFormed(def: Definition) {
    && (forall id :: id in def.ids <==> id in def.states)
    && (forall i, j | 0 <= i < j < |def.ids| :: def.ids[i] != def.ids[j])
  }

  datatype Destination = End | To(state: Option<string>)

  function DestinationOf(t: Transition): Destination { if t.terminal then End else To(t.to) }

  predicate Malformed(t: Transition) { (!t.terminal && t.to.None?) || (t.terminal && t.to.Some?) }

  predicate Misses(def: Definition, t: Transition) { !t.terminal && t.to.Some? && t.to.value !in def.states }

  predicate Clashes(def: Definition, s: State, t: Transition) {
    def.backKey.Some? && t.input == def.backKey && def.backKey.value !in s.localInputKeys
  }

  /** A transition the traversal follows. */
  predicate Follows(def: Definition, s: State, t: Transition) {
    !Malformed(t) && !Misses(def, t) && s.terminal != Some(true)
  }

  datatype Error =
    | InitialState | NoStates
    | InvalidTransition(at: string) | MissingTarget(at: string) | TerminalTransition(at: string)
    | ConflictingInput(at: string) | NavigationConflict(at: string)

  datatype Reachability = Declared | Unknown | Unreachable

  datatype Exit = NoFinding | BackOnlyExit | DeadEnd

  datatype Node = Node(id: string, isInitial: bool, reachability: Reachability, exit: Exit)

  datatype Analysis = Analysis(valid: bool, complete: bool, nodes: seq<Node>, errors: seq<Error>)

  // ---- what the findings mean ----

  /** A declared step from one state to another. */
  ghost predicate Edge(def: Definition, a: string, b: string) {
    a in def.states && exists t :: t in def.states[a].transitions && Follows(def, def.states[a], t) && t.to == Some(b)
  }

  /** A path of declared steps, and of the given extra ones, from the entry point. */
  ghost predicate IsPath(def: Definition, extra: set<(string, string)>, p: seq<string>) {
    && p != [] && p[0] == def.initialState && p[0] in def.states
    && forall i | 0 < i < |p| :: Step(def, extra, p[i - 1], p[i])
  }

  ghost predicate Step(def: Definition, extra: set<(string, string)>, a: string, b: string) {
    Edge(def, a, b) || (a, b) in extra
  }

  ghost predicate Reachable(def: Definition, extra: set<(string, string)>, id: string) {
    exists p :: IsPath(def, extra, p) && p[|p| - 1] == id
  }

  /** An open state may have transitions it does not declare. */
  predicate IsOpen(s: State) { s.dynamic || s.terminal.None? }

  /** No error: the conditions of every error diagnostic, state by state. */
  ghost predicate TransitionClean(def: Definition, s: State, t: Transition) {
    && !Malformed(t) && !Misses(def, t)
    && !(s.terminal == Some(true) && !t.terminal)
    && !Clashes(def, s, t)
  }

  ghost predicate StateClean(def: Definition, s: State) {
    && (forall t <- s.transitions :: TransitionClean(def, s, t))
    && (forall t, u | t in s.transitions && u in s.transitions && t.input.Some? && t.input == u.input :: DestinationOf(t) == DestinationOf(u))
  }

  ghost predicate Clean(def: Definition) {
    && def.initialState in def.states
    && forall id <- def.states :: StateClean(def, def.states[id])
  }

  // ---- edge classification ----

  /** Destinations by input, after n transitions: a later one replaces an earlier one. */
  function InputsOf(s: State, n: nat): map<string, Destination>
    requires n <= |s.transitions|
  {
    if n == 0 then map[]
    else
      var t := s.transitions[n - 1];
      if t.input.Some? then InputsOf(s, n - 1)[t.input.value := DestinationOf(t)] else InputsOf(s, n - 1)
  }

  predicate Agree(t: Transition, u: Transition) {
    t.input.Some? && t.input == u.input ==> DestinationOf(t) == DestinationOf(u)
  }

  ghost predicate PrefixClean(def: Definition, s: State, n: nat)
    requires n <= |s.transitions|
  {
    && (forall j | 0 <= j < n :: TransitionClean(def, s, s.transitions[j]))
    && (forall j, k | 0 <= j < k < n :: Agree(s.transitions[j], s.transitions[k]))
  }

  /** While the earlier transitions agree, comparing with the latest destination of an input compares with all of them. */
  lemma {:induction false} LatestStandsForAll(s: State, n: nat, t: Transition)
    requires n <= |s.transitions| && t.input.Some?
    requires forall j, k | 0 <= j < k < n :: Agree(s.transitions[j], s.transitions[k])
    ensures (t.input.value in InputsOf(s, n) ==> InputsOf(s, n)[t.input.value] == DestinationOf(t))
      <==> forall j | 0 <= j < n :: Agree(s.transitions[j], t)
  {
    if n > 0 {
      var last := s.transitions[n - 1];
      LatestStandsForAll(s, n - 1, t);
      if last.input == t.input {
        LatestStandsForAll(s, n - 1, last);
        forall j | 0 <= j < n - 1
          ensures Agree(s.transitions[j], last)
        {
          assert Agree(s.transitions[j], s.transitions[n - 1]);
        }
        if Agree(last, t) {
          forall j | 0 <= j < n - 1
            ensures Agree(s.transitions[j], t)
          {
            assert Agree(s.transitions[j], last);
          }
        }
      }
    }
  }

  lemma PrefixCleanStep(def: Definition, s: State, n: nat)
    requires n < |s.transitions|
    ensures var t := s.transitions[n];
      PrefixClean(def, s, n + 1) <==>
        && PrefixClean(def, s, n) && TransitionClean(def, s, t)
        && (t.input.Some? && t.input.value in InputsOf(s, n) ==> InputsOf(s, n)[t.input.value] == DestinationOf(t))
  {
    var t := s.transitions[n];
    if PrefixClean(def, s, n) && t.input.Some? {
      LatestStandsForAll(s, n, t);
    }
    if PrefixClean(def, s, n + 1) {
      forall j | 0 <= j < n
        ensures Agree(s.transitions[j], t)
      {
        assert Agree(s.transitions[j], s.transitions[n]);
      }
    }
  }

  lemma PrefixCleanAll(def: Definition, s: State)
    ensures PrefixClean(def, s, |s.transitions|) <==> StateClean(def, s)
  {
    if PrefixClean(def, s, |s.transitions|) {
      forall t, u | t in s.transitions && u in s.transitions
        ensures Agree(t, u)
      {
        var j :| 0 <= j < |s.transitions| && s.transitions[j] == t;
        var k :| 0 <= k < |s.transitions| && s.transitions[k] == u;
        assert Agree(s.transitions[j], s.transitions[k]) || j >= k;
        assert Agree(s.transitions[k], s.transitions[j]) || k >= j;
      }
      assert forall t, u | t in s.transitions && u in s.transitions && t.input.Some? && t.input == u.input :: Agree(t, u);
    } else if StateClean(def, s) {
      forall j | 0 <= j < |s.transitions|
        ensures TransitionClean(def, s, s.transitions[j])
      {
        assert s.transitions[j] in s.transitions;
      }
      forall j, k | 0 <= j < k < |s.transitions|
        ensures Agree(s.transitions[j], s.transitions[k])
      {
        assert s.transitions[j] in s.transitions && s.transitions[k] in s.transitions;
      }
    }
  }

  /** The state ids that the first n transitions lead to, where they are followed. */
  function TargetsOf(def: Definition, s: State, n: nat): seq<string>
    requires n <= |s.transitions|
  {
    if n == 0 then []
    else
      var t := s.transitions[n - 1];
      TargetsOf(def, s, n - 1) + (if Follows(def, s, t) && !t.terminal then [t.to.value] else [])
  }

  lemma {:induction false} TargetsAreEdges(def: Definition, s: State, n: nat, b: string)
    requires n <= |s.transitions|
    ensures b in TargetsOf(def, s, n) <==> exists j :: 0 <= j < n && Follows(def, s, s.transitions[j]) && s.transitions[j].to == Some(b)
  {
    if n > 0 { TargetsAreEdges(def, s, n - 1, b); }
  }

  /** Two transitions among the first n take one input to two places. */
  ghost predicate Splits(s: State, n: nat)
    requires n <= |s.transitions|
  {
    exists j, k :: 0 <= j < k < n && !Agree(s.transitions[j], s.transitions[k])
  }

  /** What each error of a state says about its first n transitions. */
  ghost predicate Reports(def: Definition, s: State, id: string, n: nat, e: Error)
    requires n <= |s.transitions|
  {
    match e
    case InvalidTransition(at) => at == id && exists j :: 0 <= j < n && Malformed(s.transitions[j])
    case MissingTarget(at) => at == id && exists j :: 0 <= j < n && Misses(def, s.transitions[j])
    case TerminalTransition(at) => at == id && s.terminal == Some(true) && exists j :: 0 <= j < n && !s.transitions[j].terminal
    case ConflictingInput(at) => at == id && Splits(s, n)
    case NavigationConflict(at) => at == id && exists j :: 0 <= j < n && Clashes(def, s, s.transitions[j])
    case _ => false
  }

  /** Comparing with the latest destination of its input finds a split that a transition adds to transitions without one. */
  lemma SplitsStep(s: State, n: nat)
    requires n < |s.transitions|
    ensures var t := s.transitions[n];
      Splits(s, n + 1) <==>
        Splits(s, n) || (t.input.Some? && t.input.value in InputsOf(s, n) && InputsOf(s, n)[t.input.value] != DestinationOf(t))
  {
    var t := s.transitions[n];
    if !Splits(s, n) && t.input.Some? {
      LatestStandsForAll(s, n, t);
    }
    if Splits(s, n) {
      var j, k :| 0 <= j < k < n && !Agree(s.transitions[j], s.transitions[k]);
      assert Splits(s, n + 1);
    } else if Splits(s, n + 1) {
      var j, k :| 0 <= j < k < n + 1 && !Agree(s.transitions[j], s.transitions[k]);
      assert k == n;
    } else if t.input.Some? {
      forall j | 0 <= j < n
        ensures Agree(s.transitions[j], t)
      {
        assert !(j < n < n + 1) || Agree(s.transitions[j], s.transitions[n]);
      }
    }
  }

  /** The errors that one transition adds. */
  function ErrorsAt(def: Definition, s: State, id: string, n: nat): seq<Error>
    requires n < |s.transitions|
  {
    var t := s.transitions[n];
    (if Malformed(t) then [InvalidTransition(id)] else if Misses(def, t) then [MissingTarget(id)] else [])
    + (if s.terminal == Some(true) && !t.terminal then [TerminalTransition(id)] else [])
    + (if t.input.Some? && t.input.value in InputsOf(s, n) && InputsOf(s, n)[t.input.value] != DestinationOf(t) then [ConflictingInput(id)] else [])
    + (if t.input.Some? && Clashes(def, s, t) then [NavigationConflict(id)] else [])
  }

  lemma ReportsStep(def: Definition, s: State, id: string, n: nat, e: Error)
    requires n < |s.transitions|
    ensures Reports(def, s, id, n + 1, e) <==> Reports(def, s, id, n, e) || e in ErrorsAt(def, s, id, n)
  {
    SplitsStep(s, n);
    var t := s.transitions[n];
    hide Splits, InputsOf;
    match e
    case InvalidTransition(_) => assert Malformed(t) ==> s.transitions[n] == t;
    case MissingTarget(_) => assert Misses(def, t) ==> !Malformed(t);
    case TerminalTransition(_) => assert s.transitions[n] == t;
    case ConflictingInput(_) =>
    case NavigationConflict(_) => assert Clashes(def, s, t) ==> t.input.Some?;
    case _ =>
  }

  /** The errors of the first n transitions, in order. */
  function ErrorsOf(def: Definition, s: State, id: string, n: nat): seq<Error>
    requires n <= |s.transitions|
  {
    if n == 0 then [] else ErrorsOf(def, s, id, n - 1) + ErrorsAt(def, s, id, n - 1)
  }

  lemma {:induction false} ErrorsReport(def: Definition, s: State, id: string, n: nat, e: Error)
    requires n <= |s.transitions|
    ensures e in ErrorsOf(def, s, id, n) <==> Reports(def, s, id, n, e)
  {
    hide ErrorsAt;
    if n > 0 {
      ErrorsReport(def, s, id, n - 1, e);
      ReportsStep(def, s, id, n - 1, e);
    }
  }

  lemma {:induction false} NoErrorsAreClean(def: Definition, s: State, id: string, n: nat)
    requires n <= |s.transitions|
    ensures ErrorsOf(def, s, id, n) == [] <==> PrefixClean(def, s, n)
  {
    if n > 0 {
      NoErrorsAreClean(def, s, id, n - 1);
      PrefixCleanStep(def, s, n - 1);
      hide PrefixClean, InputsOf;
    }
  }

  lemma ErrorsMean(def: Definition, s: State, id: string)
    ensures var errors := ErrorsOf(def, s, id, |s.transitions|);
      && (errors == [] <==> StateClean(def, s))
      && forall e :: e in errors <==> Reports(def, s, id, |s.transitions|, e)
  {
    hide Reports, StateClean, PrefixClean;
    NoErrorsAreClean(def, s, id, |s.transitions|);
    PrefixCleanAll(def, s);
    forall e
      ensures e in ErrorsOf(def, s, id, |s.transitions|) <==> Reports(def, s, id, |s.transitions|, e)
    {
      ErrorsReport(def, s, id, |s.transitions|, e);
    }
  }

  /** The checks of one transition; `inputs` holds the destinations of the inputs seen before it. */
  method CheckTransition(def: Definition, s: State, id: string, n: nat, inputs: map<string, Destination>) returns (errors: seq<Error>)
    requires n < |s.transitions| && inputs == InputsOf(s, n)
    ensures errors == ErrorsAt(def, s, id, n)
  {
    hide InputsOf;
    var t := s.transitions[n];
    errors := [];
    if Malformed(t) {
      errors := errors + [InvalidTransition(id)];
    } else if Misses(def, t) {
      errors := errors + [MissingTarget(id)];
    }
    if s.terminal == Some(true) && !t.terminal {
      errors := errors + [TerminalTransition(id)];
    }
    if t.input.Some? {
      if t.input.value in inputs && inputs[t.input.value] != DestinationOf(t) {
        errors := errors + [ConflictingInput(id)];
      }
      if Clashes(def, s, t) {
        errors := errors + [NavigationConflict(id)];
      }
    }
  }

  /** One state's transitions, in order: errors found, and the targets the traversal follows (END excluded). */
  method ClassifyState(def: Definition, id: string) returns (errors: seq<Error>, targets: seq<string>, exits: bool)
    requires id in def.states
    ensures errors == [] <==> StateClean(def, def.states[id])
    ensures forall e :: e in errors <==> Reports(def, def.states[id], id, |def.states[id].transitions|, e)
    ensures forall b :: b in targets <==> Edge(def, id, b)
    ensures exits <==> exists t :: t in def.states[id].transitions && Follows(def, def.states[id], t)
  {
    hide Reports, StateClean;
    var s := def.states[id];
    errors, targets, exits := [], [], false;
    var inputs: map<string, Destination> := map[];
    var i := 0;
    while i < |s.transitions|
      invariant 0 <= i <= |s.transitions|
      invariant errors == ErrorsOf(def, s, id, i)
      invariant inputs == InputsOf(s, i)
      invariant targets == TargetsOf(def, s, i)
      invariant exits <==> exists j :: 0 <= j < i && Follows(def, s, s.transitions[j])
    {
      var t := s.transitions[i];
      var more := CheckTransition(def, s, id, i, inputs);
      errors := errors + more;
      if Follows(def, s, t) {
        exits := true;
        if !t.terminal { targets := targets + [t.to.value]; }
      }
      if t.input.Some? { inputs := inputs[t.input.value := DestinationOf(t)]; }
      i := i + 1;
    }
    ErrorsMean(def, s, id);
    forall b
      ensures b in targets <==> Edge(def, id, b)
    {
      TargetsAreEdges(def, s, |s.transitions|, b);
    }
  }

  datatype Classified = Classified(targets: seq<string>, exits: bool)

  /** What each error of a definition says about it. */
  ghost predicate Found(def: Definition, e: Error) {
    match e
    case InitialState => def.initialState !in def.states
    case NoStates => def.ids == []
    case _ => exists id :: id in def.states && Reports(def, def.states[id], id, |def.states[id].transitions|, e)
  }

  method Classify(def: Definition) returns (errors: seq<Error>, outgoing: map<string, Classified>)
    requires WellFormed(def)
    ensures forall e :: e in errors <==> exists id :: id in def.states && Reports(def, def.states[id], id, |def.states[id].transitions|, e)
    ensures errors == [] <==> forall id <- def.states :: StateClean(def, def.states[id])
    ensures outgoing.Keys == def.states.Keys
    ensures forall id <- outgoing :: IsOutgoing(def, id, outgoing[id])
  {
    hide StateClean, Edge, Follows, Reports;
    errors, outgoing := [], map[];
    var i := 0;
    while i < |def.ids|
      invariant 0 <= i <= |def.ids|
      invariant forall id :: id in outgoing <==> id in def.ids[..i]
      invariant forall id <- outgoing :: id in def.states && IsOutgoing(def, id, outgoing[id])
      invariant errors == [] <==> forall j | 0 <= j < i :: StateClean(def, def.states[def.ids[j]])
      invariant forall e :: e in errors <==> exists j :: 0 <= j < i && ReportsAt(def, def.ids[j], e)
    {
      var id := def.ids[i];
      var more, targets, exits := ClassifyState(def, id);
      errors := errors + more;
      outgoing := outgoing[id := Classified(targets, exits)];
      i := i + 1;
    }
    assert def.ids[..i] == def.ids;
    ReportsById(def, errors);
    forall id <- def.states
      ensures errors == [] ==> StateClean(def, def.states[id])
    {
      assert id in def.ids;
    }
  }

  ghost predicate ReportsAt(def: Definition, id: string, e: Error) {
    id in def.states && Reports(def, def.states[id], id, |def.states[id].transitions|, e)
  }

  lemma ReportsById(def: Definition, errors: seq<Error>)
    requires WellFormed(def) && forall e :: e in errors <==> exists j :: 0 <= j < |def.ids| && ReportsAt(def, def.ids[j], e)
    ensures forall e :: e in errors <==> exists id :: id in def.states && Reports(def, def.states[id], id, |def.states[id].transitions|, e)
  {
    hide Reports;
    forall e
      ensures e in errors <==> exists id :: id in def.states && Reports(def, def.states[id], id, |def.states[id].transitions|, e)
    {
      if id :| id in def.states && Reports(def, def.states[id], id, |def.states[id].transitions|, e) {
        assert id in def.ids;
        var j :| 0 <= j < |def.ids| && def.ids[j] == id;
        assert ReportsAt(def, def.ids[j], e);
      }
      if e in errors {
        var j :| 0 <= j < |def.ids| && ReportsAt(def, def.ids[j], e);
        assert def.ids[j] in def.states;
      }
    }
  }

  ghost predicate IsOutgoing(def: Definition, id: string, c: Classified)
    requires id in def.states
  {
    && (forall b :: b in c.targets <==> Edge(def, id, b))
    && (c.exits <==> exists t :: t in def.states[id].transitions && Follows(def, def.states[id], t))
  }

  // ---- traversal ----

  lemma ReachableExtends(def: Definition, extra: set<(string, string)>, a: string, b: string)
    requires Reachable(def, extra, a) && Step(def, extra, a, b)
    ensures Reachable(def, extra, b)
  {
    var p :| IsPath(def, extra, p) && p[|p| - 1] == a;
    var q := p + [b];
    assert IsPath(def, extra, q) by {
      forall i | 0 < i < |q|
        ensures Step(def, extra, q[i - 1], q[i])
      {
        assert i < |p| ==> q[i - 1] == p[i - 1] && q[i] == p[i];
      }
    }
    assert q[|q| - 1] == b;
  }

  /** Whatever contains the entry point and is closed under steps contains everything reachable. */
  lemma {:induction false} ClosedContainsPath(def: Definition, extra: set<(string, string)>, closed: set<string>, p: seq<string>)
    requires def.initialState in closed
    requires forall a, b | a in closed && Step(def, extra, a, b) :: b in closed
    requires IsPath(def, extra, p)
    ensures p[|p| - 1] in closed
    decreases |p|
  {
    if |p| > 1 {
      var init := p[..|p| - 1];
      assert IsPath(def, extra, init);
      ClosedContainsPath(def, extra, closed, init);
      assert Step(def, extra, p[|p| - 2], p[|p| - 1]);
    }
  }

  lemma {:induction false} DistinctBounded(queue: seq<string>, known: set<string>)
    requires forall x <- queue :: x in known
    requires forall i, j | 0 <= i < j < |queue| :: queue[i] != queue[j]
    ensures |queue| <= |known|
  {
    if queue != [] {
      var last := queue[|queue| - 1];
      assert last in known;
      DistinctBounded(queue[..|queue| - 1], known - {last});
    }
  }

  lemma InitialReachable(def: Definition)
    requires def.initialState in def.states
    ensures Reachable(def, {}, def.initialState)
  {
    assert IsPath(def, {}, [def.initialState]) && [def.initialState][0] == def.initialState;
  }

  lemma TraversalComplete(def: Definition, queue: seq<string>, reachable: set<string>, id: string)
    requires Discovered(def, queue, reachable) && (def.initialState in def.states ==> def.initialState in reachable)
    requires forall i | 0 <= i < |queue| :: Expanded(def, queue[i], reachable)
    ensures id in queue <==> Reachable(def, {}, id)
  {
    if Reachable(def, {}, id) {
      var p :| IsPath(def, {}, p) && p[|p| - 1] == id;
      forall a, b | a in reachable && Step(def, {}, a, b)
        ensures b in reachable
      {
        assert a in queue;
      }
      ClosedContainsPath(def, {}, reachable, p);
    }
  }

  /** The traversal: exactly the states with a declared path from the entry point, each once. */
  method Traverse(def: Definition, outgoing: map<string, Classified>) returns (queue: seq<string>)
    requires outgoing.Keys == def.states.Keys && forall id <- outgoing :: IsOutgoing(def, id, outgoing[id])
    ensures forall id :: id in queue <==> Reachable(def, {}, id)
    ensures forall i, j | 0 <= i < j < |queue| :: queue[i] != queue[j]
  {
    queue := [];
    var reachable: set<string> := {};
    if def.initialState in def.states {
      InitialReachable(def);
      queue, reachable := [def.initialState], {def.initialState};
    }
    var cursor := 0;
    while cursor < |queue|
      invariant 0 <= cursor <= |queue|
      invariant Discovered(def, queue, reachable)
      invariant def.initialState in def.states ==> def.initialState in reachable
      invariant forall i | 0 <= i < cursor :: Expanded(def, queue[i], reachable)
      decreases |def.states| - cursor
    {
      DistinctBounded(queue, def.states.Keys);
      queue, reachable := Expand(def, queue, reachable, queue[cursor], outgoing[queue[cursor]].targets);
      cursor := cursor + 1;
    }
    forall id
      ensures id in queue <==> Reachable(def, {}, id)
    {
      TraversalComplete(def, queue, reachable, id);
    }
  }

  ghost predicate Expanded(def: Definition, a: string, reachable: set<string>) {
    forall b :: Edge(def, a, b) ==> b in reachable
  }

  /** Push the targets of one state that have not been seen. */
  method Expand(def: Definition, queue: seq<string>, reachable: set<string>, from: string, targets: seq<string>)
    returns (queue': seq<string>, reachable': set<string>)
    requires Discovered(def, queue, reachable) && from in queue
    requires forall b :: b in targets <==> Edge(def, from, b)
    ensures Discovered(def, queue', reachable') && queue <= queue' && reachable <= reachable'
    ensures Expanded(def, from, reachable')
  {
    queue', reachable' := queue, reachable;
    var k := 0;
    while k < |targets|
      invariant 0 <= k <= |targets|
      invariant queue <= queue' && reachable <= reachable'
      invariant Discovered(def, queue', reachable')
      invariant forall j | 0 <= j < k :: targets[j] in reachable'
    {
      if targets[k] !in reachable' {
        assert Edge(def, from, targets[k]);
        ReachableExtends(def, {}, from, targets[k]);
        reachable' := reachable' + {targets[k]};
        queue' := queue' + [targets[k]];
      }
      k := k + 1;
    }
  }

  ghost predicate Discovered(def: Definition, queue: seq<string>, reachable: set<string>) {
    && (forall id :: id in queue <==> id in reachable)
    && (forall i, j | 0 <= i < j < |queue| :: queue[i] != queue[j])
    && (forall id <- queue :: id in def.states && Reachable(def, {}, id))
  }

  // ---- the analysis ----

  ghost predicate OpenReached(def: Definition) {
    exists u :: u in def.states && Reachable(def, {}, u) && IsOpen(def.states[u])
  }

  ghost function Label(def: Definition, id: string): Reachability {
    if Reachable(def, {}, id) then Declared
    else if OpenReached(def) then Unknown
    else Unreachable
  }

  ghost function ExitOf(def: Definition, id: string): Exit
    requires id in def.states
  {
    var s := def.states[id];
    if s.dynamic || s.terminal != Some(false) || (exists t :: t in s.transitions && Follows(def, s, t)) then NoFinding
    else if id != def.initialState && Reachable(def, {}, id) && def.backKey.Some? && def.backKey.value !in s.localInputKeys then BackOnlyExit
    else DeadEnd
  }

  /** Some declared transition leads on: to END, or to a state that exists. */
  ghost predicate LeadsOn(def: Definition, id: string)
    requires id in def.states
  {
    exists t :: t in def.states[id].transitions
      && ((t.terminal && t.to.None?) || (!t.terminal && t.to.Some? && t.to.value in def.states))
  }

  /** Back navigation takes the state's caller back: there is a state to go back to, and the key is not an input of the state's own. */
  ghost predicate CanGoBack(def: Definition, id: string)
    requires id in def.states
  {
    && id != def.initialState && Label(def, id) == Declared
    && def.backKey.Some? && def.backKey.value !in def.states[id].localInputKeys
  }

  /** What the exit findings say: a state that is declared to go on, and whose behaviour is all declared, has nowhere to go. */
  lemma ExitMeans(def: Definition, id: string)
    requires id in def.states
    ensures var s := def.states[id];
      var stuck := !s.dynamic && s.terminal == Some(false) && !LeadsOn(def, id);
      && (ExitOf(def, id) == BackOnlyExit <==> stuck && CanGoBack(def, id))
      && (ExitOf(def, id) == DeadEnd <==> stuck && !CanGoBack(def, id))
      && (stuck ==> forall b :: !Edge(def, id, b))
  {
  }

  /** What the analysis promises about a definition. */
  ghost predicate Describes(def: Definition, r: Analysis) {
    && (r.valid <==> Clean(def))
    && (forall e :: e in r.errors <==> Found(def, e))
    && (r.complete <==> forall id <- def.states :: !def.states[id].dynamic && def.states[id].terminal.Some?)
    && |r.nodes| == |def.ids|
    && forall i | 0 <= i < |def.ids| :: IsNode(def, def.ids[i], r.nodes[i])
  }

  method Analyze(def: Definition) returns (r: Analysis)
    requires WellFormed(def)
    ensures Describes(def, r)
  {
    hide Reports, StateClean, Found, IsOutgoing, IsNode, Reachable;
    var errors: seq<Error> := [];
    if def.initialState !in def.states { errors := errors + [InitialState]; }
    if def.ids == [] { errors := errors + [NoStates]; }
    assert errors == [] <==> def.initialState in def.states by {
      assert def.initialState in def.states <==> def.initialState in def.ids;
    }
    var more, outgoing := Classify(def);
    errors := errors + more;
    var queue := Traverse(def, outgoing);
    var reachabilityUnknown := AnyOpen(def, queue);
    var complete := forall id <- def.ids :: !IsOpen(def.states[id]);
    var nodes := Describe(def, queue, reachabilityUnknown, outgoing);
    ErrorsFound(def, more, errors);
    r := Analysis(errors == [], complete, nodes, errors);
  }

  lemma ErrorsFound(def: Definition, more: seq<Error>, errors: seq<Error>)
    requires forall e :: e in more <==> exists id :: id in def.states && Reports(def, def.states[id], id, |def.states[id].transitions|, e)
    requires errors == (if def.initialState !in def.states then [InitialState] else []) + (if def.ids == [] then [NoStates] else []) + more
    ensures forall e :: e in errors <==> Found(def, e)
  {
    hide Splits;
  }

  predicate AnyOpen(def: Definition, queue: seq<string>) {
    exists id <- queue :: id in def.states && IsOpen(def.states[id])
  }

  lemma OpenFound(def: Definition, queue: seq<string>)
    requires forall id :: id in queue <==> Reachable(def, {}, id)
    ensures AnyOpen(def, queue) <==> OpenReached(def)
  {
  }

  method Describe(def: Definition, queue: seq<string>, reachabilityUnknown: bool, outgoing: map<string, Classified>) returns (nodes: seq<Node>)
    requires WellFormed(def) && (forall id :: id in queue <==> Reachable(def, {}, id)) && reachabilityUnknown == AnyOpen(def, queue)
    requires outgoing.Keys == def.states.Keys && forall id <- outgoing :: IsOutgoing(def, id, outgoing[id])
    ensures |nodes| == |def.ids| && forall i | 0 <= i < |def.ids| :: IsNode(def, def.ids[i], nodes[i])
  {
    OpenFound(def, queue);
    nodes := [];
    var i := 0;
    while i < |def.ids|
      invariant 0 <= i <= |def.ids| && |nodes| == i
      invariant forall j | 0 <= j < i :: IsNode(def, def.ids[j], nodes[j])
    {
      var id := def.ids[i];
      assert IsOutgoing(def, id, outgoing[id]);
      var node := DescribeState(def, id, id in queue, reachabilityUnknown, outgoing[id].exits);
      nodes := nodes + [node];
      i := i + 1;
    }
  }

  method DescribeState(def: Definition, id: string, reached: bool, reachabilityUnknown: bool, exits: bool) returns (node: Node)
    requires id in def.states && (reached <==> Reachable(def, {}, id)) && (reachabilityUnknown <==> OpenReached(def))
    requires exits <==> exists t :: t in def.states[id].transitions && Follows(def, def.states[id], t)
    ensures IsNode(def, id, node)
  {
    var s := def.states[id];
    var reachability := if reached then Declared else if reachabilityUnknown then Unknown else Unreachable;
    var exit := NoFinding;
    if !s.dynamic && s.terminal == Some(false) && !exits {
      exit := if id != def.initialState && reached && def.backKey.Some? && def.backKey.value !in s.localInputKeys then BackOnlyExit else DeadEnd;
    }
    node := Node(id, id == def.initialState, reachability, exit);
  }

  ghost predicate IsNode(def: Definition, id: string, node: Node) {
    id in def.states && node == Node(id, id == def.initialState, Label(def, id), ExitOf(def, id))
  }

  /** Extra edges may only leave open states. */
  ghost predicate OnlyFromOpen(def: Definition, extra: set<(string, string)>) {
    forall e <- extra :: e.0 in def.states && (def.states[e.0].dynamic || def.states[e.0].terminal.None?)
  }

  /**
    The label `unreachable` is exact: a state bears it if and only if no set of transitions added out of
    dynamic or unannotated states can make it reachable.
   */
  lemma UnreachableIsFinal(def: Definition, id: string)
    requires id in def.states
    ensures Label(def, id) == Unreachable <==> forall extra :: OnlyFromOpen(def, extra) ==> !Reachable(def, extra, id)
  {
    if Label(def, id) == Unreachable {
      forall extra | OnlyFromOpen(def, extra)
        ensures !Reachable(def, extra, id)
      {
        if Reachable(def, extra, id) {
          var p :| IsPath(def, extra, p) && p[|p| - 1] == id;
          DeclaredPath(def, extra, p);
        }
      }
    } else if Label(def, id) == Declared {
      assert OnlyFromOpen(def, {});
    } else {
      var u :| u in def.states && Reachable(def, {}, u) && IsOpen(def.states[u]);
      var extra := {(u, id)};
      var p :| IsPath(def, {}, p) && p[|p| - 1] == u;
      assert IsPath(def, extra, p) by {
        assert forall i | 0 < i < |p| :: Step(def, {}, p[i - 1], p[i]) && Step(def, extra, p[i - 1], p[i]);
      }
      assert Reachable(def, extra, u);
      ReachableExtends(def, extra, u, id);
      assert OnlyFromOpen(def, extra);
    }
  }

  /** While no open state is reached, every path uses declared steps only. */
  lemma {:induction false} DeclaredPath(def: Definition, extra: set<(string, string)>, p: seq<string>)
    requires OnlyFromOpen(def, extra) && IsPath(def, extra, p)
    requires !OpenReached(def)
    ensures Reachable(def, {}, p[|p| - 1])
    decreases |p|
  {
    if |p| == 1 {
      assert IsPath(def, {}, p);
    } else {
      var init := p[..|p| - 1];
      assert IsPath(def, extra, init);
      DeclaredPath(def, extra, init);
      assert Step(def, extra, p[|p| - 2], p[|p| - 1]);
      ReachableExtends(def, {}, p[|p| - 2], p[|p| - 1]);
    }
  }

  /** The declared states are the least set that contains the entry point and is closed under declared steps. */
  lemma DeclaredIsLeast(def: Definition, closed: set<string>, id: string)
    requires def.initialState in closed && forall a, b | a in closed && Edge(def, a, b) :: b in closed
    ensures Label(def, id) == Declared ==> id in closed
    ensures forall b :: Label(def, id) == Declared && Edge(def, id, b) ==> Label(def, b) == Declared
    ensures def.initialState in def.states ==> Label(def, def.initialState) == Declared
  {
    if Reachable(def, {}, id) {
      var p :| IsPath(def, {}, p) && p[|p| - 1] == id;
      ClosedContainsPath(def, {}, closed, p);
    }
    forall b | Label(def, id) == Declared && Edge(def, id, b)
      ensures Label(def, b) == Declared
    {
      ReachableExtends(def, {}, id, b);
    }
    if def.initialState in def.states {
      assert IsPath(def, {}, [def.initialState]) && [def.initialState][0] == def.initialState;
    }
  }
}
