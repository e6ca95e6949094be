/**
  Flows built with the SDK, without custom handlers: what the compiler emits for a state (lib/sdk/compiler.js),
  as a runtime handler and as declared transitions, and how the machine runs it (lib/USSDStateMachine.js).
 */
module SdkFlow {
  import opened Wrappers
  import F = FlowAnalysis

  /** An input route; `target` and `response` are None when unset. */
  datatype Route = Route(input: string, target: Option<string>, isEnd: bool, response: Option<string>)

  /** Extra metadata an author attaches to a state; flags left None keep the compiler's own. */
  datatype Annotation = Annotation(terminal: Option<bool>, dynamic: Option<bool>, transitions: seq<F.Transition>)

  const PLAIN := Annotation(None, None, [])

  datatype StateBuilder = StateBuilder(message: Option<string>, routes: seq<Route>, next: Option<string>, isEnd: bool,
                                       hasValidator: bool, annotation: Annotation)

  /** The builder graph: states in declaration order. */
  datatype App = App(ids: seq<string>, states: map<string, StateBuilder>, initial: string, backNavigation: bool, maxHistory: nat)

  ghost predicate WellFormed(app: App) {
    && (forall id :: id in app.ids <==> id in app.states)
    && (forall i, j | 0 <= i < j < |app.ids| :: app.ids[i] != app.ids[j])
  }

  // ---- compile ----

  const WILDCARD := "*"
  const BACK := "0"

  function RouteTransition(id: string, r: Route): F.Transition {
    if r.isEnd then F.Transition(Some(r.input), None, true)
    else F.Transition(Some(r.input), Some(if r.target.Some? then r.target.value else id), false)
  }

  function TransitionsOf(id: string, sb: StateBuilder): seq<F.Transition> {
    seq(|sb.routes|, i requires 0 <= i < |sb.routes| => RouteTransition(id, sb.routes[i]))
    + (if sb.next.Some? then [F.Transition(None, sb.next, false)] else [])
    + sb.annotation.transitions
  }

  function LocalKeys(routes: seq<Route>): seq<string> {
    if routes == [] then []
    else (if routes[0].input == WILDCARD then [] else [routes[0].input]) + LocalKeys(routes[1..])
  }

  function Metadata(id: string, sb: StateBuilder): F.State {
    var isTerminal := sb.isEnd || (sb.message.Some? && "END " <= sb.message.value);
    F.State(Some(if sb.annotation.terminal.Some? then sb.annotation.terminal.value else isTerminal),
            sb.annotation.dynamic.Some? && sb.annotation.dynamic.value,
            TransitionsOf(id, sb), LocalKeys(sb.routes))
  }

  function DefinitionOf(app: App): F.Definition {
    F.Definition(app.ids, map id | id in app.states :: Metadata(id, app.states[id]), app.initial,
                 if app.backNavigation then Some(BACK) else None)
  }

  /** compile() refuses an empty builder, an unknown initial state, and a state that routes one input twice. */
  ghost predicate Compiles(app: App) {
    && WellFormed(app) && app.ids != [] && app.initial in app.states
    && forall id <- app.states :: forall i, j | 0 <= i < j < |LocalKeys(app.states[id].routes)| ::
         LocalKeys(app.states[id].routes)[i] != LocalKeys(app.states[id].routes)[j]
  }

  // ---- the compiled handler ----

  predicate HasPrefix(text: string) { "CON " <= text || "END " <= text }

  function AddPrefix(text: string, isEnd: bool): string {
    if HasPrefix(text) then text else if isEnd then "END " + text else "CON " + text
  }

  function FindRoute(routes: seq<Route>, input: string): Option<Route> {
    if routes == [] then None
    else if routes[0].input == input then Some(routes[0])
    else FindRoute(routes[1..], input)
  }

  /** Exact matches first, then the wildcard; an empty input matches nothing. */
  function Match(routes: seq<Route>, input: string): Option<Route> {
    if input == "" then None
    else
      var exact := FindRoute(routes, input);
      if exact.Some? then exact else FindRoute(routes, WILDCARD)
  }

  datatype Reply = Reply(response: string, next: Option<string>)

  datatype Draft = Draft(response: Option<string>, next: Option<string>, isEnd: bool, resolve: bool)

  /** Step 2 of the handler: what the matched route, or its absence, decides. */
  function Routed(sb: StateBuilder, input: string): Draft {
    var start := Draft(None, if input != "" then sb.next else None, sb.isEnd, false);
    var route := Match(sb.routes, input);
    if route.None? then start
    else
      var r := route.value;
      if r.isEnd then Draft(r.response, None, true, false)
      else if r.target.Some? then Draft(r.response, r.target, false, r.response.None?)
      else if r.response.Some? then Draft(r.response, None, false, false)
      else start
  }

  /** Steps 4 to 6: show the target's own screen unless the route brought a text, then prefix it. */
  function Handle(app: App, sb: StateBuilder, input: string): Reply {
    var d := Routed(sb, input);
    var d' := if d.next.Some? && (d.resolve || d.response.None? || d.response == sb.message) && d.next.value in app.states then
        var target := app.states[d.next.value];
        d.(response := Some(if target.message.Some? then target.message.value else ""), isEnd := target.isEnd)
      else d;
    var text := if d'.response.Some? then d'.response.value else if sb.message.Some? then sb.message.value else "";
    Reply(AddPrefix(text, d'.isEnd), d'.next)
  }

  // ---- the machine ----

  /** The stored session of one user; `completed` is the recorded terminal response. */
  datatype Session = Session(state: Option<string>, history: seq<string>, completed: bool)

  const NEW_SESSION := Session(None, [], false)

  /** What the author's validator does with an input: pass it, refuse it, or throw something else. */
  datatype Check = Passes | Refuses | Throws

  /** One request: `tooLong` when the input exceeds the configured length. */
  datatype Request = Request(input: string, tooLong: bool, check: Check)

  function Pushed(app: App, history: seq<string>, id: string): seq<string> {
    var longer := history + [id];
    if app.maxHistory > 0 && |longer| > app.maxHistory then longer[|longer| - app.maxHistory..] else longer
  }

  /**
    The handler's reply applied to the session; `existed` says whether a state was stored before the request.
    A non-terminal reply to an unknown state throws and stores nothing.
   */
  function ApplyReply(app: App, s: Session, existed: bool, current: string, reply: Reply): Session {
    var isEnd := "END " <= reply.response;
    if reply.next.Some? && (!isEnd || reply.next.value in app.states) then
      if reply.next.value !in app.states then s
      else
        Session(reply.next,
                if reply.next.value != current && app.backNavigation then Pushed(app, s.history, current) else s.history,
                isEnd)
    else if !isEnd || !existed then Session(Some(current), s.history, isEnd)
    else s.(completed := true)
  }

  /** _processInputUnlocked, for one session of one flow version. */
  function Process(app: App, s: Session, r: Request): Session {
    if r.tooLong || s.completed then s
    else
      var current := if s.state.Some? then s.state.value else app.initial;
      if current !in app.states then s
      else
        var sb := app.states[current];
        var back := app.backNavigation && r.input == BACK && BACK !in LocalKeys(sb.routes) && s.history != [];
        // goBack pops the history and stores what it popped
        var s' := if back then Session(Some(s.history[|s.history| - 1]), s.history[..|s.history| - 1], false) else s;
        if back && s'.state.value in app.states then
          // the previous state's screen is shown again
          s'.(completed := "END " <= Handle(app, app.states[s'.state.value], "").response)
        else if sb.hasValidator && r.check == Refuses then s'.(state := Some(current))
        else if sb.hasValidator && r.check == Throws then s'
        else ApplyReply(app, s', s.state.Some?, current, Handle(app, sb, r.input))
  }

  /** A request, or the session's expiry. */
  datatype Happening = Asks(request: Request) | Expires

  function After(app: App, s: Session, h: Happening): Session {
    match h
    case Asks(r) => Process(app, s, r)
    case Expires => NEW_SESSION
  }

  function RunSession(app: App, s: Session, happenings: seq<Happening>): Session
    decreases |happenings|
  {
    if happenings == [] then s else RunSession(app, After(app, s, happenings[0]), happenings[1..])
  }

  // ---- the handler and the machine, step by step ----

  /** The handler that buildHandler returns, for a state without a custom handler. */
  method RunHandler(app: App, sb: StateBuilder, input: string) returns (reply: Reply)
    ensures reply == Handle(app, sb, input)
  {
    var response: Option<string> := None;
    var next: Option<string> := None;
    if input != "" { next := sb.next; }
    var isEnd := sb.isEnd;
    var resolve := false;
    var route := Match(sb.routes, input);
    if route.Some? {
      if route.value.isEnd {
        response, next, isEnd := route.value.response, None, true;
      } else if route.value.target.Some? {
        next, isEnd := route.value.target, false;
        if route.value.response.Some? { response := route.value.response; } else { resolve := true; }
      } else if route.value.response.Some? {
        response, next, isEnd := route.value.response, None, false;
      }
    }
    if next.Some? && (resolve || response.None? || response == sb.message) {
      if next.value in app.states {
        var target := app.states[next.value];
        response := Some(if target.message.Some? then target.message.value else "");
        isEnd := target.isEnd;
      }
    }
    if response.None? { response := Some(if sb.message.Some? then sb.message.value else ""); }
    reply := Reply(AddPrefix(response.value, isEnd), next);
  }

  /** The storage of one session, as the machine writes it. */
  class StoredSession {
    const app: App
    var state: Option<string>
    var history: seq<string>
    var completed: bool

    ghost function Stored(): Session
      reads this
    {
      Session(state, history, completed)
    }

    constructor (app: App)
      ensures this.app == app && Stored() == NEW_SESSION
    {
      this.app := app;
      state, history, completed := None, [], false;
    }

    /** pushStateHistory, bounded. */
    method PushHistory(id: string)
      modifies this`history
      ensures history == Pushed(app, old(history), id)
    {
      history := history + [id];
      if app.maxHistory > 0 && |history| > app.maxHistory {
        history := history[|history| - app.maxHistory..];
      }
    }

    /** goBack: pop the history and store what was popped. */
    method GoBack() returns (previous: Option<string>)
      requires app.backNavigation
      modifies this`state, this`history
      ensures previous.Some? <==> old(history) != []
      ensures previous.Some? ==> old(history) == history + [previous.value] && state == previous
      ensures previous.None? ==> history == old(history) && state == old(state)
    {
      if history == [] { return None; }
      previous := Some(history[|history| - 1]);
      history := history[..|history| - 1];
      state := previous;
    }

    /** One input, once the session's lock is held. */
    method ProcessInput(r: Request)
      modifies this
      ensures Stored() == Process(app, old(Stored()), r)
    {
      if r.tooLong || completed { return; }
      var existed := state.Some?;
      var current := if existed then state.value else app.initial;
      if current !in app.states { return; }
      var sb := app.states[current];
      if app.backNavigation && r.input == BACK && BACK !in LocalKeys(sb.routes) {
        var previous := GoBack();
        if previous.Some? && previous.value in app.states {
          var screen := RunHandler(app, app.states[previous.value], "");
          if "END " <= screen.response { completed := true; }
          return;
        }
      }
      if sb.hasValidator && r.check == Refuses {
        state := Some(current);
        return;
      }
      if sb.hasValidator && r.check == Throws { return; }
      var reply := RunHandler(app, sb, r.input);
      Answer(existed, current, reply);
    }

    /** The transition, and the completion record of a terminal response. */
    method Answer(existed: bool, current: string, reply: Reply)
      requires !completed
      modifies this
      ensures Stored() == ApplyReply(app, old(Stored()), existed, current, reply)
    {
      var isEnd := "END " <= reply.response;
      if reply.next.Some? && (!isEnd || reply.next.value in app.states) {
        if reply.next.value !in app.states { return; }
        if reply.next.value != current && app.backNavigation { PushHistory(current); }
        state := reply.next;
      } else if !isEnd || !existed {
        state := Some(current);
      }
      if isEnd { completed := true; }
    }
  }

  // ---- what the handler's parts do ----

  /** An answer carries one of the two prefixes: its own where it has one, otherwise END where the state ends and CON where it goes on. */
  lemma PrefixIs(text: string, isEnd: bool)
    ensures var r := AddPrefix(text, isEnd);
      && HasPrefix(r)
      && (HasPrefix(text) ==> r == text)
      && (!HasPrefix(text) ==> |r| == |text| + 4 && r[4..] == text && ("END " <= r <==> isEnd) && ("CON " <= r <==> !isEnd))
  {
    var e, c := "END " + text, "CON " + text;
    assert e[..4] == "END " && c[..4] == "CON " && e[0] == 'E' && c[0] == 'C';
    assert "END "[0] == 'E' && "CON "[0] == 'C';
  }

  /** The first route that answers to an input. */
  ghost predicate IsFirst(routes: seq<Route>, input: string, r: Route) {
    exists i :: 0 <= i < |routes| && routes[i] == r && r.input == input && forall j | 0 <= j < i :: routes[j].input != input
  }

  lemma {:induction false} FirstFound(routes: seq<Route>, input: string)
    ensures FindRoute(routes, input).None? <==> forall r <- routes :: r.input != input
    ensures FindRoute(routes, input).Some? ==> IsFirst(routes, input, FindRoute(routes, input).value)
  {
    if routes != [] {
      FirstFound(routes[1..], input);
      if routes[0].input == input {
        assert IsFirst(routes, input, routes[0]);
      } else if FindRoute(routes[1..], input).Some? {
        var r := FindRoute(routes[1..], input).value;
        var i :| 0 <= i < |routes[1..]| && routes[1..][i] == r && forall j | 0 <= j < i :: routes[1..][j].input != input;
        assert routes[i + 1] == r;
        assert forall j | 0 < j < i + 1 :: routes[j] == routes[1..][j - 1];
        assert r in routes;
      }
      assert routes == [routes[0]] + routes[1..];
    }
  }

  /** An exact route beats the wildcard, the wildcard takes what no route names, and an empty input is nobody's. */
  lemma ExactBeatsWildcard(routes: seq<Route>, input: string)
    ensures input == "" ==> Match(routes, input).None?
    ensures input != "" && (exists r :: r in routes && r.input == input) ==>
      Match(routes, input).Some? && IsFirst(routes, input, Match(routes, input).value)
    ensures input != "" && (forall r <- routes :: r.input != input) && (exists r :: r in routes && r.input == WILDCARD) ==>
      Match(routes, input).Some? && IsFirst(routes, WILDCARD, Match(routes, input).value)
    ensures (forall r <- routes :: r.input != input && r.input != WILDCARD) ==> Match(routes, input).None?
  {
    FirstFound(routes, input);
    FirstFound(routes, WILDCARD);
  }

  /** What the state answers to an input: by a route that ends, one that leads on, one that only speaks, or none. */
  lemma AnswerIs(app: App, sb: StateBuilder, input: string)
    ensures var reply := Handle(app, sb, input);
      var own := if sb.message.Some? then sb.message.value else "";
      var route := Match(sb.routes, input);
      && HasPrefix(reply.response)
      && (route.Some? && route.value.isEnd ==>
            reply == Reply(AddPrefix(if route.value.response.Some? then route.value.response.value else own, true), None))
      && (route.Some? && !route.value.isEnd && route.value.target.Some? ==> reply.next == route.value.target)
      && (route.Some? && !route.value.isEnd && route.value.target.None? && route.value.response.Some? ==>
            reply == Reply(AddPrefix(route.value.response.value, false), None))
      && (route.None? || (!route.value.isEnd && route.value.target.None? && route.value.response.None?) ==>
            reply.next == if input == "" then None else sb.next)
      && (reply.next.None? && (route.None? || (!route.value.isEnd && route.value.response.None?)) ==> reply.response == AddPrefix(own, sb.isEnd))
  {
    var d := Routed(sb, input);
    PrefixIs(if d.response.Some? then d.response.value else if sb.message.Some? then sb.message.value else "", d.isEnd);
    if d.next.Some? && d.next.value in app.states {
      var target := app.states[d.next.value];
      PrefixIs(if target.message.Some? then target.message.value else "", target.isEnd);
    }
  }

  /**
    What a move shows: the screen of the state it leads to, as that state would open, unless the route brings a text
    of its own, which is shown as one that goes on.
   */
  lemma MovesShow(app: App, sb: StateBuilder, input: string)
    requires Handle(app, sb, input).next.Some?
    ensures var reply := Handle(app, sb, input);
      var route := Match(sb.routes, input);
      var goes := route.Some? && !route.value.isEnd && route.value.target.Some?;
      var text := if goes && route.value.response.Some? then route.value.response else sb.message;
      var known := reply.next.value in app.states;
      && (known && text == sb.message ==>
            var target := app.states[reply.next.value];
            reply.response == AddPrefix(if target.message.Some? then target.message.value else "", target.isEnd))
      && (!known || text != sb.message ==>
            reply.response == AddPrefix(if text.Some? then text.value else "", !goes && sb.isEnd))
  {
  }

  /** The history keeps its most recent states, in order, as many as its limit allows. */
  lemma MostRecentKept(app: App, history: seq<string>, id: string)
    ensures var kept := Pushed(app, history, id);
      && (app.maxHistory == 0 || |history| < app.maxHistory ==> kept == history + [id])
      && (app.maxHistory > 0 && |history| >= app.maxHistory ==>
            |kept| == app.maxHistory && kept == (history + [id])[|history| + 1 - app.maxHistory..])
      && kept != [] && kept[|kept| - 1] == id
  {
  }

  /** Going back undoes a move: the state before it is stored again, and the history is what it was, up to its limit. */
  lemma BackUndoes(app: App, s: Session, r: Request, back: Request)
    requires app.backNavigation && s.state.Some? && s.state.value in app.states && !s.completed
    requires s.history == [] || r.input != BACK
    requires var s' := Process(app, s, r); s'.state.Some? && s'.state != s.state && s'.state.value in app.states && !s'.completed
    requires back.input == BACK && !back.tooLong && BACK !in LocalKeys(app.states[Process(app, s, r).state.value].routes)
    ensures var s'' := Process(app, Process(app, s, r), back);
      && s''.state == s.state
      && (app.maxHistory == 0 || |s.history| < app.maxHistory ==> s''.history == s.history)
  {
    var current := s.state.value;
    var s' := Process(app, s, r);
    MostRecentKept(app, s.history, current);
    assert s'.history == Pushed(app, s.history, current);
    hide Handle;
  }

  // ---- what one request stores ----

  /** The inputs the compiler reserves for a state are those its routes name, the wildcard aside. */
  lemma {:induction false} LocalKeysAre(routes: seq<Route>, key: string)
    ensures key in LocalKeys(routes) <==> key != "*" && exists r <- routes :: r.input == key
  {
    if routes != [] {
      LocalKeysAre(routes[1..], key);
      assert routes == [routes[0]] + routes[1..];
    }
  }

  /** Every state the session holds is one of the flow's. */
  ghost predicate Known(app: App, s: Session) {
    (s.state.Some? ==> s.state.value in app.states) && forall id <- s.history :: id in app.states
  }

  function Current(app: App, s: Session): string { if s.state.Some? then s.state.value else app.initial }

  /** The back key goes back wherever no route of the state names it and there is a state to return to. */
  ghost predicate GoesBack(app: App, s: Session, r: Request) {
    && app.backNavigation && r.input == "0" && s.history != []
    && Current(app, s) in app.states && forall route <- app.states[Current(app, s)].routes :: route.input != "0"
  }

  /**
    What a request stores. Nothing when the input is too long or the session is completed; the previous state when it
    goes back; the same state when the validator refuses it; and otherwise the state its answer leads to, with the state
    it left on the history. The session is completed exactly by an answer that starts with END.
   */
  lemma WhatIsStored(app: App, s: Session, r: Request)
    requires app.initial in app.states && Known(app, s)
    ensures Known(app, Process(app, s, r))
    ensures var s' := Process(app, s, r);
      var sb := app.states[Current(app, s)];
      var reply := Handle(app, sb, r.input);
      && (r.tooLong || s.completed ==> s' == s)
      && (!r.tooLong && !s.completed ==>
            && (GoesBack(app, s, r) ==>
                  var last := s.history[|s.history| - 1];
                  s' == Session(Some(last), s.history[..|s.history| - 1], "END " <= Handle(app, app.states[last], "").response))
            && (!GoesBack(app, s, r) && sb.hasValidator && r.check == Refuses ==> s' == s.(state := Some(Current(app, s))))
            && (!GoesBack(app, s, r) && sb.hasValidator && r.check == Throws ==> s' == s)
            && (!GoesBack(app, s, r) && (!sb.hasValidator || r.check == Passes) ==> StoresAnswer(app, s, reply, s')))
  {
    LocalKeysAre(app.states[Current(app, s)].routes, "0");
    hide Handle;
  }

  ghost predicate StoresAnswer(app: App, s: Session, reply: Reply, s': Session) {
    var current := Current(app, s);
    var leads := reply.next.Some? && reply.next.value in app.states;
    && (s'.completed <==> "END " <= reply.response)
    && (leads ==> s'.state == reply.next)
    && (!leads && (reply.next.None? || "END " <= reply.response) ==> s'.state == Some(current))
    && (!leads && reply.next.Some? && !("END " <= reply.response) ==> s' == s)
    && (leads && app.backNavigation && reply.next != Some(current) ==> s'.history == Pushed(app, s.history, current))
    && (!leads || !app.backNavigation || reply.next == Some(current) ==> s'.history == s.history)
  }

  /** A completed session answers no more, whatever is asked, until it expires. */
  lemma {:induction false} CompletedStays(app: App, s: Session, happenings: seq<Happening>)
    requires s.completed && forall h <- happenings :: h.Asks?
    ensures RunSession(app, s, happenings) == s
    decreases |happenings|
  {
    if happenings != [] {
      assert happenings[0].Asks?;
      CompletedStays(app, s, happenings[1..]);
    }
  }

  /** Expiry forgets everything: what follows depends on nothing before it. */
  lemma {:induction false} ExpiryForgets(app: App, s: Session, before: seq<Happening>, after: seq<Happening>)
    ensures RunSession(app, s, before + [Expires] + after) == RunSession(app, Session(None, [], false), after)
    decreases |before|
  {
    var all := before + [Expires] + after;
    if before == [] {
      assert all[0] == Expires && all[1..] == after;
    } else {
      assert all[0] == before[0] && all[1..] == before[1..] + [Expires] + after;
      ExpiryForgets(app, After(app, s, before[0]), before[1..], after);
    }
  }

  /** What the compiler declares of a state: annotations win; otherwise it is static, and terminal exactly if it opens with END or was marked so. */
  lemma FlagsAre(app: App, id: string, sb: StateBuilder)
    ensures var d := Metadata(id, sb);
      var opening := Handle(app, sb, "").response;
      && d.terminal.Some? && (d.dynamic <==> sb.annotation.dynamic == Some(true))
      && (sb.annotation.terminal.Some? ==> d.terminal == sb.annotation.terminal)
      && (sb.annotation.terminal.None? ==> ("END " <= opening <==> d.terminal == Some(true) && !(sb.message.Some? && "CON " <= sb.message.value)))
      && (sb.annotation.terminal.None? && d.terminal == Some(true) && !("END " <= opening) ==> sb.isEnd)
  {
    PrefixIs(if sb.message.Some? then sb.message.value else "", sb.isEnd);
    assert "END "[0] == 'E' && "CON "[0] == 'C';
  }

  lemma {:induction false} KeptKey(routes: seq<Route>, j: nat, i: nat)
    requires j < i < |routes| && routes[j].input == routes[i].input != WILDCARD
    ensures exists a, b :: 0 <= a < b < |LocalKeys(routes)| && LocalKeys(routes)[a] == LocalKeys(routes)[b]
  {
    var keys, rest := LocalKeys(routes), LocalKeys(routes[1..]);
    var shift := |keys| - |rest|;
    if j == 0 {
      LocalKeysAre(routes[1..], routes[0].input);
      assert routes[1..][i - 1].input == routes[0].input;
      var b :| 0 <= b < |rest| && rest[b] == routes[0].input;
      assert keys[0] == keys[b + 1];
    } else {
      KeptKey(routes[1..], j - 1, i - 1);
      var a, b :| 0 <= a < b < |rest| && rest[a] == rest[b];
      assert keys[a + shift] == keys[b + shift];
    }
  }

  /** In a compiled flow every route is taken on its input, and does what its declared transition says. */
  lemma RoutesDoAsDeclared(app: App, id: string, i: nat)
    requires Compiles(app) && id in app.states && i < |app.states[id].routes|
    requires app.states[id].routes[i].input != "" && app.states[id].routes[i].input != WILDCARD
    ensures var sb := app.states[id];
      var r := sb.routes[i];
      var t := Metadata(id, sb).transitions[i];
      var reply := Handle(app, sb, r.input);
      && Match(sb.routes, r.input) == Some(r) && t.input == Some(r.input) && (t.terminal <==> r.isEnd)
      && (t.terminal ==> t.to.None? && reply.next.None? && (r.response.Some? && !HasPrefix(r.response.value) ==> "END " <= reply.response))
      && (!t.terminal && r.target.Some? ==> reply.next == t.to)
      && (!t.terminal && r.target.None? && r.response.Some? ==> reply.next.None? && t.to == Some(id))
  {
    var routes := app.states[id].routes;
    var input := routes[i].input;
    FirstFound(routes, input);
    assert routes[i] in routes;
    var j :| 0 <= j < |routes| && routes[j] == FindRoute(routes, input).value && routes[j].input == input && forall k | 0 <= k < j :: routes[k].input != input;
    if j < i { KeptKey(routes, j, i); }
    assert TransitionsOf(id, app.states[id])[i] == RouteTransition(id, routes[i]);
    if routes[i].isEnd && routes[i].response.Some? { PrefixIs(routes[i].response.value, true); }
  }

  // ---- the analysis covers every run ----

  lemma {:induction false} FoundRoute(routes: seq<Route>, input: string)
    requires FindRoute(routes, input).Some?
    ensures FindRoute(routes, input).value in routes
  {
    if routes[0].input != input { FoundRoute(routes[1..], input); }
  }

  /** A handler only moves along a transition its state declares. */
  lemma HandlerMovesAreDeclared(app: App, id: string, input: string)
    requires id in app.states && Handle(app, app.states[id], input).next.Some?
    ensures exists t :: t in Metadata(id, app.states[id]).transitions && !t.terminal && t.to == Handle(app, app.states[id], input).next
  {
    var sb := app.states[id];
    var next := Handle(app, sb, input).next;
    var ts := TransitionsOf(id, sb);
    var route := Match(sb.routes, input);
    if route.Some? && !route.value.isEnd && route.value.target.Some? {
      if FindRoute(sb.routes, input).Some? { FoundRoute(sb.routes, input); } else { FoundRoute(sb.routes, WILDCARD); }
      var i :| 0 <= i < |sb.routes| && sb.routes[i] == route.value;
      assert ts[i] == RouteTransition(id, route.value);
      assert ts[i] in ts;
    } else {
      assert ts[|sb.routes|] == F.Transition(None, sb.next, false);
      assert ts[|sb.routes|] in ts;
    }
  }

  /** In a flow without errors every declared move is one the analysis follows. */
  lemma MovesAreEdges(app: App, id: string, input: string)
    requires WellFormed(app) && F.Clean(DefinitionOf(app)) && id in app.states && Handle(app, app.states[id], input).next.Some?
    ensures F.Edge(DefinitionOf(app), id, Handle(app, app.states[id], input).next.value)
  {
    var def := DefinitionOf(app);
    HandlerMovesAreDeclared(app, id, input);
    var t :| t in Metadata(id, app.states[id]).transitions && !t.terminal && t.to == Handle(app, app.states[id], input).next;
    assert F.StateClean(def, def.states[id]);
    assert F.TransitionClean(def, def.states[id], t);
    assert F.Follows(def, def.states[id], t);
  }

  /** The stored state and everything back navigation can return to are labelled `declared`. */
  ghost predicate Covered(app: App, s: Session) {
    var def := DefinitionOf(app);
    && (s.state.Some? ==> s.state.value in app.states && F.Label(def, s.state.value) == F.Declared)
    && (forall id <- s.history :: id in app.states && F.Label(def, id) == F.Declared)
  }

  lemma InitialIsDeclared(app: App)
    requires app.initial in app.states
    ensures F.Label(DefinitionOf(app), app.initial) == F.Declared
  {
    F.InitialReachable(DefinitionOf(app));
  }

  lemma ReplyKeeps(app: App, s: Session, existed: bool, current: string, input: string)
    requires WellFormed(app) && F.Clean(DefinitionOf(app)) && Covered(app, s)
    requires current in app.states && F.Label(DefinitionOf(app), current) == F.Declared
    ensures Covered(app, ApplyReply(app, s, existed, current, Handle(app, app.states[current], input)))
  {
    var def := DefinitionOf(app);
    var reply := Handle(app, app.states[current], input);
    if reply.next.Some? {
      MovesAreEdges(app, current, input);
      F.ReachableExtends(def, {}, current, reply.next.value);
    }
  }

  lemma ProcessKeeps(app: App, s: Session, r: Request)
    requires WellFormed(app) && app.initial in app.states && F.Clean(DefinitionOf(app)) && Covered(app, s)
    ensures Covered(app, Process(app, s, r))
  {
    InitialIsDeclared(app);
    var current := if s.state.Some? then s.state.value else app.initial;
    ReplyKeeps(app, s, s.state.Some?, current, r.input);
  }

  /**
    For a compiled flow whose analysis is valid, every state the machine ever stores, over any sequence of
    inputs, refusals, back navigation and expiries, is one the analysis labels `declared`.
   */
  lemma {:induction false} StoredStatesAreDeclared(app: App, s: Session, happenings: seq<Happening>)
    requires Compiles(app) && F.Clean(DefinitionOf(app)) && Covered(app, s)
    ensures Covered(app, RunSession(app, s, happenings))
    decreases |happenings|
  {
    if happenings != [] {
      if happenings[0].Asks? { ProcessKeeps(app, s, happenings[0].request); }
      StoredStatesAreDeclared(app, After(app, s, happenings[0]), happenings[1..]);
    }
  }

  /** The same in the terms of the analysis: the node of the stored state carries the label. */
  lemma AnalysisCoversRuns(app: App, analysis: F.Analysis, happenings: seq<Happening>, i: nat)
    requires Compiles(app) && F.Describes(DefinitionOf(app), analysis) && analysis.valid
    ensures var s := RunSession(app, NEW_SESSION, happenings);
      && (s.state.Some? ==> s.state.value in app.ids)
      && (i < |app.ids| && s.state == Some(app.ids[i]) ==> analysis.nodes[i].id == app.ids[i] && analysis.nodes[i].reachability == F.Declared)
  {
    StoredStatesAreDeclared(app, NEW_SESSION, happenings);
    var def := DefinitionOf(app);
    if i < |app.ids| {
      assert F.IsNode(def, def.ids[i], analysis.nodes[i]);
    }
  }

  /**
    What an exit finding means to a caller: from a state without an exit no input but back navigation leads to
    another state.
   */
  lemma StuckStays(app: App, s: Session, r: Request)
    requires WellFormed(app) && F.Clean(DefinitionOf(app)) && s.state.Some? && s.state.value in app.states
    requires F.ExitOf(DefinitionOf(app), s.state.value) != F.NoFinding
    requires !(app.backNavigation && r.input == BACK)
    ensures Process(app, s, r).state == s.state
  {
    var current := s.state.value;
    if Handle(app, app.states[current], r.input).next.Some? {
      MovesAreEdges(app, current, r.input);
    }
    hide Handle;
  }

  /** A terminal state that still declares where to go next. */
  const GOODBYE := App(["A", "B"],
    map["A" := StateBuilder(Some("Bye"), [], Some("B"), true, false, PLAIN), "B" := StateBuilder(Some("Again"), [], None, false, false, PLAIN)],
    "A", true, 20)

  /** Validity is needed: a terminal state with a next state moves to a state that no declared path reaches. */
  lemma TerminalStateEscapes()
    ensures !F.Clean(DefinitionOf(GOODBYE)) && Compiles(GOODBYE)
    ensures Process(GOODBYE, NEW_SESSION, Request("1", false, Passes)).state == Some("B")
    ensures F.Label(DefinitionOf(GOODBYE), "B") == F.Unreachable
  {
    hide Process, Compiles, F.Clean, F.Label, DefinitionOf;
    EscapeRuns();
    NotClean();
    NotReached();
  }

  lemma EscapeRuns()
    ensures Compiles(GOODBYE) && Process(GOODBYE, NEW_SESSION, Request("1", false, Passes)).state == Some("B")
  {
    assert GOODBYE.ids[0] == "A" && GOODBYE.ids[1] == "B" && "A" != "B" by { assert "A"[0] == 'A' && "B"[0] == 'B'; }
  }

  lemma NotReached()
    ensures F.Label(DefinitionOf(GOODBYE), "B") == F.Unreachable
  {
    TerminalHasNoEdges();
    var def := DefinitionOf(GOODBYE);
    assert "A" != "B" by { assert "A"[0] == 'A' && "B"[0] == 'B'; }
    if F.Reachable(def, {}, "B") {
      var p :| F.IsPath(def, {}, p) && p[|p| - 1] == "B";
      F.ClosedContainsPath(def, {}, {"A"}, p);
    }
    assert !F.OpenReached(def);
  }

  lemma NotClean()
    ensures !F.Clean(DefinitionOf(GOODBYE))
  {
    var def := DefinitionOf(GOODBYE);
    var t := F.Transition(None, Some("B"), false);
    assert TransitionsOf("A", GOODBYE.states["A"])[0] == t && t in def.states["A"].transitions;
    assert !F.TransitionClean(def, def.states["A"], t);
    assert !F.StateClean(def, def.states["A"]);
  }

  lemma TerminalHasNoEdges()
    ensures "A" in DefinitionOf(GOODBYE).states && DefinitionOf(GOODBYE).states["A"].terminal == Some(true)
    ensures forall x :: !F.Edge(DefinitionOf(GOODBYE), "A", x)
  {
  }
}
