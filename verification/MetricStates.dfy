/**
  Buckets by flow state (lib/MetricReporting.js:75-97): the turns that met a state, the sessions that
  reached it and the sessions whose last known state it is.
 */
module MetricStates {
  import opened Wrappers
  import opened MetricEvents
  import opened MetricGroups
  import opened MetricBuckets
  import opened Partition

  /** A session's detail with the row in which it exits. */
  datatype Exit = Exit(detail: Detail, key: StateKey)

  datatype StateBucket = StateBucket(turns: seq<Event>, reached: set<Id>, exits: seq<Exit>)

  function MetState(t: Event): StateKey {
    StateKey(t.body.flowVersion, if t.body.fact.Turn? then t.body.fact.previousState else None)
  }

  function ExitKey(x: Exit): StateKey { x.key }

  /** The known states a turn touches. */
  function Visits(t: Event): set<StateKey> {
    if t.body.fact.Turn? then
      (if t.body.fact.previousState.Some? then {StateKey(t.body.flowVersion, t.body.fact.previousState)} else {})
      + (if t.body.fact.nextState.Some? then {StateKey(t.body.flowVersion, t.body.fact.nextState)} else {})
    else {}
  }

  ghost function ReachedBy(turns: seq<Event>, started: set<Id>, k: StateKey): set<Id> {
    set t | t in turns && t.body.sessionId in started && k in Visits(t) :: t.body.sessionId
  }

  function SessionsOf(exits: seq<Exit>): set<Id> { set x | x in exits :: x.detail.sessionId }

  /** What the bucket of a state must hold. */
  ghost function StateOf(turns: seq<Event>, started: set<Id>, exits: seq<Exit>, k: StateKey): StateBucket {
    StateBucket(Pick(turns, MetState, k), ReachedBy(turns, started, k) + SessionsOf(Pick(exits, ExitKey, k)), Pick(exits, ExitKey, k))
  }

  ghost function TurnStates(t: Event, started: set<Id>): set<StateKey> {
    {MetState(t)} + (if t.body.sessionId in started then Visits(t) else {})
  }

  ghost function States(turns: seq<Event>, started: set<Id>, exits: seq<Exit>): set<StateKey> {
    (set t, k | t in turns && k in TurnStates(t, started) :: k) + (set x | x in exits :: x.key)
  }

  ghost predicate StatesOk(states: map<StateKey, StateBucket>, turns: seq<Event>, started: set<Id>, exits: seq<Exit>) {
    states.Keys == States(turns, started, exits) && forall k <- states :: states[k] == StateOf(turns, started, exits, k)
  }

  /** state(version, name): the bucket, created when missing. */
  function StateAt(states: map<StateKey, StateBucket>, k: StateKey): StateBucket {
    if k in states then states[k] else StateBucket([], {}, [])
  }

  lemma StateAtIs(states: map<StateKey, StateBucket>, turns: seq<Event>, started: set<Id>, exits: seq<Exit>, k: StateKey)
    requires StatesOk(states, turns, started, exits)
    ensures StateAt(states, k) == StateOf(turns, started, exits, k)
  {
    if k !in states {
      RowsOpened(turns, started, exits);
      EmptyPick(turns, MetState, k);
      EmptyPick(exits, ExitKey, k);
      NotReached(turns, started, k);
    }
  }

  lemma RowsOpened(turns: seq<Event>, started: set<Id>, exits: seq<Exit>)
    ensures forall i | 0 <= i < |turns| :: TurnStates(turns[i], started) <= States(turns, started, exits)
    ensures forall i | 0 <= i < |exits| :: exits[i].key in States(turns, started, exits)
  {
    assert forall i | 0 <= i < |turns| :: turns[i] in turns;
  }

  lemma NotReached(turns: seq<Event>, started: set<Id>, k: StateKey)
    requires forall i | 0 <= i < |turns| :: k !in TurnStates(turns[i], started)
    ensures ReachedBy(turns, started, k) == {}
  {
    forall t <- turns | t.body.sessionId in started
      ensures k !in Visits(t)
    {
      assert k !in TurnStates(t, started);
    }
  }

  /** A session reached a state; its row is opened if need be. */
  function Reach(states: map<StateKey, StateBucket>, k: StateKey, s: Id): map<StateKey, StateBucket> {
    states[k := StateAt(states, k).(reached := StateAt(states, k).reached + {s})]
  }

  /** One turn: it met a state, and a started session reached the states it touched. */
  function AddTurn(states: map<StateKey, StateBucket>, started: set<Id>, t: Event): map<StateKey, StateBucket> {
    var k := MetState(t);
    var met := states[k := StateAt(states, k).(turns := StateAt(states, k).turns + [t])];
    if t.body.sessionId !in started || !t.body.fact.Turn? then met
    else
      var before := if t.body.fact.previousState.Some? then Reach(met, StateKey(t.body.flowVersion, t.body.fact.previousState), t.body.sessionId) else met;
      if t.body.fact.nextState.Some? then Reach(before, StateKey(t.body.flowVersion, t.body.fact.nextState), t.body.sessionId) else before
  }

  /** One turn changes the bucket it met and those it touched, and no other. */
  lemma AddTurnAt(states: map<StateKey, StateBucket>, started: set<Id>, t: Event, k: StateKey)
    ensures var b := StateAt(states, k);
      StateAt(AddTurn(states, started, t), k)
      == StateBucket(b.turns + (if MetState(t) == k then [t] else []),
                     b.reached + (if t.body.sessionId in started && k in Visits(t) then {t.body.sessionId} else {}), b.exits)
    ensures k in AddTurn(states, started, t) <==> k in states || k in TurnStates(t, started)
  {
  }

  lemma TurnExtends(turns: seq<Event>, started: set<Id>, exits: seq<Exit>, t: Event, k: StateKey)
    ensures var b := StateOf(turns, started, exits, k);
      StateOf(turns + [t], started, exits, k)
      == StateBucket(b.turns + (if MetState(t) == k then [t] else []),
                     b.reached + (if t.body.sessionId in started && k in Visits(t) then {t.body.sessionId} else {}), b.exits)
    ensures k in States(turns + [t], started, exits) <==> k in States(turns, started, exits) || k in TurnStates(t, started)
  {
    PickAppend(turns, t, MetState, k);
    assert ReachedBy(turns + [t], started, k)
        == ReachedBy(turns, started, k) + (if t.body.sessionId in started && k in Visits(t) then {t.body.sessionId} else {});
    StateGrows(turns, started, exits, t, k);
  }

  lemma StateGrows(turns: seq<Event>, started: set<Id>, exits: seq<Exit>, t: Event, k: StateKey)
    ensures k in States(turns + [t], started, exits) <==> k in States(turns, started, exits) || k in TurnStates(t, started)
  {
    hide TurnStates;
    if k in TurnStates(t, started) { assert t in turns + [t]; }
    if x :| x in turns && k in TurnStates(x, started) { assert x in turns + [t]; }
  }

  lemma AddTurnKeeps(states: map<StateKey, StateBucket>, turns: seq<Event>, started: set<Id>, t: Event)
    requires StatesOk(states, turns, started, [])
    ensures StatesOk(AddTurn(states, started, t), turns + [t], started, [])
  {
    var next := AddTurn(states, started, t);
    forall k: StateKey
      ensures k in next <==> k in States(turns + [t], started, [])
      ensures StateAt(next, k) == StateOf(turns + [t], started, [], k)
    {
      AddTurnAt(states, started, t, k);
      TurnExtends(turns, started, [], t, k);
      StateAtIs(states, turns, started, [], k);
    }
  }

  /** A session left at a state, which it thereby reached. */
  function AddExit(states: map<StateKey, StateBucket>, x: Exit): map<StateKey, StateBucket> {
    var b := StateAt(states, x.key);
    states[x.key := StateBucket(b.turns, b.reached + {x.detail.sessionId}, b.exits + [x])]
  }

  lemma ExitExtends(turns: seq<Event>, started: set<Id>, exits: seq<Exit>, x: Exit, k: StateKey)
    ensures var b := StateOf(turns, started, exits, k);
      StateOf(turns, started, exits + [x], k)
      == if x.key == k then StateBucket(b.turns, b.reached + {x.detail.sessionId}, b.exits + [x]) else b
    ensures k in States(turns, started, exits + [x]) <==> k in States(turns, started, exits) || k == x.key
  {
    PickAppend(exits, x, ExitKey, k);
    if k == x.key {
      assert SessionsOf(Pick(exits, ExitKey, k) + [x]) == SessionsOf(Pick(exits, ExitKey, k)) + {x.detail.sessionId};
    }
    RowGrows(turns, started, exits, x, k);
  }

  lemma RowGrows(turns: seq<Event>, started: set<Id>, exits: seq<Exit>, x: Exit, k: StateKey)
    ensures k in States(turns, started, exits + [x]) <==> k in States(turns, started, exits) || k == x.key
  {
    hide TurnStates;
    assert x in exits + [x];
    if y :| y in exits && y.key == k { assert y in exits + [x]; }
  }

  lemma AddExitKeeps(states: map<StateKey, StateBucket>, turns: seq<Event>, started: set<Id>, exits: seq<Exit>, x: Exit)
    requires StatesOk(states, turns, started, exits)
    ensures StatesOk(AddExit(states, x), turns, started, exits + [x])
  {
    var next := AddExit(states, x);
    StateAtIs(states, turns, started, exits, x.key);
    hide StateOf, States, StateAt;
    forall k: StateKey
      ensures k in next <==> k in States(turns, started, exits + [x])
      ensures k in next ==> next[k] == StateOf(turns, started, exits + [x], k)
    {
      ExitExtends(turns, started, exits, x, k);
    }
  }

  // ---- the last turn of a started session ----

  ghost predicate LastOk(last: map<Id, Event>, turns: seq<Event>, started: set<Id>) {
    && (forall s <- last :: s in started && last[s] in turns && last[s].body.sessionId == s && last[s].body.fact.Turn?)
    && (forall t <- turns :: t.body.fact.Turn? && t.body.sessionId in started ==>
          t.body.sessionId in last && t.body.fact.position <= Position(last[t.body.sessionId]))
  }

  function Position(t: Event): int { if t.body.fact.Turn? then t.body.fact.position else -1 }

  function PutLast(last: map<Id, Event>, started: set<Id>, t: Event): map<Id, Event> {
    var s := t.body.sessionId;
    if s in started && (s !in last || Position(last[s]) < Position(t)) then last[s := t] else last
  }

  lemma PutLastKeeps(last: map<Id, Event>, turns: seq<Event>, started: set<Id>, t: Event)
    requires LastOk(last, turns, started) && t.body.fact.Turn?
    ensures LastOk(PutLast(last, started, t), turns + [t], started)
  {
  }

  /** The row in which a session exits: where its last turn left it, or its start's flow and no state. */
  function ExitOf(last: map<Id, Event>, d: Detail): Exit {
    Exit(d, StateKey(if d.sessionId in last then last[d.sessionId].body.flowVersion else d.flowVersion, d.lastState))
  }

  function ExitsOf(last: map<Id, Event>, details: seq<Detail>): (r: seq<Exit>)
    ensures |r| == |details| && forall i | 0 <= i < |r| :: r[i] == ExitOf(last, details[i])
  {
    seq(|details|, i requires 0 <= i < |details| => ExitOf(last, details[i]))
  }

  method FillStates(turns: seq<Event>, started: set<Id>, details: seq<Detail>) returns (states: map<StateKey, StateBucket>, last: map<Id, Event>)
    requires forall i | 0 <= i < |turns| :: turns[i].body.fact.Turn?
    ensures LastOk(last, turns, started) && StatesOk(states, turns, started, ExitsOf(last, details))
  {
    states, last := map[], map[];
    var i := 0;
    hide LastOk, StatesOk, AddTurn, AddExit, PutLast, States, StateOf;
    StartsEmpty(started);
    while i < |turns|
      invariant 0 <= i <= |turns|
      invariant LastOk(last, turns[..i], started) && StatesOk(states, turns[..i], started, [])
    {
      AddTurnKeeps(states, turns[..i], started, turns[i]);
      PutLastKeeps(last, turns[..i], started, turns[i]);
      states, last := AddTurn(states, started, turns[i]), PutLast(last, started, turns[i]);
      assert turns[..i + 1] == turns[..i] + [turns[i]];
      i := i + 1;
    }
    assert turns[..i] == turns;
    var exits := ExitsOf(last, details);
    i := 0;
    while i < |exits|
      invariant 0 <= i <= |exits| && StatesOk(states, turns, started, exits[..i])
    {
      AddExitKeeps(states, turns, started, exits[..i], exits[i]);
      states := AddExit(states, exits[i]);
      assert exits[..i + 1] == exits[..i] + [exits[i]];
      i := i + 1;
    }
    assert exits[..i] == exits;
  }

  lemma StartsEmpty(started: set<Id>)
    ensures LastOk(map[], [], started) && StatesOk(map[], [], started, [])
  {
    assert States([], started, []) == {};
  }

  // ---- the rows are determined by the evidence ----

  ghost predicate HasTurn(u: set<Event>, s: Id) { exists t :: t in u && t.body.fact.Turn? && t.body.sessionId == s }

  /** Rows an event opens: the states of a turn, or the unknown state of a start whose session has no turn. */
  ghost function Opens(u: set<Event>, e: Event): set<StateKey> {
    if e.body.fact.Turn? then TurnStates(e, Started(u))
    else if e.body.fact.SessionStart? && !HasTurn(u, e.body.sessionId) then {StateKey(e.body.flowVersion, None)}
    else {}
  }

  ghost function ReportStates(u: set<Event>): set<StateKey> { set e, k | e in u && k in Opens(u, e) :: k }

  /** What a detail says of its session, apart from how it ended. */
  ghost predicate DetailFits(u: set<Event>, d: Detail) {
    && (exists e :: e in u && e.body == Body(d.startedAt, d.sessionId, d.flowVersion, SessionStart))
    && IsLastState(u, d.sessionId, d.lastState)
  }

  ghost predicate DetailsFit(u: set<Event>, details: seq<Detail>) {
    IdsOf(details) == Started(u) && forall d <- details :: DetailFits(u, d)
  }

  lemma LastIsLast(u: set<Event>, turns: seq<Event>, started: set<Id>, last: map<Id, Event>, s: Id)
    requires Represents(u, ByTurn, turns) && LastOk(last, turns, started) && s in last
    ensures last[s] in u && LastTurn(u, s, last[s])
  {
    var i :| 0 <= i < |turns| && turns[i] == last[s];
    forall t | t in u && t.body.sessionId == s && t.body.fact.Turn?
      ensures t.body.fact.position <= last[s].body.fact.position
    {
      var j := RepOf(u, ByTurn, turns, t);
      assert turns[j] in turns;
    }
  }

  lemma LastCovers(u: set<Event>, turns: seq<Event>, started: set<Id>, last: map<Id, Event>, s: Id)
    requires Represents(u, ByTurn, turns) && LastOk(last, turns, started) && s in started
    ensures HasTurn(u, s) ==> s in last
  {
    if t :| t in u && t.body.fact.Turn? && t.body.sessionId == s {
      var i := RepOf(u, ByTurn, turns, t);
      assert turns[i] in turns;
    }
  }

  /** A session exits in a row that its last turn, or its start, opens. */
  lemma ExitIsOpen(u: set<Event>, turns: seq<Event>, started: set<Id>, last: map<Id, Event>, d: Detail)
    requires Consistent(u) && Represents(u, ByTurn, turns) && LastOk(last, turns, started)
    requires started == Started(u) && d.sessionId in started && DetailFits(u, d)
    ensures ExitOf(last, d).key in ReportStates(u)
  {
    if d.sessionId in last {
      LastIsLast(u, turns, started, last, d.sessionId);
      LastTurnExit(u, last[d.sessionId], d);
    } else {
      LastCovers(u, turns, started, last, d.sessionId);
      var e :| e in u && e.body == Body(d.startedAt, d.sessionId, d.flowVersion, SessionStart);
      assert ExitOf(last, d).key in Opens(u, e);
    }
  }

  lemma LastTurnExit(u: set<Event>, t: Event, d: Detail)
    requires Consistent(u) && t in u && LastTurn(u, d.sessionId, t) && IsLastState(u, d.sessionId, d.lastState) && d.sessionId in Started(u)
    ensures StateKey(t.body.flowVersion, d.lastState) in ReportStates(u)
  {
    var e :| e in u && LastTurn(u, d.sessionId, e) && d.lastState == ExitState(e.body.fact);
    assert Compatible(t, e);
    assert StateKey(t.body.flowVersion, d.lastState) in Opens(u, t);
  }

  /** A start of a session without turns opens the row in which the session exits. */
  lemma StartOpens(u: set<Event>, turns: seq<Event>, started: set<Id>, last: map<Id, Event>, d: Detail, e: Event)
    requires Consistent(u) && Represents(u, ByTurn, turns) && LastOk(last, turns, started) && DetailFits(u, d)
    requires e in u && e.body.fact.SessionStart? && e.body.sessionId == d.sessionId && !HasTurn(u, d.sessionId)
    ensures ExitOf(last, d).key == StateKey(e.body.flowVersion, None)
  {
    var b :| b in u && b.body == Body(d.startedAt, d.sessionId, d.flowVersion, SessionStart);
    assert Compatible(b, e);
    if d.sessionId in last { LastIsLast(u, turns, started, last, d.sessionId); }
  }

  lemma RowsWithin(u: set<Event>, turns: seq<Event>, last: map<Id, Event>, details: seq<Detail>, k: StateKey)
    requires Consistent(u) && Represents(u, ByTurn, turns) && LastOk(last, turns, Started(u)) && DetailsFit(u, details)
    requires k in States(turns, Started(u), ExitsOf(last, details))
    ensures k in ReportStates(u)
  {
    hide TurnStates;
    if t :| t in turns && k in TurnStates(t, Started(u)) {
      var i :| 0 <= i < |turns| && turns[i] == t;
      assert KeyOf(ByTurn, t).Some? && k in Opens(u, t);
    } else {
      var x :| x in ExitsOf(last, details) && x.key == k;
      var i :| 0 <= i < |details| && x == ExitOf(last, details[i]);
      assert details[i] in details && details[i].sessionId in IdsOf(details);
      ExitIsOpen(u, turns, Started(u), last, details[i]);
    }
  }

  lemma RowsCover(u: set<Event>, turns: seq<Event>, last: map<Id, Event>, details: seq<Detail>, k: StateKey)
    requires Consistent(u) && Represents(u, ByTurn, turns) && LastOk(last, turns, Started(u)) && DetailsFit(u, details)
    requires k in ReportStates(u)
    ensures k in States(turns, Started(u), ExitsOf(last, details))
  {
    var e :| e in u && k in Opens(u, e);
    if e.body.fact.Turn? {
      var i := RepOf(u, ByTurn, turns, e);
      assert turns[i] in turns && TurnStates(turns[i], Started(u)) == TurnStates(e, Started(u));
    } else {
      assert e.body.sessionId in IdsOf(details);
      var d :| d in details && d.sessionId == e.body.sessionId;
      StartOpens(u, turns, Started(u), last, d, e);
      var i :| 0 <= i < |details| && details[i] == d;
      assert ExitsOf(last, details)[i] in ExitsOf(last, details);
    }
  }

  lemma RowsAre(u: set<Event>, turns: seq<Event>, last: map<Id, Event>, details: seq<Detail>)
    requires Consistent(u) && Represents(u, ByTurn, turns) && LastOk(last, turns, Started(u)) && DetailsFit(u, details)
    ensures States(turns, Started(u), ExitsOf(last, details)) == ReportStates(u)
  {
    hide Consistent, Represents, LastOk, DetailsFit, States, ReportStates;
    forall k: StateKey
      ensures k in States(turns, Started(u), ExitsOf(last, details)) <==> k in ReportStates(u)
    {
      if k in States(turns, Started(u), ExitsOf(last, details)) { RowsWithin(u, turns, last, details, k); }
      if k in ReportStates(u) { RowsCover(u, turns, last, details, k); }
    }
  }

  /** Flow versions with a row. */
  ghost function ReportVersions(u: set<Event>): set<Version> {
    set e | e in u && (e.body.fact.Turn? || e.body.fact.Request? || e.body.fact.Business? || e.body.fact.SessionStart?) :: e.body.flowVersion
  }

  ghost predicate EvidenceFits(u: set<Event>, e: Evidence) {
    && Represents(u, ByTurn, e.turns) && Represents(u, ByRequest, e.requests) && DetailsFit(u, e.details)
    && SetOf(e.business) == set x | x in u && x.body.fact.Business?
  }

  lemma VersionsWithin(u: set<Event>, e: Evidence, v: Version)
    requires EvidenceFits(u, e) && v in Versions(e)
    ensures v in ReportVersions(u)
  {
    if t :| t in e.turns && VersionOf(t) == v {
      var i :| 0 <= i < |e.turns| && e.turns[i] == t;
      assert KeyOf(ByTurn, t).Some?;
    } else if t :| t in e.requests && VersionOf(t) == v {
      var i :| 0 <= i < |e.requests| && e.requests[i] == t;
      assert KeyOf(ByRequest, t).Some?;
    } else if d :| d in e.details && DetailVersion(d) == v {
      var b :| b in u && b.body == Body(d.startedAt, d.sessionId, d.flowVersion, SessionStart);
    } else {
      var t :| t in e.business && VersionOf(t) == v;
      assert t in SetOf(e.business);
    }
  }

  lemma VersionsCover(u: set<Event>, e: Evidence, v: Version)
    requires Consistent(u) && EvidenceFits(u, e) && v in ReportVersions(u)
    ensures v in Versions(e)
  {
    var b :| b in u && (b.body.fact.Turn? || b.body.fact.Request? || b.body.fact.Business? || b.body.fact.SessionStart?) && b.body.flowVersion == v;
    if b.body.fact.Turn? {
      var i := RepOf(u, ByTurn, e.turns, b);
      assert e.turns[i] in e.turns && VersionOf(e.turns[i]) == v;
    } else if b.body.fact.Request? {
      var i := RepOf(u, ByRequest, e.requests, b);
      assert e.requests[i] in e.requests && VersionOf(e.requests[i]) == v;
    } else if b.body.fact.Business? {
      assert b in SetOf(e.business) && VersionOf(b) == v;
    } else {
      assert b.body.sessionId in IdsOf(e.details);
      var d :| d in e.details && d.sessionId == b.body.sessionId;
      var c :| c in u && c.body == Body(d.startedAt, d.sessionId, d.flowVersion, SessionStart);
      assert Compatible(b, c) && DetailVersion(d) == v;
    }
  }

  lemma VersionsAre(u: set<Event>, e: Evidence)
    requires Consistent(u) && EvidenceFits(u, e)
    ensures Versions(e) == ReportVersions(u)
  {
    hide Consistent, EvidenceFits, Versions, ReportVersions;
    forall v: Version
      ensures v in Versions(e) <==> v in ReportVersions(u)
    {
      if v in Versions(e) { VersionsWithin(u, e, v); }
      if v in ReportVersions(u) { VersionsCover(u, e, v); }
    }
  }
}
