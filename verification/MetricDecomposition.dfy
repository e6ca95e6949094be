/**
  What the rows of a report (lib/MetricReporting.js:35-120) add up to. Every theorem holds for the report of
  any consistent evidence, in whatever order its rows are listed.
 */
module MetricDecomposition {
  import opened Wrappers
  import opened MetricEvents
  import opened MetricGroups
  import opened MetricTimeline
  import opened MetricTallies
  import opened MetricAggregate
  import opened MetricBuckets
  import opened MetricStates
  import opened MetricReport
  import opened Partition
  import opened Tally

  // ---- counting as weighing ----

  ghost function One<T>(): T -> int { (x: T) => 1 }

  ghost function Is<T(!new)>(f: Body -> T, v: T): Event -> int { (e: Event) => if f(e.body) == v then 1 else 0 }

  ghost function DetailIs(o: SessionOutcome): Detail -> int { (d: Detail) => if d.outcome == o then 1 else 0 }

  lemma {:induction false} LengthIsWeight<T>(xs: seq<T>)
    ensures |xs| == Weigh(xs, One<T>())
  {
    if xs != [] { LengthIsWeight(xs[..|xs| - 1]); }
  }

  lemma {:induction false} CountIsWeight<T(!new)>(xs: seq<Event>, f: Body -> T, v: T)
    ensures CountOf(Values(xs, f), v) == Weigh(xs, Is(f, v))
  {
    if xs != [] {
      var init, last := xs[..|xs| - 1], xs[|xs| - 1];
      CountIsWeight(init, f, v);
      assert Values(xs, f)[..|xs| - 1] == Values(init, f);
    }
  }

  lemma {:induction false} OutcomesAreWeights(xs: seq<Detail>, o: SessionOutcome)
    ensures CountOf(OutcomesOf(xs), o) == Weigh(xs, DetailIs(o))
  {
    if xs != [] {
      var init, last := xs[..|xs| - 1], xs[|xs| - 1];
      OutcomesAreWeights(init, o);
      assert OutcomesOf(xs)[..|xs| - 1] == OutcomesOf(init);
    }
  }

  // ---- columns ----

  function At<K(==)>(m: map<K, nat>, k: K): int { if k in m then m[k] else 0 }

  function FlowTurns(row: FlowRow): int { row.turns.total }
  function FlowRetries(row: FlowRow): int { row.turns.validationRetries }
  function FlowRequests(row: FlowRow): int { row.requests }
  function FlowSessions(row: FlowRow): int { row.sessions }
  function FlowLatency(row: FlowRow): int { row.turns.latencySumMs }
  ghost function FlowTurnsWith(o: TurnOutcome): FlowRow -> int { (row: FlowRow) => At(row.turns.outcomes, o) }
  ghost function FlowErrorsWith(c: ErrorClass): FlowRow -> int { (row: FlowRow) => At(row.turns.errors, c) }
  ghost function FlowRequestsWith(o: RequestOutcome): FlowRow -> int { (row: FlowRow) => At(row.requestOutcomes, o) }
  ghost function FlowSessionsWith(o: SessionOutcome): FlowRow -> int { (row: FlowRow) => At(row.sessionOutcomes, o) }

  function StateTurns(row: StateRow): int { row.turns.total }
  function StateRetries(row: StateRow): int { row.turns.validationRetries }
  function StateLatency(row: StateRow): int { row.turns.latencySumMs }
  ghost function StateTurnsWith(o: TurnOutcome): StateRow -> int { (row: StateRow) => At(row.turns.outcomes, o) }
  ghost function StateErrorsWith(c: ErrorClass): StateRow -> int { (row: StateRow) => At(row.turns.errors, c) }
  ghost function ExitsWith(o: SessionOutcome): StateRow -> int { (row: StateRow) => At(row.exits, o) }

  function ExitTotal(row: StateRow): int {
    At(row.exits, Completed) + At(row.exits, Cancelled) + At(row.exits, Expired)
    + At(row.exits, Abandoned) + At(row.exits, Unknown) + At(row.exits, Open)
  }

  // ---- retries ----

  /** One for a turn that retries another of the list. */
  ghost function RetryWeight(turns: seq<Event>): Event -> int {
    (t: Event) => if exists p :: p in turns && Retries(p.body, t.body) then 1 else 0
  }

  ghost function WeighedIds(row: seq<Event>, w: Event -> int): set<Id> {
    set t | t in row && w(t) == 1 :: TurnIdOf(t)
  }

  lemma {:induction false} WeighedIdsCount(row: seq<Event>, w: Event -> int)
    requires AllTurns(row) && DistinctKeys(ByTurn, row) && forall i | 0 <= i < |row| :: w(row[i]) in {0, 1}
    ensures |WeighedIds(row, w)| == Weigh(row, w)
  {
    if row != [] {
      var init, last := row[..|row| - 1], row[|row| - 1];
      WeighedIdsCount(init, w);
      WeighedIdsExtend(init, last, w);
      assert row == init + [last];
    }
  }

  lemma WeighedIdsExtend(init: seq<Event>, last: Event, w: Event -> int)
    requires last.body.fact.Turn? && AllTurns(init) && forall i | 0 <= i < |init| :: KeyOf(ByTurn, init[i]) != KeyOf(ByTurn, last)
    ensures WeighedIds(init + [last], w) == WeighedIds(init, w) + (if w(last) == 1 then {TurnIdOf(last)} else {})
    ensures TurnIdOf(last) !in WeighedIds(init, w)
  {
    assert SetOf(init + [last]) == SetOf(init) + {last};
    forall t <- init
      ensures TurnIdOf(t) != TurnIdOf(last)
    {
      var i :| 0 <= i < |init| && init[i] == t;
    }
  }

  lemma SameRetries<K(!new)>(turns: seq<Event>, row: seq<Event>, f: Event -> K, k: K)
    requires forall t: Event :: t in row <==> t in turns && f(t) == k
    requires AllTurns(row) && forall p, t | p in turns && t in turns && Retries(p.body, t.body) :: f(p) == f(t)
    ensures RetryIds(SetOf(row)) == WeighedIds(row, RetryWeight(turns))
  {
    var w := RetryWeight(turns);
    forall t | t in row && w(t) == 1
      ensures TurnIdOf(t) in RetryIds(SetOf(row))
    {
      var p :| p in turns && Retries(p.body, t.body);
      assert p in SetOf(row) && t in SetOf(row);
    }
    forall t, p | t in row && p in row && Retries(p.body, t.body)
      ensures t.body.fact.turnId in WeighedIds(row, w)
    {
      assert w(t) == 1;
    }
  }

  /** In a row that keeps each retry together with the turn it retries, retries are those of the whole list. */
  lemma RowRetries<K(!new)>(turns: seq<Event>, f: Event -> K, k: K)
    requires RowTurns(turns)
    requires forall p, t | p in turns && t in turns && Retries(p.body, t.body) :: f(p) == f(t)
    ensures |RetryIds(SetOf(Pick(turns, f, k)))| == Weigh(Pick(turns, f, k), RetryWeight(turns))
  {
    var row := Pick(turns, f, k);
    PickRowTurns(turns, f, k);
    WeighedIdsCount(row, RetryWeight(turns));
    forall t: Event
      ensures t in row <==> t in turns && f(t) == k
    {
      PickHas(turns, f, k, t);
    }
    SameRetries(turns, row, f, k);
  }

  lemma RetriesKeepVersion(turns: seq<Event>)
    ensures forall p, t | p in turns && t in turns && Retries(p.body, t.body) :: VersionOf(p) == VersionOf(t)
  {
  }

  lemma RetriesKeepState(turns: seq<Event>)
    ensures forall p, t | p in turns && t in turns && Retries(p.body, t.body) :: MetState(p) == MetState(t)
  {
  }

  lemma AllRetriesWeigh(u: set<Event>, turns: seq<Event>)
    requires RowTurns(turns) && Represents(u, ByTurn, turns)
    ensures |RetryIds(u)| == Weigh(turns, RetryWeight(turns))
  {
    var w := RetryWeight(turns);
    WeighedIdsCount(turns, w);
    RetryIdsOfReps(u, turns);
    assert RetryIds(SetOf(turns)) == WeighedIds(turns, w);
  }

  lemma RetryIdsOfReps(u: set<Event>, turns: seq<Event>)
    requires Represents(u, ByTurn, turns)
    ensures RetryIds(u) == RetryIds(SetOf(turns))
  {
    assert forall i | 0 <= i < |turns| :: turns[i] in u;
    forall e, p | e in u && p in u && Retries(p.body, e.body)
      ensures e.body.fact.turnId in RetryIds(SetOf(turns))
    {
      var i := RepOf(u, ByTurn, turns, e);
      var j := RepOf(u, ByTurn, turns, p);
      assert turns[i] in SetOf(turns) && turns[j] in SetOf(turns) && Retries(turns[j].body, turns[i].body);
    }
  }

  // ---- retries never exceed validation errors ----

  lemma {:induction false} InjectionCard(a: set<Id>, b: set<Id>, f: map<Id, Id>)
    requires f.Keys == a && (forall k <- a :: f[k] in b) && forall j, k | j in a && k in a && f[j] == f[k] :: j == k
    ensures |a| <= |b|
    decreases |a|
  {
    if a != {} {
      var k :| k in a;
      InjectionCard(a - {k}, b - {f[k]}, map j | j in a - {k} :: f[j]);
    }
  }

  ghost predicate RetryPair(u: set<Event>, id: Id, p: Event) {
    p in u && exists e :: e in u && e.body.fact.Turn? && e.body.fact.turnId == id && Retries(p.body, e.body)
  }

  ghost function RetriedBy(u: set<Event>, id: Id): (r: Id)
    requires id in RetryIds(u)
    ensures exists p :: RetryPair(u, id, p) && TurnIdOf(p) == r
  {
    var e :| e in u && e.body.fact.Turn? && (exists p :: p in u && Retries(p.body, e.body)) && e.body.fact.turnId == id;
    var p :| p in u && Retries(p.body, e.body);
    assert RetryPair(u, id, p);
    TurnIdOf(p)
  }

  /** Two turns that retry one turn are one turn. */
  lemma RetriesDiffer(u: set<Event>, i: Id, j: Id, p: Event, q: Event)
    requires Consistent(u) && RetryPair(u, i, p) && RetryPair(u, j, q) && TurnIdOf(p) == TurnIdOf(q)
    ensures i == j
  {
    var a :| a in u && a.body.fact.Turn? && a.body.fact.turnId == i && Retries(p.body, a.body);
    var b :| b in u && b.body.fact.Turn? && b.body.fact.turnId == j && Retries(q.body, b.body);
    assert Compatible(p, q) && Compatible(a, b);
  }

  lemma RetriesAtMostErrors(u: set<Event>)
    requires Consistent(u)
    ensures |RetryIds(u)| <= |TurnIdsWith(u, ValidationError)|
  {
    var f := map id | id in RetryIds(u) :: RetriedBy(u, id);
    forall id <- RetryIds(u)
      ensures f[id] in TurnIdsWith(u, ValidationError)
    {
      var p :| RetryPair(u, id, p) && TurnIdOf(p) == f[id];
    }
    forall i, j | i in RetryIds(u) && j in RetryIds(u) && f[i] == f[j]
      ensures i == j
    {
      var p :| RetryPair(u, i, p) && TurnIdOf(p) == f[i];
      var q :| RetryPair(u, j, q) && TurnIdOf(q) == f[j];
      RetriesDiffer(u, i, j, p, q);
    }
    InjectionCard(RetryIds(u), TurnIdsWith(u, ValidationError), f);
  }

  // ---- rows as weights ----

  lemma SummaryWeights(part: seq<Event>, s: TurnSummary)
    requires TurnSummaryOk(part, s)
    ensures s.total == Weigh(part, One<Event>())
    ensures forall o <- TURN_OUTCOMES :: At(s.outcomes, o) == Weigh(part, Is(TurnOutcomeOf, Some(o)))
    ensures forall c <- ERROR_CLASSES :: At(s.errors, c) == Weigh(part, Is(ErrorOf, Some(c)))
  {
    LengthIsWeight(part);
    forall o <- TURN_OUTCOMES
      ensures At(s.outcomes, o) == Weigh(part, Is(TurnOutcomeOf, Some(o)))
    {
      CountIsWeight(part, TurnOutcomeOf, Some(o));
    }
    forall c <- ERROR_CLASSES
      ensures At(s.errors, c) == Weigh(part, Is(ErrorOf, Some(c)))
    {
      CountIsWeight(part, ErrorOf, Some(c));
    }
  }

  /** What every theorem starts from: the lists behind the report. */
  ghost predicate Behind(u: set<Event>, asOf: int, inactivityMs: Option<int>, r: Report, x: Sources) {
    && Consistent(u) && EvidenceOk(u, asOf, inactivityMs, r.summary)
    && SourcesOk(u, r.summary.details, x) && RowsOk(x, r) && RowTurns(x.evidence.turns)
  }

  lemma SourcesOf(u: set<Event>, asOf: int, inactivityMs: Option<int>, r: Report) returns (x: Sources)
    requires IdsUnique(u) && Consistent(u) && ReportOk(u, asOf, inactivityMs, r)
    ensures Behind(u, asOf, inactivityMs, r, x)
  {
    x :| SourcesOk(u, r.summary.details, x) && RowsOk(x, r);
    ListRowTurns(u, x.evidence.turns);
  }

  lemma VersionCovers(e: Evidence)
    ensures forall i | 0 <= i < |e.turns| :: VersionOf(e.turns[i]) in Versions(e)
    ensures forall i | 0 <= i < |e.requests| :: VersionOf(e.requests[i]) in Versions(e)
    ensures forall i | 0 <= i < |e.details| :: DetailVersion(e.details[i]) in Versions(e)
  {
  }

  lemma StateCovers(x: Sources)
    ensures forall i | 0 <= i < |x.evidence.turns| :: MetState(x.evidence.turns[i]) in x.Rows()
    ensures forall i | 0 <= i < |x.Exits()| :: ExitKey(x.Exits()[i]) in x.Rows()
  {
    forall i | 0 <= i < |x.evidence.turns|
      ensures MetState(x.evidence.turns[i]) in x.Rows()
    {
      assert MetState(x.evidence.turns[i]) in TurnStates(x.evidence.turns[i], x.started);
    }
  }

  lemma FlowRowAt(u: set<Event>, asOf: int, inactivityMs: Option<int>, r: Report, x: Sources, v: Version)
    requires Behind(u, asOf, inactivityMs, r, x) && v in r.flows
    ensures FlowRowOk(FlowOf(x.evidence, v), r.flows[v])
  {
  }

  lemma StateRowAt(u: set<Event>, asOf: int, inactivityMs: Option<int>, r: Report, x: Sources, k: StateKey)
    requires Behind(u, asOf, inactivityMs, r, x) && k in r.states
    ensures StateRowOk(StateOf(x.evidence.turns, x.started, x.Exits(), k), OutcomesById(x.evidence.details), r.states[k])
  {
  }

  lemma TotalsOf(u: set<Event>, asOf: int, inactivityMs: Option<int>, r: Report, x: Sources)
    requires Behind(u, asOf, inactivityMs, r, x)
    ensures Represents(u, ByTurn, x.evidence.turns) && Represents(u, ByRequest, x.evidence.requests)
    ensures x.evidence.details == r.summary.details && InOrder(r.summary.details)
    ensures r.flows.Keys == Versions(x.evidence) && r.states.Keys == x.Rows()
    ensures RequestsOk(u, r.summary) && TurnsOk(u, r.summary) && SessionsOk(u, asOf, inactivityMs, r.summary)
    ensures EvidenceOk(u, asOf, inactivityMs, r.summary)
    ensures SetOf(x.evidence.business) == set e | e in u && e.body.fact.Business?
  {
  }

  // ---- the theorems ----

  /** Retries by flow, retries by state and retries overall are one number, and no more than the validation errors. */
  lemma RetriesDecompose(u: set<Event>, asOf: int, inactivityMs: Option<int>, r: Report, flows: seq<Version>, states: seq<StateKey>)
    requires IdsUnique(u) && Consistent(u) && ReportOk(u, asOf, inactivityMs, r) && Lists(r.flows, flows) && Lists(r.states, states)
    ensures SumRows(r.flows, flows, FlowRetries) == r.summary.validationRetries
    ensures SumRows(r.states, states, StateRetries) == r.summary.validationRetries
    ensures r.summary.validationRetries <= r.summary.turnOutcomes[ValidationError]
  {
    var x := SourcesOf(u, asOf, inactivityMs, r);
    var turns := x.evidence.turns;
    TotalsOf(u, asOf, inactivityMs, r, x);
    RetriesAtMostErrors(u);
    AllRetriesWeigh(u, turns);
    RetriesKeepVersion(turns);
    RetriesKeepState(turns);
    VersionCovers(x.evidence);
    StateCovers(x);
    forall v <- r.flows
      ensures FlowRetries(r.flows[v]) == Weigh(Pick(turns, VersionOf, v), RetryWeight(turns))
    {
      FlowRowAt(u, asOf, inactivityMs, r, x, v);
      RowRetries(turns, VersionOf, v);
    }
    forall k <- r.states
      ensures StateRetries(r.states[k]) == Weigh(Pick(turns, MetState, k), RetryWeight(turns))
    {
      StateRowAt(u, asOf, inactivityMs, r, x, k);
      RowRetries(turns, MetState, k);
    }
    hide Behind, RowTurns, Represents, Versions, States, EvidenceOk, RowsOk, Consistent, ReportOk, TurnsOk, RequestsOk, SessionsOk;
    TableSums(r.flows, flows, FlowRetries, turns, VersionOf, RetryWeight(turns));
    TableSums(r.states, states, StateRetries, turns, MetState, RetryWeight(turns));
  }

  /** Turns, their outcomes, errors and durations are partitioned by flow. */
  lemma TurnsByFlow(u: set<Event>, asOf: int, inactivityMs: Option<int>, r: Report, flows: seq<Version>)
    requires IdsUnique(u) && Consistent(u) && ReportOk(u, asOf, inactivityMs, r) && Lists(r.flows, flows)
    ensures SumRows(r.flows, flows, FlowTurns) == r.summary.turns
    ensures forall o <- TURN_OUTCOMES :: SumRows(r.flows, flows, FlowTurnsWith(o)) == r.summary.turnOutcomes[o]
    ensures forall c <- ERROR_CLASSES :: SumRows(r.flows, flows, FlowErrorsWith(c)) == r.summary.turnErrors[c]
  {
    var x := SourcesOf(u, asOf, inactivityMs, r);
    var turns := x.evidence.turns;
    TotalsOf(u, asOf, inactivityMs, r, x);
    CountTurns(u, turns);
    LengthIsWeight(turns);
    VersionCovers(x.evidence);
    forall v <- r.flows
      ensures TurnSummaryOk(Pick(turns, VersionOf, v), r.flows[v].turns)
    {
      FlowRowAt(u, asOf, inactivityMs, r, x, v);
    }
    hide Behind, RowTurns, Versions, EvidenceOk, RowsOk, Consistent, ReportOk, RequestsOk, SessionsOk, TurnSummaryOk, FlowRowOk, Represents, IdsUnique;
    forall v <- r.flows { SummaryWeights(Pick(turns, VersionOf, v), r.flows[v].turns); }
    TableSums(r.flows, flows, FlowTurns, turns, VersionOf, One<Event>());
    forall o <- TURN_OUTCOMES
      ensures SumRows(r.flows, flows, FlowTurnsWith(o)) == r.summary.turnOutcomes[o]
    {
      CountTurnsWith(u, turns, o);
      CountIsWeight(turns, TurnOutcomeOf, Some(o));
      TableSums(r.flows, flows, FlowTurnsWith(o), turns, VersionOf, Is(TurnOutcomeOf, Some(o)));
    }
    forall c <- ERROR_CLASSES
      ensures SumRows(r.flows, flows, FlowErrorsWith(c)) == r.summary.turnErrors[c]
    {
      CountTurnsFailed(u, turns, c);
      CountIsWeight(turns, ErrorOf, Some(c));
      TableSums(r.flows, flows, FlowErrorsWith(c), turns, VersionOf, Is(ErrorOf, Some(c)));
    }
  }

  /** Turns, their outcomes and errors are partitioned by state. */
  lemma TurnsByState(u: set<Event>, asOf: int, inactivityMs: Option<int>, r: Report, states: seq<StateKey>)
    requires IdsUnique(u) && Consistent(u) && ReportOk(u, asOf, inactivityMs, r) && Lists(r.states, states)
    ensures SumRows(r.states, states, StateTurns) == r.summary.turns
    ensures forall o <- TURN_OUTCOMES :: SumRows(r.states, states, StateTurnsWith(o)) == r.summary.turnOutcomes[o]
    ensures forall c <- ERROR_CLASSES :: SumRows(r.states, states, StateErrorsWith(c)) == r.summary.turnErrors[c]
  {
    var x := SourcesOf(u, asOf, inactivityMs, r);
    var turns := x.evidence.turns;
    TotalsOf(u, asOf, inactivityMs, r, x);
    CountTurns(u, turns);
    LengthIsWeight(turns);
    StateCovers(x);
    forall k <- r.states
      ensures TurnSummaryOk(Pick(turns, MetState, k), r.states[k].turns)
    {
      StateRowAt(u, asOf, inactivityMs, r, x, k);
    }
    hide Behind, RowTurns, States, EvidenceOk, RowsOk, Consistent, ReportOk, RequestsOk, SessionsOk, TurnSummaryOk, StateRowOk;
    forall k <- r.states { SummaryWeights(Pick(turns, MetState, k), r.states[k].turns); }
    TableSums(r.states, states, StateTurns, turns, MetState, One<Event>());
    forall o <- TURN_OUTCOMES
      ensures SumRows(r.states, states, StateTurnsWith(o)) == r.summary.turnOutcomes[o]
    {
      CountTurnsWith(u, turns, o);
      CountIsWeight(turns, TurnOutcomeOf, Some(o));
      TableSums(r.states, states, StateTurnsWith(o), turns, MetState, Is(TurnOutcomeOf, Some(o)));
    }
    forall c <- ERROR_CLASSES
      ensures SumRows(r.states, states, StateErrorsWith(c)) == r.summary.turnErrors[c]
    {
      CountTurnsFailed(u, turns, c);
      CountIsWeight(turns, ErrorOf, Some(c));
      TableSums(r.states, states, StateErrorsWith(c), turns, MetState, Is(ErrorOf, Some(c)));
    }
  }

  /** Total durations agree by flow and by state. */
  lemma LatencyAgrees(u: set<Event>, asOf: int, inactivityMs: Option<int>, r: Report, flows: seq<Version>, states: seq<StateKey>)
    requires IdsUnique(u) && Consistent(u) && ReportOk(u, asOf, inactivityMs, r) && Lists(r.flows, flows) && Lists(r.states, states)
    ensures SumRows(r.flows, flows, FlowLatency) == SumRows(r.states, states, StateLatency)
  {
    var x := SourcesOf(u, asOf, inactivityMs, r);
    var turns := x.evidence.turns;
    TotalsOf(u, asOf, inactivityMs, r, x);
    VersionCovers(x.evidence);
    StateCovers(x);
    forall v <- r.flows
      ensures r.flows[v].turns.latencySumMs == Weigh(Pick(turns, VersionOf, v), DurationOf)
    {
      FlowRowAt(u, asOf, inactivityMs, r, x, v);
    }
    forall k <- r.states
      ensures r.states[k].turns.latencySumMs == Weigh(Pick(turns, MetState, k), DurationOf)
    {
      StateRowAt(u, asOf, inactivityMs, r, x, k);
    }
    hide Behind, RowTurns, States, Versions, EvidenceOk, RowsOk, Consistent, ReportOk, RequestsOk, SessionsOk, TurnsOk;
    TableSums(r.flows, flows, FlowLatency, turns, VersionOf, DurationOf);
    TableSums(r.states, states, StateLatency, turns, MetState, DurationOf);
  }

  /** Requests and their outcomes are partitioned by flow. */
  lemma RequestsByFlow(u: set<Event>, asOf: int, inactivityMs: Option<int>, r: Report, flows: seq<Version>)
    requires IdsUnique(u) && Consistent(u) && ReportOk(u, asOf, inactivityMs, r) && Lists(r.flows, flows)
    ensures SumRows(r.flows, flows, FlowRequests) == r.summary.requests
    ensures forall o <- REQUEST_OUTCOMES :: SumRows(r.flows, flows, FlowRequestsWith(o)) == r.summary.requestOutcomes[o]
  {
    var x := SourcesOf(u, asOf, inactivityMs, r);
    var requests := x.evidence.requests;
    TotalsOf(u, asOf, inactivityMs, r, x);
    CountRequests(u, requests);
    LengthIsWeight(requests);
    VersionCovers(x.evidence);
    forall v <- r.flows
      ensures r.flows[v].requests == |Pick(requests, VersionOf, v)| && r.flows[v].requestOutcomes == RequestCounts(Pick(requests, VersionOf, v))
    {
      FlowRowAt(u, asOf, inactivityMs, r, x, v);
    }
    hide Behind, RowTurns, Versions, EvidenceOk, RowsOk, Consistent, ReportOk, TurnsOk, SessionsOk, TurnSummaryOk, FlowRowOk;
    forall v <- r.flows { LengthIsWeight(Pick(requests, VersionOf, v)); }
    TableSums(r.flows, flows, FlowRequests, requests, VersionOf, One<Event>());
    forall o <- REQUEST_OUTCOMES
      ensures SumRows(r.flows, flows, FlowRequestsWith(o)) == r.summary.requestOutcomes[o]
    {
      CountRequestsWith(u, requests, o);
      CountIsWeight(requests, RequestOutcomeOf, Some(o));
      forall v <- r.flows { CountIsWeight(Pick(requests, VersionOf, v), RequestOutcomeOf, Some(o)); }
      TableSums(r.flows, flows, FlowRequestsWith(o), requests, VersionOf, Is(RequestOutcomeOf, Some(o)));
    }
  }

  /** Sessions and their outcomes are partitioned by flow. */
  lemma SessionsByFlow(u: set<Event>, asOf: int, inactivityMs: Option<int>, r: Report, flows: seq<Version>)
    requires IdsUnique(u) && Consistent(u) && ReportOk(u, asOf, inactivityMs, r) && Lists(r.flows, flows)
    ensures SumRows(r.flows, flows, FlowSessions) == |r.summary.details|
    ensures forall o <- SESSION_OUTCOMES :: SumRows(r.flows, flows, FlowSessionsWith(o)) == r.summary.sessionOutcomes[o]
  {
    var x := SourcesOf(u, asOf, inactivityMs, r);
    var details := r.summary.details;
    TotalsOf(u, asOf, inactivityMs, r, x);
    LengthIsWeight(details);
    VersionCovers(x.evidence);
    forall v <- r.flows
      ensures r.flows[v].sessions == |Pick(details, DetailVersion, v)| && r.flows[v].sessionOutcomes == SessionCounts(Pick(details, DetailVersion, v))
    {
      FlowRowAt(u, asOf, inactivityMs, r, x, v);
    }
    hide Behind, RowTurns, Versions, EvidenceOk, RowsOk, Consistent, ReportOk, TurnsOk, RequestsOk, DetailOk, FlowRowOk;
    forall v <- r.flows { LengthIsWeight(Pick(details, DetailVersion, v)); }
    TableSums(r.flows, flows, FlowSessions, details, DetailVersion, One<Detail>());
    forall o <- SESSION_OUTCOMES
      ensures SumRows(r.flows, flows, FlowSessionsWith(o)) == r.summary.sessionOutcomes[o]
    {
      CountSessions(details, o);
      OutcomesAreWeights(details, o);
      forall v <- r.flows { OutcomesAreWeights(Pick(details, DetailVersion, v), o); }
      TableSums(r.flows, flows, FlowSessionsWith(o), details, DetailVersion, DetailIs(o));
    }
  }

  // ---- exits ----

  ghost function ExitIs(o: SessionOutcome): Exit -> int { (x: Exit) => if x.detail.outcome == o then 1 else 0 }

  lemma {:induction false} ExitsAreWeights(xs: seq<Exit>, o: SessionOutcome)
    ensures CountOf(OutcomesOf(ExitDetails(xs)), o) == Weigh(xs, ExitIs(o))
  {
    if xs != [] {
      var init, last := xs[..|xs| - 1], xs[|xs| - 1];
      ExitsAreWeights(init, o);
      assert OutcomesOf(ExitDetails(xs))[..|xs| - 1] == OutcomesOf(ExitDetails(init));
    }
  }

  /** Session exits, by outcome, are partitioned by state. */
  lemma ExitsByState(u: set<Event>, asOf: int, inactivityMs: Option<int>, r: Report, states: seq<StateKey>, o: SessionOutcome)
    requires IdsUnique(u) && Consistent(u) && ReportOk(u, asOf, inactivityMs, r) && Lists(r.states, states)
    ensures SumRows(r.states, states, ExitsWith(o)) == r.summary.sessionOutcomes[o]
  {
    var x := SourcesOf(u, asOf, inactivityMs, r);
    var details, exits := r.summary.details, x.Exits();
    TotalsOf(u, asOf, inactivityMs, r, x);
    StateCovers(x);
    assert o in SESSION_OUTCOMES;
    forall k <- r.states
      ensures At(r.states[k].exits, o) == Weigh(Pick(exits, ExitKey, k), ExitIs(o))
    {
      StateRowAt(u, asOf, inactivityMs, r, x, k);
      ExitsAreWeights(Pick(exits, ExitKey, k), o);
    }
    hide Behind, RowTurns, States, EvidenceOk, RowsOk, Consistent, ReportOk, TurnsOk, RequestsOk, DetailOk;
    CountSessions(details, o);
    ExitsAreWeights(exits, o);
    assert ExitDetails(exits) == details;
    TableSums(r.states, states, ExitsWith(o), exits, ExitKey, ExitIs(o));
  }

  lemma {:induction false} OutcomesTotal(values: seq<SessionOutcome>)
    ensures CountOf(values, Completed) + CountOf(values, Cancelled) + CountOf(values, Expired)
          + CountOf(values, Abandoned) + CountOf(values, Unknown) + CountOf(values, Open) == |values|
  {
    if values != [] {
      OutcomesTotal(values[..|values| - 1]);
      var last := values[|values| - 1];
      assert last.Completed? || last.Cancelled? || last.Expired? || last.Abandoned? || last.Unknown? || last.Open?;
    }
  }

  ghost predicate ExitsDiffer(exits: seq<Exit>) {
    forall i, j | 0 <= i < j < |exits| :: exits[i].detail.sessionId != exits[j].detail.sessionId
  }

  lemma {:induction false} PickExitsDiffer(exits: seq<Exit>, k: StateKey)
    requires ExitsDiffer(exits)
    ensures ExitsDiffer(Pick(exits, ExitKey, k))
  {
    if exits != [] {
      var init, last := exits[..|exits| - 1], exits[|exits| - 1];
      PickExitsDiffer(init, k);
      var part := Pick(init, ExitKey, k);
      forall i | 0 <= i < |part|
        ensures part[i].detail.sessionId != last.detail.sessionId
      {
        PickHas(init, ExitKey, k, part[i]);
        var j :| 0 <= j < |init| && init[j] == part[i];
      }
    }
  }

  lemma {:induction false} ExitSessionsCount(exits: seq<Exit>)
    requires ExitsDiffer(exits)
    ensures |SessionsOf(exits)| == |exits|
  {
    if exits != [] {
      var init, last := exits[..|exits| - 1], exits[|exits| - 1];
      ExitSessionsCount(init);
      ExitSessionAdds(init, last);
      assert exits == init + [last];
    }
  }

  lemma ExitSessionAdds(init: seq<Exit>, last: Exit)
    requires forall i | 0 <= i < |init| :: init[i].detail.sessionId != last.detail.sessionId
    ensures SessionsOf(init + [last]) == SessionsOf(init) + {last.detail.sessionId} && last.detail.sessionId !in SessionsOf(init)
  {
    assert last in init + [last];
    assert forall x <- init :: x in init + [last];
  }

  /** No state loses more sessions than reached it. */
  lemma ExitsWithinReached(u: set<Event>, asOf: int, inactivityMs: Option<int>, r: Report, k: StateKey)
    requires IdsUnique(u) && Consistent(u) && ReportOk(u, asOf, inactivityMs, r) && k in r.states
    ensures ExitTotal(r.states[k]) <= r.states[k].sessionsReached
  {
    var x := SourcesOf(u, asOf, inactivityMs, r);
    TotalsOf(u, asOf, inactivityMs, r, x);
    StateRowAt(u, asOf, inactivityMs, r, x, k);
    var part := Pick(x.Exits(), ExitKey, k);
    OutcomesTotal(OutcomesOf(ExitDetails(part)));
    assert ExitsDiffer(x.Exits());
    PickExitsDiffer(x.Exits(), k);
    ExitSessionsCount(part);
    SubsetCard(SessionsOf(part), StateOf(x.evidence.turns, x.started, x.Exits(), k).reached);
  }

  lemma {:induction false} OutcomesKnown(details: seq<Detail>)
    requires InOrder(details)
    ensures OutcomesById(details).Keys == IdsOf(details)
    ensures forall d <- details :: d.sessionId in OutcomesById(details) && OutcomesById(details)[d.sessionId] == d.outcome
  {
    if details != [] {
      var init, last := details[..|details| - 1], details[|details| - 1];
      OutcomesKnown(init);
      assert details == init + [last];
      assert IdsOf(details) == IdsOf(init) + {last.sessionId};
    }
  }

  ghost function ReachedWith(reached: set<Id>, outcomes: map<Id, SessionOutcome>, o: SessionOutcome): set<Id> {
    set s | s in reached && s in outcomes && outcomes[s] == o
  }

  lemma ReachedSplit(reached: set<Id>, outcomes: map<Id, SessionOutcome>)
    requires reached <= outcomes.Keys
    ensures |ReachedWith(reached, outcomes, Completed)| + |ReachedWith(reached, outcomes, Cancelled)| + |ReachedWith(reached, outcomes, Expired)|
          + |ReachedWith(reached, outcomes, Abandoned)| + |ReachedWith(reached, outcomes, Unknown)| + |ReachedWith(reached, outcomes, Open)| == |reached|
  {
    var a, b, c := ReachedWith(reached, outcomes, Completed), ReachedWith(reached, outcomes, Cancelled), ReachedWith(reached, outcomes, Expired);
    var d, e, f := ReachedWith(reached, outcomes, Abandoned), ReachedWith(reached, outcomes, Unknown), ReachedWith(reached, outcomes, Open);
    forall s <- reached
      ensures s in a + b + c + d + e + f
    {
      var o := outcomes[s];
      assert o.Completed? || o.Cancelled? || o.Expired? || o.Abandoned? || o.Unknown? || o.Open?;
    }
    assert reached == a + b + c + d + e + f;
    assert a !! b !! c !! d !! e !! f;
    hide ReachedWith;
  }

  ghost function LeftWith(exits: seq<Exit>, o: SessionOutcome): set<Id> {
    set x | x in exits && x.detail.outcome == o :: x.detail.sessionId
  }

  lemma {:induction false} ExitsWithOutcome(exits: seq<Exit>, o: SessionOutcome)
    requires ExitsDiffer(exits)
    ensures Weigh(exits, ExitIs(o)) == |LeftWith(exits, o)|
  {
    if exits == [] {
      assert LeftWith([], o) == {};
    } else {
      var init, last := exits[..|exits| - 1], exits[|exits| - 1];
      ExitsWithOutcome(init, o);
      assert exits == init + [last];
      LeftCounts(init, last, o);
    }
  }

  lemma LeftCounts(init: seq<Exit>, last: Exit, o: SessionOutcome)
    requires ExitsDiffer(init + [last]) && Weigh(init, ExitIs(o)) == |LeftWith(init, o)|
    ensures Weigh(init + [last], ExitIs(o)) == |LeftWith(init + [last], o)|
  {
    WeighAppend(init, last, ExitIs(o));
    forall i | 0 <= i < |init|
      ensures init[i].detail.sessionId != last.detail.sessionId
    {
      assert (init + [last])[i] == init[i] && (init + [last])[|init|] == last;
    }
    ExitSessionAdds(init, last);
    LeftAdds(init, last, o);
    hide LeftWith, SessionsOf, Weigh, ExitsDiffer;
  }

  lemma LeftAdds(init: seq<Exit>, last: Exit, o: SessionOutcome)
    ensures LeftWith(init + [last], o) == LeftWith(init, o) + (if last.detail.outcome == o then {last.detail.sessionId} else {})
    ensures LeftWith(init, o) <= SessionsOf(init)
  {
    var all := init + [last];
    assert last in all && forall x <- init :: x in all;
    forall s
      ensures s in LeftWith(all, o) <==> s in LeftWith(init, o) || (last.detail.outcome == o && s == last.detail.sessionId)
    {
      if s in LeftWith(all, o) { var x :| x in all && x.detail.outcome == o && x.detail.sessionId == s; }
    }
  }

  lemma LeftWithinReached(x: Sources, k: StateKey, o: SessionOutcome)
    requires InOrder(x.evidence.details)
    ensures LeftWith(Pick(x.Exits(), ExitKey, k), o)
            <= ReachedWith(StateOf(x.evidence.turns, x.started, x.Exits(), k).reached, OutcomesById(x.evidence.details), o)
  {
    OutcomesKnown(x.evidence.details);
    var part := Pick(x.Exits(), ExitKey, k);
    forall s <- LeftWith(part, o)
      ensures s in SessionsOf(part) && s in OutcomesById(x.evidence.details) && OutcomesById(x.evidence.details)[s] == o
    {
      var e :| e in part && e.detail.outcome == o && e.detail.sessionId == s;
      PickHas(x.Exits(), ExitKey, k, e);
      assert e.detail in x.evidence.details;
    }
  }

  lemma ReachedHaveOutcomes(x: Sources, k: StateKey)
    requires InOrder(x.evidence.details) && x.started == IdsOf(x.evidence.details)
    ensures StateOf(x.evidence.turns, x.started, x.Exits(), k).reached <= OutcomesById(x.evidence.details).Keys
  {
    OutcomesKnown(x.evidence.details);
    var part := Pick(x.Exits(), ExitKey, k);
    forall s <- SessionsOf(part)
      ensures s in x.started
    {
      var e :| e in part && e.detail.sessionId == s;
      PickHas(x.Exits(), ExitKey, k, e);
      assert e.detail in x.evidence.details;
    }
  }

  /** The sessions that reached a state are split by their outcomes, and those that it lost are among them, outcome by outcome. */
  lemma ReachedByOutcome(u: set<Event>, asOf: int, inactivityMs: Option<int>, r: Report, k: StateKey, o: SessionOutcome)
    requires IdsUnique(u) && Consistent(u) && ReportOk(u, asOf, inactivityMs, r) && k in r.states
    ensures var tally := r.states[k].reachedOutcomes;
      && At(tally, Completed) + At(tally, Cancelled) + At(tally, Expired) + At(tally, Abandoned) + At(tally, Unknown) + At(tally, Open) == r.states[k].sessionsReached
      && At(r.states[k].exits, o) <= At(tally, o)
  {
    var x := SourcesOf(u, asOf, inactivityMs, r);
    TotalsOf(u, asOf, inactivityMs, r, x);
    StateRowAt(u, asOf, inactivityMs, r, x, k);
    var started := x.started == IdsOf(x.evidence.details);
    assert started;
    hide Behind, RowsOk, ReportOk, Consistent, EvidenceOk, SessionsOk, TurnsOk, RequestsOk, SourcesOk, Represents;
    var part, b := Pick(x.Exits(), ExitKey, k), StateOf(x.evidence.turns, x.started, x.Exits(), k);
    ReachedHaveOutcomes(x, k);
    ReachedSplit(b.reached, OutcomesById(x.evidence.details));
    TallyIs(b.reached, OutcomesById(x.evidence.details));
    ExitsAreWeights(part, o);
    assert ExitsDiffer(x.Exits());
    PickExitsDiffer(x.Exits(), k);
    ExitsWithOutcome(part, o);
    LeftWithinReached(x, k, o);
    SubsetCard(LeftWith(part, o), ReachedWith(b.reached, OutcomesById(x.evidence.details), o));
  }

  lemma TallyIs(reached: set<Id>, outcomes: map<Id, SessionOutcome>)
    ensures forall o: SessionOutcome :: At(ReachedTally(reached, outcomes), o) == |ReachedWith(reached, outcomes, o)|
  {
    forall o: SessionOutcome
      ensures At(ReachedTally(reached, outcomes), o) == |ReachedWith(reached, outcomes, o)|
    {
      assert o.Completed? || o.Cancelled? || o.Expired? || o.Abandoned? || o.Unknown? || o.Open?;
      assert o in SESSION_OUTCOMES;
      assert ReachedWith(reached, outcomes, o) == set s | s in reached && s in outcomes && outcomes[s] == o;
    }
  }

  // ---- business operations ----

  function FlowBusiness(row: FlowRow): int { row.business }

  ghost function BusinessOf(u: set<Event>, v: Version): set<Id> {
    set e | e in u && e.body.fact.Business? && e.body.flowVersion == v :: e.body.fact.businessId
  }

  ghost function BusinessOfAny(u: set<Event>, vs: seq<Version>): set<Id> {
    set e | e in u && e.body.fact.Business? && e.body.flowVersion in vs :: e.body.fact.businessId
  }

  lemma {:induction false} BusinessInKeys(events: seq<Event>, v: Version, id: Id)
    requires forall i | 0 <= i < |events| :: events[i].body.fact.Business?
    ensures id in BusinessIn(events, v) <==> exists i :: 0 <= i < |events| && events[i].body.flowVersion == v && events[i].body.fact.businessId == id
  {
    if events != [] { BusinessInKeys(events[..|events| - 1], v, id); }
  }

  lemma BusinessRow(u: set<Event>, events: seq<Event>, v: Version)
    requires SetOf(events) == set e | e in u && e.body.fact.Business?
    ensures |BusinessIn(events, v)| == |BusinessOf(u, v)|
  {
    assert forall i | 0 <= i < |events| :: events[i] in SetOf(events);
    forall id: Id
      ensures id in BusinessIn(events, v) <==> id in BusinessOf(u, v)
    {
      BusinessInKeys(events, v, id);
      if id in BusinessOf(u, v) {
        var e :| e in u && e.body.fact.Business? && e.body.flowVersion == v && e.body.fact.businessId == id;
        assert e in SetOf(events);
        var i :| 0 <= i < |events| && events[i] == e;
      }
    }
    assert BusinessIn(events, v).Keys == BusinessOf(u, v);
  }

  /** An operation belongs to one flow, so the flows' operations are apart. */
  lemma OperationsSplit(u: set<Event>, vs: seq<Version>, v: Version)
    requires Correlated(u) && v !in vs
    ensures BusinessOfAny(u, vs + [v]) == BusinessOfAny(u, vs) + BusinessOf(u, v)
    ensures BusinessOfAny(u, vs) !! BusinessOf(u, v)
  {
    forall a, b | a in u && b in u && a.body.fact.Business? && b.body.fact.Business? && a.body.fact.businessId == b.body.fact.businessId
      ensures a.body.flowVersion == b.body.flowVersion
    {
      assert KeyOf(ByBusiness, a) == KeyOf(ByBusiness, b);
    }
  }

  lemma {:induction false} BusinessSum(u: set<Event>, rows: map<Version, FlowRow>, vs: seq<Version>)
    requires Correlated(u) && AllDifferent(vs)
    requires forall i | 0 <= i < |vs| :: vs[i] in rows && rows[vs[i]].business == |BusinessOf(u, vs[i])|
    ensures SumRows(rows, vs, FlowBusiness) == |BusinessOfAny(u, vs)|
  {
    if vs == [] {
      assert BusinessOfAny(u, vs) == {};
    } else {
      var init, last := vs[..|vs| - 1], vs[|vs| - 1];
      assert vs == init + [last] && AllDifferent(init);
      hide BusinessOf, BusinessOfAny, Correlated, SumRows;
      BusinessSum(u, rows, init);
      OperationsSplit(u, init, last);
      BusinessRowAdds(rows, init, last);
    }
  }

  lemma BusinessRowAdds(rows: map<Version, FlowRow>, init: seq<Version>, last: Version)
    requires last in rows && forall i | 0 <= i < |init| :: init[i] in rows
    ensures SumRows(rows, init + [last], FlowBusiness) == SumRows(rows, init, FlowBusiness) + rows[last].business
  {
    assert (init + [last])[..|init|] == init;
  }

  lemma AllBusiness(u: set<Event>, e: Evidence, rows: map<Version, FlowRow>, flows: seq<Version>)
    requires SetOf(e.business) == (set b | b in u && b.body.fact.Business?) && rows.Keys == Versions(e) && Lists(rows, flows)
    ensures BusinessOfAny(u, flows) == BusinessIds(u)
  {
    forall b | b in u && b.body.fact.Business?
      ensures b.body.flowVersion in flows
    {
      assert b in SetOf(e.business) && VersionOf(b) in Versions(e);
    }
  }

  // ---- their outcomes ----

  function FlowBusinessWith(o: Option<BusinessOutcome>): FlowRow -> int { (row: FlowRow) => At(row.businessOutcomes, o) }

  ghost function Verdicted(u: set<Event>, ids: set<Id>, o: Option<BusinessOutcome>): set<Id> { set id | id in ids && VerdictOk(u, id, o) }

  lemma {:induction false} BusinessInHas(events: seq<Event>, v: Version, id: Id, o: BusinessOutcome)
    requires forall i | 0 <= i < |events| :: events[i].body.fact.Business?
    ensures id in BusinessIn(events, v) && o in BusinessIn(events, v)[id]
      <==> exists i :: 0 <= i < |events| && events[i].body.flowVersion == v && events[i].body.fact == Business(id, o)
  {
    if events != [] { BusinessInHas(events[..|events| - 1], v, id, o); }
  }

  /** All the evidence of an operation lies in one flow, so the flow's bucket holds all its outcomes. */
  lemma BucketHoldsAll(u: set<Event>, events: seq<Event>, v: Version, id: Id)
    requires Correlated(u) && SetOf(events) == (set e | e in u && e.body.fact.Business?) && id in BusinessOf(u, v)
    ensures id in BusinessIn(events, v) && BusinessIn(events, v)[id] == BusinessOutcomes(u, id)
  {
    assert forall i | 0 <= i < |events| :: events[i] in SetOf(events);
    var own :| own in u && own.body.fact.Business? && own.body.flowVersion == v && own.body.fact.businessId == id;
    assert own in SetOf(events);
    var k :| 0 <= k < |events| && events[k] == own;
    BusinessInKeys(events, v, id);
    forall o: BusinessOutcome
      ensures o in BusinessIn(events, v)[id] <==> o in BusinessOutcomes(u, id)
    {
      BusinessInHas(events, v, id, o);
      if o in BusinessOutcomes(u, id) {
        var e :| e in u && e.body.fact.Business? && e.body.fact.businessId == id && e.body.fact.business == o;
        assert KeyOf(ByBusiness, e) == KeyOf(ByBusiness, own);
        assert e in SetOf(events);
        var i :| 0 <= i < |events| && events[i] == e;
      }
    }
  }

  lemma VerdictsMatch(u: set<Event>, id: Id, o: Option<BusinessOutcome>)
    requires id in BusinessIds(u)
    ensures BusinessVerdict(BusinessOutcomes(u, id)) == o <==> VerdictOk(u, id, o)
  {
    var outcomes := BusinessOutcomes(u, id);
    var e :| e in u && e.body.fact.Business? && e.body.fact.businessId == id;
    var first := e.body.fact.business;
    assert first in outcomes;
    if outcomes == {first} {
      assert !Disagree(outcomes);
    } else {
      var other :| other in outcomes && other != first;
      assert forall x: BusinessOutcome :: outcomes != {x};
      assert Disagree(outcomes);
    }
  }

  lemma VerdictsInRow(u: set<Event>, events: seq<Event>, v: Version, o: Option<BusinessOutcome>)
    requires Correlated(u) && SetOf(events) == (set e | e in u && e.body.fact.Business?) && o in BUSINESS_OUTCOMES
    ensures At(BusinessTally(BusinessIn(events, v)), o) == |Verdicted(u, BusinessOf(u, v), o)|
  {
    var m := BusinessIn(events, v);
    assert forall i | 0 <= i < |events| :: events[i] in SetOf(events);
    forall id: Id
      ensures id in m && BusinessVerdict(m[id]) == o <==> id in Verdicted(u, BusinessOf(u, v), o)
    {
      BusinessInKeys(events, v, id);
      if id in BusinessOf(u, v) {
        BucketHoldsAll(u, events, v, id);
        VerdictsMatch(u, id, o);
      }
    }
    assert (set id | id in m && BusinessVerdict(m[id]) == o) == Verdicted(u, BusinessOf(u, v), o);
  }

  lemma VerdictsAdd(u: set<Event>, vs: seq<Version>, v: Version, o: Option<BusinessOutcome>)
    requires Correlated(u) && v !in vs
    ensures |Verdicted(u, BusinessOfAny(u, vs + [v]), o)| == |Verdicted(u, BusinessOfAny(u, vs), o)| + |Verdicted(u, BusinessOf(u, v), o)|
  {
    OperationsSplit(u, vs, v);
    hide VerdictOk, BusinessOfAny, BusinessOf;
    assert Verdicted(u, BusinessOfAny(u, vs + [v]), o) == Verdicted(u, BusinessOfAny(u, vs), o) + Verdicted(u, BusinessOf(u, v), o);
    assert Verdicted(u, BusinessOfAny(u, vs), o) !! Verdicted(u, BusinessOf(u, v), o);
  }

  lemma {:induction false} VerdictSum(u: set<Event>, rows: map<Version, FlowRow>, vs: seq<Version>, o: Option<BusinessOutcome>)
    requires Correlated(u) && AllDifferent(vs)
    requires forall i | 0 <= i < |vs| :: vs[i] in rows && At(rows[vs[i]].businessOutcomes, o) == |Verdicted(u, BusinessOf(u, vs[i]), o)|
    ensures SumRows(rows, vs, FlowBusinessWith(o)) == |Verdicted(u, BusinessOfAny(u, vs), o)|
  {
    if vs == [] {
      assert BusinessOfAny(u, vs) == {};
      assert Verdicted(u, BusinessOfAny(u, vs), o) == {};
    } else {
      hide BusinessOf, BusinessOfAny, Correlated, Verdicted;
      var init, last := vs[..|vs| - 1], vs[|vs| - 1];
      VerdictSum(u, rows, init, o);
      VerdictsAdd(u, init, last, o);
      assert vs == init + [last];
    }
  }

  /** Business operations, and those completed, cancelled, failed or in dispute, are partitioned by flow. */
  lemma BusinessByFlow(u: set<Event>, asOf: int, inactivityMs: Option<int>, r: Report, flows: seq<Version>)
    requires IdsUnique(u) && Consistent(u) && ReportOk(u, asOf, inactivityMs, r) && Lists(r.flows, flows)
    ensures SumRows(r.flows, flows, FlowBusiness) == r.summary.business
    ensures forall o <- BUSINESS_OUTCOMES :: SumRows(r.flows, flows, FlowBusinessWith(o)) == r.summary.businessOutcomes[o]
  {
    var x := SourcesOf(u, asOf, inactivityMs, r);
    ChecksAreConsistency(u);
    TotalsOf(u, asOf, inactivityMs, r, x);
    BusinessTotal(u, asOf, inactivityMs, r.summary);
    hide Consistent, EvidenceOk, IdsUnique, RequestsOk, TurnsOk, SessionsOk, ReportOk, Represents, Correlated;
    var events := x.evidence.business;
    forall i | 0 <= i < |flows|
      ensures r.flows[flows[i]].business == |BusinessOf(u, flows[i])|
      ensures r.flows[flows[i]].businessOutcomes == BusinessTally(BusinessIn(events, flows[i]))
    {
      FlowRowAt(u, asOf, inactivityMs, r, x, flows[i]);
      BusinessRow(u, events, flows[i]);
    }
    AllBusiness(u, x.evidence, r.flows, flows);
    hide Behind, BusinessTally, BusinessIn;
    BusinessSum(u, r.flows, flows);
    forall o <- BUSINESS_OUTCOMES
      ensures SumRows(r.flows, flows, FlowBusinessWith(o)) == r.summary.businessOutcomes[o]
    {
      forall i | 0 <= i < |flows|
        ensures At(r.flows[flows[i]].businessOutcomes, o) == |Verdicted(u, BusinessOf(u, flows[i]), o)|
      {
        VerdictsInRow(u, events, flows[i], o);
      }
      VerdictSum(u, r.flows, flows, o);
    }
  }

  lemma BusinessTotal(u: set<Event>, asOf: int, inactivityMs: Option<int>, summary: Summary)
    requires EvidenceOk(u, asOf, inactivityMs, summary)
    ensures summary.business == |BusinessIds(u)| && summary.businessOutcomes.Keys == BUSINESS_OUTCOMES
    ensures forall o <- BUSINESS_OUTCOMES :: summary.businessOutcomes[o] == |Verdicted(u, BusinessIds(u), o)|
  {
    forall o <- BUSINESS_OUTCOMES
      ensures summary.businessOutcomes[o] == |Verdicted(u, BusinessIds(u), o)|
    {
      assert Verdicted(u, BusinessIds(u), o) == set id | id in BusinessIds(u) && VerdictOk(u, id, o);
    }
  }
}
