/**
  buildMetricReport (lib/MetricReporting.js:22-124): one row per flow version and one per flow state. Every
  count of the summary is split over the rows without loss, and validation retries are the same whether they
  are counted by state, by flow or all at once.
 */
module MetricReport {
  import opened Wrappers
  import opened MetricEvents
  import opened MetricGroups
  import opened MetricTimeline
  import opened MetricTallies
  import opened MetricAggregate
  import opened MetricBuckets
  import opened MetricStates
  import opened Partition
  import opened Tally

  // ---- summaries of one row's turns ----

  datatype TurnSummary = TurnSummary(total: nat, outcomes: map<TurnOutcome, nat>, validationRetries: nat, backendErrors: nat,
                                     errors: map<ErrorClass, nat>, latencyCount: nat, latencySumMs: int)

  function IsBackend(b: Body): bool {
    match b.fact
    case Request(_, outcome, _, error) => outcome == RequestError && error in {Some(Storage), Some(Provider), Some(Handler)}
    case Turn(_, _, _, _, outcome, _, error) => outcome == TurnError && error in {Some(Storage), Some(Provider), Some(Handler)}
    case _ => false
  }

  /** The operation ended in an error of this class. */
  predicate FailsWith(f: Fact, c: ErrorClass) {
    (f.Request? && f.requestOutcome == RequestError && f.requestError == Some(c))
    || (f.Turn? && f.outcome == TurnError && f.errorClass == Some(c))
  }

  /** Backend errors are errors of the storage, the provider or the handler; a timeout or a refused input is none. */
  lemma BackendIs(b: Body)
    ensures IsBackend(b) <==> (exists c :: c in {Storage, Provider, Handler} && FailsWith(b.fact, c))
  {
    if IsBackend(b) {
      var c := if b.fact.Request? then b.fact.requestError.value else b.fact.errorClass.value;
      assert c in {Storage, Provider, Handler} && FailsWith(b.fact, c);
    }
  }

  function DurationOf(t: Event): int { if t.body.fact.Turn? then t.body.fact.durationMs else 0 }

  /** The average duration of some turns lies between the shortest and the longest. */
  lemma {:induction false} MeanWithinRange(turns: seq<Event>, lo: int, hi: int)
    requires forall i | 0 <= i < |turns| :: turns[i].body.fact.Turn? && lo <= turns[i].body.fact.durationMs <= hi
    ensures lo * |turns| <= Weigh(turns, DurationOf) <= hi * |turns|
  {
    if turns != [] { MeanWithinRange(turns[..|turns| - 1], lo, hi); }
  }

  /** Distinct turns at distinct places, in distinct envelopes. */
  ghost predicate RowTurns(turns: seq<Event>) {
    AllTurns(turns) && DistinctKeys(ByTurn, turns) && PlacesDistinct(turns) && DistinctIds(turns)
  }

  ghost predicate TurnSummaryOk(turns: seq<Event>, r: TurnSummary) {
    && r.total == |turns| && r.outcomes == TurnCounts(turns) && r.errors == ErrorCounts(turns)
    && r.backendErrors == CountOf(Values(turns, IsBackend), true)
    && r.validationRetries == |RetryIds(SetOf(turns))|
    && r.latencyCount == |turns| && r.latencySumMs == Weigh(turns, DurationOf)
  }

  lemma RowRepresents(turns: seq<Event>)
    requires RowTurns(turns)
    ensures Represents(SetOf(turns), ByTurn, turns) && Uniform(SetOf(turns), ByTurn)
  {
    var u := SetOf(turns);
    forall e <- u
      ensures Represented(turns, e.body)
    {
      var i :| 0 <= i < |turns| && turns[i] == e;
    }
    forall a, b | a in u && b in u && KeyOf(ByTurn, a).Some? && KeyOf(ByTurn, a) == KeyOf(ByTurn, b)
      ensures a.body == b.body
    {
      var i :| 0 <= i < |turns| && turns[i] == a;
      var j :| 0 <= j < |turns| && turns[j] == b;
      DifferentKeys(turns, i, j);
    }
  }

  lemma DifferentKeys(turns: seq<Event>, i: nat, j: nat)
    requires DistinctKeys(ByTurn, turns) && i < |turns| && j < |turns|
    ensures KeyOf(ByTurn, turns[i]) == KeyOf(ByTurn, turns[j]) ==> i == j
  {
  }

  /** Retries of one row: its turns grouped by session, sorted, and compared with their neighbours in the row. */
  method CountRetries(turns: seq<Event>) returns (retries: nat)
    requires RowTurns(turns)
    ensures retries == |RetryIds(SetOf(turns))|
  {
    ghost var u := SetOf(turns);
    RowRepresents(turns);
    var groups := GroupBy(turns, BySession);
    var keys := ListKeys(groups.Keys);
    forall k <- groups
      ensures PositionsDiffer(groups[k])
    {
      GroupPositions(u, turns, groups, k);
    }
    hide RowTurns, Represents, Uniform, IsGrouped, PositionsDiffer, Sorted, Timelines, RetryIds;
    var lines := SortAll(groups, keys);
    SortedTimelines(u, turns, groups, lines);
    retries := SumRetries(lines, keys);
    RetriesByLine(u, lines, keys);
  }

  method SumRetries(lines: Groups, keys: seq<Id>) returns (retries: nat)
    requires Listing(keys, lines.Keys)
    ensures retries == RetrySum(lines, keys, |keys|)
  {
    retries := 0;
    var i := 0;
    while i < |keys|
      invariant 0 <= i <= |keys| && retries == RetrySum(lines, keys, i)
    {
      var line := lines[keys[i]];
      var j := 1;
      var n := 0;
      while j < |line|
        invariant 1 <= j && (j <= |line| || line == [])
        invariant n == RetryCount(line, if j <= |line| then j else 0)
      {
        if Retries(line[j - 1].body, line[j].body) { n := n + 1; }
        j := j + 1;
      }
      retries := retries + n;
      i := i + 1;
    }
  }

  method SummarizeTurns(turns: seq<Event>) returns (r: TurnSummary)
    requires RowTurns(turns)
    ensures TurnSummaryOk(turns, r)
  {
    var retries := CountRetries(turns);
    r := TurnSummary(|turns|, TurnCounts(turns), retries, CountOf(Values(turns, IsBackend), true), ErrorCounts(turns),
                     |turns|, Weigh(turns, DurationOf));
  }

  /** A row's turns are as distinct as all turns. */
  lemma {:induction false} PickRowTurns<K(!new)>(turns: seq<Event>, f: Event -> K, k: K)
    requires RowTurns(turns)
    ensures RowTurns(Pick(turns, f, k))
  {
    if turns != [] {
      var init, last := turns[..|turns| - 1], turns[|turns| - 1];
      PickRowTurns(init, f, k);
      var row := Pick(init, f, k);
      forall i | 0 <= i < |row|
        ensures row[i] in init
      {
        PickHas(init, f, k, row[i]);
      }
      AppendRowTurn(turns, row, |turns| - 1);
    }
  }

  lemma AppendRowTurn(turns: seq<Event>, row: seq<Event>, n: nat)
    requires RowTurns(turns) && n == |turns| - 1 && RowTurns(row) && forall i | 0 <= i < |row| :: row[i] in turns[..n]
    ensures RowTurns(row + [turns[n]])
  {
    forall i | 0 <= i < |row|
      ensures KeyOf(ByTurn, row[i]) != KeyOf(ByTurn, turns[n]) && !SamePlace(row[i].body, turns[n].body) && row[i].eventId != turns[n].eventId
    {
      var j :| 0 <= j < n && turns[j] == row[i];
    }
  }

  // ---- rows ----

  datatype FlowRow = FlowRow(requests: nat, requestOutcomes: map<RequestOutcome, nat>, requestBackendErrors: nat, turns: TurnSummary,
                             sessions: nat, sessionOutcomes: map<SessionOutcome, nat>,
                             business: nat, businessOutcomes: map<Option<BusinessOutcome>, nat>)

  datatype StateRow = StateRow(turns: TurnSummary, sessionsReached: nat, reachedOutcomes: map<SessionOutcome, nat>,
                               exits: map<SessionOutcome, nat>)

  datatype Report = Report(summary: Summary, flows: map<Version, FlowRow>, states: map<StateKey, StateRow>)

  function BusinessVerdict(outcomes: set<BusinessOutcome>): Option<BusinessOutcome> {
    if outcomes == {BusinessCompleted} then Some(BusinessCompleted)
    else if outcomes == {BusinessCancelled} then Some(BusinessCancelled)
    else if outcomes == {BusinessFailed} then Some(BusinessFailed)
    else None
  }

  function BusinessTally(m: map<Id, set<BusinessOutcome>>): map<Option<BusinessOutcome>, nat> {
    map o | o in BUSINESS_OUTCOMES :: |set id | id in m && BusinessVerdict(m[id]) == o|
  }

  ghost predicate FlowRowOk(b: FlowBucket, row: FlowRow) {
    && row.requests == |b.requests| && row.requestOutcomes == RequestCounts(b.requests)
    && row.requestBackendErrors == CountOf(Values(b.requests, IsBackend), true)
    && TurnSummaryOk(b.turns, row.turns)
    && row.sessions == |b.sessions| && row.sessionOutcomes == SessionCounts(b.sessions)
    && row.business == |b.business| && row.businessOutcomes == BusinessTally(b.business)
  }

  function ExitDetails(exits: seq<Exit>): (r: seq<Detail>)
    ensures |r| == |exits| && forall i | 0 <= i < |r| :: r[i] == exits[i].detail
  {
    seq(|exits|, i requires 0 <= i < |exits| => exits[i].detail)
  }

  function ReachedTally(reached: set<Id>, outcomes: map<Id, SessionOutcome>): map<SessionOutcome, nat> {
    map o | o in SESSION_OUTCOMES :: |set s | s in reached && s in outcomes && outcomes[s] == o|
  }

  ghost predicate StateRowOk(b: StateBucket, outcomes: map<Id, SessionOutcome>, row: StateRow) {
    && TurnSummaryOk(b.turns, row.turns)
    && row.sessionsReached == |b.reached| && row.reachedOutcomes == ReachedTally(b.reached, outcomes)
    && row.exits == SessionCounts(ExitDetails(b.exits))
  }

  /** The lists a report is built from. */
  datatype Sources = Sources(evidence: Evidence, started: set<Id>, last: map<Id, Event>) {
    function Exits(): seq<Exit> { ExitsOf(last, evidence.details) }
    ghost function Rows(): set<StateKey> { States(evidence.turns, started, Exits()) }
  }

  ghost predicate SourcesOk(u: set<Event>, details: seq<Detail>, x: Sources) {
    && Represents(u, ByTurn, x.evidence.turns) && Represents(u, ByRequest, x.evidence.requests)
    && x.evidence.details == details && x.started == IdsOf(details)
    && SetOf(x.evidence.business) == (set e | e in u && e.body.fact.Business?)
    && LastOk(x.last, x.evidence.turns, x.started)
  }

  function OutcomesById(details: seq<Detail>): map<Id, SessionOutcome> {
    if details == [] then map[]
    else OutcomesById(details[..|details| - 1])[details[|details| - 1].sessionId := details[|details| - 1].outcome]
  }

  ghost predicate RowsOk(x: Sources, r: Report) {
    && r.flows.Keys == Versions(x.evidence)
    && (forall v <- r.flows :: FlowRowOk(FlowOf(x.evidence, v), r.flows[v]))
    && r.states.Keys == x.Rows()
    && (forall k <- r.states :: StateRowOk(StateOf(x.evidence.turns, x.started, x.Exits(), k), OutcomesById(x.evidence.details), r.states[k]))
  }

  const MAX_FLOWS := 128
  const MAX_STATES := 1024

  /** The evidence opens no more rows than a report may have. */
  ghost predicate Fits(u: set<Event>) { |ReportVersions(u)| <= MAX_FLOWS && |ReportStates(u)| <= MAX_STATES }

  ghost predicate ReportOk(u: set<Event>, asOf: int, inactivityMs: Option<int>, r: Report) {
    && EvidenceOk(u, asOf, inactivityMs, r.summary)
    && exists x: Sources :: SourcesOk(u, r.summary.details, x) && RowsOk(x, r)
  }

  method OneFlowRow(b: FlowBucket) returns (row: FlowRow)
    requires RowTurns(b.turns)
    ensures FlowRowOk(b, row)
  {
    var turns := SummarizeTurns(b.turns);
    row := FlowRow(|b.requests|, RequestCounts(b.requests), CountOf(Values(b.requests, IsBackend), true), turns,
                   |b.sessions|, SessionCounts(b.sessions), |b.business|, BusinessTally(b.business));
  }

  method OneStateRow(b: StateBucket, outcomes: map<Id, SessionOutcome>) returns (row: StateRow)
    requires RowTurns(b.turns)
    ensures StateRowOk(b, outcomes, row)
  {
    var turns := SummarizeTurns(b.turns);
    row := StateRow(turns, |b.reached|, ReachedTally(b.reached, outcomes), SessionCounts(ExitDetails(b.exits)));
  }

  method FlowRows(versions: map<Version, FlowBucket>) returns (rows: map<Version, FlowRow>)
    requires forall v <- versions :: RowTurns(versions[v].turns)
    ensures rows.Keys == versions.Keys && forall v <- rows :: FlowRowOk(versions[v], rows[v])
  {
    hide RowTurns, FlowRowOk;
    rows := map[];
    var rest := versions.Keys;
    while rest != {}
      invariant rest <= versions.Keys && forall v <- versions :: v in rest || v in rows
      invariant forall v <- rows :: v in versions && FlowRowOk(versions[v], rows[v])
      decreases |rest|
    {
      var v :| v in rest;
      var row := OneFlowRow(versions[v]);
      rows := rows[v := row];
      rest := rest - {v};
    }
  }

  method StateRows(states: map<StateKey, StateBucket>, outcomes: map<Id, SessionOutcome>) returns (rows: map<StateKey, StateRow>)
    requires forall k <- states :: RowTurns(states[k].turns)
    ensures rows.Keys == states.Keys && forall k <- rows :: StateRowOk(states[k], outcomes, rows[k])
  {
    hide RowTurns, StateRowOk;
    rows := map[];
    var rest := states.Keys;
    while rest != {}
      invariant rest <= states.Keys && forall k <- states :: k in rest || k in rows
      invariant forall k <- rows :: k in states && StateRowOk(states[k], outcomes, rows[k])
      decreases |rest|
    {
      var k :| k in rest;
      var row := OneStateRow(states[k], outcomes);
      rows := rows[k := row];
      rest := rest - {k};
    }
  }

  // ---- building ----

  lemma ListRowTurns(u: set<Event>, turns: seq<Event>)
    requires IdsUnique(u) && Consistent(u) && Represents(u, ByTurn, turns)
    ensures RowTurns(turns)
  {
    ChecksAreConsistency(u);
    RepsDistinct(u, ByTurn, turns);
    PositionsByList(u, turns);
  }

  lemma BucketRowTurns(turns: seq<Event>, versions: map<Version, FlowBucket>, e: Evidence)
    requires RowTurns(e.turns) && FlowsOk(versions, e)
    ensures forall v <- versions :: RowTurns(versions[v].turns)
  {
    forall v <- versions
      ensures RowTurns(versions[v].turns)
    {
      PickRowTurns(e.turns, VersionOf, v);
    }
  }

  lemma StateRowTurns(states: map<StateKey, StateBucket>, turns: seq<Event>, started: set<Id>, exits: seq<Exit>)
    requires RowTurns(turns) && StatesOk(states, turns, started, exits)
    ensures forall k <- states :: RowTurns(states[k].turns)
  {
    forall k <- states
      ensures RowTurns(states[k].turns)
    {
      PickRowTurns(turns, MetState, k);
    }
  }

  function BusinessEvents(events: seq<Event>): seq<Event> {
    if events == [] then []
    else BusinessEvents(events[..|events| - 1]) + (if events[|events| - 1].body.fact.Business? then [events[|events| - 1]] else [])
  }

  lemma {:induction false} BusinessEventsAre(events: seq<Event>, e: Event)
    ensures e in BusinessEvents(events) <==> e in events && e.body.fact.Business?
  {
    if events != [] {
      BusinessEventsAre(events[..|events| - 1], e);
      assert events == events[..|events| - 1] + [events[|events| - 1]];
    }
  }

  /** The operations, sessions and business events of a consistent batch. */
  method Gather(included: seq<Event>, details: seq<Detail>) returns (e: Evidence)
    requires DistinctIds(included) && Consistent(SetOf(included))
    ensures Represents(SetOf(included), ByTurn, e.turns) && Represents(SetOf(included), ByRequest, e.requests)
    ensures e.details == details && RowTurns(e.turns)
    ensures SetOf(e.business) == set x | x in SetOf(included) && x.body.fact.Business?
  {
    ghost var u := SetOf(included);
    IncludedUnique(included);
    ChecksAreConsistency(u);
    UniqueRepresents(ByTurn, included);
    UniqueRepresents(ByRequest, included);
    e := Evidence(Unique(ByTurn, included), Unique(ByRequest, included), details, BusinessEvents(included));
    ListRowTurns(u, e.turns);
    hide RowTurns, Represents, IdsUnique, Consistent, DistinctIds;
    forall x: Event
      ensures x in e.business <==> x in included && x.body.fact.Business?
    {
      BusinessEventsAre(included, x);
    }
  }

  lemma DetailsDoFit(u: set<Event>, asOf: int, inactivityMs: Option<int>, summary: Summary)
    requires EvidenceOk(u, asOf, inactivityMs, summary)
    ensures DetailsFit(u, summary.details)
  {
    assert forall d <- summary.details :: DetailOk(u, asOf, inactivityMs, d);
  }

  /** The Maps of buckets, keyed by exactly the rows that the evidence opens. */
  method Fill(ghost u: set<Event>, e: Evidence) returns (versions: map<Version, FlowBucket>, states: map<StateKey, StateBucket>, last: map<Id, Event>)
    requires Consistent(u) && EvidenceFits(u, e) && RowTurns(e.turns)
    ensures FlowsOk(versions, e) && versions.Keys == ReportVersions(u)
    ensures LastOk(last, e.turns, IdsOf(e.details))
    ensures StatesOk(states, e.turns, IdsOf(e.details), ExitsOf(last, e.details)) && states.Keys == ReportStates(u)
  {
    assert AllTurns(e.turns) && IdsOf(e.details) == Started(u);
    versions := FillFlows(e);
    states, last := FillStates(e.turns, IdsOf(e.details), e.details);
    VersionsAre(u, e);
    RowsAre(u, e.turns, last, e.details);
  }

  lemma Assembled(x: Sources, versions: map<Version, FlowBucket>, states: map<StateKey, StateBucket>, r: Report)
    requires FlowsOk(versions, x.evidence) && StatesOk(states, x.evidence.turns, x.started, x.Exits())
    requires r.flows.Keys == versions.Keys && forall v <- r.flows :: FlowRowOk(versions[v], r.flows[v])
    requires r.states.Keys == states.Keys && forall k <- r.states :: StateRowOk(states[k], OutcomesById(x.evidence.details), r.states[k])
    ensures RowsOk(x, r)
  {
    hide FlowRowOk, StateRowOk, FlowOf, StateOf, Versions, States;
  }

  /** Rows of a batch that passed aggregation, or nothing when there would be too many. */
  method Arrange(ghost u: set<Event>, summary: Summary, e: Evidence) returns (r: Option<Report>, ghost x: Sources)
    requires Consistent(u) && EvidenceFits(u, e) && RowTurns(e.turns) && e.details == summary.details
    ensures SourcesOk(u, summary.details, x)
    ensures r.Some? <==> Fits(u)
    ensures r.Some? ==> r.value.summary == summary && RowsOk(x, r.value)
  {
    var versions, states, last := Fill(u, e);
    x := Sources(e, IdsOf(e.details), last);
    BucketRowTurns(e.turns, versions, e);
    StateRowTurns(states, e.turns, IdsOf(e.details), ExitsOf(last, e.details));
    hide StateRowOk, FlowRowOk, RowTurns, Represents, Consistent, DetailsFit, LastOk, ReportStates, ReportVersions, FlowsOk, StatesOk, RowsOk;
    r := None;
    if |versions| <= MAX_FLOWS && |states| <= MAX_STATES {
      var flows := FlowRows(versions);
      var rows := StateRows(states, OutcomesById(e.details));
      r := Some(Report(summary, flows, rows));
      Assembled(x, versions, states, r.value);
    }
  }

  /** The report of a batch: refused when aggregation refuses it or when its rows do not fit. */
  method BuildReport(sources: seq<Event>, asOf: int, inactivityMs: Option<int>) returns (r: Option<Report>)
    ensures r.Some? <==> Acceptable(sources, asOf, inactivityMs) && Fits(Included(SetOf(sources), asOf))
    ensures r.Some? ==> ReportOk(Included(SetOf(sources), asOf), asOf, inactivityMs, r.value)
    ensures r.Some? ==> Answers(sources, asOf, inactivityMs, Some(r.value.summary))
  {
    var summary := Aggregate(sources, asOf, inactivityMs);
    if summary.None? { return None; }
    var distinct := Deduplicate(sources);
    var included := UpTo(distinct.value.0, asOf);
    UpToIncluded(distinct.value.0, asOf);
    ghost var u := SetOf(included);
    hide EvidenceOk, Fits, DistinctIds, ReportStates, ReportVersions;
    var e := Gather(included, summary.value.details);
    DetailsDoFit(u, asOf, inactivityMs, summary.value);
    ghost var x;
    r, x := Arrange(u, summary.value, e);
  }
}
