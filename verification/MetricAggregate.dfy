/**
  aggregateMetricEvents (lib/MetricEvents.js): it fails on exactly the unacceptable batches and returns the
  summary that the evidence determines on all others; hence order and repeated delivery do not matter.
 */
module MetricAggregate {
  import opened Wrappers
  import opened MetricEvents
  import opened MetricGroups
  import opened MetricTimeline
  import opened MetricSessions
  import opened MetricTallies
  import opened Tally

  // ---- the groups of a batch ----

  datatype Index = Index(requests: Groups, turns: Groups, business: Groups, starts: Groups, ends: Groups, providers: Groups, sessions: Groups)

  ghost predicate IndexOk(u: set<Event>, x: Index) {
    && IsGrouped(u, ByRequest, x.requests) && IsGrouped(u, ByTurn, x.turns) && IsGrouped(u, ByBusiness, x.business)
    && IsGrouped(u, ByStart, x.starts) && IsGrouped(u, ByEnd, x.ends) && IsGrouped(u, ByProvider, x.providers)
    && IsGrouped(u, BySession, x.sessions)
  }

  method BuildIndex(included: seq<Event>) returns (x: Index)
    requires DistinctIds(included)
    ensures IndexOk(SetOf(included), x)
  {
    hide IsGrouped;
    var requests := GroupBy(included, ByRequest);
    var turns := GroupBy(included, ByTurn);
    var business := GroupBy(included, ByBusiness);
    var starts := GroupBy(included, ByStart);
    var ends := GroupBy(included, ByEnd);
    var providers := GroupBy(included, ByProvider);
    var sessions := GroupBy(included, BySession);
    x := Index(requests, turns, business, starts, ends, providers, sessions);
  }

  // ---- checks ----

  /** Envelopes of a kind beyond one per operation. */
  ghost function SurplusIn(u: set<Event>, g: Grouping): int { |Keyed(u, g, Keys(u, g))| - |Keys(u, g)| }

  lemma SurplusTotal(u: set<Event>, g: Grouping, groups: Groups, keys: seq<Id>)
    requires IsGrouped(u, g, groups) && Listing(keys, groups.Keys)
    ensures Surplus(groups, keys, |keys|) == SurplusIn(u, g)
  {
    SurplusOf(u, g, groups, keys, |keys|);
    assert keys[..|keys|] == keys;
    ListingSet(keys, groups.Keys);
    GroupKeys(u, g, groups);
    CountMembers(keys);
    assert Members(keys) == KeySet(keys);
  }

  lemma BodySurplusTotal(u: set<Event>, groups: Groups, keys: seq<Id>)
    requires IsGrouped(u, ByBusiness, groups) && Listing(keys, groups.Keys)
    ensures BodySurplus(groups, keys, |keys|) == BodySurplusIn(u, Keys(u, ByBusiness))
  {
    BodySurplusOf(u, groups, keys, |keys|);
    assert keys[..|keys|] == keys;
    ListingSet(keys, groups.Keys);
    GroupKeys(u, ByBusiness, groups);
  }

  /** Requests or turns: one representative each, if all envelopes agree. */
  method CheckKind(ghost u: set<Event>, g: Grouping, groups: Groups) returns (r: Option<(seq<Event>, int)>)
    requires IsGrouped(u, g, groups)
    ensures r.Some? <==> Uniform(u, g)
    ensures r.Some? ==> Represents(u, g, r.value.0) && r.value.1 == SurplusIn(u, g)
  {
    var keys := ListKeys(groups.Keys);
    UniformByGroup(u, g, groups);
    var surplus := CheckUniform(groups, keys);
    if surplus.None? { return None; }
    FirstsRepresent(u, g, groups, keys);
    SurplusTotal(u, g, groups, keys);
    assert forall i | 0 <= i < |keys| :: keys[i] in groups;
    r := Some((Firsts(groups, keys), surplus.value));
  }

  method CheckBusinessKind(ghost u: set<Event>, groups: Groups) returns (r: Option<int>)
    requires IsGrouped(u, ByBusiness, groups)
    ensures r.Some? <==> Correlated(u)
    ensures r.Some? ==> r.value == BodySurplusIn(u, Keys(u, ByBusiness))
  {
    var keys := ListKeys(groups.Keys);
    CorrelatedByGroup(u, groups);
    r := CheckBusiness(groups, keys);
    BodySurplusTotal(u, groups, keys);
  }

  ghost predicate IdsUnique(u: set<Event>) { forall a, b | a in u && b in u && a.eventId == b.eventId :: a == b }

  lemma RepsDistinct(u: set<Event>, g: Grouping, reps: seq<Event>)
    requires IdsUnique(u) && Represents(u, g, reps)
    ensures DistinctIds(reps)
  {
    forall i, j | 0 <= i < j < |reps|
      ensures reps[i].eventId != reps[j].eventId
    {
      assert reps[i] in u && reps[j] in u && KeyOf(g, reps[i]) != KeyOf(g, reps[j]);
    }
  }

  /** Positions, sorting, order of time, and retries. */
  method CheckTurns(ghost u: set<Event>, turns: seq<Event>) returns (r: Option<(Groups, nat)>)
    requires IdsUnique(u) && Uniform(u, ByTurn) && TurnList(u, turns)
    ensures r.Some? <==> PositionsOk(u) && ChronologyOk(u)
    ensures r.Some? ==> Timelines(u, r.value.0) && r.value.1 == |RetryIds(u)|
  {
    RepsDistinct(u, ByTurn, turns);
    PositionsByList(u, turns);
    assert AllTurns(turns);
    var ok := CheckPositions(turns);
    if !ok { return None; }
    hide Uniform, IdsUnique, PlacesDistinct, PositionsOk, ChronologyOk, Timelines, Represents, Chronological, Sorted, PositionsDiffer;
    var groups := GroupBy(turns, BySession);
    var keys := ListKeys(groups.Keys);
    forall k <- groups
      ensures PositionsDiffer(groups[k])
    {
      GroupPositions(u, turns, groups, k);
    }
    hide IsGrouped, DistinctIds;
    var lines := SortAll(groups, keys);
    SortedTimelines(u, turns, groups, lines);
    ChronologyByLine(u, lines);
    var retries := CheckTimelines(lines, keys);
    if retries.None? { return None; }
    RetriesByLine(u, lines, keys);
    r := Some((lines, retries.value));
  }

  /** The session whose start is listed under a key, given that its starts agree. */
  method SessionDetail(ghost u: set<Event>, x: Index, lines: Groups, asOf: int, inactivityMs: Option<int>, s: Id) returns (d: Detail)
    requires IndexOk(u, x) && Timelines(u, lines) && s in x.starts
    ensures d.sessionId == s && DetailOk(u, asOf, inactivityMs, d)
  {
    var start := x.starts[s][0];
    assert start in x.starts[s];
    LineOf(u, lines, s);
    GroupOfIs(u, ByEnd, x.ends, s);
    GroupOfIs(u, ByProvider, x.providers, s);
    d := DetailOf(u, s, asOf, inactivityMs, start, GroupOf(lines, s), GroupOf(x.ends, s), GroupOf(x.providers, s));
  }

  lemma LineOf(u: set<Event>, lines: Groups, s: Id)
    requires Timelines(u, lines)
    ensures IsTimeline(u, s, GroupOf(lines, s))
  {
  }

  /** The starts of the first n keys are in order, their surplus counted and their sessions judged. */
  ghost predicate SessionsSoFar(u: set<Event>, x: Index, asOf: int, inactivityMs: Option<int>, keys: seq<Id>, n: nat,
                                details: seq<Detail>, surplus: int)
    requires n <= |keys| && forall i | 0 <= i < |keys| :: keys[i] in x.starts
  {
    && Judged(u, asOf, inactivityMs, keys[..n], details)
    && (forall j | 0 <= j < n :: StartOk(x.starts[keys[j]], GroupOf(x.sessions, keys[j])))
    && surplus == Surplus(x.starts, keys, n)
  }

  lemma SessionsNext(u: set<Event>, x: Index, asOf: int, inactivityMs: Option<int>, keys: seq<Id>, n: nat,
                     details: seq<Detail>, surplus: int, d: Detail)
    requires n < |keys| && forall i | 0 <= i < |keys| :: keys[i] in x.starts
    requires SessionsSoFar(u, x, asOf, inactivityMs, keys, n, details, surplus)
    requires StartOk(x.starts[keys[n]], GroupOf(x.sessions, keys[n])) && d.sessionId == keys[n] && DetailOk(u, asOf, inactivityMs, d)
    ensures SessionsSoFar(u, x, asOf, inactivityMs, keys, n + 1, details + [d], surplus + |x.starts[keys[n]]| - 1)
  {
    hide StartOk, DetailOk, GroupOf;
    assert keys[..n + 1] == keys[..n] + [keys[n]];
  }

  /** Every start is checked, its surplus counted and its session judged. */
  method CheckSessions(ghost u: set<Event>, x: Index, lines: Groups, asOf: int, inactivityMs: Option<int>, keys: seq<Id>)
      returns (r: Option<(seq<Detail>, int)>)
    requires IndexOk(u, x) && Timelines(u, lines) && Listing(keys, x.starts.Keys)
    ensures r.Some? <==> StartsOk(u)
    ensures r.Some? ==> Judged(u, asOf, inactivityMs, keys, r.value.0) && r.value.1 == SurplusIn(u, ByStart)
  {
    hide IndexOk, Timelines, StartsOk, StartOk, GroupOf;
    StartsListed(u, x, keys);
    var details: seq<Detail> := [];
    var surplus := 0;
    var i := 0;
    while i < |keys|
      invariant 0 <= i <= |keys|
      invariant SessionsSoFar(u, x, asOf, inactivityMs, keys, i, details, surplus)
    {
      hide SessionsSoFar;
      var s := keys[i];
      if !StartOk(x.starts[s], GroupOf(x.sessions, s)) { return None; }
      var d := SessionDetail(u, x, lines, asOf, inactivityMs, s);
      SessionsNext(u, x, asOf, inactivityMs, keys, i, details, surplus, d);
      surplus := surplus + |x.starts[s]| - 1;
      details := details + [d];
      i := i + 1;
    }
    assert keys[..i] == keys;
    SurplusTotalStarts(u, x, keys);
    r := Some((details, surplus));
  }

  lemma SurplusTotalStarts(u: set<Event>, x: Index, keys: seq<Id>)
    requires IndexOk(u, x) && Listing(keys, x.starts.Keys)
    ensures Surplus(x.starts, keys, |keys|) == SurplusIn(u, ByStart)
  {
    SurplusTotal(u, ByStart, x.starts, keys);
  }

  ghost predicate Judged(u: set<Event>, asOf: int, inactivityMs: Option<int>, keys: seq<Id>, details: seq<Detail>) {
    && |details| == |keys|
    && forall i | 0 <= i < |keys| :: details[i].sessionId == keys[i] && DetailOk(u, asOf, inactivityMs, details[i])
  }

  lemma StartsListed(u: set<Event>, x: Index, keys: seq<Id>)
    requires IndexOk(u, x) && Listing(keys, x.starts.Keys)
    ensures StartsOk(u) <==> forall i | 0 <= i < |keys| :: StartOk(x.starts[keys[i]], GroupOf(x.sessions, keys[i]))
  {
    StartsByGroup(u, x.starts, x.sessions);
    hide IndexOk, StartsOk, StartOk, GroupOf;
    if forall i | 0 <= i < |keys| :: StartOk(x.starts[keys[i]], GroupOf(x.sessions, keys[i])) {
      forall s <- x.starts
        ensures StartOk(x.starts[s], GroupOf(x.sessions, s))
      {
        var i :| 0 <= i < |keys| && keys[i] == s;
      }
    }
  }

  // ---- the checks are consistency ----

  ghost predicate ChecksPass(u: set<Event>) {
    && Uniform(u, ByRequest) && Uniform(u, ByTurn) && Correlated(u)
    && PositionsOk(u) && ChronologyOk(u) && StartsOk(u)
  }

  lemma PairsCompatible(u: set<Event>, a: Event, b: Event)
    requires IdsUnique(u) && ChecksPass(u) && a in u && b in u
    ensures Compatible(a, b)
  {
    var f, g := a.body.fact, b.body.fact;
    if LogicalOf(f).Some? && LogicalOf(f) == LogicalOf(g) {
      assert KeyOf(ByRequest, a).Some? ==> KeyOf(ByRequest, a) == KeyOf(ByRequest, b);
      assert KeyOf(ByTurn, a).Some? ==> KeyOf(ByTurn, a) == KeyOf(ByTurn, b);
      assert KeyOf(ByBusiness, a).Some? ==> KeyOf(ByBusiness, a) == KeyOf(ByBusiness, b);
    }
    if f.Turn? && g.Turn? && a.body.sessionId == b.body.sessionId {
      assert f.position == g.position ==> SamePlace(a.body, b.body);
      assert f.position < g.position ==> Precedes(a.body, b.body);
    }
    if f.SessionStart? && g.SessionStart? && a.body.sessionId == b.body.sessionId {
      assert KeyOf(ByStart, a) == KeyOf(ByStart, b);
    }
  }

  lemma CompatibleUniform(u: set<Event>, g: Grouping)
    requires Consistent(u) && g in {ByRequest, ByTurn, ByStart}
    ensures Uniform(u, g)
  {
    forall a, b | a in u && b in u && KeyOf(g, a).Some? && KeyOf(g, a) == KeyOf(g, b)
      ensures a.body == b.body
    {
      assert Compatible(a, b);
      assert a.body == Body(a.body.at, a.body.sessionId, a.body.flowVersion, a.body.fact);
    }
  }

  /** The checks made group by group, position by position and line by line are the pairwise consistency of the batch. */
  lemma ChecksAreConsistency(u: set<Event>)
    requires IdsUnique(u)
    ensures ChecksPass(u) <==> Consistent(u)
  {
    if ChecksPass(u) {
      forall a, b | a in u && b in u
        ensures Compatible(a, b)
      {
        PairsCompatible(u, a, b);
      }
    }
    if Consistent(u) {
      CompatibleUniform(u, ByRequest);
      CompatibleUniform(u, ByTurn);
      CompatibleUniform(u, ByStart);
      RestOfChecks(u);
    }
  }

  lemma RestOfChecks(u: set<Event>)
    requires Consistent(u) && Uniform(u, ByStart)
    ensures Correlated(u) && PositionsOk(u) && ChronologyOk(u) && StartsOk(u)
  {
    hide Uniform;
    forall a, b | a in u && b in u
      ensures Compatible(a, b)
    {
    }
  }

  // ---- the summary ----

  lemma DuplicateFactsAre(u: set<Event>)
    ensures DuplicateFacts(u) == SurplusIn(u, ByRequest) + SurplusIn(u, ByTurn) + SurplusIn(u, ByStart) + BodySurplusIn(u, Keys(u, ByBusiness))
  {
    KindSurplus(u);
    var business := Keyed(u, ByBusiness, Keys(u, ByBusiness));
    assert business == set e | e in u && e.body.fact.Business?;
    assert BodiesOf(business) == set e | e in u && e.body.fact.Business? :: e.body;
  }

  lemma KindSurplus(u: set<Event>)
    ensures SurplusIn(u, ByRequest) == |set e | e in u && e.body.fact.Request?| - |RequestIds(u)|
    ensures SurplusIn(u, ByTurn) == |set e | e in u && e.body.fact.Turn?| - |TurnIds(u)|
    ensures SurplusIn(u, ByStart) == |set e | e in u && e.body.fact.SessionStart?| - |Started(u)|
  {
    assert Keyed(u, ByRequest, Keys(u, ByRequest)) == set e | e in u && e.body.fact.Request?;
    assert Keys(u, ByRequest) == RequestIds(u);
    assert Keyed(u, ByTurn, Keys(u, ByTurn)) == set e | e in u && e.body.fact.Turn?;
    assert Keys(u, ByTurn) == TurnIds(u);
    assert Keyed(u, ByStart, Keys(u, ByStart)) == set e | e in u && e.body.fact.SessionStart?;
    assert Keys(u, ByStart) == Started(u);
  }

  lemma JudgedDiffer(u: set<Event>, ks: set<Id>, asOf: int, inactivityMs: Option<int>, keys: seq<Id>, details: seq<Detail>)
    requires Judged(u, asOf, inactivityMs, keys, details) && Listing(keys, ks)
    ensures DetailsDiffer(details)
  {
  }

  lemma SameDetails(details: seq<Detail>, sorted: seq<Detail>)
    requires multiset(sorted) == multiset(details)
    ensures forall d: Detail :: d in sorted <==> d in details
  {
    forall d: Detail
      ensures d in sorted <==> d in details
    {
      assert d in multiset(sorted) <==> d in multiset(details);
    }
  }

  lemma JudgedIds(u: set<Event>, asOf: int, inactivityMs: Option<int>, keys: seq<Id>, ks: set<Id>, details: seq<Detail>)
    requires Listing(keys, ks) && Judged(u, asOf, inactivityMs, keys, details)
    ensures IdsOf(details) == ks && forall d <- details :: DetailOk(u, asOf, inactivityMs, d)
  {
    hide DetailOk;
    forall id <- ks
      ensures id in IdsOf(details)
    {
      var i :| 0 <= i < |keys| && keys[i] == id;
      assert details[i] in details;
    }
  }

  /** The sorted details list the started sessions. */
  lemma SortedJudged(u: set<Event>, x: Index, asOf: int, inactivityMs: Option<int>, keys: seq<Id>, details: seq<Detail>, sorted: seq<Detail>)
    requires IsGrouped(u, ByStart, x.starts) && Listing(keys, x.starts.Keys)
    requires Judged(u, asOf, inactivityMs, keys, details) && multiset(sorted) == multiset(details)
    ensures IdsOf(sorted) == Started(u) && forall d <- sorted :: DetailOk(u, asOf, inactivityMs, d)
  {
    GroupKeys(u, ByStart, x.starts);
    assert Keys(u, ByStart) == Started(u);
    hide IsGrouped, DetailOk, Started, Judged, Listing, Keys;
    JudgedIds(u, asOf, inactivityMs, keys, x.starts.Keys, details);
    SameDetails(details, sorted);
    assert IdsOf(sorted) == IdsOf(details);
  }

  /** What the checks leave behind for the counts. */
  datatype Findings = Findings(index: Index, requests: seq<Event>, turns: seq<Event>, retries: nat,
                               started: seq<Id>, details: seq<Detail>, duplicateFacts: int)

  ghost predicate FindingsOk(u: set<Event>, asOf: int, inactivityMs: Option<int>, f: Findings) {
    && IndexOk(u, f.index)
    && Represents(u, ByRequest, f.requests) && Represents(u, ByTurn, f.turns) && f.retries == |RetryIds(u)|
    && Listing(f.started, f.index.starts.Keys) && Judged(u, asOf, inactivityMs, f.started, f.details)
    && f.duplicateFacts == DuplicateFacts(u)
  }

  lemma IncludedUnique(included: seq<Event>)
    requires DistinctIds(included)
    ensures IdsUnique(SetOf(included))
  {
  }

  /** Every check of the batch, in the order the loops make them. */
  method CheckAll(included: seq<Event>, asOf: int, inactivityMs: Option<int>) returns (r: Option<Findings>)
    requires DistinctIds(included)
    ensures r.Some? <==> Consistent(SetOf(included))
    ensures r.Some? ==> FindingsOk(SetOf(included), asOf, inactivityMs, r.value)
  {
    ghost var u := SetOf(included);
    IncludedUnique(included);
    ChecksAreConsistency(u);
    var x := BuildIndex(included);
    hide IdsUnique, Consistent, Uniform, Correlated, PositionsOk, ChronologyOk, StartsOk, IsGrouped, DistinctIds, DuplicateFacts,
         Represents, Timelines, Judged, RetryIds, SurplusIn, BodySurplusIn, Listing;
    var requests := CheckKind(u, ByRequest, x.requests);
    if requests.None? { return None; }
    var turns := CheckKind(u, ByTurn, x.turns);
    if turns.None? { return None; }
    var business := CheckBusinessKind(u, x.business);
    if business.None? { return None; }
    var line := CheckTurns(u, turns.value.0);
    if line.None? { return None; }
    var keys := ListKeys(x.starts.Keys);
    var sessions := CheckSessions(u, x, line.value.0, asOf, inactivityMs, keys);
    if sessions.None? { return None; }
    DuplicateFactsAre(u);
    r := Some(Findings(x, requests.value.0, turns.value.0, line.value.1, keys, sessions.value.0,
                       requests.value.1 + turns.value.1 + sessions.value.1 + business.value));
  }

  /** The counts of a batch that passed. */
  method Count(included: seq<Event>, future: nat, duplicates: nat, asOf: int, inactivityMs: Option<int>, f: Findings) returns (r: Summary)
    requires DistinctIds(included) && FindingsOk(SetOf(included), asOf, inactivityMs, f) && f.duplicateFacts >= 0
    ensures r.uniqueEvents == |included| && r.futureEvents == future && r.duplicateEvents == duplicates
    ensures EvidenceOk(SetOf(included), asOf, inactivityMs, r)
  {
    ghost var u := SetOf(included);
    JudgedDiffer(u, f.index.starts.Keys, asOf, inactivityMs, f.started, f.details);
    var details := SortDetails(f.details);
    var operations := ListKeys(f.index.business.Keys);
    var orphans := OrphanList(included, f.index.starts);
    CountOrphans(included, f.index.starts);
    SortedJudged(u, f.index, asOf, inactivityMs, f.started, f.details, details);
    r := Summary(|included|, future, duplicates, f.duplicateFacts, |orphans|, |set e | e in orphans :: e.body.sessionId|,
                 |f.requests|, RequestCounts(f.requests), |f.turns|, TurnCounts(f.turns), ErrorCounts(f.turns), f.retries,
                 details, SessionCounts(details), |operations|, BusinessCounts(f.index.business, operations));
    BusinessCounted(u, f.index.business, operations, r);
    hide DistinctIds, IsGrouped, RetryIds, Represents, Listing, Judged, DetailOk, Started, Orphans, DuplicateFacts,
         RequestsOk, TurnsOk, SessionsOk, BusinessOk, RequestCounts, TurnCounts, ErrorCounts, SessionCounts, BusinessCounts;
    RequestsCounted(u, f.requests, r);
    TurnsCounted(u, f.turns, r);
    SessionsCounted(u, asOf, inactivityMs, r);
  }

  lemma {:induction false} BodiesFewer(events: set<Event>)
    ensures |BodiesOf(events)| <= |events|
    decreases |events|
  {
    if events != {} {
      var e :| e in events;
      BodiesFewer(events - {e});
      assert BodiesOf(events) == BodiesOf(events - {e}) + {e.body};
    }
  }

  lemma {:induction false} KeysFewerIn(v: set<Event>, g: Grouping)
    requires forall e <- v :: KeyOf(g, e).Some?
    ensures |Keys(v, g)| <= |v|
    decreases |v|
  {
    if v != {} {
      var e :| e in v;
      KeysFewerIn(v - {e}, g);
      assert Keys(v, g) == Keys(v - {e}, g) + {KeyOf(g, e).value};
    }
  }

  lemma KeysFewer(u: set<Event>, g: Grouping)
    ensures SurplusIn(u, g) >= 0
  {
    var v := Keyed(u, g, Keys(u, g));
    KeysFewerIn(v, g);
    assert Keys(v, g) == Keys(u, g);
  }

  lemma DuplicateFactsCount(u: set<Event>)
    ensures DuplicateFacts(u) >= 0
  {
    DuplicateFactsAre(u);
    KeysFewer(u, ByRequest);
    KeysFewer(u, ByTurn);
    KeysFewer(u, ByStart);
    BodiesFewer(Keyed(u, ByBusiness, Keys(u, ByBusiness)));
  }

  /** What aggregation answers: nothing for an unacceptable batch, the evidence's summary for any other. */
  ghost predicate Answers(sources: seq<Event>, asOf: int, inactivityMs: Option<int>, r: Option<Summary>) {
    && (r.Some? <==> Acceptable(sources, asOf, inactivityMs))
    && (r.Some? ==> |SetOf(sources)| <= |sources| && SummaryOk(SetOf(sources), |sources| - |SetOf(sources)|, asOf, inactivityMs, r.value))
  }

  /** Aggregation of events that are already one per identity. */
  method AggregateDistinct(events: seq<Event>, duplicates: nat, asOf: int, inactivityMs: Option<int>) returns (r: Option<Summary>)
    requires DistinctIds(events)
    ensures r.Some? <==> Consistent(Included(SetOf(events), asOf))
    ensures r.Some? ==> SummaryOk(SetOf(events), duplicates, asOf, inactivityMs, r.value)
  {
    hide EvidenceOk, Consistent;
    var included := UpTo(events, asOf);
    UpToIncluded(events, asOf);
    DistinctCard(events);
    DistinctCard(included);
    hide DistinctIds;
    IncludedCard(SetOf(events), asOf);
    var findings := CheckAll(included, asOf, inactivityMs);
    if findings.None? { return None; }
    DuplicateFactsCount(SetOf(included));
    var summary := Count(included, |events| - |included|, duplicates, asOf, inactivityMs, findings.value);
    r := Some(summary);
  }

  method Aggregate(sources: seq<Event>, asOf: int, inactivityMs: Option<int>) returns (r: Option<Summary>)
    ensures Answers(sources, asOf, inactivityMs, r)
  {
    hide SummaryOk, Consistent, Included;
    if !ValidPolicy(inactivityMs) || |sources| > MAX_BATCH { return None; }
    var distinct := Deduplicate(sources);
    if distinct.None? { return None; }
    DistinctCard(distinct.value.0);
    r := AggregateDistinct(distinct.value.0, distinct.value.1, asOf, inactivityMs);
  }

  lemma IncludedCard(all: set<Event>, asOf: int)
    ensures |Included(all, asOf)| <= |all|
  {
    SubsetCard(Included(all, asOf), all);
  }

  // ---- order and repeated delivery ----

  lemma SameMembers(a: seq<Event>, b: seq<Event>)
    requires multiset(a) == multiset(b)
    ensures SetOf(a) == SetOf(b) && |a| == |b|
  {
    assert |multiset(a)| == |a| && |multiset(b)| == |b|;
    forall e: Event
      ensures e in a <==> e in b
    {
      assert e in multiset(a) <==> e in multiset(b);
    }
  }

  lemma SameAcceptance(a: seq<Event>, b: seq<Event>, asOf: int, inactivityMs: Option<int>)
    requires SetOf(a) == SetOf(b) && (|a| <= MAX_BATCH <==> |b| <= MAX_BATCH)
    ensures Acceptable(a, asOf, inactivityMs) <==> Acceptable(b, asOf, inactivityMs)
  {
    hide Consistent;
    forall e: Event
      ensures e in a <==> e in b
    {
      assert e in SetOf(a) <==> e in SetOf(b);
    }
  }

  /** Whether aggregation fails, and what it returns, does not depend on the order of its input. */
  lemma OrderDoesNotMatter(a: seq<Event>, b: seq<Event>, asOf: int, inactivityMs: Option<int>, r: Option<Summary>, r': Option<Summary>)
    requires multiset(a) == multiset(b)
    requires Answers(a, asOf, inactivityMs, r) && Answers(b, asOf, inactivityMs, r')
    ensures r == r'
  {
    SameMembers(a, b);
    SameAcceptance(a, b, asOf, inactivityMs);
    if r.Some? {
      SummaryUnique(SetOf(a), |a| - |SetOf(a)|, asOf, inactivityMs, r.value, r'.value);
    }
  }

  lemma WithDuplicates(all: set<Event>, duplicates: nat, more: nat, asOf: int, inactivityMs: Option<int>, r: Summary)
    requires SummaryOk(all, duplicates, asOf, inactivityMs, r)
    ensures SummaryOk(all, more, asOf, inactivityMs, r.(duplicateEvents := more))
  {
  }

  /** Delivering events of the batch again raises the count of duplicates and changes nothing else; only the size limit can make it fail. */
  lemma RedeliveryCountsOnly(a: seq<Event>, again: seq<Event>, asOf: int, inactivityMs: Option<int>, r: Option<Summary>, r': Option<Summary>)
    requires forall e <- again :: e in a
    requires Answers(a, asOf, inactivityMs, r) && Answers(a + again, asOf, inactivityMs, r')
    ensures r'.Some? <==> r.Some? && |a| + |again| <= MAX_BATCH
    ensures r'.Some? ==> r'.value == r.value.(duplicateEvents := r.value.duplicateEvents + |again|)
  {
    hide SummaryOk, Consistent;
    assert SetOf(a + again) == SetOf(a);
    if |a| + |again| <= MAX_BATCH {
      SameAcceptance(a, a + again, asOf, inactivityMs);
      if r.Some? {
        SummaryDuplicates(SetOf(a), |a| - |SetOf(a)|, asOf, inactivityMs, r.value);
        var more := |a| + |again| - |SetOf(a)|;
        WithDuplicates(SetOf(a), |a| - |SetOf(a)|, more, asOf, inactivityMs, r.value);
        SummaryUnique(SetOf(a), more, asOf, inactivityMs, r.value.(duplicateEvents := more), r'.value);
      }
    }
  }

  lemma SummaryDuplicates(all: set<Event>, duplicates: nat, asOf: int, inactivityMs: Option<int>, r: Summary)
    requires SummaryOk(all, duplicates, asOf, inactivityMs, r)
    ensures r.duplicateEvents == duplicates
  {
  }
}
