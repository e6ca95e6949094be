/**
  The counts of a summary (lib/MetricEvents.js): outcomes over representatives, sorted session details,
  business verdicts and orphans, each equal to a cardinality of the evidence.
 */
module MetricTallies {
  import opened Wrappers
  import opened MetricEvents
  import opened MetricGroups
  import opened Tally

  // ---- requests and turns ----

  function RequestOutcomeOf(b: Body): Option<RequestOutcome> { if b.fact.Request? then Some(b.fact.requestOutcome) else None }

  function TurnOutcomeOf(b: Body): Option<TurnOutcome> { if b.fact.Turn? then Some(b.fact.outcome) else None }

  function ErrorOf(b: Body): Option<ErrorClass> { if b.fact.Turn? then b.fact.errorClass else None }

  lemma CountRequests(u: set<Event>, requests: seq<Event>)
    requires Represents(u, ByRequest, requests)
    ensures |requests| == |RequestIds(u)|
  {
    CountAllReps(u, ByRequest, requests);
    assert Keys(u, ByRequest) == RequestIds(u);
  }

  lemma CountRequestsWith(u: set<Event>, requests: seq<Event>, o: RequestOutcome)
    requires Represents(u, ByRequest, requests)
    ensures CountOf(Values(requests, RequestOutcomeOf), Some(o)) == |RequestIdsWith(u, o)|
  {
    CountReps(u, ByRequest, requests, RequestOutcomeOf, Some(o));
    assert KeysWith(u, ByRequest, RequestOutcomeOf, Some(o)) == RequestIdsWith(u, o);
  }

  lemma CountTurns(u: set<Event>, turns: seq<Event>)
    requires Represents(u, ByTurn, turns)
    ensures |turns| == |TurnIds(u)|
  {
    CountAllReps(u, ByTurn, turns);
    assert Keys(u, ByTurn) == TurnIds(u);
  }

  lemma CountTurnsWith(u: set<Event>, turns: seq<Event>, o: TurnOutcome)
    requires Represents(u, ByTurn, turns)
    ensures CountOf(Values(turns, TurnOutcomeOf), Some(o)) == |TurnIdsWith(u, o)|
  {
    CountReps(u, ByTurn, turns, TurnOutcomeOf, Some(o));
    assert KeysWith(u, ByTurn, TurnOutcomeOf, Some(o)) == TurnIdsWith(u, o);
  }

  lemma CountTurnsFailed(u: set<Event>, turns: seq<Event>, c: ErrorClass)
    requires Represents(u, ByTurn, turns)
    ensures CountOf(Values(turns, ErrorOf), Some(c)) == |TurnIdsFailed(u, c)|
  {
    CountReps(u, ByTurn, turns, ErrorOf, Some(c));
    assert KeysWith(u, ByTurn, ErrorOf, Some(c)) == TurnIdsFailed(u, c);
  }

  /** counts(values, keys) */
  function RequestCounts(requests: seq<Event>): map<RequestOutcome, nat> {
    var values := Values(requests, RequestOutcomeOf);
    map o | o in REQUEST_OUTCOMES :: CountOf(values, Some(o))
  }

  function TurnCounts(turns: seq<Event>): map<TurnOutcome, nat> {
    var values := Values(turns, TurnOutcomeOf);
    map o | o in TURN_OUTCOMES :: CountOf(values, Some(o))
  }

  function ErrorCounts(turns: seq<Event>): map<ErrorClass, nat> {
    var values := Values(turns, ErrorOf);
    map c | c in ERROR_CLASSES :: CountOf(values, Some(c))
  }

  lemma RequestsCounted(u: set<Event>, requests: seq<Event>, r: Summary)
    requires Represents(u, ByRequest, requests) && r.requests == |requests| && r.requestOutcomes == RequestCounts(requests)
    ensures RequestsOk(u, r)
  {
    CountRequests(u, requests);
    forall o <- REQUEST_OUTCOMES
      ensures r.requestOutcomes[o] == |RequestIdsWith(u, o)|
    {
      CountRequestsWith(u, requests, o);
    }
  }

  lemma TurnsCounted(u: set<Event>, turns: seq<Event>, r: Summary)
    requires Represents(u, ByTurn, turns) && r.turns == |turns| && r.validationRetries == |RetryIds(u)|
    requires r.turnOutcomes == TurnCounts(turns) && r.turnErrors == ErrorCounts(turns)
    ensures TurnsOk(u, r)
  {
    CountTurns(u, turns);
    forall o <- TURN_OUTCOMES
      ensures r.turnOutcomes[o] == |TurnIdsWith(u, o)|
    {
      CountTurnsWith(u, turns, o);
    }
    forall c <- ERROR_CLASSES
      ensures r.turnErrors[c] == |TurnIdsFailed(u, c)|
    {
      CountTurnsFailed(u, turns, c);
    }
  }

  // ---- details ----

  function InsertDetail(d: Detail, list: seq<Detail>): seq<Detail> {
    if list == [] || d.sessionId.number < list[0].sessionId.number then [d] + list
    else [list[0]] + InsertDetail(d, list[1..])
  }

  lemma {:induction false} InsertDetailKeepsAll(d: Detail, list: seq<Detail>)
    ensures multiset(InsertDetail(d, list)) == multiset(list) + multiset{d}
  {
    if list == [] || d.sessionId.number < list[0].sessionId.number {
    } else {
      InsertDetailKeepsAll(d, list[1..]);
      assert list == [list[0]] + list[1..];
    }
  }

  lemma {:induction false} InsertDetailKeepsOrder(d: Detail, list: seq<Detail>)
    requires InOrder(list) && forall i | 0 <= i < |list| :: list[i].sessionId != d.sessionId
    ensures var r := InsertDetail(d, list);
      InOrder(r) && r != [] && (r[0] == d || (list != [] && r[0] == list[0]))
  {
    if list == [] || d.sessionId.number < list[0].sessionId.number {
    } else {
      InsertDetailKeepsOrder(d, list[1..]);
      var rest := InsertDetail(d, list[1..]);
      assert list[0].sessionId.number < rest[0].sessionId.number;
    }
  }

  ghost predicate DetailsDiffer(details: seq<Detail>) {
    forall i, j | 0 <= i < j < |details| :: details[i].sessionId != details[j].sessionId
  }

  /** The same details, in order of session identifier. */
  method SortDetails(details: seq<Detail>) returns (sorted: seq<Detail>)
    requires DetailsDiffer(details)
    ensures InOrder(sorted) && multiset(sorted) == multiset(details)
  {
    sorted := [];
    var i := 0;
    while i < |details|
      invariant 0 <= i <= |details|
      invariant InOrder(sorted) && multiset(sorted) == multiset(details[..i])
    {
      forall j | 0 <= j < |sorted|
        ensures sorted[j].sessionId != details[i].sessionId
      {
        assert sorted[j] in multiset(sorted);
        assert sorted[j] in details[..i];
      }
      InsertDetailKeepsOrder(details[i], sorted);
      InsertDetailKeepsAll(details[i], sorted);
      sorted := InsertDetail(details[i], sorted);
      assert details[..i + 1] == details[..i] + [details[i]];
      i := i + 1;
    }
    assert details[..i] == details;
  }

  function OutcomesOf(details: seq<Detail>): (r: seq<SessionOutcome>)
    ensures |r| == |details| && forall i | 0 <= i < |r| :: r[i] == details[i].outcome
  {
    seq(|details|, i requires 0 <= i < |details| => details[i].outcome)
  }

  lemma CountSessions(details: seq<Detail>, o: SessionOutcome)
    requires InOrder(details)
    ensures CountOf(OutcomesOf(details), o) == |set d | d in details && d.outcome == o|
  {
    CountHolders(details, OutcomesOf(details), o);
    assert Holders(details, OutcomesOf(details), o) == set d | d in details && d.outcome == o;
  }

  function SessionCounts(details: seq<Detail>): map<SessionOutcome, nat> {
    var values := OutcomesOf(details);
    map o | o in SESSION_OUTCOMES :: CountOf(values, o)
  }

  lemma SessionsCounted(u: set<Event>, asOf: int, inactivityMs: Option<int>, r: Summary)
    requires InOrder(r.details) && IdsOf(r.details) == Started(u) && forall d <- r.details :: DetailOk(u, asOf, inactivityMs, d)
    requires r.sessionOutcomes == SessionCounts(r.details)
    ensures SessionsOk(u, asOf, inactivityMs, r)
  {
    forall o <- SESSION_OUTCOMES
      ensures r.sessionOutcomes[o] == |set d | d in r.details && d.outcome == o|
    {
      CountSessions(r.details, o);
    }
  }

  // ---- business operations ----

  function BusinessOutcomeOf(b: Body): Option<BusinessOutcome> { if b.fact.Business? then Some(b.fact.business) else None }

  /** The agreed outcome of an operation, or None. */
  function Verdict(group: seq<Event>): Option<BusinessOutcome> {
    var outcomes := Distinct(Values(group, BusinessOutcomeOf));
    if |outcomes| == 1 then outcomes[0] else None
  }

  lemma OutcomeListed(u: set<Event>, id: Id, group: seq<Event>, o: BusinessOutcome)
    requires IsGroup(u, ByBusiness, id, group)
    ensures o in BusinessOutcomes(u, id) <==> Some(o) in Values(group, BusinessOutcomeOf)
  {
    var values := Values(group, BusinessOutcomeOf);
    if o in BusinessOutcomes(u, id) {
      var e :| e in u && e.body.fact.Business? && e.body.fact.businessId == id && e.body.fact.business == o;
      assert KeyOf(ByBusiness, e) == Some(id);
      var i :| 0 <= i < |group| && group[i] == e;
      assert values[i] == Some(o);
    }
    if Some(o) in values {
      var i :| 0 <= i < |values| && values[i] == Some(o);
      assert group[i] in u;
    }
  }

  lemma OutcomesListed(u: set<Event>, id: Id, group: seq<Event>)
    requires IsGroup(u, ByBusiness, id, group)
    ensures var values := Values(group, BusinessOutcomeOf);
      && (forall i | 0 <= i < |values| :: values[i].Some?)
      && (forall o: BusinessOutcome :: o in BusinessOutcomes(u, id) <==> Some(o) in values)
  {
    forall i | 0 <= i < |group|
      ensures BusinessOutcomeOf(group[i].body).Some?
    {
      assert KeyOf(ByBusiness, group[i]) == Some(id);
    }
    forall o: BusinessOutcome
      ensures o in BusinessOutcomes(u, id) <==> Some(o) in Values(group, BusinessOutcomeOf)
    {
      OutcomeListed(u, id, group, o);
    }
  }

  lemma VerdictIs(u: set<Event>, id: Id, group: seq<Event>)
    requires IsGroup(u, ByBusiness, id, group) && group != []
    ensures VerdictOk(u, id, Verdict(group))
  {
    hide IsGroup;
    var values := Values(group, BusinessOutcomeOf);
    OutcomesListed(u, id, group);
    DistinctMany(values);
    if |Distinct(values)| == 1 {
      assert values[0] in values && values[0] == Distinct(values)[0];
    } else {
      var i, j :| 0 <= i < |values| && 0 <= j < |values| && values[i] != values[j];
      assert values[i] in values && values[j] in values;
      assert values[i].value in BusinessOutcomes(u, id) && values[j].value in BusinessOutcomes(u, id);
    }
  }

  lemma OneVerdict(u: set<Event>, id: Id, a: Option<BusinessOutcome>, b: Option<BusinessOutcome>)
    requires VerdictOk(u, id, a) && VerdictOk(u, id, b)
    ensures a == b
  {
    if a.Some? && b.Some? { assert a.value in BusinessOutcomes(u, id); }
  }

  function Verdicts(groups: Groups, keys: seq<Id>): (r: seq<Option<BusinessOutcome>>)
    requires forall i | 0 <= i < |keys| :: keys[i] in groups
    ensures |r| == |keys| && forall i | 0 <= i < |r| :: r[i] == Verdict(groups[keys[i]])
  {
    seq(|keys|, i requires 0 <= i < |keys| => Verdict(groups[keys[i]]))
  }

  lemma VerdictsOk(u: set<Event>, groups: Groups, keys: seq<Id>, i: nat)
    requires IsGrouped(u, ByBusiness, groups) && Listing(keys, groups.Keys) && i < |keys|
    ensures VerdictOk(u, keys[i], Verdict(groups[keys[i]]))
  {
    GroupOfIs(u, ByBusiness, groups, keys[i]);
    VerdictIs(u, keys[i], groups[keys[i]]);
  }

  lemma BusinessKeys(u: set<Event>, groups: Groups, keys: seq<Id>)
    requires IsGrouped(u, ByBusiness, groups) && Listing(keys, groups.Keys)
    ensures Members(keys) == BusinessIds(u) && |keys| == |BusinessIds(u)|
  {
    GroupKeys(u, ByBusiness, groups);
    CountMembers(keys);
    assert Members(keys) == groups.Keys;
    assert Keys(u, ByBusiness) == BusinessIds(u);
  }

  /** Counting verdicts counts the operations whose outcomes agree on one value, or disagree. */
  lemma CountBusiness(u: set<Event>, groups: Groups, keys: seq<Id>, o: Option<BusinessOutcome>)
    requires IsGrouped(u, ByBusiness, groups) && Listing(keys, groups.Keys)
    ensures CountOf(Verdicts(groups, keys), o) == |set id | id in BusinessIds(u) && VerdictOk(u, id, o)|
  {
    var values := Verdicts(groups, keys);
    CountHolders(keys, values, o);
    BusinessKeys(u, groups, keys);
    forall i | 0 <= i < |keys|
      ensures VerdictOk(u, keys[i], values[i])
    {
      VerdictsOk(u, groups, keys, i);
    }
    hide IsGrouped, VerdictOk, Verdict, BusinessIds;
    forall id: Id
      ensures id in Holders(keys, values, o) <==> id in BusinessIds(u) && VerdictOk(u, id, o)
    {
      if id in BusinessIds(u) && VerdictOk(u, id, o) {
        assert id in Members(keys);
        var i :| 0 <= i < |keys| && keys[i] == id;
        OneVerdict(u, id, values[i], o);
      }
      if id in Holders(keys, values, o) {
        var i :| 0 <= i < |keys| && values[i] == o && keys[i] == id;
        assert keys[i] in Members(keys);
      }
    }
    assert Holders(keys, values, o) == set id | id in BusinessIds(u) && VerdictOk(u, id, o);
  }

  function BusinessCounts(groups: Groups, keys: seq<Id>): map<Option<BusinessOutcome>, nat>
    requires forall i | 0 <= i < |keys| :: keys[i] in groups
  {
    var values := Verdicts(groups, keys);
    map o | o in BUSINESS_OUTCOMES :: CountOf(values, o)
  }

  lemma BusinessCounted(u: set<Event>, groups: Groups, keys: seq<Id>, r: Summary)
    requires IsGrouped(u, ByBusiness, groups) && Listing(keys, groups.Keys)
    requires r.business == |keys| && r.businessOutcomes == BusinessCounts(groups, keys)
    ensures BusinessOk(u, r)
  {
    BusinessKeys(u, groups, keys);
    forall o <- BUSINESS_OUTCOMES
      ensures r.businessOutcomes[o] == |set id | id in BusinessIds(u) && VerdictOk(u, id, o)|
    {
      CountBusiness(u, groups, keys, o);
    }
  }

  // ---- orphans ----

  /** The evidence of sessions that have no start. */
  function OrphanList(included: seq<Event>, starts: Groups): seq<Event> {
    if included == [] then []
    else
      var e := included[|included| - 1];
      OrphanList(included[..|included| - 1], starts) + (if !e.body.fact.SessionStart? && e.body.sessionId !in starts then [e] else [])
  }

  lemma {:induction false} OrphanListHas(included: seq<Event>, starts: Groups, e: Event)
    ensures e in OrphanList(included, starts) <==> e in included && !e.body.fact.SessionStart? && e.body.sessionId !in starts
  {
    if included != [] {
      OrphanListHas(included[..|included| - 1], starts, e);
      assert included == included[..|included| - 1] + [included[|included| - 1]];
    }
  }

  lemma {:induction false} OrphanListDistinct(included: seq<Event>, starts: Groups)
    requires DistinctIds(included)
    ensures AllDifferent(OrphanList(included, starts))
  {
    if included != [] {
      var init, last := included[..|included| - 1], included[|included| - 1];
      OrphanListDistinct(init, starts);
      OrphanListHas(init, starts, last);
    }
  }

  lemma CountOrphans(included: seq<Event>, starts: Groups)
    requires DistinctIds(included) && IsGrouped(SetOf(included), ByStart, starts)
    ensures |OrphanList(included, starts)| == |Orphans(SetOf(included))|
    ensures (set e | e in OrphanList(included, starts) :: e.body.sessionId) == set e | e in Orphans(SetOf(included)) :: e.body.sessionId
  {
    var u, list := SetOf(included), OrphanList(included, starts);
    OrphanListDistinct(included, starts);
    CountMembers(list);
    GroupKeys(u, ByStart, starts);
    assert Keys(u, ByStart) == Started(u);
    hide IsGrouped, DistinctIds;
    forall e: Event
      ensures e in list <==> e in Orphans(u)
    {
      OrphanListHas(included, starts, e);
    }
    assert Members(list) == Orphans(u);
  }
}
