/**
  Grouping for reports (lib/MetricReporting.js:57-103): one representative per operation, then Maps of
  buckets by flow version and by flow state, filled one item at a time.
 */
module MetricBuckets {
  import opened Wrappers
  import opened MetricEvents
  import opened MetricGroups
  import opened Tally
  import opened Partition

  type Version = Option<string>
  datatype StateKey = StateKey(version: Version, state: Option<string>)

  // ---- one value per operation ----

  /** Map.set on a list of values keyed by operation: a later value takes the earlier one's place. */
  function Put(g: Grouping, list: seq<Event>, e: Event): seq<Event> {
    if list == [] then [e]
    else if KeyOf(g, list[0]) == KeyOf(g, e) then [e] + list[1..]
    else [list[0]] + Put(g, list[1..], e)
  }

  /** The last event of each logical identifier, in the place of the first. */
  function Unique(g: Grouping, events: seq<Event>): seq<Event> {
    if events == [] then []
    else
      var rest, last := Unique(g, events[..|events| - 1]), events[|events| - 1];
      if KeyOf(g, last).Some? then Put(g, rest, last) else rest
  }

  lemma {:induction false} PutKeys(g: Grouping, list: seq<Event>, e: Event)
    requires DistinctKeys(g, list)
    ensures DistinctKeys(g, Put(g, list, e))
    ensures forall i | 0 <= i < |Put(g, list, e)| :: Put(g, list, e)[i] == e || Put(g, list, e)[i] in list
    ensures Represented(Put(g, list, e), e.body)
  {
    if list == [] {
      assert [e][0].body == e.body;
    } else if KeyOf(g, list[0]) == KeyOf(g, e) {
      assert ([e] + list[1..])[0].body == e.body;
      assert forall i | 0 < i < |list| :: KeyOf(g, list[i]) != KeyOf(g, e);
    } else {
      PutKeys(g, list[1..], e);
      var rest := Put(g, list[1..], e);
      assert forall i | 0 < i < |list| :: KeyOf(g, list[0]) != KeyOf(g, list[i]);
      assert forall x <- list[1..] :: KeyOf(g, x) != KeyOf(g, list[0]);
      var i :| 0 <= i < |rest| && rest[i].body == e.body;
      assert ([list[0]] + rest)[i + 1].body == e.body;
    }
  }

  /** Bodies already represented stay so, provided equal keys mean equal bodies. */
  lemma {:induction false} PutCovers(g: Grouping, list: seq<Event>, e: Event, body: Body)
    requires Represented(list, body) && forall i | 0 <= i < |list| :: KeyOf(g, list[i]) == KeyOf(g, e) ==> list[i].body == e.body
    ensures Represented(Put(g, list, e), body)
  {
    var i :| 0 <= i < |list| && list[i].body == body;
    if KeyOf(g, list[0]) == KeyOf(g, e) {
      assert ([e] + list[1..])[i].body == body;
    } else if i == 0 {
      assert Put(g, list, e)[0].body == body;
    } else {
      assert list[1..][i - 1].body == body;
      PutCovers(g, list[1..], e, body);
      var j :| 0 <= j < |Put(g, list[1..], e)| && Put(g, list[1..], e)[j].body == body;
      assert Put(g, list, e)[j + 1].body == body;
    }
  }

  lemma PutRepresents(u: set<Event>, g: Grouping, list: seq<Event>, e: Event)
    requires Represents(u, g, list) && Uniform(u + {e}, g) && KeyOf(g, e).Some?
    ensures Represents(u + {e}, g, Put(g, list, e))
  {
    PutKeys(g, list, e);
    var r := Put(g, list, e);
    assert forall x <- list :: x in u && KeyOf(g, x).Some?;
    forall x <- u + {e} | KeyOf(g, x).Some?
      ensures Represented(r, x.body)
    {
      if x != e { PutCovers(g, list, e, x.body); }
    }
  }

  lemma {:induction false} UniqueRepresents(g: Grouping, events: seq<Event>)
    requires Uniform(SetOf(events), g)
    ensures Represents(SetOf(events), g, Unique(g, events))
  {
    if events != [] {
      var init, last := events[..|events| - 1], events[|events| - 1];
      assert SetOf(events) == SetOf(init) + {last};
      UniqueRepresents(g, init);
      if KeyOf(g, last).Some? { PutRepresents(SetOf(init), g, Unique(g, init), last); }
    }
  }

  // ---- buckets by flow version ----

  datatype Evidence = Evidence(turns: seq<Event>, requests: seq<Event>, details: seq<Detail>, business: seq<Event>)

  datatype FlowBucket = FlowBucket(turns: seq<Event>, requests: seq<Event>, sessions: seq<Detail>, business: map<Id, set<BusinessOutcome>>)

  function VersionOf(e: Event): Version { e.body.flowVersion }

  function DetailVersion(d: Detail): Version { d.flowVersion }

  function PutBusiness(m: map<Id, set<BusinessOutcome>>, e: Event): map<Id, set<BusinessOutcome>> {
    if e.body.fact.Business? then
      m[e.body.fact.businessId := (if e.body.fact.businessId in m then m[e.body.fact.businessId] else {}) + {e.body.fact.business}]
    else m
  }

  /** Outcomes by operation among business events of one flow. */
  function BusinessIn(events: seq<Event>, v: Version): map<Id, set<BusinessOutcome>> {
    if events == [] then map[]
    else
      var rest, last := BusinessIn(events[..|events| - 1], v), events[|events| - 1];
      if VersionOf(last) == v then PutBusiness(rest, last) else rest
  }

  /** What the bucket of a version must hold. */
  function FlowOf(e: Evidence, v: Version): FlowBucket {
    FlowBucket(Pick(e.turns, VersionOf, v), Pick(e.requests, VersionOf, v), Pick(e.details, DetailVersion, v), BusinessIn(e.business, v))
  }

  function Versions(e: Evidence): set<Version> {
    (set t | t in e.turns :: VersionOf(t)) + (set t | t in e.requests :: VersionOf(t))
    + (set d | d in e.details :: DetailVersion(d)) + (set t | t in e.business :: VersionOf(t))
  }

  ghost predicate FlowsOk(versions: map<Version, FlowBucket>, e: Evidence) {
    versions.Keys == Versions(e) && forall v <- versions :: versions[v] == FlowOf(e, v)
  }

  /** version(value): the bucket, created when missing. */
  function FlowAt(versions: map<Version, FlowBucket>, v: Version): FlowBucket {
    if v in versions then versions[v] else FlowBucket([], [], [], map[])
  }

  lemma {:induction false} EmptyPick<T(!new), K>(xs: seq<T>, f: T -> K, k: K)
    requires forall i | 0 <= i < |xs| :: f(xs[i]) != k
    ensures Pick(xs, f, k) == []
  {
    if xs != [] { EmptyPick(xs[..|xs| - 1], f, k); }
  }

  lemma {:induction false} EmptyBusiness(events: seq<Event>, v: Version)
    requires forall i | 0 <= i < |events| :: VersionOf(events[i]) != v
    ensures BusinessIn(events, v) == map[]
  {
    if events != [] { EmptyBusiness(events[..|events| - 1], v); }
  }

  lemma FlowAtIs(versions: map<Version, FlowBucket>, e: Evidence, v: Version)
    requires FlowsOk(versions, e)
    ensures FlowAt(versions, v) == FlowOf(e, v)
  {
    if v !in versions {
      assert forall i | 0 <= i < |e.turns| :: VersionOf(e.turns[i]) in Versions(e);
      assert forall i | 0 <= i < |e.requests| :: VersionOf(e.requests[i]) in Versions(e);
      assert forall i | 0 <= i < |e.details| :: DetailVersion(e.details[i]) in Versions(e);
      assert forall i | 0 <= i < |e.business| :: VersionOf(e.business[i]) in Versions(e);
      EmptyPick(e.turns, VersionOf, v);
      EmptyPick(e.requests, VersionOf, v);
      EmptyPick(e.details, DetailVersion, v);
      EmptyBusiness(e.business, v);
    }
  }

  /** Changing one bucket accounts for evidence that touches that version alone. */
  lemma FlowChange(versions: map<Version, FlowBucket>, e: Evidence, e': Evidence, v: Version)
    requires FlowsOk(versions, e) && Versions(e') == Versions(e) + {v}
    requires forall w: Version :: w != v ==> FlowOf(e', w) == FlowOf(e, w)
    ensures FlowsOk(versions[v := FlowOf(e', v)], e')
  {
  }

  lemma AppendTurn(e: Evidence, t: Event, w: Version)
    ensures FlowOf(e.(turns := e.turns + [t]), w)
         == if VersionOf(t) == w then FlowOf(e, w).(turns := FlowOf(e, w).turns + [t]) else FlowOf(e, w)
    ensures Versions(e.(turns := e.turns + [t])) == Versions(e) + {VersionOf(t)}
  {
    PickAppend(e.turns, t, VersionOf, w);
  }

  lemma AppendRequest(e: Evidence, t: Event, w: Version)
    ensures FlowOf(e.(requests := e.requests + [t]), w)
         == if VersionOf(t) == w then FlowOf(e, w).(requests := FlowOf(e, w).requests + [t]) else FlowOf(e, w)
    ensures Versions(e.(requests := e.requests + [t])) == Versions(e) + {VersionOf(t)}
  {
    PickAppend(e.requests, t, VersionOf, w);
  }

  lemma AppendDetail(e: Evidence, d: Detail, w: Version)
    ensures FlowOf(e.(details := e.details + [d]), w)
         == if DetailVersion(d) == w then FlowOf(e, w).(sessions := FlowOf(e, w).sessions + [d]) else FlowOf(e, w)
    ensures Versions(e.(details := e.details + [d])) == Versions(e) + {DetailVersion(d)}
  {
    PickAppend(e.details, d, DetailVersion, w);
  }

  lemma AppendBusiness(e: Evidence, t: Event, w: Version)
    ensures FlowOf(e.(business := e.business + [t]), w)
         == if VersionOf(t) == w then FlowOf(e, w).(business := PutBusiness(FlowOf(e, w).business, t)) else FlowOf(e, w)
    ensures Versions(e.(business := e.business + [t])) == Versions(e) + {VersionOf(t)}
  {
    assert (e.business + [t])[..|e.business|] == e.business;
  }

  method FillFlows(e: Evidence) returns (versions: map<Version, FlowBucket>)
    ensures FlowsOk(versions, e)
  {
    hide FlowsOk;
    versions := map[];
    FlowsStart();
    var i := 0;
    while i < |e.turns|
      invariant 0 <= i <= |e.turns| && FlowsOk(versions, Evidence(e.turns[..i], [], [], []))
    {
      versions := PushTurn(versions, Evidence(e.turns[..i], [], [], []), e.turns[i]);
      assert e.turns[..i + 1] == e.turns[..i] + [e.turns[i]];
      i := i + 1;
    }
    assert e.turns[..i] == e.turns;
    i := 0;
    while i < |e.requests|
      invariant 0 <= i <= |e.requests| && FlowsOk(versions, Evidence(e.turns, e.requests[..i], [], []))
    {
      versions := PushRequest(versions, Evidence(e.turns, e.requests[..i], [], []), e.requests[i]);
      assert e.requests[..i + 1] == e.requests[..i] + [e.requests[i]];
      i := i + 1;
    }
    assert e.requests[..i] == e.requests;
    i := 0;
    while i < |e.details|
      invariant 0 <= i <= |e.details| && FlowsOk(versions, Evidence(e.turns, e.requests, e.details[..i], []))
    {
      versions := PushDetail(versions, Evidence(e.turns, e.requests, e.details[..i], []), e.details[i]);
      assert e.details[..i + 1] == e.details[..i] + [e.details[i]];
      i := i + 1;
    }
    assert e.details[..i] == e.details;
    i := 0;
    while i < |e.business|
      invariant 0 <= i <= |e.business| && FlowsOk(versions, Evidence(e.turns, e.requests, e.details, e.business[..i]))
    {
      versions := PushBusiness(versions, Evidence(e.turns, e.requests, e.details, e.business[..i]), e.business[i]);
      assert e.business[..i + 1] == e.business[..i] + [e.business[i]];
      i := i + 1;
    }
    assert e.business[..i] == e.business;
  }

  lemma FlowsStart()
    ensures FlowsOk(map[], Evidence([], [], [], []))
  {
  }

  function PushTurn(versions: map<Version, FlowBucket>, ghost e: Evidence, t: Event): (r: map<Version, FlowBucket>)
    requires FlowsOk(versions, e)
    ensures FlowsOk(r, e.(turns := e.turns + [t]))
  {
    var bucket := FlowAt(versions, VersionOf(t));
    FlowAtIs(versions, e, VersionOf(t));
    assert forall w: Version :: w != VersionOf(t) ==> FlowOf(e.(turns := e.turns + [t]), w) == FlowOf(e, w) by {
      forall w: Version { AppendTurn(e, t, w); }
    }
    AppendTurn(e, t, VersionOf(t));
    FlowChange(versions, e, e.(turns := e.turns + [t]), VersionOf(t));
    versions[VersionOf(t) := bucket.(turns := bucket.turns + [t])]
  }

  function PushRequest(versions: map<Version, FlowBucket>, ghost e: Evidence, t: Event): (r: map<Version, FlowBucket>)
    requires FlowsOk(versions, e)
    ensures FlowsOk(r, e.(requests := e.requests + [t]))
  {
    var bucket := FlowAt(versions, VersionOf(t));
    FlowAtIs(versions, e, VersionOf(t));
    assert forall w: Version :: w != VersionOf(t) ==> FlowOf(e.(requests := e.requests + [t]), w) == FlowOf(e, w) by {
      forall w: Version { AppendRequest(e, t, w); }
    }
    AppendRequest(e, t, VersionOf(t));
    FlowChange(versions, e, e.(requests := e.requests + [t]), VersionOf(t));
    versions[VersionOf(t) := bucket.(requests := bucket.requests + [t])]
  }

  function PushDetail(versions: map<Version, FlowBucket>, ghost e: Evidence, d: Detail): (r: map<Version, FlowBucket>)
    requires FlowsOk(versions, e)
    ensures FlowsOk(r, e.(details := e.details + [d]))
  {
    var bucket := FlowAt(versions, DetailVersion(d));
    FlowAtIs(versions, e, DetailVersion(d));
    assert forall w: Version :: w != DetailVersion(d) ==> FlowOf(e.(details := e.details + [d]), w) == FlowOf(e, w) by {
      forall w: Version { AppendDetail(e, d, w); }
    }
    AppendDetail(e, d, DetailVersion(d));
    FlowChange(versions, e, e.(details := e.details + [d]), DetailVersion(d));
    versions[DetailVersion(d) := bucket.(sessions := bucket.sessions + [d])]
  }

  function PushBusiness(versions: map<Version, FlowBucket>, ghost e: Evidence, t: Event): (r: map<Version, FlowBucket>)
    requires FlowsOk(versions, e)
    ensures FlowsOk(r, e.(business := e.business + [t]))
  {
    var bucket := FlowAt(versions, VersionOf(t));
    FlowAtIs(versions, e, VersionOf(t));
    assert forall w: Version :: w != VersionOf(t) ==> FlowOf(e.(business := e.business + [t]), w) == FlowOf(e, w) by {
      forall w: Version { AppendBusiness(e, t, w); }
    }
    AppendBusiness(e, t, VersionOf(t));
    FlowChange(versions, e, e.(business := e.business + [t]), VersionOf(t));
    versions[VersionOf(t) := bucket.(business := PutBusiness(bucket.business, t))]
  }
}
