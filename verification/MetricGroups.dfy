/**
  Grouping in aggregateMetricEvents (lib/MetricEvents.js): deduplication by envelope, Maps of events by
  key, and the checks that the envelopes of one logical operation agree.
 */
module MetricGroups {
  import opened Wrappers
  import opened MetricEvents
  import opened Tally

  // ---- deduplication by envelope ----

  ghost predicate DistinctIds(events: seq<Event>) {
    forall i, j | 0 <= i < j < |events| :: events[i].eventId != events[j].eventId
  }

  lemma {:induction false} DistinctCard(events: seq<Event>)
    requires forall i, j | 0 <= i < j < |events| :: events[i] != events[j]
    ensures |SetOf(events)| == |events|
  {
    if events != [] {
      var init, last := events[..|events| - 1], events[|events| - 1];
      DistinctCard(init);
      assert SetOf(events) == SetOf(init) + {last};
      assert last !in init;
    }
  }

  /** The Map of events by identity holds exactly the events listed. */
  ghost predicate Indexed(events: seq<Event>, byId: map<Id, Event>) {
    && DistinctIds(events)
    && (forall i | 0 <= i < |events| :: events[i].eventId in byId && byId[events[i].eventId] == events[i])
    && (forall id <- byId :: byId[id].eventId == id && byId[id] in events)
  }

  lemma IndexNew(events: seq<Event>, byId: map<Id, Event>, e: Event)
    requires Indexed(events, byId) && e.eventId !in byId
    ensures Indexed(events + [e], byId[e.eventId := e])
  {
  }

  /** Events have been taken up to the ones in `seen`. */
  ghost predicate Taken(seen: seq<Event>, events: seq<Event>) {
    (forall e <- seen :: ValidEvent(e)) && SetOf(events) == SetOf(seen)
  }

  lemma TakeNext(seen: seq<Event>, events: seq<Event>, e: Event)
    requires Taken(seen, events) && ValidEvent(e)
    ensures e in events ==> Taken(seen + [e], events)
    ensures Taken(seen + [e], events + [e])
  {
    assert SetOf(seen + [e]) == SetOf(seen) + {e};
    assert SetOf(events + [e]) == SetOf(events) + {e};
    assert e in events ==> e in SetOf(events);
  }

  lemma IdentityTaken(sources: seq<Event>, i: nat, events: seq<Event>, byId: map<Id, Event>)
    requires i < |sources| && Taken(sources[..i], events) && Indexed(events, byId)
    requires sources[i].eventId in byId && byId[sources[i].eventId] != sources[i]
    ensures !Identified(sources)
  {
    var other := byId[sources[i].eventId];
    assert other in SetOf(events) && other in sources[..i] && sources[i] in sources;
  }

  lemma AllIdentified(sources: seq<Event>, events: seq<Event>, byId: map<Id, Event>)
    requires Taken(sources, events) && Indexed(events, byId)
    ensures Identified(sources)
  {
    forall a, b | a in sources && b in sources && a.eventId == b.eventId
      ensures a == b
    {
      assert a in SetOf(events) && b in SetOf(events);
    }
  }

  /** The first loop: None when an event is invalid or two different events claim one identity. */
  method Deduplicate(sources: seq<Event>) returns (r: Option<(seq<Event>, nat)>)
    ensures r.Some? <==> (forall e <- sources :: ValidEvent(e)) && Identified(sources)
    ensures r.Some? ==> DistinctIds(r.value.0) && SetOf(r.value.0) == SetOf(sources) && r.value.1 + |r.value.0| == |sources|
  {
    var events: seq<Event> := [];
    var byId: map<Id, Event> := map[];
    var duplicates := 0;
    var i := 0;
    while i < |sources|
      invariant 0 <= i <= |sources| && duplicates + |events| == i
      invariant Taken(sources[..i], events) && Indexed(events, byId)
    {
      var e := sources[i];
      assert sources[..i + 1] == sources[..i] + [e];
      if !ValidEvent(e) { return None; }
      TakeNext(sources[..i], events, e);
      if e.eventId in byId {
        if byId[e.eventId] != e {
          IdentityTaken(sources, i, events, byId);
          return None;
        }
        duplicates := duplicates + 1;
      } else {
        IndexNew(events, byId, e);
        events := events + [e];
        byId := byId[e.eventId := e];
      }
      i := i + 1;
    }
    assert sources[..i] == sources;
    AllIdentified(sources, events, byId);
    r := Some((events, duplicates));
  }

  /** The events not after the reporting time. */
  function UpTo(events: seq<Event>, asOf: int): seq<Event> {
    if events == [] then []
    else UpTo(events[..|events| - 1], asOf) + (if events[|events| - 1].body.at <= asOf then [events[|events| - 1]] else [])
  }

  lemma {:induction false} UpToAmong(events: seq<Event>, asOf: int, e: Event)
    ensures e in UpTo(events, asOf) <==> e in events && e.body.at <= asOf
  {
    if events != [] {
      UpToAmong(events[..|events| - 1], asOf, e);
      assert events == events[..|events| - 1] + [events[|events| - 1]];
    }
  }

  lemma {:induction false} UpToDistinct(events: seq<Event>, asOf: int)
    requires DistinctIds(events)
    ensures DistinctIds(UpTo(events, asOf))
  {
    if events != [] {
      var init, last := events[..|events| - 1], events[|events| - 1];
      UpToDistinct(init, asOf);
      var kept := UpTo(init, asOf);
      forall i | 0 <= i < |kept|
        ensures kept[i].eventId != last.eventId
      {
        UpToAmong(init, asOf, kept[i]);
      }
    }
  }

  lemma UpToIncluded(events: seq<Event>, asOf: int)
    requires DistinctIds(events)
    ensures DistinctIds(UpTo(events, asOf)) && SetOf(UpTo(events, asOf)) == Included(SetOf(events), asOf)
  {
    UpToDistinct(events, asOf);
    forall e: Event
      ensures e in UpTo(events, asOf) <==> e in events && e.body.at <= asOf
    {
      UpToAmong(events, asOf, e);
    }
  }

  // ---- grouping ----

  /** The events of one kind under their key. */
  datatype Grouping = ByRequest | ByTurn | ByBusiness | ByStart | ByEnd | ByProvider | BySession

  function KeyOf(g: Grouping, e: Event): Option<Id> {
    match g
    case ByRequest => if e.body.fact.Request? then Some(e.body.fact.requestId) else None
    case ByTurn => if e.body.fact.Turn? then Some(e.body.fact.turnId) else None
    case ByBusiness => if e.body.fact.Business? then Some(e.body.fact.businessId) else None
    case ByStart => if e.body.fact.SessionStart? then Some(e.body.sessionId) else None
    case ByEnd => if e.body.fact.SessionEnd? then Some(e.body.sessionId) else None
    case ByProvider => if e.body.fact.ProviderEnd? then Some(e.body.sessionId) else None
    case BySession => Some(e.body.sessionId)
  }

  type Groups = map<Id, seq<Event>>

  /** Every event of the kind is in the group of its key, once, and nothing else is. */
  ghost predicate IsGrouped(u: set<Event>, g: Grouping, groups: Groups) {
    && (forall e <- u :: KeyOf(g, e).Some? ==> KeyOf(g, e).value in groups && e in groups[KeyOf(g, e).value])
    && (forall k <- groups :: groups[k] != [] && DistinctIds(groups[k]) && forall e <- groups[k] :: e in u && KeyOf(g, e) == Some(k))
  }

  method GroupBy(events: seq<Event>, g: Grouping) returns (groups: Groups)
    requires DistinctIds(events)
    ensures IsGrouped(SetOf(events), g, groups)
  {
    groups := map[];
    var i := 0;
    while i < |events|
      invariant 0 <= i <= |events|
      invariant IsGrouped(SetOf(events[..i]), g, groups)
    {
      groups := Add(events[..i], g, groups, events[i]);
      assert events[..i + 1] == events[..i] + [events[i]];
      i := i + 1;
    }
    assert events[..i] == events;
  }

  /** add(map, key, event) */
  function Add(ghost before: seq<Event>, g: Grouping, groups: Groups, e: Event): (groups': Groups)
    requires IsGrouped(SetOf(before), g, groups) && forall x <- before :: x.eventId != e.eventId
    ensures IsGrouped(SetOf(before + [e]), g, groups')
  {
    assert SetOf(before + [e]) == SetOf(before) + {e};
    var k := KeyOf(g, e);
    if k.None? then groups
    else
      var group := if k.value in groups then groups[k.value] else [];
      assert forall x <- group :: x in SetOf(before) && x in before;
      assert forall i | 0 <= i < |group| :: group[i] in group && group[i].eventId != e.eventId;
      assert DistinctIds(group + [e]);
      groups[k.value := group + [e]]
  }

  /** An order in which a Map's keys can be visited. */
  ghost predicate Listing(keys: seq<Id>, ks: set<Id>) {
    && (forall k <- ks :: k in keys)
    && (forall i | 0 <= i < |keys| :: keys[i] in ks)
    && forall i, j | 0 <= i < j < |keys| :: keys[i] != keys[j]
  }

  method ListKeys(ks: set<Id>) returns (keys: seq<Id>)
    ensures Listing(keys, ks)
  {
    keys := [];
    var rest := ks;
    while rest != {}
      invariant rest <= ks && forall k <- ks - rest :: k in keys
      invariant forall i | 0 <= i < |keys| :: keys[i] in ks && keys[i] !in rest
      invariant forall i, j | 0 <= i < j < |keys| :: keys[i] != keys[j]
      decreases |rest|
    {
      var k :| k in rest;
      keys, rest := keys + [k], rest - {k};
    }
  }

  ghost function KeySet(keys: seq<Id>): set<Id> { set k | k in keys }

  lemma ListingSet(keys: seq<Id>, ks: set<Id>)
    requires Listing(keys, ks)
    ensures KeySet(keys) == ks
  {
  }

  lemma ListingPrefix(keys: seq<Id>, ks: set<Id>, n: nat)
    requires Listing(keys, ks) && n < |keys|
    ensures KeySet(keys[..n + 1]) == KeySet(keys[..n]) + {keys[n]} && keys[n] !in KeySet(keys[..n])
  {
    assert keys[..n + 1] == keys[..n] + [keys[n]];
  }

  /** The group of a key; a missing one is empty. */
  function GroupOf(groups: Groups, k: Id): seq<Event> { if k in groups then groups[k] else [] }

  /** All events of a kind with one key, once each. */
  ghost predicate IsGroup(u: set<Event>, g: Grouping, k: Id, group: seq<Event>) {
    && DistinctIds(group)
    && (forall i | 0 <= i < |group| :: group[i] in u && KeyOf(g, group[i]) == Some(k))
    && (forall e <- u :: KeyOf(g, e) == Some(k) ==> e in group)
  }

  lemma GroupOfIs(u: set<Event>, g: Grouping, groups: Groups, k: Id)
    requires IsGrouped(u, g, groups)
    ensures IsGroup(u, g, k, GroupOf(groups, k))
  {
    var group := GroupOf(groups, k);
    assert forall i | 0 <= i < |group| :: group[i] in group;
  }

  /** Events of a kind whose key is in a set. */
  ghost function Keyed(u: set<Event>, g: Grouping, ks: set<Id>): set<Event> {
    set e | e in u && KeyOf(g, e).Some? && KeyOf(g, e).value in ks
  }

  lemma KeyedAdds(u: set<Event>, g: Grouping, groups: Groups, ks: set<Id>, k: Id)
    requires IsGrouped(u, g, groups) && k in groups && k !in ks
    ensures |Keyed(u, g, ks + {k})| == |Keyed(u, g, ks)| + |groups[k]|
  {
    assert SetOf(groups[k]) == Keyed(u, g, {k}) by { OneGroup(u, g, groups, k); }
    DistinctCard(groups[k]);
    assert Keyed(u, g, ks + {k}) == Keyed(u, g, ks) + Keyed(u, g, {k});
    assert Keyed(u, g, ks) !! Keyed(u, g, {k});
  }

  lemma OneGroup(u: set<Event>, g: Grouping, groups: Groups, k: Id)
    requires IsGrouped(u, g, groups) && k in groups
    ensures SetOf(groups[k]) == Keyed(u, g, {k})
  {
  }

  // ---- logical identities ----

  /** Two envelopes of one request, turn or start agree on their body. */
  ghost predicate Uniform(u: set<Event>, g: Grouping) {
    forall a, b | a in u && b in u && KeyOf(g, a).Some? && KeyOf(g, a) == KeyOf(g, b) :: a.body == b.body
  }

  predicate UniformGroup(group: seq<Event>) {
    forall i | 0 <= i < |group| :: group[i].body == group[0].body
  }

  lemma UniformByGroup(u: set<Event>, g: Grouping, groups: Groups)
    requires IsGrouped(u, g, groups)
    ensures Uniform(u, g) <==> forall k <- groups :: UniformGroup(groups[k])
  {
    if Uniform(u, g) {
      forall k <- groups
        ensures UniformGroup(groups[k])
      {
        assert forall i | 0 <= i < |groups[k]| :: groups[k][i] in groups[k];
      }
    }
  }

  /** Envelopes beyond the first of each group. */
  function Surplus(groups: Groups, keys: seq<Id>, n: nat): int
    requires n <= |keys| && forall i | 0 <= i < |keys| :: keys[i] in groups
  {
    if n == 0 then 0 else Surplus(groups, keys, n - 1) + |groups[keys[n - 1]]| - 1
  }

  lemma {:induction false} SurplusOf(u: set<Event>, g: Grouping, groups: Groups, keys: seq<Id>, n: nat)
    requires IsGrouped(u, g, groups) && Listing(keys, groups.Keys) && n <= |keys|
    ensures Surplus(groups, keys, n) == |Keyed(u, g, KeySet(keys[..n]))| - n
  {
    if n == 0 {
      assert Keyed(u, g, KeySet(keys[..n])) == {};
    } else {
      SurplusOf(u, g, groups, keys, n - 1);
      ListingPrefix(keys, groups.Keys, n - 1);
      KeyedAdds(u, g, groups, KeySet(keys[..n - 1]), keys[n - 1]);
    }
  }

  /** Each group agrees with its first envelope; the surplus envelopes are counted. */
  method CheckUniform(groups: Groups, keys: seq<Id>) returns (r: Option<int>)
    requires Listing(keys, groups.Keys)
    ensures r.Some? <==> forall k <- groups :: UniformGroup(groups[k])
    ensures r.Some? ==> r.value == Surplus(groups, keys, |keys|)
  {
    var surplus := 0;
    var i := 0;
    while i < |keys|
      invariant 0 <= i <= |keys|
      invariant forall j | 0 <= j < i :: UniformGroup(groups[keys[j]])
      invariant surplus == Surplus(groups, keys, i)
    {
      if !UniformGroup(groups[keys[i]]) { return None; }
      surplus := surplus + |groups[keys[i]]| - 1;
      i := i + 1;
    }
    r := Some(surplus);
  }

  /** Envelopes of one business operation belong to one session and flow; they may disagree on the outcome. */
  ghost predicate Correlated(u: set<Event>) {
    forall a, b | a in u && b in u && KeyOf(ByBusiness, a).Some? && KeyOf(ByBusiness, a) == KeyOf(ByBusiness, b)
      :: a.body.sessionId == b.body.sessionId && a.body.flowVersion == b.body.flowVersion
  }

  predicate CorrelatedGroup(group: seq<Event>) {
    forall i | 0 <= i < |group| :: group[i].body.sessionId == group[0].body.sessionId && group[i].body.flowVersion == group[0].body.flowVersion
  }

  lemma CorrelatedByGroup(u: set<Event>, groups: Groups)
    requires IsGrouped(u, ByBusiness, groups)
    ensures Correlated(u) <==> forall k <- groups :: CorrelatedGroup(groups[k])
  {
    if Correlated(u) {
      forall k <- groups
        ensures CorrelatedGroup(groups[k])
      {
        assert forall i | 0 <= i < |groups[k]| :: groups[k][i] in groups[k];
      }
    }
  }

  ghost function BodiesOf(events: set<Event>): set<Body> { set e | e in events :: e.body }

  function BodySet(group: seq<Event>): set<Body> { set e | e in group :: e.body }

  /** Envelopes beyond the distinct bodies of each group. */
  function BodySurplus(groups: Groups, keys: seq<Id>, n: nat): int
    requires n <= |keys| && forall i | 0 <= i < |keys| :: keys[i] in groups
  {
    if n == 0 then 0 else BodySurplus(groups, keys, n - 1) + |groups[keys[n - 1]]| - |BodySet(groups[keys[n - 1]])|
  }

  lemma BodiesAdd(u: set<Event>, groups: Groups, ks: set<Id>, k: Id)
    requires IsGrouped(u, ByBusiness, groups) && k in groups && k !in ks
    ensures |BodiesOf(Keyed(u, ByBusiness, ks + {k}))| == |BodiesOf(Keyed(u, ByBusiness, ks))| + |BodySet(groups[k])|
  {
    OneGroup(u, ByBusiness, groups, k);
    assert BodiesOf(Keyed(u, ByBusiness, {k})) == BodySet(groups[k]);
    assert BodiesOf(Keyed(u, ByBusiness, ks + {k})) == BodiesOf(Keyed(u, ByBusiness, ks)) + BodiesOf(Keyed(u, ByBusiness, {k}));
    assert BodiesOf(Keyed(u, ByBusiness, ks)) !! BodiesOf(Keyed(u, ByBusiness, {k}));
  }

  ghost function BodySurplusIn(u: set<Event>, ks: set<Id>): int {
    |Keyed(u, ByBusiness, ks)| - |BodiesOf(Keyed(u, ByBusiness, ks))|
  }

  lemma BodySurplusAdds(u: set<Event>, groups: Groups, ks: set<Id>, k: Id)
    requires IsGrouped(u, ByBusiness, groups) && k in groups && k !in ks
    ensures BodySurplusIn(u, ks + {k}) == BodySurplusIn(u, ks) + |groups[k]| - |BodySet(groups[k])|
  {
    KeyedAdds(u, ByBusiness, groups, ks, k);
    BodiesAdd(u, groups, ks, k);
  }

  lemma BodySurplusNone(u: set<Event>)
    ensures BodySurplusIn(u, {}) == 0
  {
    assert Keyed(u, ByBusiness, {}) == {};
    assert BodiesOf({}) == {};
  }

  lemma {:induction false} BodySurplusOf(u: set<Event>, groups: Groups, keys: seq<Id>, n: nat)
    requires IsGrouped(u, ByBusiness, groups) && Listing(keys, groups.Keys) && n <= |keys|
    ensures BodySurplus(groups, keys, n) == BodySurplusIn(u, KeySet(keys[..n]))
  {
    hide IsGrouped;
    hide BodySurplusIn;
    if n == 0 {
      BodySurplusNone(u);
      assert KeySet(keys[..n]) == {};
    } else {
      BodySurplusOf(u, groups, keys, n - 1);
      ListingPrefix(keys, groups.Keys, n - 1);
      BodySurplusAdds(u, groups, KeySet(keys[..n - 1]), keys[n - 1]);
    }
  }

  /** Each business group agrees on its session and flow; repeated bodies are counted. */
  method CheckBusiness(groups: Groups, keys: seq<Id>) returns (r: Option<int>)
    requires Listing(keys, groups.Keys)
    ensures r.Some? <==> forall k <- groups :: CorrelatedGroup(groups[k])
    ensures r.Some? ==> r.value == BodySurplus(groups, keys, |keys|)
  {
    var surplus := 0;
    var i := 0;
    while i < |keys|
      invariant 0 <= i <= |keys|
      invariant forall j | 0 <= j < i :: CorrelatedGroup(groups[keys[j]])
      invariant surplus == BodySurplus(groups, keys, i)
    {
      if !CorrelatedGroup(groups[keys[i]]) { return None; }
      surplus := surplus + |groups[keys[i]]| - |BodySet(groups[keys[i]])|;
      i := i + 1;
    }
    r := Some(surplus);
  }

  // ---- one envelope of every operation ----

  ghost predicate Represented(reps: seq<Event>, body: Body) { exists i :: 0 <= i < |reps| && reps[i].body == body }

  ghost predicate Among(u: set<Event>, g: Grouping, reps: seq<Event>) {
    forall i | 0 <= i < |reps| :: reps[i] in u && KeyOf(g, reps[i]).Some?
  }

  ghost predicate DistinctKeys(g: Grouping, reps: seq<Event>) {
    forall i, j | 0 <= i < j < |reps| :: KeyOf(g, reps[i]) != KeyOf(g, reps[j])
  }

  ghost predicate Covers(u: set<Event>, g: Grouping, reps: seq<Event>) {
    forall e <- u :: KeyOf(g, e).Some? ==> Represented(reps, e.body)
  }

  /** The first event of each group stands for it. */
  function Firsts(groups: Groups, keys: seq<Id>): (reps: seq<Event>)
    requires forall i | 0 <= i < |keys| :: keys[i] in groups && groups[keys[i]] != []
    ensures |reps| == |keys| && forall i | 0 <= i < |keys| :: reps[i] == groups[keys[i]][0]
  {
    seq(|keys|, i requires 0 <= i < |keys| => groups[keys[i]][0])
  }

  lemma FirstsRepresent(u: set<Event>, g: Grouping, groups: Groups, keys: seq<Id>)
    requires IsGrouped(u, g, groups) && Uniform(u, g) && Listing(keys, groups.Keys)
    ensures Among(u, g, Firsts(groups, keys)) && DistinctKeys(g, Firsts(groups, keys)) && Covers(u, g, Firsts(groups, keys))
  {
    var reps := Firsts(groups, keys);
    assert forall i | 0 <= i < |keys| :: reps[i] in groups[keys[i]];
    forall e <- u | KeyOf(g, e).Some?
      ensures Represented(reps, e.body)
    {
      var i :| 0 <= i < |keys| && keys[i] == KeyOf(g, e).value;
      assert reps[i].body == e.body;
    }
  }

  // ---- counting ----

  ghost predicate Represents(u: set<Event>, g: Grouping, reps: seq<Event>) {
    Among(u, g, reps) && DistinctKeys(g, reps) && Covers(u, g, reps)
  }

  function Values<T>(reps: seq<Event>, f: Body -> T): (r: seq<T>)
    ensures |r| == |reps| && forall i | 0 <= i < |r| :: r[i] == f(reps[i].body)
  {
    seq(|reps|, i requires 0 <= i < |reps| => f(reps[i].body))
  }

  function RepIds(g: Grouping, reps: seq<Event>): (r: seq<Id>)
    requires forall i | 0 <= i < |reps| :: KeyOf(g, reps[i]).Some?
    ensures |r| == |reps| && forall i | 0 <= i < |r| :: KeyOf(g, reps[i]) == Some(r[i])
  {
    seq(|reps|, i requires 0 <= i < |reps| => KeyOf(g, reps[i]).value)
  }

  ghost function Keys(u: set<Event>, g: Grouping): set<Id> {
    set e | e in u && KeyOf(g, e).Some? :: KeyOf(g, e).value
  }

  ghost function KeysWith<T>(u: set<Event>, g: Grouping, f: Body -> T, v: T): set<Id> {
    set e | e in u && KeyOf(g, e).Some? && f(e.body) == v :: KeyOf(g, e).value
  }

  lemma RepOf(u: set<Event>, g: Grouping, reps: seq<Event>, e: Event) returns (i: nat)
    requires Represents(u, g, reps) && e in u && KeyOf(g, e).Some?
    ensures i < |reps| && reps[i].body == e.body && KeyOf(g, reps[i]) == KeyOf(g, e)
  {
    assert Represented(reps, e.body);
    i :| 0 <= i < |reps| && reps[i].body == e.body;
  }

  lemma RepHolders<T(!new)>(u: set<Event>, g: Grouping, reps: seq<Event>, f: Body -> T, v: T)
    requires Represents(u, g, reps)
    ensures Holders(RepIds(g, reps), Values(reps, f), v) == KeysWith(u, g, f, v)
  {
    var ks, values := RepIds(g, reps), Values(reps, f);
    forall e | e in u && KeyOf(g, e).Some? && f(e.body) == v
      ensures KeyOf(g, e).value in Holders(ks, values, v)
    {
      var i := RepOf(u, g, reps, e);
      assert values[i] == v && ks[i] == KeyOf(g, e).value;
    }
    forall i | 0 <= i < |ks| && values[i] == v
      ensures ks[i] in KeysWith(u, g, f, v)
    {
      assert reps[i] in u;
    }
  }

  lemma RepIdsDiffer(g: Grouping, reps: seq<Event>)
    requires DistinctKeys(g, reps) && forall i | 0 <= i < |reps| :: KeyOf(g, reps[i]).Some?
    ensures AllDifferent(RepIds(g, reps))
  {
  }

  /** Counting a field over representatives counts the operations with that value, whichever envelopes represent them. */
  lemma CountReps<T(!new)>(u: set<Event>, g: Grouping, reps: seq<Event>, f: Body -> T, v: T)
    requires Represents(u, g, reps)
    ensures CountOf(Values(reps, f), v) == |KeysWith(u, g, f, v)|
  {
    RepIdsDiffer(g, reps);
    CountHolders(RepIds(g, reps), Values(reps, f), v);
    RepHolders(u, g, reps, f, v);
  }

  lemma CountAllReps(u: set<Event>, g: Grouping, reps: seq<Event>)
    requires Represents(u, g, reps)
    ensures |reps| == |Keys(u, g)|
  {
    var ks := RepIds(g, reps);
    RepIdsDiffer(g, reps);
    CountMembers(ks);
    forall e | e in u && KeyOf(g, e).Some?
      ensures KeyOf(g, e).value in Members(ks)
    {
      var i := RepOf(u, g, reps, e);
      assert ks[i] == KeyOf(g, e).value;
    }
    assert forall i | 0 <= i < |ks| :: reps[i] in u && ks[i] == KeyOf(g, reps[i]).value;
    assert Members(ks) == Keys(u, g);
  }

  /** The keys of a Map of groups are the identifiers of its kind. */
  lemma GroupKeys(u: set<Event>, g: Grouping, groups: Groups)
    requires IsGrouped(u, g, groups)
    ensures groups.Keys == Keys(u, g) && Keyed(u, g, groups.Keys) == Keyed(u, g, Keys(u, g))
  {
    assert forall k <- groups :: groups[k][0] in groups[k];
  }
}
