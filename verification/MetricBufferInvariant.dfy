/**
  What every call on the metric buffer keeps (lib/MetricEventBuffer.js:46-139): the books balance, the session
  table and the tombstones mirror what is held, and the held events are consistent and within budget as a whole.
 */
module MetricBufferInvariant {
  import opened Wrappers
  import opened MetricEvents
  import opened MetricGroups
  import opened MetricStates
  import opened MetricReport
  import opened MetricBuffer
  import opened Tally

  // ---- the invariant ----

  ghost predicate HeldOnce(events: seq<Held>) {
    forall i, j | 0 <= i < j < |events| :: events[i].event.eventId != events[j].event.eventId
  }

  /** The session table is exactly the held sessions with their earliest times. */
  ghost predicate TableOk(events: seq<Held>, sessions: map<Id, int>) {
    && (forall i | 0 <= i < |events| ::
          events[i].event.body.sessionId in sessions && sessions[events[i].event.body.sessionId] <= events[i].event.body.at)
    && (forall id <- sessions :: Earliest(events, id, sessions[id]))
  }

  ghost predicate Earliest(events: seq<Held>, id: Id, at: int) {
    exists i :: 0 <= i < |events| && events[i].event.body.sessionId == id && events[i].event.body.at == at
  }

  /** Each event held could be held: valid, labelled and not beyond the allowed skew. */
  ghost predicate ContentOk(c: Controls, events: seq<Held>, now: int) {
    forall i | 0 <= i < |events| ::
      ValidEvent(events[i].event) && Labelled(c, events[i].event) && events[i].event.body.at <= now + c.maxFutureSkewMs
  }

  /** What the books say besides the counters. */
  ghost predicate Shape(c: Controls, s: State) {
    && HeldOnce(s.events) && TableOk(s.events, s.sessions) && ContentOk(c, s.events, s.lastNow)
    && s.sessions.Keys !! s.tombstones.Keys
    && s.bytes == BytesOf(s.events)
    && |s.events| <= c.maxEvents && s.bytes <= c.maxBytes && |s.sessions| <= c.maxSessions && |s.tombstones| <= c.maxTombstones
    && 0 <= s.lastNow <= MAX_TIME
  }

  /** As evidence, the whole held set is consistent and within the budget of a report. */
  ghost predicate Sound(s: State) { Consistent(EventSet(s.events)) && WithinBudget(EventSet(s.events)) }

  ghost predicate Balanced(s: State) { s.counts.accepted == |s.events| + s.counts.evicted + s.counts.deleted }

  ghost predicate Inv(c: Controls, s: State) {
    ControlsOk(c) && Shape(c, s) && Sound(s) && Balanced(s)
  }

  lemma EmptyInv(c: Controls)
    requires ControlsOk(c)
    ensures Inv(c, EMPTY)
  {
    assert EventSet([]) == {};
    assert BudgetVersions({}) == {} && BudgetGroups({}) == {};
  }

  // ---- removal ----

  /** Counters that removal and denial leave alone. */
  ghost predicate SameTally(s: State, s': State) {
    && s'.counts == s.counts.(failures := s'.counts.failures)
    && s'.lastNow == s.lastNow && s'.generation == s.generation && s'.closed == s.closed && (s.sealed ==> s'.sealed)
  }

  lemma {:induction false} WithoutHas(events: seq<Held>, id: Id, h: Held)
    ensures h in Without(events, id) <==> h in events && h.event.body.sessionId != id
  {
    if events != [] {
      WithoutHas(events[..|events| - 1], id, h);
      assert events == events[..|events| - 1] + [events[|events| - 1]];
    }
  }

  lemma {:induction false} WithoutOnce(events: seq<Held>, id: Id)
    requires HeldOnce(events)
    ensures HeldOnce(Without(events, id)) && |Without(events, id)| <= |events|
  {
    if events != [] {
      var init, last := events[..|events| - 1], events[|events| - 1];
      WithoutOnce(init, id);
      var kept := Without(init, id);
      forall i | 0 <= i < |kept|
        ensures kept[i].event.eventId != last.event.eventId
      {
        WithoutHas(init, id, kept[i]);
        var j :| 0 <= j < |init| && init[j] == kept[i];
      }
    }
  }

  lemma {:induction false} WithoutBytes(events: seq<Held>, id: Id)
    ensures BytesOf(Without(events, id)) <= BytesOf(events)
  {
    if events != [] {
      var init, last := events[..|events| - 1], events[|events| - 1];
      WithoutBytes(init, id);
      assert (Without(init, id) + [last])[..|Without(init, id)|] == Without(init, id);
      assert Without(init, id) + [] == Without(init, id);
    }
  }

  lemma WithoutTable(events: seq<Held>, sessions: map<Id, int>, id: Id)
    requires TableOk(events, sessions)
    ensures TableOk(Without(events, id), sessions - {id})
  {
    var kept := Without(events, id);
    forall i | 0 <= i < |kept|
      ensures kept[i] in events && kept[i].event.body.sessionId != id
    {
      WithoutHas(events, id, kept[i]);
    }
    forall k <- sessions | k != id
      ensures Earliest(kept, k, sessions[k])
    {
      assert Earliest(events, k, sessions[k]);
      var i :| 0 <= i < |events| && events[i].event.body.sessionId == k && events[i].event.body.at == sessions[k];
      WithoutHas(events, id, events[i]);
      var j :| 0 <= j < |kept| && kept[j] == events[i];
    }
  }

  lemma WithoutContent(c: Controls, events: seq<Held>, now: int, id: Id)
    requires ContentOk(c, events, now)
    ensures ContentOk(c, Without(events, id), now)
  {
    var kept := Without(events, id);
    forall i | 0 <= i < |kept|
      ensures kept[i] in events
    {
      WithoutHas(events, id, kept[i]);
    }
  }

  lemma WithoutSubset(events: seq<Held>, id: Id)
    ensures EventSet(Without(events, id)) <= EventSet(events)
  {
    forall h <- Without(events, id)
      ensures h in events
    {
      WithoutHas(events, id, h);
    }
  }

  /** Dropping evidence keeps it consistent and within budget. */
  lemma SubsetSound(u: set<Event>, part: set<Event>)
    requires part <= u && Consistent(u) && WithinBudget(u)
    ensures Consistent(part) && WithinBudget(part)
  {
    ConsistentSubset(u, part);
    SubsetCard(BudgetVersions(part), BudgetVersions(u));
    SubsetCard(BudgetGroups(part), BudgetGroups(u));
  }

  lemma RemoveSound(s: State, id: Id)
    requires Sound(s)
    ensures Sound(RemoveSession(s, id))
  {
    WithoutSubset(s.events, id);
    SubsetSound(EventSet(s.events), EventSet(Without(s.events, id)));
  }

  lemma FewerSessions(sessions: map<Id, int>, tombstones: map<Id, Option<int>>, id: Id)
    ensures |sessions - {id}| <= |sessions|
    ensures sessions.Keys !! tombstones.Keys ==> (sessions - {id}).Keys !! tombstones.Keys
  {
    SubsetCard((sessions - {id}).Keys, sessions.Keys);
  }

  lemma RemoveKeeps(c: Controls, s: State, id: Id)
    requires Shape(c, s) && Sound(s)
    ensures Shape(c, RemoveSession(s, id)) && Sound(RemoveSession(s, id)) && SameTally(s, RemoveSession(s, id))
    ensures |RemoveSession(s, id).events| <= |s.events|
  {
    hide HeldOnce, TableOk, ContentOk, Sound, BytesOf;
    RemoveSound(s, id);
    WithoutOnce(s.events, id);
    WithoutBytes(s.events, id);
    WithoutTable(s.events, s.sessions, id);
    WithoutContent(c, s.events, s.lastNow, id);
    FewerSessions(s.sessions, s.tombstones, id);
  }

  lemma DenyKeeps(c: Controls, s: State, id: Id, until: Option<int>)
    requires Shape(c, s) && Sound(s) && id !in s.sessions
    ensures SameTally(s, Deny(c, s, id, until)) && Deny(c, s, id, until).events == s.events
    ensures Shape(c, Deny(c, s, id, until)) && Sound(Deny(c, s, id, until))
  {
    hide HeldOnce, TableOk, ContentOk, Consistent, WithinBudget, EventSet, BytesOf;
    var t := s.tombstones[id := until];
    assert t.Keys == s.tombstones.Keys + {id};
    if id in s.tombstones { assert t.Keys == s.tombstones.Keys; }
  }

  // ---- pruning ----

  lemma PruneOneKeeps(c: Controls, s: State, id: Id, time: int)
    requires Shape(c, s) && Sound(s)
    ensures Shape(c, PruneOne(c, s, id, time)) && Sound(PruneOne(c, s, id, time))
    ensures SameTally(s, PruneOne(c, s, id, time)) && |PruneOne(c, s, id, time).events| <= |s.events|
  {
    hide Shape, Sound, Deny;
    RemoveKeeps(c, s, id);
    var gone := RemoveSession(s, id);
    assert id !in gone.sessions;
    DenyKeeps(c, gone, id, Some(time + c.retentionMs));
  }

  lemma {:induction false} PruneSessionsKeeps(c: Controls, s: State, order: seq<Id>, n: nat, time: int)
    requires Shape(c, s) && Sound(s) && n <= |order|
    ensures var p := PruneSessions(c, s, order, n, time);
      Shape(c, p) && Sound(p) && SameTally(s, p) && |p.events| <= |s.events|
  {
    if n > 0 {
      PruneSessionsKeeps(c, s, order, n - 1, time);
      PruneOneKeeps(c, PruneSessions(c, s, order, n - 1, time), order[n - 1], time);
    }
  }

  lemma UnexpiredFewer(tombstones: map<Id, Option<int>>, time: int)
    ensures Unexpired(tombstones, time).Keys <= tombstones.Keys && |Unexpired(tombstones, time)| <= |tombstones|
  {
    SubsetCard(Unexpired(tombstones, time).Keys, tombstones.Keys);
  }

  lemma LaterContent(c: Controls, events: seq<Held>, now: int, later: int)
    requires ContentOk(c, events, now) && now <= later
    ensures ContentOk(c, events, later)
  {
  }

  lemma BeginKeeps(c: Controls, s: State, order: seq<Id>, clock: int)
    requires Inv(c, s) && ClockOk(clock)
    ensures Inv(c, Begin(c, s, order, clock))
  {
    hide HeldOnce, TableOk, Consistent, WithinBudget;
    var t := Tick(s, clock);
    LaterContent(c, s.events, s.lastNow, t.lastNow);
    UnexpiredFewer(t.tombstones, t.lastNow);
    hide ContentOk;
    var fresh' := t.(tombstones := Unexpired(t.tombstones, t.lastNow));
    PruneSessionsKeeps(c, fresh', order, |order|, t.lastNow);
  }

  // ---- recording ----

  lemma {:induction false} CohortHas(events: seq<Held>, e: Event, x: Event)
    ensures x in Cohort(events, e) <==> x in EventSet(events) && Related(x, e)
  {
    if events != [] {
      var init, last := events[..|events| - 1], events[|events| - 1];
      CohortHas(init, e, x);
      EventSetExtends(init, last);
      assert events == init + [last];
    }
  }

  lemma EventSetExtends(events: seq<Held>, h: Held)
    ensures EventSet(events + [h]) == EventSet(events) + {h.event}
  {
    assert h in events + [h];
    assert forall x <- events :: x in events + [h];
  }

  lemma {:induction false} CohortFewer(events: seq<Held>, e: Event)
    ensures |Cohort(events, e)| <= |events|
  {
    if events != [] { CohortFewer(events[..|events| - 1], e); }
  }

  lemma CohortSet(events: seq<Held>, e: Event)
    ensures SetOf(Cohort(events, e) + [e]) == RelatedTo(EventSet(events), e) + {e}
  {
    forall x: Event
      ensures x in Cohort(events, e) <==> x in RelatedTo(EventSet(events), e)
    {
      CohortHas(events, e, x);
    }
  }

  /** The events a check would see lie within its horizon. */
  lemma HeldWithin(c: Controls, events: seq<Held>, now: int, x: Event)
    requires ContentOk(c, events, now) && x in EventSet(events)
    ensures ValidEvent(x) && x.body.at <= now + c.maxFutureSkewMs
  {
    var h :| h in events && h.event == x;
    var i :| 0 <= i < |events| && events[i] == h;
  }

  lemma OneIdentity(events: seq<Held>, x: Event, y: Event)
    requires HeldOnce(events) && x in EventSet(events) && y in EventSet(events) && x.eventId == y.eventId
    ensures x == y
  {
    var g :| g in events && g.event == x;
    var h :| h in events && h.event == y;
    var i :| 0 <= i < |events| && events[i] == g;
    var j :| 0 <= j < |events| && events[j] == h;
    assert events[i].event.eventId == events[j].event.eventId;
  }

  lemma HeldIdIs(events: seq<Held>, x: Event)
    requires x in EventSet(events)
    ensures HeldId(events, x.eventId)
  {
    var h :| h in events && h.event == x;
    var i :| 0 <= i < |events| && events[i] == h;
  }

  /** A new event, past the other guards. */
  ghost predicate Candidate(c: Controls, s: State, e: Event) {
    && ValidEvent(e) && !HeldId(s.events, e.eventId) && |s.events| < c.maxEvents
    && e.body.at <= s.lastNow + c.maxFutureSkewMs
  }

  lemma CohortIdentified(c: Controls, s: State, e: Event)
    requires Shape(c, s) && Candidate(c, s, e)
    ensures Identified(Cohort(s.events, e) + [e]) && forall x <- Cohort(s.events, e) + [e] :: ValidEvent(x)
    ensures Included(SetOf(Cohort(s.events, e) + [e]), s.lastNow + c.maxFutureSkewMs) == SetOf(Cohort(s.events, e) + [e])
  {
    var cohort := Cohort(s.events, e);
    forall x <- cohort
      ensures x in EventSet(s.events) && ValidEvent(x) && x.body.at <= s.lastNow + c.maxFutureSkewMs && x.eventId != e.eventId
    {
      CohortHas(s.events, e, x);
      HeldWithin(c, s.events, s.lastNow, x);
      HeldIdIs(s.events, x);
    }
    hide Shape;
    assert HeldOnce(s.events) by { ShapeOnce(c, s); }
    forall a, b | a in cohort + [e] && b in cohort + [e] && a.eventId == b.eventId
      ensures a == b
    {
      if a in cohort && b in cohort { OneIdentity(s.events, a, b); }
    }
  }

  lemma ShapeOnce(c: Controls, s: State)
    requires Shape(c, s)
    ensures HeldOnce(s.events)
  {
  }

  /** The buffer's check of one cohort decides the consistency of everything it would then hold. */
  lemma CohortDecides(c: Controls, s: State, e: Event)
    requires Inv(c, s) && Candidate(c, s, e)
    ensures Acceptable(Cohort(s.events, e) + [e], s.lastNow + c.maxFutureSkewMs, c.inactivityMs)
       <==> Consistent(EventSet(s.events) + {e})
  {
    var held := EventSet(s.events);
    CohortIdentified(c, s, e);
    CohortSet(s.events, e);
    CohortFewer(s.events, e);
    forall h <- held
      ensures h.eventId != e.eventId
    {
      HeldIdIs(s.events, h);
    }
    assert Sound(s);
    hide Shape, HeldId, EventSet, Compatible, Identified;
    if Consistent(RelatedTo(held, e) + {e}) { LocalCheckSuffices(held, e); }
    if Consistent(held + {e}) { ConsistentSubset(held + {e}, RelatedTo(held, e) + {e}); }
  }

  lemma KeepTable(events: seq<Held>, sessions: map<Id, int>, h: Held)
    requires TableOk(events, sessions)
    ensures var id, at := h.event.body.sessionId, h.event.body.at;
      TableOk(events + [h], sessions[id := Min(if id in sessions then sessions[id] else at, at)])
  {
    var id, at := h.event.body.sessionId, h.event.body.at;
    var next := sessions[id := Min(if id in sessions then sessions[id] else at, at)];
    var more := events + [h];
    forall k <- next
      ensures Earliest(more, k, next[k])
    {
      if k in sessions && next[k] == sessions[k] {
        assert Earliest(events, k, sessions[k]);
        var i :| 0 <= i < |events| && events[i].event.body.sessionId == k && events[i].event.body.at == sessions[k];
        assert more[i] == events[i];
      } else {
        assert more[|events|] == h;
      }
    }
  }

  lemma KeepOnce(c: Controls, s: State, h: Held)
    requires HeldOnce(s.events) && ContentOk(c, s.events, s.lastNow) && Candidate(c, s, h.event) && Labelled(c, h.event)
    ensures HeldOnce(s.events + [h]) && ContentOk(c, s.events + [h], s.lastNow)
  {
  }

  lemma KeepCounts(s: State, e: Event, bytes: nat)
    ensures |Keep(s, e, bytes).sessions| == |s.sessions| + (if e.body.sessionId in s.sessions then 0 else 1)
    ensures BytesOf(s.events + [Held(e, bytes)]) == BytesOf(s.events) + bytes
  {
    assert Keep(s, e, bytes).sessions.Keys == s.sessions.Keys + {e.body.sessionId};
    assert (s.events + [Held(e, bytes)])[..|s.events|] == s.events;
  }

  lemma Passed(c: Controls, s: State, e: Event, bytes: nat)
    requires ControlsOk(c) && Judge(c, s, e, bytes) == Kept(false)
    ensures Candidate(c, s, e) && Labelled(c, e) && !Full(c, s, e, bytes) && e.body.sessionId !in s.tombstones
    ensures WithinBudget(EventSet(s.events) + {e})
    ensures Acceptable(Cohort(s.events, e) + [e], s.lastNow + c.maxFutureSkewMs, c.inactivityMs)
  {
    hide WithinBudget, EventSet, Acceptable, HeldId, Labelled;
  }

  lemma KeepSound(c: Controls, s: State, e: Event, bytes: nat)
    requires Inv(c, s) && Judge(c, s, e, bytes) == Kept(false)
    ensures Sound(Keep(s, e, bytes))
  {
    hide Judge, Shape, Acceptable, Consistent, WithinBudget, Labelled, Candidate, EventSet, Cohort, Full;
    Passed(c, s, e, bytes);
    CohortDecides(c, s, e);
    EventSetExtends(s.events, Held(e, bytes));
  }

  lemma KeepApart(s: State, e: Event, bytes: nat)
    requires s.sessions.Keys !! s.tombstones.Keys && e.body.sessionId !in s.tombstones
    ensures Keep(s, e, bytes).sessions.Keys !! Keep(s, e, bytes).tombstones.Keys
  {
  }

  lemma KeepShape(c: Controls, s: State, e: Event, bytes: nat)
    requires Shape(c, s) && Candidate(c, s, e) && Labelled(c, e)
    requires !Full(c, s, e, bytes) && e.body.sessionId !in s.tombstones
    ensures Shape(c, Keep(s, e, bytes))
  {
    hide TableOk, BytesOf, HeldId, Labelled;
    KeepOnce(c, s, Held(e, bytes));
    KeepTable(s.events, s.sessions, Held(e, bytes));
    KeepCounts(s, e, bytes);
    KeepApart(s, e, bytes);
    hide HeldOnce, ContentOk, Candidate;
  }

  lemma KeepKeeps(c: Controls, s: State, e: Event, bytes: nat)
    requires Inv(c, s) && !s.closed && Judge(c, s, e, bytes) == Kept(false)
    ensures Inv(c, Keep(s, e, bytes))
  {
    hide Judge, Shape, Sound, Acceptable, WithinBudget, Labelled, Candidate, Full;
    Passed(c, s, e, bytes);
    KeepSound(c, s, e, bytes);
    KeepShape(c, s, e, bytes);
  }

  // ---- every call ----

  lemma DeletedKeeps(c: Controls, s: State, id: Id)
    requires Inv(c, s) && !s.closed
    ensures Inv(c, Deleted(c, s, id))
  {
    hide Shape, Sound, Deny;
    RemoveKeeps(c, s, id);
    DenyKeeps(c, RemoveSession(s, id), id, None);
    DeletedShape(c, s, id);
  }

  lemma DeletedShape(c: Controls, s: State, id: Id)
    ensures var d, n := Deny(c, RemoveSession(s, id), id, None), Deleted(c, s, id);
      (Shape(c, d) ==> Shape(c, n)) && (Sound(d) ==> Sound(n))
  {
  }

  lemma ClearedKeeps(c: Controls, s: State)
    requires Inv(c, s)
    ensures Inv(c, Cleared(s)) && Inv(c, Cleared(s).(closed := true))
  {
    EmptyInv(c);
  }

  lemma RecordKeeps(c: Controls, s: State, e: Event, bytes: nat)
    requires Inv(c, s) && !s.closed
    ensures Inv(c, Recorded(s, e, bytes, Judge(c, s, e, bytes)))
  {
    if Judge(c, s, e, bytes) == Kept(false) { KeepKeeps(c, s, e, bytes); }
  }

  lemma SameClosed(c: Controls, s: State, order: seq<Id>, clock: int)
    ensures Begin(c, s, order, clock).closed == s.closed
  {
    PruneClosed(c, Tick(s, clock).(tombstones := Unexpired(s.tombstones, Tick(s, clock).lastNow)), order, |order|, Tick(s, clock).lastNow);
  }

  lemma {:induction false} PruneClosed(c: Controls, s: State, order: seq<Id>, n: nat, time: int)
    requires n <= |order|
    ensures PruneSessions(c, s, order, n, time).closed == s.closed
  {
    if n > 0 { PruneClosed(c, s, order, n - 1, time); }
  }

  /** Every call, whatever the clock reads and whatever order pruning visits sessions in, keeps the invariant. */
  lemma StepKeeps(c: Controls, s: State, call: Call, clock: int, s': State)
    requires Inv(c, s) && Next(c, s, call, clock, s')
    ensures Inv(c, s')
  {
    hide Shape, Sound, Begin, Judge, Recorded, Deleted;
    if call.Clear? || call.Close? {
      ClearedKeeps(c, s);
    } else if !s.closed && ClockOk(clock) {
      var order: seq<Id> :| Listing(order, s.sessions.Keys) && After(c, s, call, clock, order, s');
      BeginKeeps(c, s, order, clock);
      SameClosed(c, s, order, clock);
      var b := Begin(c, s, order, clock);
      if call.Record? { RecordKeeps(c, b, call.event, call.bytes); }
      if call.Delete? { DeletedKeeps(c, b, call.id); }
    } else {
      RefusalKeeps(c, s);
    }
  }

  lemma RefusalKeeps(c: Controls, s: State)
    requires Inv(c, s)
    ensures Inv(c, Refuse(s)) && Inv(c, Refuse(Failure(s)))
  {
  }
}
