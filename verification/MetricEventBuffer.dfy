/**
  class MetricEventBuffer (lib/MetricEventBuffer.js): its fields, loops and calls, each proved to take the step
  that MetricBuffer specifies, so that the theorems about runs hold of it.
 */
module MetricEventBuffers {
  import opened Wrappers
  import opened MetricEvents
  import opened MetricGroups
  import opened MetricAggregate
  import opened MetricBuckets
  import opened MetricStates
  import opened MetricReport
  import opened MetricBuffer
  import opened MetricBufferInvariant
  import opened MetricBufferTheorems
  import opened MetricBufferAdmission

  datatype Snapshot = Snapshot(generation: nat, events: seq<Event>, asOf: int, report: Report)

  class MetricEventBuffer {
    const controls: Controls
    var events: seq<Held>
    var sessions: map<Id, int>
    var tombstones: map<Id, Option<int>>
    var bytes: int
    var generation: nat
    var lastNow: int
    var sealed: bool
    var closed: bool
    var counts: Counts

    ghost function Books(): State
      reads this
    {
      State(events, sessions, tombstones, bytes, generation, lastNow, sealed, closed, counts)
    }

    ghost predicate Valid()
      reads this
    {
      Inv(controls, Books())
    }

    constructor (c: Controls)
      requires ControlsOk(c)
      ensures controls == c && Books() == EMPTY && Valid()
    {
      controls := c;
      events, sessions, tombstones, bytes := [], map[], map[], 0;
      generation, lastNow, sealed, closed, counts := 0, 0, false, false, Counts(0, 0, 0, 0, 0, 0);
      new;
      EmptyInv(c);
    }

    /** _time: false when the clock is unusable. */
    method Time(clock: int) returns (ok: bool)
      modifies this`lastNow
      ensures ok <==> ClockOk(clock)
      ensures Books() == if ok then Tick(old(Books()), clock) else old(Books())
    {
      ok := ClockOk(clock);
      if ok { lastNow := Max(lastNow, clock); }
    }

    /** Drops every event of the session. */
    method Remove(id: Id) returns (removed: nat)
      modifies this`events, this`bytes, this`sessions
      ensures Books() == RemoveSession(old(Books()), id)
      ensures removed == |old(events)| - |events|
    {
      hide Without, BytesOf;
      var kept, freed := Drop(events, id);
      removed := |events| - |kept|;
      events, bytes, sessions := kept, bytes - freed, sessions - {id};
    }

    /** Bars a session until a time, or for good: by its tombstone, or by sealing where there is no room for one. */
    method DenySession(id: Id, until: Option<int>)
      modifies this`tombstones, this`sealed, this`counts
      ensures Books() == Deny(controls, old(Books()), id, until)
      ensures sealed || (id in tombstones && tombstones[id] == until)
    {
      if id in tombstones || |tombstones| < controls.maxTombstones {
        tombstones := tombstones[id := until];
      } else {
        sealed := true;
        counts := counts.(failures := counts.failures + 1);
      }
    }

    /** One session met by _prune. */
    method PruneSession(id: Id, time: int) returns (removed: nat)
      modifies this`events, this`bytes, this`sessions, this`tombstones, this`sealed, this`counts
      ensures Books() == PruneOne(controls, old(Books()), id, time)
      ensures removed == |old(events)| - |events|
    {
      hide Deny, RemoveSession;
      removed := 0;
      if id in sessions && sessions[id] + controls.retentionMs <= time {
        removed := Remove(id);
        DenySession(id, Some(time + controls.retentionMs));
      }
    }

    method PruneTable(time: int) returns (removed: nat, ghost order: seq<Id>)
      modifies this`events, this`bytes, this`sessions, this`tombstones, this`sealed, this`counts
      ensures Listing(order, old(sessions).Keys)
      ensures Books() == PruneSessions(controls, old(Books()), order, |order|, time)
      ensures removed == |old(events)| - |events|
    {
      var keys := ListKeys(sessions.Keys);
      order := keys;
      removed := 0;
      hide PruneOne;
      var i := 0;
      while i < |keys|
        invariant 0 <= i <= |keys|
        invariant Books() == PruneSessions(controls, old(Books()), keys, i, time)
        invariant removed == |old(events)| - |events|
      {
        var n := PruneSession(keys[i], time);
        removed := removed + n;
        i := i + 1;
      }
    }

    /** _prune at the buffer's own time. */
    method PruneAll() returns (ghost order: seq<Id>)
      modifies this
      ensures Listing(order, old(sessions).Keys)
      ensures Books() == Prune(controls, old(Books()), order)
    {
      hide PruneSessions;
      var time := lastNow;
      tombstones := map id | id in tombstones && (tombstones[id].Some? ==> tombstones[id].value > time) :: tombstones[id];
      assert Books() == old(Books()).(tombstones := Unexpired(old(tombstones), time));
      var removed: nat;
      removed, order := PruneTable(time);
      if removed > 0 {
        counts := counts.(evicted := counts.evicted + removed);
        generation := generation + 1;
      }
    }

    /** Reading the clock and pruning, as every call on an open buffer begins. */
    method Refresh(clock: int) returns (ok: bool, ghost order: seq<Id>)
      requires Valid() && !closed
      modifies this
      ensures ok <==> ClockOk(clock)
      ensures !ok ==> Books() == old(Books())
      ensures ok ==> Listing(order, old(sessions).Keys) && Books() == Begin(controls, old(Books()), order, clock)
      ensures Valid() && !closed
    {
      hide Inv, Prune;
      order := [];
      ok := Time(clock);
      if ok {
        order := PruneAll();
        BeginKeeps(controls, old(Books()), order, clock);
        SameClosed(controls, old(Books()), order, clock);
      }
    }

    /** Keeping an event that passed every check. */
    method Retain(e: Event, size: nat)
      modifies this`events, this`bytes, this`sessions, this`counts
      ensures Books() == Keep(old(Books()), e, size)
    {
      var at := e.body.at;
      events, bytes := events + [Held(e, size)], bytes + size;
      sessions := sessions[e.body.sessionId := Min(if e.body.sessionId in sessions then sessions[e.body.sessionId] else at, at)];
      counts := counts.(accepted := counts.accepted + 1);
    }

    /** Whether the event's cohort, with it, still aggregates. */
    method CohortAccepts(e: Event, horizon: int) returns (ok: bool)
      ensures ok <==> Acceptable(Cohort(events, e) + [e], horizon, controls.inactivityMs)
    {
      hide Acceptable, SummaryOk;
      var check := Aggregate(Cohort(events, e) + [e], horizon, controls.inactivityMs);
      ok := check.Some?;
    }

    /** The group budget over everything held and one more event. */
    method FitsBudget(e: Event) returns (ok: bool)
      ensures ok <==> WithinBudget(EventSet(events) + {e})
    {
      var versions: set<Version> := {e.body.flowVersion};
      var groups: set<StateKey> := EventGroups(e);
      BudgetOne(e);
      var i := 0;
      while i < |events|
        invariant 0 <= i <= |events|
        invariant versions == BudgetVersions(EventSet(events[..i]) + {e}) && groups == BudgetGroups(EventSet(events[..i]) + {e})
      {
        BudgetNext(events[..i], events[i], e);
        assert events[..i + 1] == events[..i] + [events[i]];
        versions := versions + {events[i].event.body.flowVersion};
        groups := groups + EventGroups(events[i].event);
        i := i + 1;
      }
      assert events[..i] == events;
      ok := |versions| <= MAX_FLOWS && |groups| <= MAX_STATES;
    }

    /** The held event with an identity, if any. */
    method Find(id: Id) returns (r: Option<Event>)
      ensures r.Some? <==> HeldId(events, id)
      ensures r.Some? ==> r.value in EventSet(events) && r.value.eventId == id
    {
      r := None;
      var i := 0;
      while i < |events|
        invariant 0 <= i <= |events| && r.None?
        invariant forall j | 0 <= j < i :: events[j].event.eventId != id
      {
        if events[i].event.eventId == id {
          assert events[i] in events;
          return Some(events[i].event);
        }
        i := i + 1;
      }
    }

    /** record after the clock was read and the buffer pruned. */
    method Admit(e: Event, size: nat) returns (verdict: Verdict)
      requires Valid()
      modifies this
      ensures verdict == Judge(controls, old(Books()), e, size)
      ensures Books() == Recorded(old(Books()), e, size, verdict)
    {
      verdict := Decide(e, size);
      hide Inv, Judge;
      match verdict
      case Kept(true) => counts := counts.(duplicates := counts.duplicates + 1);
      case Kept(false) => Retain(e, size);
      case Refused(_) => counts := counts.(rejected := counts.rejected + 1);
      case Thrown => counts := counts.(failures := counts.failures + 1, rejected := counts.rejected + 1);
    }

    /** The checks of record, in its order. */
    method Decide(e: Event, size: nat) returns (verdict: Verdict)
      requires Valid()
      ensures verdict == Judge(controls, Books(), e, size)
    {
      hide Inv, EventSet, HeldId, WithinBudget, Acceptable, Labelled, ValidEvent;
      var horizon := lastNow + controls.maxFutureSkewMs;
      if sealed { return Refused(NoCapacity); }
      if !ValidEvent(e) { return Thrown; }
      if !Labelled(controls, e) { return Refused(UnknownLabel); }
      if e.body.sessionId in tombstones { return Refused(SessionDenied); }
      if e.body.at > horizon { return Refused(InFuture); }
      if e.body.at + controls.retentionMs <= lastNow { return Refused(TooOld); }
      var existing := Find(e.eventId);
      if existing.Some? {
        ExistingIs(controls, Books(), e, existing.value);
        return if existing.value == e then Kept(true) else Refused(NotValid);
      }
      if |events| >= controls.maxEvents || bytes + size > controls.maxBytes || (e.body.sessionId !in sessions && |sessions| >= controls.maxSessions) {
        return Refused(NoCapacity);
      }
      var fits := FitsBudget(e);
      if !fits { return Refused(NoCapacity); }
      if horizon > MAX_TIME { return Thrown; }
      var accepted := CohortAccepts(e, horizon);
      verdict := if accepted then Kept(false) else Thrown;
    }

    /** One event: prune, judge it, and keep it if it passes. */
    method Record(e: Event, size: nat, clock: int) returns (verdict: Verdict, ghost order: seq<Id>)
      requires Valid()
      modifies this
      ensures old(closed) ==> verdict == Refused(BufferClosed)
      ensures !old(closed) && !ClockOk(clock) ==> verdict == Thrown
      ensures !old(closed) && ClockOk(clock) ==>
        Listing(order, old(sessions).Keys) && verdict == Judge(controls, Begin(controls, old(Books()), order, clock), e, size)
      // in the state that pruning leaves, the verdict says exactly what was the matter with the event
      ensures !old(closed) && ClockOk(clock) ==>
        VerdictMeans(controls, Begin(controls, old(Books()), order, clock), e, size, verdict)
        && events == Begin(controls, old(Books()), order, clock).events + (if verdict == Kept(false) then [Held(e, size)] else [])
      ensures Valid() && Next(controls, old(Books()), Call.Record(e, size), clock, Books())
      ensures verdict.Kept? ==> !old(closed) && ClockOk(clock) && e in EventSet(events)
    {
      hide Inv, Judge, Recorded, Begin, VerdictMeans;
      order := [];
      if closed {
        counts := counts.(rejected := counts.rejected + 1);
        RefusalKeeps(controls, old(Books()));
        return Refused(BufferClosed), [];
      }
      var ok: bool;
      ok, order := Refresh(clock);
      if !ok {
        counts := counts.(failures := counts.failures + 1, rejected := counts.rejected + 1);
        RefusalKeeps(controls, old(Books()));
        return Thrown, [];
      }
      ghost var pruned := Books();
      verdict := Admit(e, size);
      JudgedExactly(controls, pruned, e, size);
      RecordedHolds(pruned, e, size, verdict);
      RecordKeeps(controls, pruned, e, size);
      KeptIsHeld(controls, pruned, e, size);
      assert After(controls, old(Books()), Call.Record(e, size), clock, order, Books());
    }

    /** deleteSession(sessionId): None when the clock is unusable, otherwise how many events went. */
    method DeleteSession(id: Id, clock: int) returns (deleted: Option<nat>)
      requires Valid()
      modifies this
      ensures Valid() && Next(controls, old(Books()), Delete(id), clock, Books())
      ensures deleted.Some? <==> old(closed) || ClockOk(clock)
      ensures deleted.Some? && !old(closed) ==> Erased(Books(), id)
    {
      hide Inv, Deny, RemoveSession, Begin, Erased;
      if closed { return Some(0); }
      var ok: bool;
      ghost var order;
      ok, order := Refresh(clock);
      if !ok { return None; }
      ghost var pruned := Books();
      var n := Remove(id);
      DenySession(id, None);
      counts := counts.(deleted := counts.deleted + n);
      generation := generation + 1;
      deleted := Some(n);
      assert Books() == Deleted(controls, pruned, id);
      DeletedKeeps(controls, pruned, id);
      DeleteErased(controls, pruned, id, id);
      assert After(controls, old(Books()), Delete(id), clock, order, Books());
    }

    /** Erases all local evidence and seals the buffer. */
    method Clear()
      requires Valid()
      modifies this
      ensures Valid() && Next(controls, old(Books()), Call.Clear, 0, Books())
    {
      hide Inv;
      if closed { return; }
      counts := counts.(deleted := counts.deleted + |events|);
      events, sessions, tombstones, bytes := [], map[], map[], 0;
      sealed := true;
      generation := generation + 1;
      assert Books() == Cleared(old(Books()));
      ClearedKeeps(controls, old(Books()));
    }

    /** Clears once and for all. */
    method Close()
      requires Valid()
      modifies this
      ensures Valid() && closed && Next(controls, old(Books()), Call.Close, 0, Books())
    {
      hide Inv;
      if closed { return; }
      Clear();
      closed := true;
      ClearedKeeps(controls, old(Books()));
    }

    /** snapshot(): it fails only on a closed buffer or an unusable clock; the report itself never does. */
    method TakeSnapshot(clock: int) returns (r: Option<Snapshot>)
      requires Valid()
      modifies this
      ensures Valid() && Next(controls, old(Books()), Look, clock, Books())
      ensures r.Some? <==> !old(closed) && ClockOk(clock)
      ensures r.Some? ==> r.value.generation == generation && r.value.events == EventList(events) && r.value.asOf == lastNow
      ensures r.Some? ==> ReportOk(Included(EventSet(events), lastNow), lastNow, controls.inactivityMs, r.value.report)
    {
      hide Inv, ReportOk, Begin;
      if closed { return None; }
      var ok: bool;
      ghost var order;
      ok, order := Refresh(clock);
      if !ok { return None; }
      assert After(controls, old(Books()), Look, clock, order, Books());
      var report := HeldReport();
      r := Some(Snapshot(generation, EventList(events), lastNow, report));
    }

    /** The report of everything held, at the buffer's time: it always succeeds. */
    method HeldReport() returns (report: Report)
      requires Valid()
      ensures ReportOk(Included(EventSet(events), lastNow), lastNow, controls.inactivityMs, report)
    {
      HeldAcceptable(controls, Books());
      EventListSet(events);
      hide ReportOk, Fits, Acceptable, Answers, Inv;
      var built := BuildReport(EventList(events), lastNow, controls.inactivityMs);
      report := built.value;
    }

    /** isCurrent(): whether nothing was evicted, deleted or cleared since the snapshot of a generation. */
    method IsCurrent(since: nat, clock: int) returns (current: bool)
      requires Valid()
      modifies this
      ensures Valid() && Next(controls, old(Books()), Look, clock, Books())
      ensures current <==> !closed && ClockOk(clock) && generation == since
    {
      if closed { return false; }
      var ok: bool;
      ghost var order;
      ok, order := Refresh(clock);
      if !ok { return false; }
      assert After(controls, old(Books()), Look, clock, order, Books());
      current := generation == since;
    }
  }

  /** An accepted event is held, whether it is new or was held before. */
  lemma KeptIsHeld(c: Controls, s: State, e: Event, size: nat)
    ensures var verdict := Judge(c, s, e, size);
      verdict.Kept? ==> e in EventSet(Recorded(s, e, size, verdict).events)
  {
    EventSetExtends(s.events, Held(e, size));
  }

  lemma BudgetOne(e: Event)
    ensures BudgetVersions(EventSet([]) + {e}) == {e.body.flowVersion} && BudgetGroups(EventSet([]) + {e}) == EventGroups(e)
  {
    assert EventSet([]) + {e} == {e};
  }

  lemma BudgetNext(events: seq<Held>, h: Held, e: Event)
    ensures BudgetVersions(EventSet(events + [h]) + {e}) == BudgetVersions(EventSet(events) + {e}) + {h.event.body.flowVersion}
    ensures BudgetGroups(EventSet(events + [h]) + {e}) == BudgetGroups(EventSet(events) + {e}) + EventGroups(h.event)
  {
    EventSetExtends(events, h);
    var u := EventSet(events) + {e};
    assert EventSet(events + [h]) + {e} == u + {h.event};
    hide EventSet;
    BudgetAdds(u, h.event);
  }

  lemma BudgetAdds(u: set<Event>, x: Event)
    ensures BudgetVersions(u + {x}) == BudgetVersions(u) + {x.body.flowVersion}
    ensures BudgetGroups(u + {x}) == BudgetGroups(u) + EventGroups(x)
  {
    hide EventGroups;
    forall k: StateKey
      ensures k in BudgetGroups(u + {x}) <==> k in BudgetGroups(u) || k in EventGroups(x)
    {
      if e :| e in u && k in EventGroups(e) { assert e in u + {x}; }
      if k in EventGroups(x) { assert x in u + {x}; }
    }
  }

  /** An event with the identity of a held one is held itself exactly when it is that one. */
  lemma ExistingIs(c: Controls, s: State, e: Event, held: Event)
    requires Inv(c, s) && held in EventSet(s.events) && held.eventId == e.eventId
    ensures e in EventSet(s.events) <==> held == e
  {
    hide EventSet, TableOk, ContentOk, Sound;
    if e in EventSet(s.events) { OneIdentity(s.events, e, held); }
  }

  /** The events that stay and the bytes of those that go. */
  method Drop(events: seq<Held>, id: Id) returns (kept: seq<Held>, freed: int)
    ensures kept == Without(events, id) && freed == BytesOf(events) - BytesOf(kept)
  {
    kept, freed := [], 0;
    var i := 0;
    while i < |events|
      invariant 0 <= i <= |events|
      invariant kept == Without(events[..i], id) && freed == BytesOf(events[..i]) - BytesOf(kept)
    {
      assert events[..i + 1] == events[..i] + [events[i]];
      RemovalStep(events[..i], events[i], id);
      if events[i].event.body.sessionId == id {
        freed := freed + events[i].bytes;
      } else {
        kept := kept + [events[i]];
      }
      i := i + 1;
    }
    assert events[..i] == events;
  }

  lemma RemovalStep(events: seq<Held>, h: Held, id: Id)
    ensures Without(events + [h], id) == Without(events, id) + (if h.event.body.sessionId != id then [h] else [])
    ensures BytesOf(events + [h]) == BytesOf(events) + h.bytes
    ensures BytesOf(Without(events, id) + [h]) == BytesOf(Without(events, id)) + h.bytes
  {
    assert (events + [h])[..|events|] == events;
    assert (Without(events, id) + [h])[..|Without(events, id)|] == Without(events, id);
  }

  lemma RecordedHolds(b: State, e: Event, bytes: nat, verdict: Verdict)
    ensures Recorded(b, e, bytes, verdict).events == b.events + (if verdict == Kept(false) then [Held(e, bytes)] else [])
  {
  }
}
