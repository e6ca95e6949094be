/**
  What the buffer admits and why it refuses (lib/MetricEventBuffer.js:63-110), stated on the events held and the
  event offered: which events pruning leaves, when a new event is kept, and when each refusal is given.
 */
module MetricBufferAdmission {
  import opened Wrappers
  import opened MetricEvents
  import opened MetricGroups
  import opened MetricStates
  import opened MetricReport
  import opened MetricBuckets
  import opened MetricBuffer
  import opened MetricBufferInvariant
  import opened MetricBufferTheorems
  import opened Tally

  // ---- the conditions, on what is held and what is offered ----

  ghost function SessionsHeld(events: seq<Held>): set<Id> { set h | h in events :: h.event.body.sessionId }

  /** The event names no version or state that the buffer was not told of. */
  ghost predicate InVocabulary(c: Controls, e: Event) {
    && (e.body.flowVersion.Some? ==> e.body.flowVersion.value in c.flowVersions)
    && (e.body.fact.Turn? && e.body.fact.previousState.Some? ==> e.body.fact.previousState.value in c.states)
    && (e.body.fact.Turn? && e.body.fact.nextState.Some? ==> e.body.fact.nextState.value in c.states)
  }

  ghost predicate Offered(c: Controls, b: State, e: Event) { !b.sealed && ValidEvent(e) && InVocabulary(c, e) }

  ghost predicate Timely(c: Controls, b: State, e: Event) {
    e.body.at <= b.lastNow + c.maxFutureSkewMs && b.lastNow < e.body.at + c.retentionMs
  }

  ghost predicate IdentityHeld(b: State, e: Event) { exists h :: h in b.events && h.event.eventId == e.eventId }

  /** Fewer events than the limit, bytes that fit, and a session that is held already or one more than are held. */
  ghost predicate Room(c: Controls, b: State, e: Event, bytes: nat) {
    && |b.events| < c.maxEvents
    && BytesOf(b.events) + bytes <= c.maxBytes
    && (e.body.sessionId in SessionsHeld(b.events) || |SessionsHeld(b.events)| < c.maxSessions)
  }

  /** The flow versions and the rows that a report of these events may open. */
  ghost function VersionsNamed(u: set<Event>): set<Option<string>> { set e | e in u :: e.body.flowVersion }

  ghost predicate MayOpen(e: Event, k: StateKey) {
    && k.version == e.body.flowVersion
    && ((e.body.fact.SessionStart? && k.state.None?)
        || (e.body.fact.Turn? && (k.state == e.body.fact.previousState || k.state == e.body.fact.nextState)))
  }

  ghost predicate IsOpened(u: set<Event>, k: StateKey) { exists e :: e in u && MayOpen(e, k) }

  ghost predicate AreRows(rows: set<StateKey>, u: set<Event>) { forall k :: k in rows <==> IsOpened(u, k) }

  ghost predicate RowsFit(u: set<Event>) {
    && |VersionsNamed(u)| <= 128
    && exists rows :: AreRows(rows, u) && |rows| <= 1024
  }

  /** The event passes every check that comes before the capacity of the buffer. */
  ghost predicate Eligible(c: Controls, b: State, e: Event) {
    Offered(c, b, e) && e.body.sessionId !in b.tombstones && Timely(c, b, e) && !IdentityHeld(b, e)
  }

  ghost predicate FitsIn(c: Controls, b: State, e: Event, bytes: nat) { Room(c, b, e, bytes) && RowsFit(EventSet(b.events) + {e}) }

  /** With the clock in range, the event agrees with everything held. */
  ghost predicate Agrees(c: Controls, b: State, e: Event) {
    b.lastNow + c.maxFutureSkewMs <= 8640000000000000 && Consistent(EventSet(b.events) + {e})
  }

  /** What each verdict on an event says about it. */
  ghost predicate VerdictMeans(c: Controls, b: State, e: Event, bytes: nat, v: Verdict) {
    && (v == Kept(false) <==> Eligible(c, b, e) && FitsIn(c, b, e, bytes) && Agrees(c, b, e))
    && (v == Kept(true) <==> Offered(c, b, e) && e.body.sessionId !in b.tombstones && Timely(c, b, e) && e in EventSet(b.events))
    && (v == Refused(NotValid)
        <==> Offered(c, b, e) && e.body.sessionId !in b.tombstones && Timely(c, b, e) && IdentityHeld(b, e) && e !in EventSet(b.events))
    && (v == Refused(UnknownLabel) <==> !b.sealed && ValidEvent(e) && !InVocabulary(c, e))
    && (v == Refused(SessionDenied) <==> Offered(c, b, e) && e.body.sessionId in b.tombstones)
    && (v == Refused(InFuture) <==> Offered(c, b, e) && e.body.sessionId !in b.tombstones && e.body.at > b.lastNow + c.maxFutureSkewMs)
    && (v == Refused(TooOld) <==> Offered(c, b, e) && e.body.sessionId !in b.tombstones && e.body.at + c.retentionMs <= b.lastNow)
    && (v == Refused(NoCapacity) <==> (b.sealed || (Eligible(c, b, e) && !FitsIn(c, b, e, bytes))))
    && (v == Thrown <==> ((!b.sealed && !ValidEvent(e)) || (Eligible(c, b, e) && FitsIn(c, b, e, bytes) && !Agrees(c, b, e))))
    && v != Refused(BufferClosed)
  }

  // ---- the buffer decides exactly so ----

  lemma RoomIs(c: Controls, b: State, e: Event, bytes: nat)
    requires Inv(c, b)
    ensures Full(c, b, e, bytes) <==> !Room(c, b, e, bytes)
  {
    assert TableOk(b.events, b.sessions);
    forall id: Id
      ensures id in b.sessions <==> id in SessionsHeld(b.events)
    {
      if id in b.sessions {
        assert Earliest(b.events, id, b.sessions[id]);
        var i :| 0 <= i < |b.events| && b.events[i].event.body.sessionId == id;
        assert b.events[i] in b.events;
      }
      if id in SessionsHeld(b.events) {
        var h :| h in b.events && h.event.body.sessionId == id;
        var i :| 0 <= i < |b.events| && b.events[i] == h;
      }
    }
    assert b.sessions.Keys == SessionsHeld(b.events);
  }

  lemma RowsAre(u: set<Event>)
    ensures WithinBudget(u) <==> RowsFit(u)
  {
    assert BudgetVersions(u) == VersionsNamed(u);
    forall k
      ensures k in BudgetGroups(u) <==> IsOpened(u, k)
    {
      if e :| e in u && MayOpen(e, k) { assert k in EventGroups(e); }
      if k in BudgetGroups(u) {
        var e :| e in u && k in EventGroups(e);
        assert MayOpen(e, k);
      }
    }
    assert AreRows(BudgetGroups(u), u);
    if RowsFit(u) {
      var rows :| AreRows(rows, u) && |rows| <= 1024;
      assert rows == BudgetGroups(u);
    }
  }

  lemma IdentityIs(b: State, e: Event)
    ensures HeldId(b.events, e.eventId) <==> IdentityHeld(b, e)
    ensures e in EventSet(b.events) ==> IdentityHeld(b, e)
  {
    if IdentityHeld(b, e) {
      var h :| h in b.events && h.event.eventId == e.eventId;
      var i :| 0 <= i < |b.events| && b.events[i] == h;
    }
    if HeldId(b.events, e.eventId) {
      var i :| 0 <= i < |b.events| && b.events[i].event.eventId == e.eventId;
      assert b.events[i] in b.events;
    }
    if e in EventSet(b.events) {
      var h :| h in b.events && h.event == e;
    }
  }

  lemma VocabularyIs(c: Controls, e: Event)
    ensures Labelled(c, e) <==> InVocabulary(c, e)
  {
  }

  lemma AgreementIs(c: Controls, b: State, e: Event, bytes: nat)
    requires Inv(c, b) && Eligible(c, b, e) && FitsIn(c, b, e, bytes)
    ensures Acceptable(Cohort(b.events, e) + [e], b.lastNow + c.maxFutureSkewMs, c.inactivityMs) <==> Consistent(EventSet(b.events) + {e})
  {
    IdentityIs(b, e);
    assert Candidate(c, b, e);
    hide Inv, Candidate;
    CohortDecides(c, b, e);
  }

  lemma LimitsApart(c: Controls, b: State)
    requires Inv(c, b)
    ensures c.retentionMs >= 1 && c.maxFutureSkewMs >= 0
  {
  }

  lemma JudgedExactly(c: Controls, b: State, e: Event, bytes: nat)
    requires Inv(c, b)
    ensures VerdictMeans(c, b, e, bytes, Judge(c, b, e, bytes))
  {
    hide Inv, Full, Room, WithinBudget, RowsFit, HeldId, IdentityHeld, Labelled, InVocabulary, Acceptable, Consistent, EventSet, Cohort, ValidEvent;
    LimitsApart(c, b);
    RoomIs(c, b, e, bytes);
    RowsAre(EventSet(b.events) + {e});
    IdentityIs(b, e);
    VocabularyIs(c, e);
    if Eligible(c, b, e) && FitsIn(c, b, e, bytes) { AgreementIs(c, b, e, bytes); }
  }

  // ---- pruning ----

  /** A session whose earliest event held is no longer retained. */
  ghost predicate Overdue(c: Controls, events: seq<Held>, id: Id, time: int) {
    exists h :: h in events && h.event.body.sessionId == id && h.event.body.at + c.retentionMs <= time
  }

  lemma ExpiryIs(c: Controls, s: State, id: Id, time: int)
    requires TableOk(s.events, s.sessions)
    ensures id in s.sessions && s.sessions[id] + c.retentionMs <= time <==> Overdue(c, s.events, id, time)
  {
    if id in s.sessions && s.sessions[id] + c.retentionMs <= time {
      assert Earliest(s.events, id, s.sessions[id]);
      var i :| 0 <= i < |s.events| && s.events[i].event.body.sessionId == id && s.events[i].event.body.at == s.sessions[id];
      assert s.events[i] in s.events;
    }
    if Overdue(c, s.events, id, time) {
      var h :| h in s.events && h.event.body.sessionId == id && h.event.body.at + c.retentionMs <= time;
      var i :| 0 <= i < |s.events| && s.events[i] == h;
    }
  }

  ghost predicate SameEntry(a: map<Id, int>, b: map<Id, int>, k: Id) { (k in a <==> k in b) && (k in b ==> a[k] == b[k]) }

  /** After some sessions have been visited, an event is left unless its session was one of them and has expired. */
  ghost predicate Visited(c: Controls, s: State, p: State, seen: seq<Id>, time: int, h: Held) {
    var id := h.event.body.sessionId;
    && (h in p.events <==> h in s.events && !(id in seen && id in s.sessions && s.sessions[id] + c.retentionMs <= time))
    && UnseenSame(p.sessions, s.sessions, seen)
  }

  ghost predicate UnseenSame(a: map<Id, int>, b: map<Id, int>, seen: seq<Id>) {
    forall k: Id :: k !in seen ==> SameEntry(a, b, k)
  }

  lemma VisitOne(c: Controls, p: State, k: Id, time: int, h: Held)
    ensures Visited(c, p, PruneOne(c, p, k, time), [k], time, h)
  {
    WithoutHas(p.events, k, h);
    hide Without, BytesOf;
  }

  lemma VisitMore(c: Controls, s: State, p: State, q: State, seen: seq<Id>, k: Id, time: int, h: Held)
    requires Visited(c, s, p, seen, time, h) && Visited(c, p, q, [k], time, h) && k !in seen
    ensures Visited(c, s, q, seen + [k], time, h)
  {
    assert SameEntry(p.sessions, s.sessions, k);
    assert forall x :: x !in seen + [k] ==> x !in seen && x !in [k];
  }

  lemma {:induction false} VisitedLeaves(c: Controls, s: State, order: seq<Id>, n: nat, time: int, h: Held)
    requires n <= |order| && forall i, j | 0 <= i < j < |order| :: order[i] != order[j]
    ensures Visited(c, s, PruneSessions(c, s, order, n, time), order[..n], time, h)
  {
    hide Visited, PruneOne;
    if n == 0 {
      NoneVisited(c, s, time, h);
      assert order[..0] == [];
    } else {
      VisitedLeaves(c, s, order, n - 1, time, h);
      var p := PruneSessions(c, s, order, n - 1, time);
      VisitOne(c, p, order[n - 1], time, h);
      VisitMore(c, s, p, PruneOne(c, p, order[n - 1], time), order[..n - 1], order[n - 1], time, h);
      assert order[..n] == order[..n - 1] + [order[n - 1]];
    }
  }

  lemma NoneVisited(c: Controls, s: State, time: int, h: Held)
    ensures Visited(c, s, s, [], time, h)
  {
  }

  /** Whatever order pruning visits the sessions in, it leaves exactly the events of sessions that have not expired. */
  lemma PrunedExactly(c: Controls, s: State, order: seq<Id>, clock: int, h: Held)
    requires Inv(c, s) && Listing(order, s.sessions.Keys)
    ensures var b := Begin(c, s, order, clock);
      && b.lastNow == (if clock > s.lastNow then clock else s.lastNow)
      && (h in b.events <==> h in s.events && !Overdue(c, s.events, h.event.body.sessionId, b.lastNow))
  {
    var n := Tick(s, clock);
    var u := n.(tombstones := Unexpired(n.tombstones, n.lastNow));
    VisitedLeaves(c, u, order, |order|, n.lastNow, h);
    assert order[..|order|] == order;
    ExpiryIs(c, s, h.event.body.sessionId, n.lastNow);
    PruneTime(c, u, order, |order|, n.lastNow);
    hide PruneSessions, Inv;
  }

  lemma {:induction false} PruneTime(c: Controls, s: State, order: seq<Id>, n: nat, time: int)
    requires n <= |order|
    ensures PruneSessions(c, s, order, n, time).lastNow == s.lastNow
  {
    if n > 0 { PruneTime(c, s, order, n - 1, time); }
  }

  // ---- over every run ----

  /** The state a recording call does its checks in: the clock has been read and expired sessions are gone. */
  ghost predicate IsPrunedState(c: Controls, s: State, clock: int, b: State) {
    && b.lastNow == (if clock > s.lastNow then clock else s.lastNow)
    && (forall h :: h in b.events <==> h in s.events && !Overdue(c, s.events, h.event.body.sessionId, b.lastNow))
  }

  /**
    Over every run: a call that offers an event to an open buffer with a good clock adds it to what pruning left
    if and only if the event is eligible, fits in and agrees with what is held; and otherwise adds nothing.
   */
  lemma KeptExactly(c: Controls, states: seq<State>, accesses: seq<Access>, i: nat) returns (b: State)
    requires Trace(c, states, accesses) && i < |accesses|
    requires accesses[i].call.Record? && !states[i].closed && ClockOk(accesses[i].clock)
    ensures IsPrunedState(c, states[i], accesses[i].clock, b)
    ensures var (e, bytes) := (accesses[i].call.event, accesses[i].call.bytes);
      && (Eligible(c, b, e) && FitsIn(c, b, e, bytes) && Agrees(c, b, e) ==> states[i + 1].events == b.events + [Held(e, bytes)])
      && (!(Eligible(c, b, e) && FitsIn(c, b, e, bytes) && Agrees(c, b, e)) ==> states[i + 1].events == b.events)
  {
    TraceKeeps(c, states, accesses, i);
    assert Next(c, states[i], accesses[i].call, accesses[i].clock, states[i + 1]);
    hide Inv, Next;
    b := KeptByCall(c, states[i], accesses[i].call.event, accesses[i].call.bytes, accesses[i].clock, states[i + 1]);
  }

  lemma KeptByCall(c: Controls, s: State, e: Event, bytes: nat, clock: int, s': State) returns (b: State)
    requires Inv(c, s) && Next(c, s, Record(e, bytes), clock, s') && !s.closed && ClockOk(clock)
    ensures IsPrunedState(c, s, clock, b)
    ensures Eligible(c, b, e) && FitsIn(c, b, e, bytes) && Agrees(c, b, e) ==> s'.events == b.events + [Held(e, bytes)]
    ensures !(Eligible(c, b, e) && FitsIn(c, b, e, bytes) && Agrees(c, b, e)) ==> s'.events == b.events
  {
    hide Inv, Begin, Judge, Eligible, FitsIn, Agrees, Overdue;
    var order: seq<Id> :| Listing(order, s.sessions.Keys) && After(c, s, Record(e, bytes), clock, order, s');
    b := Begin(c, s, order, clock);
    forall h
      ensures h in b.events <==> h in s.events && !Overdue(c, s.events, h.event.body.sessionId, b.lastNow)
    {
      PrunedExactly(c, s, order, clock, h);
    }
    PrunedExactly(c, s, order, clock, Held(e, bytes));
    BeginKeeps(c, s, order, clock);
    JudgedExactly(c, b, e, bytes);
  }
}
