/**
  Whole runs of the metric buffer (lib/MetricEventBuffer.js): every call in any order with any clock readings,
  including readings that go backwards.
 */
module MetricBufferTheorems {
  import opened Wrappers
  import opened MetricEvents
  import opened MetricGroups
  import opened MetricStates
  import opened MetricReport
  import opened MetricBuffer
  import opened MetricBufferInvariant
  import opened Tally

  // ---- runs ----

  datatype Access = Access(call: Call, clock: int)

  /** The states a new buffer passes through under a list of calls. */
  ghost predicate Trace(c: Controls, states: seq<State>, accesses: seq<Access>) {
    && ControlsOk(c) && |states| == |accesses| + 1 && states[0] == EMPTY
    && forall i | 0 <= i < |accesses| :: Next(c, states[i], accesses[i].call, accesses[i].clock, states[i + 1])
  }

  lemma {:induction false} TraceKeeps(c: Controls, states: seq<State>, accesses: seq<Access>, i: nat)
    requires Trace(c, states, accesses) && i < |states|
    ensures Inv(c, states[i])
  {
    hide Inv, Next;
    if i == 0 {
      EmptyInv(c);
    } else {
      TraceKeeps(c, states, accesses, i - 1);
      StepKeeps(c, states[i - 1], accesses[i - 1].call, accesses[i - 1].clock, states[i]);
    }
  }

  /** Accounting, bounds and the session table hold after every call. */
  lemma BooksBalance(c: Controls, states: seq<State>, accesses: seq<Access>, i: nat)
    requires Trace(c, states, accesses) && i < |states|
    ensures var s := states[i];
      && s.counts.accepted == |s.events| + s.counts.evicted + s.counts.deleted
      && s.bytes == BytesOf(s.events) <= c.maxBytes && |s.events| <= c.maxEvents
      && |s.sessions| <= c.maxSessions && |s.tombstones| <= c.maxTombstones
      && TableOk(s.events, s.sessions) && s.sessions.Keys !! s.tombstones.Keys
  {
    TraceKeeps(c, states, accesses, i);
  }

  // ---- reporting never fails ----

  function EventList(events: seq<Held>): (r: seq<Event>)
    ensures |r| == |events| && forall i | 0 <= i < |r| :: r[i] == events[i].event
  {
    seq(|events|, i requires 0 <= i < |events| => events[i].event)
  }

  lemma EventListSet(events: seq<Held>)
    ensures SetOf(EventList(events)) == EventSet(events)
  {
    forall h <- events
      ensures h.event in EventList(events)
    {
      var i :| 0 <= i < |events| && events[i] == h;
      assert EventList(events)[i] == h.event;
    }
  }

  /** Every row of a report was budgeted for when its events were admitted. */
  lemma RowsBudgeted(u: set<Event>)
    ensures ReportVersions(u) <= BudgetVersions(u) && ReportStates(u) <= BudgetGroups(u)
  {
    forall e, k | e in u && k in Opens(u, e)
      ensures k in BudgetGroups(u)
    {
      assert k in EventGroups(e);
    }
  }

  lemma BudgetFits(u: set<Event>)
    requires WithinBudget(u)
    ensures Fits(u)
  {
    RowsBudgeted(u);
    SubsetCard(ReportVersions(u), BudgetVersions(u));
    SubsetCard(ReportStates(u), BudgetGroups(u));
  }

  lemma HeldAcceptable(c: Controls, s: State)
    requires Inv(c, s)
    ensures Acceptable(EventList(s.events), s.lastNow, c.inactivityMs) && Fits(Included(EventSet(s.events), s.lastNow))
  {
    var u := EventSet(s.events);
    var part := Included(u, s.lastNow);
    SubsetSound(u, part);
    hide Shape;
    BudgetFits(part);
    hide Fits, WithinBudget, Consistent, Sound, EventSet, Identified;
    EventListSet(s.events);
    HeldIdentified(c, s);
  }

  lemma HeldIdentified(c: Controls, s: State)
    requires ControlsOk(c) && Shape(c, s)
    ensures Identified(EventList(s.events)) && |s.events| <= MAX_BATCH && forall e <- EventList(s.events) :: ValidEvent(e)
  {
    var list := EventList(s.events);
    EventListSet(s.events);
    hide TableOk, EventSet;
    forall a, b | a in list && b in list && a.eventId == b.eventId
      ensures a == b
    {
      assert a in SetOf(list) && b in SetOf(list);
      OneIdentity(s.events, a, b);
    }
  }

  /** In every reachable state, aggregating and reporting the held events at the buffer's own time succeeds. */
  lemma ReportingNeverFails(c: Controls, states: seq<State>, accesses: seq<Access>, i: nat)
    requires Trace(c, states, accesses) && i < |states|
    ensures Acceptable(EventList(states[i].events), states[i].lastNow, c.inactivityMs)
    ensures Fits(Included(SetOf(EventList(states[i].events)), states[i].lastNow))
  {
    TraceKeeps(c, states, accesses, i);
    HeldAcceptable(c, states[i]);
    EventListSet(states[i].events);
  }

  // ---- erasure ----

  /** Nothing of the session is held, and nothing of it will be admitted. */
  ghost predicate Erased(s: State, id: Id) {
    id !in s.sessions && (s.sealed || (id in s.tombstones && s.tombstones[id].None?))
  }

  lemma PruneOneErased(c: Controls, s: State, k: Id, time: int, id: Id)
    requires Erased(s, id)
    ensures Erased(PruneOne(c, s, k, time), id)
  {
  }

  lemma {:induction false} PruneErased(c: Controls, s: State, order: seq<Id>, n: nat, time: int, id: Id)
    requires Erased(s, id) && n <= |order|
    ensures Erased(PruneSessions(c, s, order, n, time), id)
  {
    if n > 0 {
      PruneErased(c, s, order, n - 1, time, id);
      PruneOneErased(c, PruneSessions(c, s, order, n - 1, time), order[n - 1], time, id);
    }
  }

  lemma BeginErased(c: Controls, s: State, order: seq<Id>, clock: int, id: Id)
    requires Erased(s, id)
    ensures Erased(Begin(c, s, order, clock), id)
  {
    var t := Tick(s, clock);
    PruneErased(c, t.(tombstones := Unexpired(t.tombstones, t.lastNow)), order, |order|, t.lastNow, id);
  }

  lemma RecordErased(c: Controls, s: State, e: Event, bytes: nat, id: Id)
    requires Erased(s, id)
    ensures Erased(Recorded(s, e, bytes, Judge(c, s, e, bytes)), id)
  {
  }

  lemma StepErased(c: Controls, s: State, call: Call, clock: int, s': State, id: Id)
    requires Next(c, s, call, clock, s') && Erased(s, id)
    ensures Erased(s', id)
  {
    hide Begin, Judge, Recorded, Erased;
    if call.Clear? || call.Close? || s.closed || !ClockOk(clock) {
      RefusalErased(s, id);
    } else {
      var order: seq<Id> :| Listing(order, s.sessions.Keys) && After(c, s, call, clock, order, s');
      var b := Begin(c, s, order, clock);
      BeginErased(c, s, order, clock, id);
      if call.Record? { RecordErased(c, b, call.event, call.bytes, id); }
      if call.Delete? { DeleteErased(c, b, call.id, id); }
    }
  }

  lemma RefusalErased(s: State, id: Id)
    requires Erased(s, id)
    ensures Erased(Refuse(s), id) && Erased(Refuse(Failure(s)), id)
    ensures Erased(Cleared(s), id) && Erased(Cleared(s).(closed := true), id)
  {
  }

  lemma DeleteErased(c: Controls, s: State, k: Id, id: Id)
    requires Erased(s, id) || k == id
    ensures Erased(Deleted(c, s, k), id)
  {
  }

  lemma {:induction false} ErasedStays(c: Controls, states: seq<State>, accesses: seq<Access>, id: Id, i: nat, j: nat)
    requires Trace(c, states, accesses) && i <= j < |states| && Erased(states[i], id)
    ensures Erased(states[j], id)
    decreases j
  {
    hide Erased, Next, Inv;
    if i < j {
      ErasedStays(c, states, accesses, id, i, j - 1);
      StepErased(c, states[j - 1], accesses[j - 1].call, accesses[j - 1].clock, states[j], id);
    }
  }

  /** Deletion is permanent: after deleteSession no later state holds an event of the session, whatever happens to the tombstones. */
  lemma DeletionIsPermanent(c: Controls, states: seq<State>, accesses: seq<Access>, id: Id, i: nat, j: nat)
    requires Trace(c, states, accesses) && i < j < |states|
    requires accesses[i].call == Delete(id) && !states[i].closed && ClockOk(accesses[i].clock)
    ensures forall k | 0 <= k < |states[j].events| :: states[j].events[k].event.body.sessionId != id
  {
    hide Next, Inv, Erased;
    DeleteErases(c, states[i], accesses[i].clock, states[i + 1], id);
    ErasedStays(c, states, accesses, id, i + 1, j);
    TraceKeeps(c, states, accesses, j);
    ErasedMeansGone(c, states[j], id);
  }

  lemma DeleteErases(c: Controls, s: State, clock: int, s': State, id: Id)
    requires Next(c, s, Delete(id), clock, s') && !s.closed && ClockOk(clock)
    ensures Erased(s', id)
  {
    hide Begin, Deleted, Erased;
    var order: seq<Id> :| Listing(order, s.sessions.Keys) && After(c, s, Delete(id), clock, order, s');
    DeleteErased(c, Begin(c, s, order, clock), id, id);
  }

  lemma ErasedMeansGone(c: Controls, s: State, id: Id)
    requires Inv(c, s) && Erased(s, id)
    ensures forall k | 0 <= k < |s.events| :: s.events[k].event.body.sessionId != id
  {
    hide Sound, HeldOnce, ContentOk;
  }

  ghost predicate Spent(s: State) { s.sealed && s.events == [] }

  lemma {:induction false} PruneSpent(c: Controls, s: State, order: seq<Id>, n: nat, time: int)
    requires n <= |order| && Spent(s)
    ensures Spent(PruneSessions(c, s, order, n, time))
  {
    if n > 0 { PruneSpent(c, s, order, n - 1, time); }
  }

  lemma BeginSpent(c: Controls, s: State, order: seq<Id>, clock: int)
    requires Spent(s)
    ensures Spent(Begin(c, s, order, clock))
  {
    var t := Tick(s, clock);
    PruneSpent(c, t.(tombstones := Unexpired(t.tombstones, t.lastNow)), order, |order|, t.lastNow);
  }

  lemma CallsSpent(c: Controls, s: State, e: Event, bytes: nat, id: Id)
    requires Spent(s)
    ensures Spent(Recorded(s, e, bytes, Judge(c, s, e, bytes))) && Spent(Deleted(c, s, id))
    ensures Spent(Refuse(s)) && Spent(Refuse(Failure(s))) && Spent(Cleared(s)) && Spent(Cleared(s).(closed := true))
  {
  }

  lemma StepSpent(c: Controls, s: State, call: Call, clock: int, s': State)
    requires Next(c, s, call, clock, s') && Spent(s)
    ensures Spent(s')
  {
    hide Begin, Judge, Recorded, Deleted, Spent;
    var e := if call.Record? then call.event else Event(Id(0), Body(0, Id(0), None, SessionStart));
    var id := if call.Delete? then call.id else Id(0);
    var bytes := if call.Record? then call.bytes else 0;
    CallsSpent(c, s, e, bytes, id);
    if !call.Clear? && !call.Close? && !s.closed && ClockOk(clock) {
      var order: seq<Id> :| Listing(order, s.sessions.Keys) && After(c, s, call, clock, order, s');
      BeginSpent(c, s, order, clock);
      CallsSpent(c, Begin(c, s, order, clock), e, bytes, id);
    }
  }

  /** So is clearing: from then on nothing at all is held. */
  lemma {:induction false} ClearingIsPermanent(c: Controls, states: seq<State>, accesses: seq<Access>, i: nat, j: nat)
    requires Trace(c, states, accesses) && i < j < |states| && !states[i].closed
    requires accesses[i].call == Clear || accesses[i].call == Close
    ensures states[j].sealed && states[j].events == []
    decreases j
  {
    hide Inv;
    assert Next(c, states[i], accesses[i].call, accesses[i].clock, states[i + 1]);
    hide Next;
    if i + 1 < j {
      ClearingIsPermanent(c, states, accesses, i, j - 1);
      StepSpent(c, states[j - 1], accesses[j - 1].call, accesses[j - 1].clock, states[j]);
    }
  }

  // ---- retention ----

  /** Nothing of the session dated up to t is held, and nothing so old will be admitted. */
  ghost predicate Retired(c: Controls, s: State, id: Id, t: int) { NoneSince(s.events, id, t) && Barred(c, s, id, t) }

  ghost predicate NoneSince(events: seq<Held>, id: Id, t: int) {
    forall i | 0 <= i < |events| :: events[i].event.body.sessionId == id ==> events[i].event.body.at > t
  }

  /** Sealed, denied for long enough, or late enough that such an event has expired. */
  ghost predicate Barred(c: Controls, s: State, id: Id, t: int) {
    || s.sealed
    || (id in s.tombstones && (s.tombstones[id].Some? ==> s.tombstones[id].value >= t + c.retentionMs))
    || s.lastNow >= t + c.retentionMs
  }

  lemma WithoutRetired(events: seq<Held>, k: Id, id: Id, t: int)
    requires k != id ==> NoneSince(events, id, t)
    ensures NoneSince(Without(events, k), id, t)
  {
    var kept := Without(events, k);
    forall i | 0 <= i < |kept| && kept[i].event.body.sessionId == id
      ensures kept[i].event.body.at > t
    {
      WithoutHas(events, k, kept[i]);
    }
  }

  /** Denying a session bars it; denying another leaves a bar in place. */
  lemma DenyBarred(c: Controls, s: State, k: Id, until: Option<int>, id: Id, t: int)
    requires k != id ==> Barred(c, s, id, t)
    requires k == id ==> until.None? || until.value >= t + c.retentionMs
    ensures Barred(c, Deny(c, s, k, until), id, t)
    ensures Deny(c, s, k, until).events == s.events && Deny(c, s, k, until).lastNow == s.lastNow
  {
  }

  ghost predicate Denied(s: State, id: Id) { s.sealed || id in s.tombstones }

  lemma {:induction false} PruneDenied(c: Controls, s: State, order: seq<Id>, n: nat, time: int, id: Id)
    requires Denied(s, id) && n <= |order|
    ensures Denied(PruneSessions(c, s, order, n, time), id)
  {
    if n > 0 { PruneDenied(c, s, order, n - 1, time, id); }
  }

  /** A denial holds as long as it was meant to: until then, whatever the clock reads and whether or not there was room for the tombstone, no event of the session is kept. */
  lemma DenialBars(c: Controls, s: State, id: Id, until: Option<int>, order: seq<Id>, clock: int, e: Event, bytes: nat)
    requires e.body.sessionId == id && (until.Some? ==> until.value > Tick(s, clock).lastNow)
    ensures !Judge(c, Begin(c, Deny(c, s, id, until), order, clock), e, bytes).Kept?
  {
    var n := Tick(Deny(c, s, id, until), clock);
    var u := n.(tombstones := Unexpired(n.tombstones, n.lastNow));
    assert Denied(u, id);
    PruneDenied(c, u, order, |order|, n.lastNow, id);
    hide Acceptable, WithinBudget, EventSet, Cohort, HeldId, Labelled, PruneSessions;
  }

  lemma RemoveRetired(c: Controls, s: State, k: Id, id: Id, t: int)
    requires k != id ==> Retired(c, s, id, t)
    ensures NoneSince(RemoveSession(s, k).events, id, t) && RemoveSession(s, k).lastNow == s.lastNow
    ensures k != id ==> Barred(c, RemoveSession(s, k), id, t)
  {
    WithoutRetired(s.events, k, id, t);
    hide Without, NoneSince;
  }

  lemma PruneOneRetired(c: Controls, s: State, k: Id, time: int, id: Id, t: int)
    requires Retired(c, s, id, t) && time == s.lastNow && t <= time
    ensures Retired(c, PruneOne(c, s, k, time), id, t) && PruneOne(c, s, k, time).lastNow == s.lastNow
  {
    RemoveRetired(c, s, k, id, t);
    hide NoneSince, Barred, Deny, RemoveSession;
    DenyBarred(c, RemoveSession(s, k), k, Some(time + c.retentionMs), id, t);
  }

  /** Evicting a session retires everything of it dated up to now. */
  lemma PruneOneRetires(c: Controls, s: State, id: Id, time: int)
    requires id in s.sessions && s.sessions[id] + c.retentionMs <= time && s.lastNow == time
    ensures Retired(c, PruneOne(c, s, id, time), id, time)
  {
    RemoveRetired(c, s, id, id, time);
    hide NoneSince, Barred, Deny, RemoveSession;
    DenyBarred(c, RemoveSession(s, id), id, Some(time + c.retentionMs), id, time);
  }

  lemma {:induction false} PruneRetired(c: Controls, s: State, order: seq<Id>, n: nat, id: Id, t: int)
    requires Retired(c, s, id, t) && n <= |order| && t <= s.lastNow
    ensures Retired(c, PruneSessions(c, s, order, n, s.lastNow), id, t) && PruneSessions(c, s, order, n, s.lastNow).lastNow == s.lastNow
  {
    hide Retired;
    if n > 0 {
      PruneRetired(c, s, order, n - 1, id, t);
      PruneOneRetired(c, PruneSessions(c, s, order, n - 1, s.lastNow), order[n - 1], s.lastNow, id, t);
    }
  }

  /** Before its turn, an expired session waits untouched; at its turn it is retired, and stays so. */
  lemma {:induction false} PruneRetires(c: Controls, s: State, order: seq<Id>, n: nat, id: Id)
    requires n <= |order| && id in s.sessions && s.sessions[id] + c.retentionMs <= s.lastNow
    requires forall i, j | 0 <= i < j < |order| :: order[i] != order[j]
    ensures var p := PruneSessions(c, s, order, n, s.lastNow);
      && p.lastNow == s.lastNow
      && (if id in order[..n] then Retired(c, p, id, s.lastNow) else id in p.sessions && p.sessions[id] == s.sessions[id])
  {
    hide Retired;
    if n > 0 {
      PruneRetires(c, s, order, n - 1, id);
      var p := PruneSessions(c, s, order, n - 1, s.lastNow);
      assert order[..n] == order[..n - 1] + [order[n - 1]];
      if id in order[..n - 1] {
        PruneOneRetired(c, p, order[n - 1], s.lastNow, id, s.lastNow);
      } else if order[n - 1] == id {
        PruneOneRetires(c, p, id, s.lastNow);
      }
      PruneOneTime(c, p, order[n - 1], s.lastNow, id);
    }
  }

  lemma PruneOneTime(c: Controls, s: State, k: Id, time: int, id: Id)
    ensures var p := PruneOne(c, s, k, time);
      p.lastNow == s.lastNow && (k != id && id in s.sessions ==> id in p.sessions && p.sessions[id] == s.sessions[id])
  {
  }

  lemma UnexpiredBars(c: Controls, s: State, id: Id, t: int)
    requires Barred(c, s, id, t)
    ensures Barred(c, s.(tombstones := Unexpired(s.tombstones, s.lastNow)), id, t)
  {
  }

  lemma BeginRetired(c: Controls, s: State, order: seq<Id>, clock: int, id: Id, t: int)
    requires Retired(c, s, id, t) && t <= s.lastNow
    ensures Retired(c, Begin(c, s, order, clock), id, t) && t <= Begin(c, s, order, clock).lastNow
  {
    var n := Tick(s, clock);
    assert Barred(c, n, id, t);
    UnexpiredBars(c, n, id, t);
    PruneRetired(c, n.(tombstones := Unexpired(n.tombstones, n.lastNow)), order, |order|, id, t);
    hide PruneSessions;
  }

  lemma RecordRetired(c: Controls, s: State, e: Event, bytes: nat, id: Id, t: int)
    requires Retired(c, s, id, t) && t <= s.lastNow
    ensures Retired(c, Recorded(s, e, bytes, Judge(c, s, e, bytes)), id, t)
  {
    hide Acceptable, WithinBudget, EventSet, Cohort, HeldId, Labelled;
  }

  lemma DeleteRetired(c: Controls, s: State, k: Id, id: Id, t: int)
    requires Retired(c, s, id, t)
    ensures Retired(c, Deleted(c, s, k), id, t)
  {
    RemoveRetired(c, s, k, id, t);
    hide NoneSince, Deny, RemoveSession;
    DenyBarred(c, RemoveSession(s, k), k, None, id, t);
  }

  lemma RefusalRetired(c: Controls, s: State, id: Id, t: int)
    requires Retired(c, s, id, t)
    ensures Retired(c, Refuse(s), id, t) && Retired(c, Refuse(Failure(s)), id, t)
    ensures Retired(c, Cleared(s), id, t) && Retired(c, Cleared(s).(closed := true), id, t)
  {
  }

  lemma RecordTime(c: Controls, s: State, e: Event, bytes: nat, id: Id)
    ensures Recorded(s, e, bytes, Judge(c, s, e, bytes)).lastNow == s.lastNow && Deleted(c, s, id).lastNow == s.lastNow
  {
    hide Judge;
  }

  lemma StepRetired(c: Controls, s: State, call: Call, clock: int, s': State, id: Id, t: int)
    requires Next(c, s, call, clock, s') && Retired(c, s, id, t) && t <= s.lastNow
    ensures Retired(c, s', id, t) && t <= s'.lastNow
  {
    hide Begin, Judge, Recorded, Deleted, Retired;
    if call.Clear? || call.Close? || s.closed || !ClockOk(clock) {
      RefusalRetired(c, s, id, t);
    } else {
      var order: seq<Id> :| Listing(order, s.sessions.Keys) && After(c, s, call, clock, order, s');
      var b := Begin(c, s, order, clock);
      BeginRetired(c, s, order, clock, id, t);
      if call.Record? {
        RecordRetired(c, b, call.event, call.bytes, id, t);
        RecordTime(c, b, call.event, call.bytes, id);
      }
      if call.Delete? {
        DeleteRetired(c, b, call.id, id, t);
        RecordTime(c, b, Event(Id(0), Body(0, Id(0), None, SessionStart)), 0, call.id);
      }
    }
  }

  lemma {:induction false} RetiredStays(c: Controls, states: seq<State>, accesses: seq<Access>, id: Id, t: int, i: nat, j: nat)
    requires Trace(c, states, accesses) && i <= j < |states| && Retired(c, states[i], id, t) && t <= states[i].lastNow
    ensures Retired(c, states[j], id, t) && t <= states[j].lastNow
    decreases j
  {
    hide Retired, Next, Inv;
    if i < j {
      RetiredStays(c, states, accesses, id, t, i, j - 1);
      StepRetired(c, states[j - 1], accesses[j - 1].call, accesses[j - 1].clock, states[j], id, t);
    }
  }

  /** A call that prunes an expired session retires it, even if the call then offers one of its events. */
  lemma StepRetires(c: Controls, s: State, call: Call, clock: int, s': State, id: Id)
    requires Next(c, s, call, clock, s') && !call.Clear? && !call.Close? && !s.closed && ClockOk(clock)
    requires id in s.sessions && s.sessions[id] + c.retentionMs <= Tick(s, clock).lastNow
    ensures Retired(c, s', id, Tick(s, clock).lastNow) && s'.lastNow == Tick(s, clock).lastNow
  {
    hide Judge, Recorded, Deleted, Retired, Begin;
    var order: seq<Id> :| Listing(order, s.sessions.Keys) && After(c, s, call, clock, order, s');
    var b, t := Begin(c, s, order, clock), Tick(s, clock).lastNow;
    BeginRetires(c, s, order, clock, id);
    if call.Record? {
      RecordRetired(c, b, call.event, call.bytes, id, t);
      RecordTime(c, b, call.event, call.bytes, id);
    }
    if call.Delete? {
      DeleteRetired(c, b, call.id, id, t);
      RecordTime(c, b, Event(Id(0), Body(0, Id(0), None, SessionStart)), 0, call.id);
    }
  }

  lemma BeginRetires(c: Controls, s: State, order: seq<Id>, clock: int, id: Id)
    requires Listing(order, s.sessions.Keys) && id in s.sessions && s.sessions[id] + c.retentionMs <= Tick(s, clock).lastNow
    ensures Retired(c, Begin(c, s, order, clock), id, Tick(s, clock).lastNow)
    ensures Begin(c, s, order, clock).lastNow == Tick(s, clock).lastNow
  {
    var n := Tick(s, clock);
    PruneRetires(c, n.(tombstones := Unexpired(n.tombstones, n.lastNow)), order, |order|, id);
    assert order[..|order|] == order;
    hide PruneSessions;
  }

  /** Eviction is permanent: once a session is evicted at time t, no event of it dated at or before t is held again, even if the clock runs backwards. */
  lemma EvictionIsPermanent(c: Controls, states: seq<State>, accesses: seq<Access>, id: Id, i: nat, j: nat, k: nat)
    requires Trace(c, states, accesses) && i < j < |states|
    requires !accesses[i].call.Clear? && !accesses[i].call.Close? && !states[i].closed && ClockOk(accesses[i].clock)
    requires id in states[i].sessions && states[i].sessions[id] + c.retentionMs <= Tick(states[i], accesses[i].clock).lastNow
    requires k < |states[j].events| && states[j].events[k].event.body.sessionId == id
    ensures states[j].events[k].event.body.at > Tick(states[i], accesses[i].clock).lastNow
  {
    hide Next, Inv, Barred;
    var t := Tick(states[i], accesses[i].clock).lastNow;
    StepRetires(c, states[i], accesses[i].call, accesses[i].clock, states[i + 1], id);
    RetiredStays(c, states, accesses, id, t, i + 1, j);
  }

  // ---- snapshots ----

  /** Within one generation the buffer only grows at the end. */
  ghost predicate Grows(s: State, s': State) {
    && s.generation <= s'.generation
    && (s.generation == s'.generation ==> s.events <= s'.events)
  }

  lemma {:induction false} WithoutSame(events: seq<Held>, id: Id)
    requires |Without(events, id)| == |events|
    ensures Without(events, id) == events
  {
    if events != [] { WithoutSame(events[..|events| - 1], id); }
  }

  ghost predicate Shrinks(s: State, p: State) {
    p.generation == s.generation && |p.events| <= |s.events| && (|p.events| == |s.events| ==> p.events == s.events)
  }

  lemma PruneOneSame(c: Controls, s: State, k: Id, time: int)
    ensures Shrinks(s, PruneOne(c, s, k, time))
  {
    if |Without(s.events, k)| == |s.events| { WithoutSame(s.events, k); }
    hide Without, BytesOf;
  }

  lemma {:induction false} PruneSame(c: Controls, s: State, order: seq<Id>, n: nat, time: int)
    requires n <= |order|
    ensures Shrinks(s, PruneSessions(c, s, order, n, time))
  {
    hide PruneOne;
    if n > 0 {
      PruneSame(c, s, order, n - 1, time);
      PruneOneSame(c, PruneSessions(c, s, order, n - 1, time), order[n - 1], time);
    }
  }

  lemma BeginGrows(c: Controls, s: State, order: seq<Id>, clock: int)
    ensures Grows(s, Begin(c, s, order, clock))
  {
    var n := Tick(s, clock);
    PruneSame(c, n.(tombstones := Unexpired(n.tombstones, n.lastNow)), order, |order|, n.lastNow);
    hide PruneSessions;
  }

  lemma RecordGrows(s: State, e: Event, bytes: nat, verdict: Verdict)
    ensures Grows(s, Recorded(s, e, bytes, verdict))
  {
    if verdict == Kept(false) { assert s.events <= s.events + [Held(e, bytes)]; }
  }

  lemma DeletedGrows(c: Controls, s: State, id: Id)
    ensures Deleted(c, s, id).generation == s.generation + 1
  {
    hide Without, BytesOf;
  }

  lemma CallsGrow(c: Controls, s: State, e: Event, bytes: nat, id: Id)
    ensures Grows(s, Recorded(s, e, bytes, Judge(c, s, e, bytes))) && Grows(s, Deleted(c, s, id))
    ensures Grows(s, Refuse(s)) && Grows(s, Refuse(Failure(s))) && Grows(s, Cleared(s)) && Grows(s, Cleared(s).(closed := true))
  {
    hide Judge, Recorded, Deleted;
    RecordGrows(s, e, bytes, Judge(c, s, e, bytes));
    DeletedGrows(c, s, id);
  }

  lemma GrowsThrough(a: State, b: State, d: State)
    requires Grows(a, b) && Grows(b, d)
    ensures Grows(a, d)
  {
  }

  lemma StepGrows(c: Controls, s: State, call: Call, clock: int, s': State)
    requires Next(c, s, call, clock, s')
    ensures Grows(s, s')
  {
    var e := if call.Record? then call.event else Event(Id(0), Body(0, Id(0), None, SessionStart));
    var id := if call.Delete? then call.id else Id(0);
    var bytes := if call.Record? then call.bytes else 0;
    CallsGrow(c, s, e, bytes, id);
    if call.Clear? || call.Close? || s.closed || !ClockOk(clock) {
      GrowsSame(s);
      hide Begin, Judge, Recorded, Deleted, Grows;
    } else {
      hide Begin, Judge, Recorded, Deleted, Grows;
      var order: seq<Id> :| Listing(order, s.sessions.Keys) && After(c, s, call, clock, order, s');
      BeginGrows(c, s, order, clock);
      CallsGrow(c, Begin(c, s, order, clock), e, bytes, id);
      GrowsThrough(s, Begin(c, s, order, clock), s');
    }
  }

  lemma GrowsSame(s: State)
    ensures Grows(s, s)
  {
  }

  /** isCurrent: while the generation is the snapshot's, its events are a prefix of those held. */
  lemma {:induction false} CurrentSnapshotIsPrefix(c: Controls, states: seq<State>, accesses: seq<Access>, i: nat, j: nat)
    requires Trace(c, states, accesses) && i <= j < |states|
    ensures states[i].generation <= states[j].generation
    ensures states[i].generation == states[j].generation ==> states[i].events <= states[j].events
    decreases j
  {
    hide Next, Inv;
    if i < j {
      CurrentSnapshotIsPrefix(c, states, accesses, i, j - 1);
      StepGrows(c, states[j - 1], accesses[j - 1].call, accesses[j - 1].clock, states[j]);
    }
  }
}
