/**
  Why the buffer is in the state it is in (lib/MetricEventBuffer.js:46-70,124-143): every denial, every seal and every
  invalidated snapshot goes back to a call that called for it, and every offered event is counted once.
 */
module MetricBufferCauses {
  import opened Wrappers
  import opened MetricEvents
  import opened MetricGroups
  import opened MetricBuffer
  import opened MetricBufferInvariant
  import opened MetricBufferTheorems
  import opened MetricBufferAdmission
  import opened Tally

  // ---- denials and seals ----

  predicate SameDenial(a: map<Id, Option<int>>, b: map<Id, Option<int>>, k: Id) { k in a && k in b && a[k] == b[k] }

  /** While some sessions were visited, a denial was added only for one of them that had expired, and the seal only set for want of room. */
  ghost predicate DeniedVisiting(c: Controls, s: State, p: State, seen: seq<Id>, time: int, k: Id) {
    && UnseenSame(p.sessions, s.sessions, seen)
    && (k in p.tombstones ==>
          || SameDenial(p.tombstones, s.tombstones, k)
          || (k in seen && k in s.sessions && s.sessions[k] + c.retentionMs <= time && p.tombstones[k] == Some(time + c.retentionMs)))
    && |s.tombstones| <= |p.tombstones|
    && (p.sealed ==> s.sealed || |p.tombstones| >= c.maxTombstones)
    && p.generation == s.generation
  }

  lemma DenyOne(c: Controls, p: State, id: Id, time: int, k: Id)
    ensures DeniedVisiting(c, p, PruneOne(c, p, id, time), [id], time, k)
  {
    hide Without, BytesOf;
  }

  lemma DenyMore(c: Controls, s: State, p: State, q: State, seen: seq<Id>, id: Id, time: int, k: Id)
    requires DeniedVisiting(c, s, p, seen, time, k) && DeniedVisiting(c, p, q, [id], time, k) && id !in seen
    ensures DeniedVisiting(c, s, q, seen + [id], time, k)
  {
    assert SameEntry(p.sessions, s.sessions, id);
    assert forall x :: x !in seen + [id] ==> x !in seen && x !in [id];
  }

  lemma NothingDenied(c: Controls, s: State, time: int, k: Id)
    ensures DeniedVisiting(c, s, s, [], time, k)
  {
  }

  lemma {:induction false} DeniedBy(c: Controls, s: State, order: seq<Id>, n: nat, time: int, k: Id)
    requires n <= |order| && forall i, j | 0 <= i < j < |order| :: order[i] != order[j]
    ensures DeniedVisiting(c, s, PruneSessions(c, s, order, n, time), order[..n], time, k)
  {
    hide DeniedVisiting, PruneOne;
    if n == 0 {
      NothingDenied(c, s, time, k);
      assert order[..0] == [];
    } else {
      DeniedBy(c, s, order, n - 1, time, k);
      var p := PruneSessions(c, s, order, n - 1, time);
      DenyOne(c, p, order[n - 1], time, k);
      DenyMore(c, s, p, PruneOne(c, p, order[n - 1], time), order[..n - 1], order[n - 1], time, k);
      assert order[..n] == order[..n - 1] + [order[n - 1]];
    }
  }

  /** A denial that an eviction at this time sets, which ends one retention later. */
  ghost predicate Evicted(c: Controls, s: State, id: Id, until: Option<int>, time: int) {
    Overdue(c, s.events, id, time) && until == Some(time + c.retentionMs)
  }

  ghost predicate StillDenied(s: State, id: Id, until: Option<int>, time: int) {
    id in s.tombstones && s.tombstones[id] == until && (until.Some? ==> until.value > time)
  }

  /** A state that is as pruning this one left it, but for the count of evicted events and the generation. */
  ghost predicate DeniesAs(b: State, p: State) { b.tombstones == p.tombstones && b.sealed == p.sealed && b.lastNow == p.lastNow }

  lemma BeginIsPruned(c: Controls, s: State, order: seq<Id>, clock: int) returns (u: State)
    ensures u == Tick(s, clock).(tombstones := Unexpired(s.tombstones, u.lastNow))
    ensures DeniesAs(Begin(c, s, order, clock), PruneSessions(c, u, order, |order|, u.lastNow))
  {
    hide PruneSessions;
    var n := Tick(s, clock);
    u := n.(tombstones := Unexpired(n.tombstones, n.lastNow));
  }

  lemma BeginDenies(c: Controls, s: State, order: seq<Id>, clock: int, k: Id)
    requires Inv(c, s) && Listing(order, s.sessions.Keys)
    ensures var b := Begin(c, s, order, clock);
      && (k in b.tombstones ==> StillDenied(s, k, b.tombstones[k], b.lastNow) || Evicted(c, s, k, b.tombstones[k], b.lastNow))
      && (b.sealed && !s.sealed ==> |b.tombstones| >= c.maxTombstones)
  {
    assert TableOk(s.events, s.sessions);
    hide Begin, PruneSessions, Inv, Overdue, TableOk;
    var u := BeginIsPruned(c, s, order, clock);
    DeniedBy(c, u, order, |order|, u.lastNow, k);
    assert order[..|order|] == order;
    ExpiryIs(c, s, k, u.lastNow);
    PruneTime(c, u, order, |order|, u.lastNow);
  }

  /** What a call may deny: the session it deletes, for good, and those it evicts, until a retention from now. */
  ghost predicate DeniedIn(c: Controls, s: State, call: Call, s': State, id: Id, until: Option<int>) {
    (call == Delete(id) && until.None?) || Evicted(c, s, id, until, s'.lastNow)
  }

  /** What may seal the buffer: clearing or closing it, or a denial for which there was no room. */
  ghost predicate SealedIn(c: Controls, call: Call, s': State) {
    call.Clear? || call.Close? || |s'.tombstones| >= c.maxTombstones
  }

  /** A call on an open buffer with a good clock starts from a pruned state. */
  lemma OpenCall(c: Controls, s: State, call: Call, clock: int, s': State) returns (order: seq<Id>)
    requires Next(c, s, call, clock, s') && !s.closed && ClockOk(clock) && !call.Clear? && !call.Close?
    ensures Listing(order, s.sessions.Keys) && After(c, s, call, clock, order, s')
  {
    hide After, Listing;
    order :| Listing(order, s.sessions.Keys) && After(c, s, call, clock, order, s');
  }

  /** Whatever the verdict on an event, recording it moves only the events, their books and the counters. */
  lemma RecordedLeaves(s: State, e: Event, bytes: nat, v: Verdict)
    ensures var r := Recorded(s, e, bytes, v);
      && r.tombstones == s.tombstones && r.sealed == s.sealed && r.closed == s.closed && r.lastNow == s.lastNow && r.generation == s.generation
      && Answered(r.counts) == Answered(s.counts) + 1
  {
  }

  lemma DeletedLeaves(c: Controls, s: State, id: Id, k: Id)
    ensures var r := Deleted(c, s, id);
      && r.lastNow == s.lastNow && r.closed == s.closed && Answered(r.counts) == Answered(s.counts)
      && (k in r.tombstones ==> SameDenial(r.tombstones, s.tombstones, k) || (k == id && r.tombstones[k].None?))
      && (r.sealed ==> s.sealed || |r.tombstones| >= c.maxTombstones)
      && |s.tombstones| <= |r.tombstones|
  {
    var gone := RemoveSession(s, id);
    assert gone.tombstones == s.tombstones && gone.sealed == s.sealed && gone.closed == s.closed && gone.lastNow == s.lastNow && gone.counts == s.counts;
    hide RemoveSession, Deny;
    DenyLeaves(c, gone, id, k);
  }

  lemma DenyLeaves(c: Controls, s: State, id: Id, k: Id)
    ensures var r := Deny(c, s, id, None);
      && r.lastNow == s.lastNow && r.closed == s.closed && Answered(r.counts) == Answered(s.counts)
      && (k in r.tombstones ==> SameDenial(r.tombstones, s.tombstones, k) || (k == id && r.tombstones[k].None?))
      && (r.sealed ==> s.sealed || |r.tombstones| >= c.maxTombstones)
      && |s.tombstones| <= |r.tombstones|
  {
  }

  lemma CallDenies(c: Controls, s: State, call: Call, clock: int, order: seq<Id>, s': State, k: Id)
    requires After(c, s, call, clock, order, s')
    ensures var b := Begin(c, s, order, clock);
      && s'.lastNow == b.lastNow
      && (k in s'.tombstones ==> SameDenial(s'.tombstones, b.tombstones, k) || (call == Delete(k) && s'.tombstones[k].None?))
      && (s'.sealed ==> b.sealed || |s'.tombstones| >= c.maxTombstones)
      && |b.tombstones| <= |s'.tombstones|
  {
    hide Begin, Judge, Recorded, Deleted;
    var b := Begin(c, s, order, clock);
    match call
    case Record(e, bytes) => RecordedLeaves(b, e, bytes, Judge(c, b, e, bytes));
    case Delete(id) => DeletedLeaves(c, b, id, k);
    case _ =>
  }

  lemma OtherCalls(c: Controls, s: State, call: Call, clock: int, s': State)
    requires Next(c, s, call, clock, s') && (s.closed || !ClockOk(clock) || call.Clear? || call.Close?)
    ensures (s'.tombstones == s.tombstones && s'.sealed == s.sealed) || ((call.Clear? || call.Close?) && s'.tombstones == map[])
    ensures Answered(s'.counts) == Answered(s.counts) + (if call.Record? then 1 else 0)
  {
    hide After;
  }

  lemma DeniedInCall(c: Controls, s: State, call: Call, clock: int, s': State, id: Id)
    requires Inv(c, s) && Next(c, s, call, clock, s')
    ensures id in s'.tombstones ==> SameDenial(s'.tombstones, s.tombstones, id) || DeniedIn(c, s, call, s', id, s'.tombstones[id])
    ensures s'.sealed ==> s.sealed || SealedIn(c, call, s')
  {
    hide Next, After, Begin, Inv, Overdue;
    if s.closed || !ClockOk(clock) || call.Clear? || call.Close? {
      OtherCalls(c, s, call, clock, s');
    } else {
      var order := OpenCall(c, s, call, clock, s');
      BeginDenies(c, s, order, clock, id);
      CallDenies(c, s, call, clock, order, s', id);
    }
  }

  /** Once a call has read the clock of an open buffer, no denial that has ended is left. */
  lemma DenialsEnd(c: Controls, s: State, call: Call, clock: int, s': State, id: Id)
    requires Inv(c, s) && Next(c, s, call, clock, s') && !s.closed && ClockOk(clock) && id in s'.tombstones
    ensures s'.tombstones[id].Some? ==> s'.tombstones[id].value > s'.lastNow
  {
    LimitsApart(c, s);
    hide Next, After, Begin, Inv, Overdue;
    if call.Clear? || call.Close? {
      OtherCalls(c, s, call, clock, s');
    } else {
      var order := OpenCall(c, s, call, clock, s');
      BeginDenies(c, s, order, clock, id);
      CallDenies(c, s, call, clock, order, s', id);
    }
  }

  /** Over every run, a session is denied only because a call deleted it, or evicted it less than a retention before the denial's end. */
  lemma {:induction false} DenialHasCause(c: Controls, states: seq<State>, accesses: seq<Access>, j: nat, id: Id) returns (i: nat)
    requires Trace(c, states, accesses) && j < |states| && id in states[j].tombstones
    ensures i < j && DeniedIn(c, states[i], accesses[i].call, states[i + 1], id, states[j].tombstones[id])
  {
    hide Inv, Next, DeniedIn;
    TraceKeeps(c, states, accesses, j - 1);
    assert Next(c, states[j - 1], accesses[j - 1].call, accesses[j - 1].clock, states[j]);
    DeniedInCall(c, states[j - 1], accesses[j - 1].call, accesses[j - 1].clock, states[j], id);
    if SameDenial(states[j].tombstones, states[j - 1].tombstones, id) {
      i := DenialHasCause(c, states, accesses, j - 1, id);
    } else {
      i := j - 1;
    }
  }

  /** Over every run, the buffer is sealed only because it was cleared or closed, or because it had no room for a denial. */
  lemma {:induction false} SealHasCause(c: Controls, states: seq<State>, accesses: seq<Access>, j: nat) returns (i: nat)
    requires Trace(c, states, accesses) && j < |states| && states[j].sealed
    ensures i < j && SealedIn(c, accesses[i].call, states[i + 1])
  {
    hide Inv, Next, SealedIn;
    TraceKeeps(c, states, accesses, j - 1);
    assert Next(c, states[j - 1], accesses[j - 1].call, accesses[j - 1].clock, states[j]);
    DeniedInCall(c, states[j - 1], accesses[j - 1].call, accesses[j - 1].clock, states[j], Id(0));
    if states[j - 1].sealed {
      i := SealHasCause(c, states, accesses, j - 1);
    } else {
      i := j - 1;
    }
  }

  lemma ClosedByCall(c: Controls, s: State, call: Call, clock: int, s': State)
    requires Next(c, s, call, clock, s')
    ensures s'.closed <==> s.closed || call.Close?
  {
    hide Begin, After;
    if !s.closed && ClockOk(clock) && !call.Clear? && !call.Close? {
      var order := OpenCall(c, s, call, clock, s');
      OpenStays(c, s, order, clock);
      CallStaysOpen(c, s, call, clock, order, s');
    }
  }

  lemma OpenStays(c: Controls, s: State, order: seq<Id>, clock: int)
    ensures Begin(c, s, order, clock).closed == s.closed
  {
    var n := Tick(s, clock);
    PruneOpen(c, n.(tombstones := Unexpired(n.tombstones, n.lastNow)), order, |order|, n.lastNow);
    hide PruneSessions;
  }

  lemma {:induction false} PruneOpen(c: Controls, s: State, order: seq<Id>, n: nat, time: int)
    requires n <= |order|
    ensures PruneSessions(c, s, order, n, time).closed == s.closed
  {
    if n > 0 { PruneOpen(c, s, order, n - 1, time); }
  }

  lemma CallStaysOpen(c: Controls, s: State, call: Call, clock: int, order: seq<Id>, s': State)
    requires After(c, s, call, clock, order, s')
    ensures s'.closed == Begin(c, s, order, clock).closed
  {
    hide Begin, Judge, Recorded, Deleted;
    var b := Begin(c, s, order, clock);
    match call
    case Record(e, bytes) => RecordedLeaves(b, e, bytes, Judge(c, b, e, bytes));
    case Delete(id) => DeletedLeaves(c, b, id, id);
    case _ =>
  }

  /** Over every run, the buffer is closed if and only if it was told to close. */
  lemma {:induction false} ClosedExactly(c: Controls, states: seq<State>, accesses: seq<Access>, j: nat)
    requires Trace(c, states, accesses) && j < |states|
    ensures states[j].closed <==> exists i :: 0 <= i < j && accesses[i].call == Close
  {
    hide Next;
    if j > 0 {
      ClosedExactly(c, states, accesses, j - 1);
      ClosedByCall(c, states[j - 1], accesses[j - 1].call, accesses[j - 1].clock, states[j]);
    }
  }

  // ---- snapshots ----

  lemma {:induction false} PrunedOrSame(c: Controls, s: State, order: seq<Id>, n: nat, time: int)
    requires n <= |order|
    ensures var p := PruneSessions(c, s, order, n, time);
      p.generation == s.generation && (p.events == s.events || |p.events| < |s.events|)
  {
    hide PruneOne;
    if n > 0 {
      PrunedOrSame(c, s, order, n - 1, time);
      OneOrSame(c, PruneSessions(c, s, order, n - 1, time), order[n - 1], time);
    }
  }

  lemma OneOrSame(c: Controls, p: State, id: Id, time: int)
    ensures var q := PruneOne(c, p, id, time);
      q.generation == p.generation && (q.events == p.events || |q.events| < |p.events|)
  {
    hide Without, BytesOf;
    WithoutOrSame(p.events, id);
  }

  lemma {:induction false} WithoutOrSame(events: seq<Held>, id: Id)
    ensures Without(events, id) == events || |Without(events, id)| < |events|
  {
    if events != [] { WithoutOrSame(events[..|events| - 1], id); }
  }

  lemma BeginGeneration(c: Controls, s: State, order: seq<Id>, clock: int)
    requires Inv(c, s) && Listing(order, s.sessions.Keys)
    ensures var b := Begin(c, s, order, clock);
      b.generation == if forall h <- s.events :: !Overdue(c, s.events, h.event.body.sessionId, b.lastNow) then s.generation else s.generation + 1
  {
    var b := Begin(c, s, order, clock);
    var n := Tick(s, clock);
    PrunedOrSame(c, n.(tombstones := Unexpired(n.tombstones, n.lastNow)), order, |order|, n.lastNow);
    hide PruneSessions, Inv, Overdue;
    forall h
      ensures h in b.events <==> h in s.events && !Overdue(c, s.events, h.event.body.sessionId, b.lastNow)
    {
      PrunedExactly(c, s, order, clock, h);
    }
    assert b.generation == if |s.events| > |b.events| then s.generation + 1 else s.generation;
    if forall h <- s.events :: !Overdue(c, s.events, h.event.body.sessionId, b.lastNow) {
      NoFewer(s.events, b.events, c, s);
    }
  }

  /** Distinct events all found again are no fewer. */
  lemma NoFewer(a: seq<Held>, b: seq<Held>, c: Controls, s: State)
    requires (forall h <- a :: h in b) && a == s.events && Inv(c, s)
    ensures |a| <= |b|
  {
    assert Shape(c, s);
    var left, right := set h <- a, set h <- b;
    assert forall i, j | 0 <= i < j < |a| :: a[i] != a[j];
    DistinctSize(a);
    SetSize(b);
    SubsetCard(left, right);
  }

  lemma {:induction false} DistinctSize(a: seq<Held>)
    requires forall i, j | 0 <= i < j < |a| :: a[i] != a[j]
    ensures |(set h <- a)| == |a|
  {
    if a != [] {
      var init, last := a[..|a| - 1], a[|a| - 1];
      DistinctSize(init);
      assert a == init + [last];
      assert (set h <- a) == (set h <- init) + {last};
    }
  }

  lemma {:induction false} SetSize(b: seq<Held>)
    ensures |(set h <- b)| <= |b|
  {
    if b != [] {
      var init, last := b[..|b| - 1], b[|b| - 1];
      SetSize(init);
      assert b == init + [last];
      assert (set h <- b) == (set h <- init) + {last};
    }
  }

  /** A call invalidates earlier snapshots exactly if it deletes a session, or evicts one whose events they may hold. */
  lemma SnapshotsInvalidated(c: Controls, s: State, call: Call, clock: int, s': State)
    requires Inv(c, s) && Next(c, s, call, clock, s') && !s.closed && ClockOk(clock) && !call.Clear? && !call.Close?
    ensures s'.generation == s.generation <==>
      !call.Delete? && forall h <- s.events :: !Overdue(c, s.events, h.event.body.sessionId, s'.lastNow)
  {
    hide Begin, Inv, Judge, Overdue, Without, BytesOf, Listing;
    var order: seq<Id> :| Listing(order, s.sessions.Keys) && After(c, s, call, clock, order, s');
    BeginGeneration(c, s, order, clock);
  }

  // ---- counters ----

  function Answered(k: Counts): nat { k.accepted + k.duplicates + k.rejected }

  lemma {:induction false} PruneAnswered(c: Controls, s: State, order: seq<Id>, n: nat, time: int)
    requires n <= |order|
    ensures Answered(PruneSessions(c, s, order, n, time).counts) == Answered(s.counts)
  {
    if n > 0 {
      PruneAnswered(c, s, order, n - 1, time);
      hide Without, BytesOf, PruneSessions;
    }
  }

  lemma CallAnswered(c: Controls, s: State, call: Call, clock: int, order: seq<Id>, s': State)
    requires After(c, s, call, clock, order, s')
    ensures Answered(s'.counts) == Answered(Begin(c, s, order, clock).counts) + (if call.Record? then 1 else 0)
  {
    hide Begin, Judge, Recorded, Deleted, Answered;
    var b := Begin(c, s, order, clock);
    match call
    case Record(e, bytes) => RecordedLeaves(b, e, bytes, Judge(c, b, e, bytes));
    case Delete(id) => DeletedLeaves(c, b, id, id);
    case _ =>
  }

  lemma BeginAnswered(c: Controls, s: State, order: seq<Id>, clock: int)
    ensures Answered(Begin(c, s, order, clock).counts) == Answered(s.counts)
  {
    hide PruneSessions;
    var n := Tick(s, clock);
    PruneAnswered(c, n.(tombstones := Unexpired(n.tombstones, n.lastNow)), order, |order|, n.lastNow);
  }

  lemma StepAnswered(c: Controls, s: State, call: Call, clock: int, s': State)
    requires Next(c, s, call, clock, s')
    ensures Answered(s'.counts) == Answered(s.counts) + (if call.Record? then 1 else 0)
  {
    hide Next, After, Begin, Answered;
    if s.closed || !ClockOk(clock) || call.Clear? || call.Close? {
      OtherCalls(c, s, call, clock, s');
    } else {
      var order := OpenCall(c, s, call, clock, s');
      BeginAnswered(c, s, order, clock);
      CallAnswered(c, s, call, clock, order, s');
    }
  }

  function Offers(accesses: seq<Access>): nat {
    if accesses == [] then 0 else Offers(accesses[..|accesses| - 1]) + (if accesses[|accesses| - 1].call.Record? then 1 else 0)
  }

  /** Over every run, each event offered is counted once: as accepted, as a duplicate or as rejected. */
  lemma {:induction false} OffersCounted(c: Controls, states: seq<State>, accesses: seq<Access>, i: nat)
    requires Trace(c, states, accesses) && i < |states|
    ensures Answered(states[i].counts) == Offers(accesses[..i])
  {
    hide Next;
    if i > 0 {
      OffersCounted(c, states, accesses, i - 1);
      assert accesses[..i][..i - 1] == accesses[..i - 1];
      StepAnswered(c, states[i - 1], accesses[i - 1].call, accesses[i - 1].clock, states[i]);
    }
  }

  ghost predicate IsKept(c: Controls, b: State, e: Event, bytes: nat) { Eligible(c, b, e) && FitsIn(c, b, e, bytes) && Agrees(c, b, e) }

  /** Offered again: the same event, while it may still be recorded. */
  ghost predicate IsRepeat(c: Controls, b: State, e: Event) {
    Offered(c, b, e) && e.body.sessionId !in b.tombstones && Timely(c, b, e) && e in EventSet(b.events)
  }

  /** The checks themselves fail: on an ill-formed event, or on one that contradicts what is held. */
  ghost predicate IsFault(c: Controls, b: State, e: Event, bytes: nat) {
    !b.sealed && (!ValidEvent(e) || (Eligible(c, b, e) && FitsIn(c, b, e, bytes) && !Agrees(c, b, e)))
  }

  /** Which counters an offered event moves, in an open buffer with a good clock and otherwise. */
  lemma OfferMoves(c: Controls, s: State, e: Event, bytes: nat, clock: int, s': State) returns (b: State)
    requires Inv(c, s) && Next(c, s, Record(e, bytes), clock, s')
    ensures s.closed ==> s' == s.(counts := s.counts.(rejected := s.counts.rejected + 1))
    ensures !s.closed && !ClockOk(clock) ==>
      s' == s.(counts := s.counts.(rejected := s.counts.rejected + 1, failures := s.counts.failures + 1))
    ensures !s.closed && ClockOk(clock) ==>
      && IsPrunedState(c, s, clock, b)
      && s'.counts == b.counts.(
           accepted := b.counts.accepted + (if IsKept(c, b, e, bytes) then 1 else 0),
           duplicates := b.counts.duplicates + (if IsRepeat(c, b, e) then 1 else 0),
           rejected := b.counts.rejected + (if IsKept(c, b, e, bytes) || IsRepeat(c, b, e) then 0 else 1),
           failures := b.counts.failures + (if IsFault(c, b, e, bytes) then 1 else 0))
  {
    hide Inv, Begin, Judge, FitsIn, Agrees, Overdue, Listing, VerdictMeans, IsKept, IsRepeat, IsFault, Eligible;
    b := s;
    if !s.closed && ClockOk(clock) {
      var order: seq<Id> :| Listing(order, s.sessions.Keys) && After(c, s, Record(e, bytes), clock, order, s');
      b := Begin(c, s, order, clock);
      forall h
        ensures h in b.events <==> h in s.events && !Overdue(c, s.events, h.event.body.sessionId, b.lastNow)
      {
        PrunedExactly(c, s, order, clock, h);
      }
      PrunedExactly(c, s, order, clock, Held(e, bytes));
      BeginKeeps(c, s, order, clock);
      JudgedExactly(c, b, e, bytes);
      IdentityIs(b, e);
      CountsMoved(c, b, e, bytes, Judge(c, b, e, bytes));
    }
  }

  lemma CountsMoved(c: Controls, b: State, e: Event, bytes: nat, v: Verdict)
    requires VerdictMeans(c, b, e, bytes, v)
    ensures Recorded(b, e, bytes, v).counts == b.counts.(
      accepted := b.counts.accepted + (if IsKept(c, b, e, bytes) then 1 else 0),
      duplicates := b.counts.duplicates + (if IsRepeat(c, b, e) then 1 else 0),
      rejected := b.counts.rejected + (if IsKept(c, b, e, bytes) || IsRepeat(c, b, e) then 0 else 1),
      failures := b.counts.failures + (if IsFault(c, b, e, bytes) then 1 else 0))
  {
    hide FitsIn, Agrees, Timely, IdentityHeld, ValidEvent, InVocabulary, EventSet;
  }
}
