/**
  The journal of provider end events of one session (lib/RedisSessionEventStore.js): `accept` reads the
  record, computes the next one and installs it with a compare-and-set on the revision, up to eight times.
  The SHA-256 fingerprint of an event is modelled by an integer; it covers every field.
 */
module EventStore {
  import opened Wrappers
  import opened TurnTypes
  import S = TurnStoreSpec
  import opened Tally

  datatype Status = Incomplete | Success | Failed
  datatype EndEvent = EndEvent(fingerprint: int, occurredAt: int, status: Status)
  datatype Outcome = Agreed(status: Status) | Conflict
  datatype Record = Record(revision: nat, binding: Binding, events: seq<EndEvent>, outcome: Outcome)
  datatype Classification = Accepted | Stale | Conflicting
  datatype Verdict =
    | BindingConflict
    | Duplicate
    | Capacity
    | Write(record: Record, classification: Classification)

  predicate Before(a: EndEvent, b: EndEvent) {
    a.occurredAt < b.occurredAt || (a.occurredAt == b.occurredAt && a.fingerprint < b.fingerprint)
  }

  /** A stable insertion: the new item goes behind everything that does not come after it. */
  function Insert(item: EndEvent, sorted: seq<EndEvent>): seq<EndEvent> {
    if sorted == [] || Before(item, sorted[0]) then [item] + sorted
    else [sorted[0]] + Insert(item, sorted[1..])
  }

  function Sort(items: seq<EndEvent>): seq<EndEvent> {
    if items == [] then [] else Insert(items[|items| - 1], Sort(items[..|items| - 1]))
  }

  predicate Diverges(event: EndEvent, events: seq<EndEvent>) {
    exists item <- events :: item.status != event.status || item.occurredAt == event.occurredAt
  }

  function EventsOf(previous: Option<Record>): seq<EndEvent> {
    if previous.Some? then previous.value.events else []
  }

  /** One attempt of `accept`, after its read. */
  function Attempt(previous: Option<Record>, binding: Binding, event: EndEvent, maxEvents: nat): Verdict {
    var events := EventsOf(previous);
    if previous.Some? && previous.value.binding != binding then BindingConflict
    else if exists item <- events :: item.fingerprint == event.fingerprint then Duplicate
    else if |events| >= maxEvents then Capacity
    else
      var diverges := Diverges(event, events);
      var stale := exists item <- events :: event.occurredAt < item.occurredAt;
      Write(Record((if previous.Some? then previous.value.revision else 0) + 1, binding, Sort(events + [event]),
                   if diverges then Conflict
                   else if previous.Some? && previous.value.outcome == Conflict then Conflict
                   else Agreed(event.status)),
            if diverges then Conflicting else if stale then Stale else Accepted)
  }

  datatype Reply = Lost | Mismatch | Installed

  /** Whether the interactive ledger vouched for the binding when the record was written. */
  datatype BindingSource = FromTurn | EventOnly

  /** A rival's accept and the server time of its install. */
  datatype Rival = Rival(event: EndEvent, at: int)

  /** The two keys the ACCEPT script reads and writes: the event record, and the turn's key. */
  class SessionEvents {
    var record: Option<Record>
    var bindingSource: BindingSource
    var recordExpiresAt: Option<int>
    var slot: S.Slot
    const retentionMs: nat

    constructor (slot: S.Slot, retentionMs: nat)
      ensures record.None? && recordExpiresAt.None? && this.slot == slot && this.retentionMs == retentionMs
    {
      record, recordExpiresAt, bindingSource := None, None, EventOnly;
      this.slot, this.retentionMs := slot, retentionMs;
    }

    /** The interactive ledger, if there is one, belongs to another session. */
    predicate Mismatched(binding: Binding)
      reads this
    {
      slot.ledger.Some? && slot.ledger.value.binding != binding
    }

    /**
      ACCEPT: compare the revision, check the turn's binding, then install record and closure together. The
      record always gets a new time to live, the turn's key only where it has none.
     */
    method Install(expected: nat, next: Record, incoming: Binding, now: int) returns (reply: Reply)
      modifies this`record, this`recordExpiresAt, this`bindingSource, this`slot
      ensures reply.Lost? <==> (if old(record).Some? then old(record).value.revision else 0) != expected
      ensures reply.Mismatch? ==> old(Mismatched(incoming))
      ensures reply.Installed? ==>
        && record == Some(next) && !old(Mismatched(incoming)) && slot == S.Close(old(slot), now, retentionMs)
        && recordExpiresAt == Some(now + retentionMs) && (bindingSource == FromTurn <==> slot.ledger.Some?)
      ensures !reply.Installed? ==>
        record == old(record) && slot == old(slot) && recordExpiresAt == old(recordExpiresAt) && bindingSource == old(bindingSource)
    {
      var revision := if record.Some? then record.value.revision else 0;
      if revision != expected { return Lost; }
      if slot.ledger.Some? && slot.ledger.value.binding != incoming { return Mismatch; }
      bindingSource := if slot.ledger.Some? then FromTurn else EventOnly;
      record, recordExpiresAt := Some(next), Some(now + retentionMs);
      slot := slot.(closed := true);
      if slot.expiresAt.None? { slot := slot.(expiresAt := Some(now + retentionMs)); }
      return Installed;
    }

    /** Another caller's accept, complete, between this caller's read and its install. */
    method Interfere(rival: Rival, binding: Binding, maxEvents: nat, ghost before: set<EndEvent>) returns (ghost after: set<EndEvent>)
      requires Represents(record, binding, before)
      modifies this`record, this`recordExpiresAt, this`bindingSource, this`slot
      ensures Represents(record, binding, after) && before <= after <= before + {rival.event}
      ensures slot.ledger == old(slot.ledger)
    {
      after := before;
      match Attempt(record, binding, rival.event, maxEvents)
      case Write(next, _) =>
        AttemptAdds(record, binding, before, rival.event, maxEvents);
        var reply := Install(if record.Some? then record.value.revision else 0, next, binding, rival.at);
        if reply.Installed? { after := before + {rival.event}; }
      case _ =>
    }

    /** Any number of them. */
    method InterfereAll(rivals: seq<Rival>, binding: Binding, maxEvents: nat, ghost before: set<EndEvent>) returns (ghost after: set<EndEvent>)
      requires Represents(record, binding, before)
      modifies this`record, this`recordExpiresAt, this`bindingSource, this`slot
      ensures Represents(record, binding, after) && before <= after
      ensures forall e <- after :: e in before || exists r <- rivals :: r.event == e
      ensures rivals == [] ==> record == old(record) && after == before
      ensures slot.ledger == old(slot.ledger)
    {
      hide Represents;
      after := before;
      for i := 0 to |rivals|
        invariant Represents(record, binding, after) && before <= after
        invariant forall e <- after :: e in before || exists r <- rivals :: r.event == e
        invariant i == 0 ==> record == old(record) && after == before
        invariant slot.ledger == old(slot.ledger)
      {
        after := Interfere(rivals[i], binding, maxEvents, after);
      }
    }

    /**
      accept(event): read, compute, compare-and-set, at most eight times. `rivals` are the accepts that other
      callers complete between each read of this one and its install, and `times` the server times of its installs.
     */
    method Accept(event: EndEvent, binding: Binding, maxEvents: nat, rivals: seq<seq<Rival>>, times: seq<int>, ghost before: set<EndEvent>)
        returns (r: Answer, ghost after: set<EndEvent>)
      requires Represents(record, binding, before) && |rivals| == |times| == 8
      modifies this`record, this`recordExpiresAt, this`bindingSource, this`slot
      ensures Represents(record, binding, after) && before <= after && slot.ledger == old(slot.ledger)
      ensures forall e <- after :: e in before || e == event || Brought(rivals, e)
      ensures r.Done? ==>
        && event in after && slot.closed && slot.expiresAt.Some? && !Mismatched(binding)
        && exists k :: 0 <= k < 8 && recordExpiresAt == Some(times[k] + retentionMs)
      ensures r.Done? ==> ClassifiedRightly(r.classification, after - {event}, event)
      ensures r.AlreadyHeld? ==> exists e :: e in after && e.fingerprint == event.fingerprint
      ensures r.WrongBinding? ==> Mismatched(binding)
      ensures r.Contention? ==> forall i | 0 <= i < 8 :: rivals[i] != []
      ensures r.Full? ==> |after| >= maxEvents
    {
      hide Represents, Attempt;
      after := before;
      var attempt := 0;
      while attempt < MAX_TRIES
        invariant 0 <= attempt <= MAX_TRIES
        invariant Represents(record, binding, after) && before <= after && slot.ledger == old(slot.ledger)
        invariant forall e <- after :: e in before || Brought(rivals, e)
        invariant forall i | 0 <= i < attempt :: rivals[i] != []
      {
        var previous := record;
        ghost var read := after;
        after := InterfereAll(rivals[attempt], binding, maxEvents, after);
        ghost var middle := record;
        var verdict := Attempt(previous, binding, event, maxEvents);
        VerdictMeans(previous, binding, read, event, maxEvents);
        match verdict
        case BindingConflict => assert false;
        case Duplicate => return AlreadyHeld, after;
        case Capacity =>
          SubsetCard(read, after);
          return Full, after;
        case Write(next, classification) =>
          var expected := if previous.Some? then previous.value.revision else 0;
          var reply := Install(expected, next, binding, times[attempt]);
          if reply.Installed? {
            SameRevision(previous, middle, binding, read, after);
            ClassifiedAs(previous, binding, read, event, maxEvents);
            NewIsNotHeld(previous, binding, read, event, maxEvents);
            assert after + {event} - {event} == read;
            return Done(classification), after + {event};
          }
          if reply.Mismatch? { return WrongBinding, after; }
        attempt := attempt + 1;
      }
      r := Contention;
    }
  }

  /** Accepted, stale or conflicting with respect to the events held before it. */
  ghost predicate ClassifiedRightly(c: Classification, held: set<EndEvent>, event: EndEvent) {
    match c
    case Conflicting => exists e :: e in held && Clash(e, event)
    case Stale => (forall e <- held :: !Clash(e, event)) && exists e :: e in held && event.occurredAt < e.occurredAt
    case Accepted => (forall e <- held :: !Clash(e, event)) && forall e <- held :: e.occurredAt <= event.occurredAt
  }

  lemma NewIsNotHeld(previous: Option<Record>, binding: Binding, events: set<EndEvent>, event: EndEvent, maxEvents: nat)
    requires Represents(previous, binding, events) && Attempt(previous, binding, event, maxEvents).Write?
    ensures event !in events
  {
    assert forall e :: e in EventsOf(previous) <==> e in events;
  }

  /** Some rival of some attempt brought this event. */
  ghost predicate Brought(rivals: seq<seq<Rival>>, e: EndEvent) {
    exists i :: 0 <= i < |rivals| && exists r <- rivals[i] :: r.event == e
  }

  datatype Answer = Done(classification: Classification) | AlreadyHeld | WrongBinding | Full | Contention

  const MAX_TRIES := 8

  // ---- the record is a function of the set of its events ----

  ghost predicate Sorted(events: seq<EndEvent>) {
    forall i, j | 0 <= i < j < |events| :: Before(events[i], events[j])
  }

  ghost predicate Clash(a: EndEvent, b: EndEvent) {
    a != b && (a.status != b.status || a.occurredAt == b.occurredAt)
  }

  /** The record that stands for a set of accepted events. */
  ghost predicate Represents(record: Option<Record>, binding: Binding, events: set<EndEvent>) {
    if record.None? then events == {}
    else
      var r := record.value;
      && r.events != [] && r.binding == binding
      && (set e <- r.events) == events
      && Sorted(r.events)
      && r.revision == |r.events|
      && (r.outcome == Conflict <==> exists a, b :: a in events && b in events && Clash(a, b))
      && (r.outcome.Agreed? ==> forall e <- events :: e.status == r.outcome.status)
  }

  /** What one attempt's verdict says about the events it read. */
  lemma VerdictMeans(previous: Option<Record>, binding: Binding, events: set<EndEvent>, event: EndEvent, maxEvents: nat)
    requires Represents(previous, binding, events)
    ensures var v := Attempt(previous, binding, event, maxEvents);
      && !v.BindingConflict?
      && (v.Duplicate? ==> exists e :: e in events && e.fingerprint == event.fingerprint)
      && (v.Capacity? ==> |events| >= maxEvents)
      && (v.Write? ==> Represents(Some(v.record), binding, events + {event}))
  {
    RevisionIsSize(previous, binding, events);
    var v := Attempt(previous, binding, event, maxEvents);
    if v.Write? { AttemptAdds(previous, binding, events, event, maxEvents); }
    if v.Duplicate? {
      var item :| item in EventsOf(previous) && item.fingerprint == event.fingerprint;
      assert item in events;
    }
  }

  lemma {:induction false} SortedSize(events: seq<EndEvent>)
    requires Sorted(events)
    ensures |(set e <- events)| == |events|
  {
    if events != [] {
      var init, last := events[..|events| - 1], events[|events| - 1];
      SortedSize(init);
      assert (set e <- events) == (set e <- init) + {last};
      assert last !in init;
    }
  }

  /** A record's revision counts its events. */
  lemma RevisionIsSize(record: Option<Record>, binding: Binding, events: set<EndEvent>)
    requires Represents(record, binding, events)
    ensures (if record.Some? then record.value.revision else 0) == |events| == |EventsOf(record)|
  {
    if record.Some? { SortedSize(record.value.events); }
  }

  /** An unchanged revision means nothing came in between. */
  lemma SameRevision(a: Option<Record>, b: Option<Record>, binding: Binding, events: set<EndEvent>, more: set<EndEvent>)
    requires Represents(a, binding, events) && Represents(b, binding, more) && events <= more
    requires (if a.Some? then a.value.revision else 0) == (if b.Some? then b.value.revision else 0)
    ensures events == more
  {
    RevisionIsSize(a, binding, events);
    RevisionIsSize(b, binding, more);
    SubsetCard(events, more);
  }

  lemma {:induction false} InsertSorted(item: EndEvent, sorted: seq<EndEvent>)
    requires Sorted(sorted) && forall e <- sorted :: e.fingerprint != item.fingerprint
    ensures Sorted(Insert(item, sorted))
    ensures |Insert(item, sorted)| == |sorted| + 1
    ensures forall e :: e in Insert(item, sorted) <==> e == item || e in sorted
  {
    if sorted != [] && !Before(item, sorted[0]) {
      InsertSorted(item, sorted[1..]);
      var tail := Insert(item, sorted[1..]);
      assert forall e <- tail :: Before(sorted[0], e);
    }
  }

  lemma {:induction false} SortOfSorted(sorted: seq<EndEvent>)
    requires Sorted(sorted)
    ensures Sort(sorted) == sorted
  {
    if sorted != [] {
      var init, last := sorted[..|sorted| - 1], sorted[|sorted| - 1];
      SortOfSorted(init);
      InsertAtEnd(last, init);
      assert init + [last] == sorted;
    }
  }

  lemma {:induction false} InsertAtEnd(last: EndEvent, init: seq<EndEvent>)
    requires forall e <- init :: Before(e, last)
    ensures Insert(last, init) == init + [last]
  {
    if init == [] {
      assert [last] + init == init + [last];
    } else {
      assert Before(init[0], last);
      InsertAtEnd(last, init[1..]);
      assert [init[0]] + (init[1..] + [last]) == init + [last];
    }
  }

  /** A sorted journal is determined by the set of its events. */
  lemma {:induction false} SortedUnique(a: seq<EndEvent>, b: seq<EndEvent>)
    requires Sorted(a) && Sorted(b) && forall e :: e in a <==> e in b
    ensures a == b
  {
    assert b != [] ==> b[0] in b;
    if a != [] {
      assert a[0] in b && b[0] in a;
      assert a[0] == b[0];
      forall e
        ensures e in a[1..] <==> e in b[1..]
      {
        assert e in a[1..] <==> e in a && e != a[0];
        assert e in b[1..] <==> e in b && e != b[0];
      }
      SortedUnique(a[1..], b[1..]);
    }
  }

  /** Two records for the same set of events have the same list, revision and outcome. */
  lemma RecordUnique(r: Option<Record>, s: Option<Record>, binding: Binding, events: set<EndEvent>)
    requires Represents(r, binding, events) && Represents(s, binding, events)
    ensures r == s
  {
    assert r.Some? ==> r.value.events[0] in events;
    assert s.Some? ==> s.value.events[0] in events;
    if r.Some? && s.Some? {
      forall e
        ensures e in r.value.events <==> e in s.value.events
      {
        assert e in events <==> e in r.value.events;
        assert e in events <==> e in s.value.events;
      }
      SortedUnique(r.value.events, s.value.events);
    }
  }

  /** The list an attempt would install: the held events and the new one, in order. */
  lemma AttemptSorts(held: seq<EndEvent>, event: EndEvent)
    requires Sorted(held) && forall e <- held :: e.fingerprint != event.fingerprint
    ensures var events := Sort(held + [event]);
      && Sorted(events) && |events| == |held| + 1
      && (set e <- events) == (set e <- held) + {event}
  {
    assert (held + [event])[..|held|] == held && (held + [event])[|held|] == event;
    SortOfSorted(held);
    InsertSorted(event, held);
  }

  /** The new outcome is a conflict exactly when some two of the events clash. */
  lemma AttemptOutcome(previous: Option<Record>, binding: Binding, events: set<EndEvent>, event: EndEvent)
    requires Represents(previous, binding, events)
    requires forall e <- events :: e.fingerprint != event.fingerprint
    ensures var conflict := Diverges(event, EventsOf(previous)) || (previous.Some? && previous.value.outcome == Conflict);
      && (conflict <==> exists a, b :: a in events + {event} && b in events + {event} && Clash(a, b))
      && (!conflict ==> forall e <- events :: e.status == event.status)
  {
    var held := EventsOf(previous);
    assert forall e :: e in held <==> e in events;
    var all := events + {event};
    if Diverges(event, held) {
      var item :| item in held && (item.status != event.status || item.occurredAt == event.occurredAt);
      assert item in all && event in all && Clash(item, event);
    } else if previous.Some? && previous.value.outcome == Conflict {
      var a, b :| a in events && b in events && Clash(a, b);
      assert a in all && b in all;
    } else {
      assert forall a, b | a in events && b in events :: !Clash(a, b);
    }
  }

  /** How an accepted event is classified: it clashes with a held one, it is older than the newest of them, or it is neither. */
  lemma ClassifiedAs(previous: Option<Record>, binding: Binding, events: set<EndEvent>, event: EndEvent, maxEvents: nat)
    requires Represents(previous, binding, events)
    requires Attempt(previous, binding, event, maxEvents).Write?
    ensures var c := Attempt(previous, binding, event, maxEvents).classification;
      && (c == Conflicting <==> exists e :: e in events && Clash(e, event))
      && (c == Stale <==> (forall e <- events :: !Clash(e, event)) && exists e :: e in events && event.occurredAt < e.occurredAt)
      && (c == Accepted <==> (forall e <- events :: !Clash(e, event)) && forall e <- events :: e.occurredAt <= event.occurredAt)
  {
    var held := EventsOf(previous);
    assert forall e :: e in held <==> e in events;
    assert forall e <- held :: e.fingerprint != event.fingerprint;
    if Diverges(event, held) {
      var item :| item in held && (item.status != event.status || item.occurredAt == event.occurredAt);
      assert item in events && Clash(item, event);
    } else {
      assert forall e <- events :: e in held;
    }
  }

  /** One installed attempt adds exactly its event, and a conflict once recorded stays. */
  lemma AttemptAdds(previous: Option<Record>, binding: Binding, events: set<EndEvent>, event: EndEvent, maxEvents: nat)
    requires Represents(previous, binding, events)
    requires Attempt(previous, binding, event, maxEvents).Write?
    ensures var next := Attempt(previous, binding, event, maxEvents).record;
      && Represents(Some(next), binding, events + {event})
      && next.revision == (if previous.Some? then previous.value.revision else 0) + 1 && |next.events| <= maxEvents
      && (previous.Some? && previous.value.outcome == Conflict ==> next.outcome == Conflict)
  {
    var held := EventsOf(previous);
    assert (set e <- held) == events;
    AttemptSorts(held, event);
    AttemptOutcome(previous, binding, events, event);
  }

  // ---- concurrent accepts ----

  datatype Progress = Idle(tries: nat) | Read(previous: Option<Record>, tries: nat) | Acknowledged | Refused
  datatype Delivery = Delivery(event: EndEvent, progress: Progress)
  datatype Journal = Journal(record: Option<Record>, deliveries: map<nat, Delivery>)
  datatype Step = Arrive(id: nat, event: EndEvent) | Fetch(id: nat) | Store(id: nat) | Stop(id: nat)

  /** All deliveries carry the session's one binding, and the interactive ledger agrees with it. */
  predicate Enabled(j: Journal, step: Step) {
    match step
    case Arrive(id, _) => id !in j.deliveries
    case Fetch(id) => id in j.deliveries && j.deliveries[id].progress.Idle? && j.deliveries[id].progress.tries < MAX_TRIES
    case Store(id) => id in j.deliveries && j.deliveries[id].progress.Read?
    case Stop(id) => id in j.deliveries && !j.deliveries[id].progress.Acknowledged?
  }

  function At(j: Journal, id: nat, progress: Progress): Journal
    requires id in j.deliveries
  {
    j.(deliveries := j.deliveries[id := j.deliveries[id].(progress := progress)])
  }

  function Apply(j: Journal, step: Step, binding: Binding, maxEvents: nat): Journal
    requires Enabled(j, step)
  {
    match step
    case Arrive(id, event) => j.(deliveries := j.deliveries[id := Delivery(event, Idle(0))])
    case Fetch(id) => At(j, id, Read(j.record, j.deliveries[id].progress.tries))
    case Stop(id) => At(j, id, Refused)
    case Store(id) =>
      var d := j.deliveries[id];
      match Attempt(d.progress.previous, binding, d.event, maxEvents)
      case BindingConflict => At(j, id, Refused)
      case Duplicate => At(j, id, Acknowledged)
      case Capacity => At(j, id, Refused)
      case Write(next, _) =>
        var revision := if j.record.Some? then j.record.value.revision else 0;
        var expected := if d.progress.previous.Some? then d.progress.previous.value.revision else 0;
        if revision != expected then At(j, id, Idle(d.progress.tries + 1))
        else At(j, id, Acknowledged).(record := Some(next))
  }

  ghost predicate Legal(j: Journal, steps: seq<Step>, binding: Binding, maxEvents: nat)
    decreases |steps|
  {
    steps == [] || (Enabled(j, steps[0]) && Legal(Apply(j, steps[0], binding, maxEvents), steps[1..], binding, maxEvents))
  }

  ghost function Run(j: Journal, steps: seq<Step>, binding: Binding, maxEvents: nat): Journal
    requires Legal(j, steps, binding, maxEvents)
    decreases |steps|
  {
    if steps == [] then j else Run(Apply(j, steps[0], binding, maxEvents), steps[1..], binding, maxEvents)
  }

  /** `universe` lists the events that exist; within it the digest determines the event. */
  ghost predicate Inv(j: Journal, binding: Binding, universe: set<EndEvent>, maxEvents: nat) {
    && (forall a, b | a in universe && b in universe :: a.fingerprint == b.fingerprint ==> a == b)
    && Represents(j.record, binding, set e <- EventsOf(j.record))
    && (set e <- EventsOf(j.record)) <= universe
    && |EventsOf(j.record)| <= maxEvents
    && (forall id <- j.deliveries :: DeliveryOk(j, j.deliveries[id], binding, universe))
  }

  ghost predicate DeliveryOk(j: Journal, d: Delivery, binding: Binding, universe: set<EndEvent>) {
    && d.event in universe
    && match d.progress
       case Read(previous, _) => Earlier(previous, j.record, binding)
       case Acknowledged => d.event in EventsOf(j.record)
       case _ => true
  }

  /** A record read earlier: its events are still there, and an unchanged revision means an unchanged record. */
  ghost predicate Earlier(previous: Option<Record>, record: Option<Record>, binding: Binding) {
    && Represents(previous, binding, set e <- EventsOf(previous))
    && (previous.Some? ==> record.Some? && previous.value.revision <= record.value.revision)
    && (forall e <- EventsOf(previous) :: e in EventsOf(record))
    && ((if previous.Some? then previous.value.revision else 0) == (if record.Some? then record.value.revision else 0) ==> previous == record)
  }

  /** What was read before an installed write is still an earlier record after it. */
  lemma DeliveryStays(j: Journal, j': Journal, d: Delivery, binding: Binding, universe: set<EndEvent>)
    requires DeliveryOk(j, d, binding, universe)
    requires forall e <- EventsOf(j.record) :: e in EventsOf(j'.record)
    requires j'.record.Some? && j'.record.value.revision == (if j.record.Some? then j.record.value.revision else 0) + 1
    ensures DeliveryOk(j', d, binding, universe)
  {
  }

  /** A write installed on the record it was computed from. */
  lemma WriteKeeps(j: Journal, id: nat, binding: Binding, universe: set<EndEvent>, maxEvents: nat)
    requires Inv(j, binding, universe, maxEvents) && id in j.deliveries && j.deliveries[id].event in universe
    requires Attempt(j.record, binding, j.deliveries[id].event, maxEvents).Write?
    ensures Inv(At(j, id, Acknowledged).(record := Some(Attempt(j.record, binding, j.deliveries[id].event, maxEvents).record)),
                binding, universe, maxEvents)
  {
    var event := j.deliveries[id].event;
    var next := Attempt(j.record, binding, event, maxEvents).record;
    var j' := At(j, id, Acknowledged).(record := Some(next));
    var events := set e <- EventsOf(j.record);
    AttemptAdds(j.record, binding, events, event, maxEvents);
    WrittenEvents(next, binding, events + {event});
    assert forall e <- EventsOf(j.record) :: e in events && e in EventsOf(j'.record);
    assert event in events + {event};
    forall k <- j'.deliveries
      ensures DeliveryOk(j', j'.deliveries[k], binding, universe)
    {
      if k != id { DeliveryStays(j, j', j.deliveries[k], binding, universe); }
    }
  }

  lemma WrittenEvents(next: Record, binding: Binding, events: set<EndEvent>)
    requires Represents(Some(next), binding, events)
    ensures (set e <- EventsOf(Some(next))) == events && forall e <- events :: e in EventsOf(Some(next))
  {
  }

  lemma StoreKeeps(j: Journal, id: nat, binding: Binding, universe: set<EndEvent>, maxEvents: nat)
    requires Inv(j, binding, universe, maxEvents) && Enabled(j, Store(id))
    ensures Inv(Apply(j, Store(id), binding, maxEvents), binding, universe, maxEvents)
  {
    var d := j.deliveries[id];
    assert DeliveryOk(j, d, binding, universe);
    var previous := d.progress.previous;
    var verdict := Attempt(previous, binding, d.event, maxEvents);
    if verdict.Write? && (if j.record.Some? then j.record.value.revision else 0) == (if previous.Some? then previous.value.revision else 0) {
      WriteKeeps(j, id, binding, universe, maxEvents);
    } else {
      if verdict.Duplicate? {
        var item :| item in EventsOf(previous) && item.fingerprint == d.event.fingerprint;
        assert item in EventsOf(j.record) && item in universe;
      }
      var j' := Apply(j, Store(id), binding, maxEvents);
      forall k <- j'.deliveries
        ensures DeliveryOk(j', j'.deliveries[k], binding, universe)
      {
        assert DeliveryOk(j, j.deliveries[k], binding, universe);
      }
    }
  }

  lemma StepKeeps(j: Journal, step: Step, binding: Binding, universe: set<EndEvent>, maxEvents: nat)
    requires Inv(j, binding, universe, maxEvents) && Enabled(j, step)
    requires step.Arrive? ==> step.event in universe
    ensures Inv(Apply(j, step, binding, maxEvents), binding, universe, maxEvents)
  {
    if step.Store? {
      StoreKeeps(j, step.id, binding, universe, maxEvents);
    } else {
      var j' := Apply(j, step, binding, maxEvents);
      forall k <- j'.deliveries
        ensures DeliveryOk(j', j'.deliveries[k], binding, universe)
      {
        assert k in j.deliveries ==> DeliveryOk(j, j.deliveries[k], binding, universe);
      }
    }
  }

  const EMPTY := Journal(None, map[])

  ghost predicate Carries(steps: seq<Step>, universe: set<EndEvent>) {
    forall step <- steps :: step.Arrive? ==> step.event in universe
  }

  lemma {:induction false} RunKeeps(j: Journal, steps: seq<Step>, binding: Binding, universe: set<EndEvent>, maxEvents: nat)
    requires Inv(j, binding, universe, maxEvents) && Legal(j, steps, binding, maxEvents) && Carries(steps, universe)
    ensures Inv(Run(j, steps, binding, maxEvents), binding, universe, maxEvents)
    decreases |steps|
  {
    if steps != [] {
      StepKeeps(j, steps[0], binding, universe, maxEvents);
      RunKeeps(Apply(j, steps[0], binding, maxEvents), steps[1..], binding, universe, maxEvents);
    }
  }

  /** In the final journal every event of `universe` has been acknowledged to some delivery. */
  ghost predicate AllAcknowledged(j: Journal, universe: set<EndEvent>) {
    forall e <- universe :: exists id :: id in j.deliveries && j.deliveries[id] == Delivery(e, Acknowledged)
  }

  /**
    Confluence. Whatever the interleaving, retries and losses of concurrent accepts, once each event of
    a set has been acknowledged the record is the one that stands for the set: one sorted list, revision
    equal to the number of events, and a conflict exactly when two statuses differ or two times agree.
   */
  lemma Confluent(steps: seq<Step>, other: seq<Step>, binding: Binding, universe: set<EndEvent>, maxEvents: nat)
    requires forall a, b | a in universe && b in universe :: a.fingerprint == b.fingerprint ==> a == b
    requires Legal(EMPTY, steps, binding, maxEvents) && Carries(steps, universe)
    requires Legal(EMPTY, other, binding, maxEvents) && Carries(other, universe)
    requires AllAcknowledged(Run(EMPTY, steps, binding, maxEvents), universe)
    requires AllAcknowledged(Run(EMPTY, other, binding, maxEvents), universe)
    ensures Represents(Run(EMPTY, steps, binding, maxEvents).record, binding, universe)
    ensures Run(EMPTY, steps, binding, maxEvents).record == Run(EMPTY, other, binding, maxEvents).record
  {
    AcknowledgedSetIsStored(steps, binding, universe, maxEvents);
    AcknowledgedSetIsStored(other, binding, universe, maxEvents);
    RecordUnique(Run(EMPTY, steps, binding, maxEvents).record, Run(EMPTY, other, binding, maxEvents).record, binding, universe);
  }

  lemma AcknowledgedSetIsStored(steps: seq<Step>, binding: Binding, universe: set<EndEvent>, maxEvents: nat)
    requires forall a, b | a in universe && b in universe :: a.fingerprint == b.fingerprint ==> a == b
    requires Legal(EMPTY, steps, binding, maxEvents) && Carries(steps, universe)
    requires AllAcknowledged(Run(EMPTY, steps, binding, maxEvents), universe)
    ensures Represents(Run(EMPTY, steps, binding, maxEvents).record, binding, universe)
  {
    var j := Run(EMPTY, steps, binding, maxEvents);
    assert Inv(EMPTY, binding, universe, maxEvents) by {
      assert (set e <- EventsOf(EMPTY.record)) == {};
    }
    RunKeeps(EMPTY, steps, binding, universe, maxEvents);
    forall e <- universe
      ensures e in EventsOf(j.record)
    {
      var id :| id in j.deliveries && j.deliveries[id] == Delivery(e, Acknowledged);
      assert DeliveryOk(j, j.deliveries[id], binding, universe);
    }
    assert (set e <- EventsOf(j.record)) == universe;
  }
}
