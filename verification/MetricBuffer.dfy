/**
  The bounded metric buffer (lib/MetricEventBuffer.js) as a state machine: its controls, its state, and what
  each call does to the state. The order in which pruning visits sessions is a parameter.
 */
module MetricBuffer {
  import opened Wrappers
  import opened MetricEvents
  import opened MetricGroups
  import opened MetricStates
  import opened MetricBuckets
  import opened MetricReport

  const MAX_TIME := 8640000000000000

  datatype Controls = Controls(retentionMs: int, maxEvents: nat, maxBytes: nat, maxSessions: nat, maxTombstones: nat,
                               maxFutureSkewMs: int, inactivityMs: Option<int>, flowVersions: set<string>, states: set<string>)

  predicate ControlsOk(c: Controls) {
    && 1 <= c.retentionMs <= 31536000000 && 1 <= c.maxEvents <= MAX_BATCH && 2048 <= c.maxBytes
    && 1 <= c.maxSessions && 1 <= c.maxTombstones
    && 0 <= c.maxFutureSkewMs <= 60000 && ValidPolicy(c.inactivityMs)
  }

  /** An event held, with the size of its serialised form. */
  datatype Held = Held(event: Event, bytes: nat)

  datatype Counts = Counts(accepted: nat, duplicates: nat, rejected: nat, failures: nat, evicted: nat, deleted: nat)

  datatype State = State(events: seq<Held>, sessions: map<Id, int>, tombstones: map<Id, Option<int>>, bytes: int,
                         generation: nat, lastNow: int, sealed: bool, closed: bool, counts: Counts)

  const EMPTY := State([], map[], map[], 0, 0, 0, false, false, Counts(0, 0, 0, 0, 0, 0))

  datatype Reason = BufferClosed | NotValid | UnknownLabel | SessionDenied | InFuture | TooOld | NoCapacity
  datatype Verdict = Kept(duplicate: bool) | Refused(reason: Reason) | Thrown

  // ---- parts ----

  ghost function EventSet(events: seq<Held>): set<Event> { set h | h in events :: h.event }

  function BytesOf(events: seq<Held>): int {
    if events == [] then 0 else BytesOf(events[..|events| - 1]) + events[|events| - 1].bytes
  }

  /** The events that stay when a session's are removed. */
  function Without(events: seq<Held>, id: Id): (kept: seq<Held>)
    ensures |kept| <= |events|
  {
    if events == [] then []
    else
      var last := events[|events| - 1];
      Without(events[..|events| - 1], id) + (if last.event.body.sessionId != id then [last] else [])
  }

  function Min(a: int, b: int): int { if a < b then a else b }

  function Max(a: int, b: int): int { if a < b then b else a }

  predicate ClockOk(clock: int) { 0 <= clock <= MAX_TIME }

  /** _time: the latest reading so far. */
  function Tick(s: State, clock: int): State { s.(lastNow := Max(s.lastNow, clock)) }

  function Failure(s: State): State { s.(counts := s.counts.(failures := s.counts.failures + 1)) }

  /** Snapshots taken before are no longer current. */
  function Invalidate(s: State): State { s.(generation := s.generation + 1) }

  /** Every event of the session is dropped, with its bytes. */
  function RemoveSession(s: State, id: Id): State {
    var kept := Without(s.events, id);
    s.(events := kept, bytes := s.bytes - (BytesOf(s.events) - BytesOf(kept)), sessions := s.sessions - {id})
  }

  /** The session gets a tombstone; when there is no room for one, the buffer is sealed. */
  function Deny(c: Controls, s: State, id: Id, until: Option<int>): State {
    if id in s.tombstones || |s.tombstones| < c.maxTombstones then s.(tombstones := s.tombstones[id := until])
    else Failure(s.(sealed := true))
  }

  function Unexpired(tombstones: map<Id, Option<int>>, time: int): map<Id, Option<int>> {
    map id | id in tombstones && (tombstones[id].Some? ==> tombstones[id].value > time) :: tombstones[id]
  }

  /** One session met by pruning. */
  function PruneOne(c: Controls, s: State, id: Id, time: int): State {
    if id in s.sessions && s.sessions[id] + c.retentionMs <= time then Deny(c, RemoveSession(s, id), id, Some(time + c.retentionMs))
    else s
  }

  function PruneSessions(c: Controls, s: State, order: seq<Id>, n: nat, time: int): State
    requires n <= |order|
  {
    if n == 0 then s else PruneOne(c, PruneSessions(c, s, order, n - 1, time), order[n - 1], time)
  }

  function Settle(before: State, s: State): State {
    if |before.events| > |s.events| then
      Invalidate(s.(counts := s.counts.(evicted := s.counts.evicted + |before.events| - |s.events|)))
    else s
  }

  /** Lapsed tombstones go, expired sessions are evicted, and what was evicted is counted. */
  function Prune(c: Controls, s: State, order: seq<Id>): State {
    Settle(s, PruneSessions(c, s.(tombstones := Unexpired(s.tombstones, s.lastNow)), order, |order|, s.lastNow))
  }

  /** The state in which a call with a good clock does its work. */
  function Begin(c: Controls, s: State, order: seq<Id>, clock: int): State { Prune(c, Tick(s, clock), order) }

  // ---- record ----

  predicate Labelled(c: Controls, e: Event) {
    && (e.body.flowVersion.Some? ==> e.body.flowVersion.value in c.flowVersions)
    && (e.body.fact.Turn? ==>
          && (e.body.fact.previousState.Some? ==> e.body.fact.previousState.value in c.states)
          && (e.body.fact.nextState.Some? ==> e.body.fact.nextState.value in c.states))
  }

  predicate HeldId(events: seq<Held>, id: Id) { exists i :: 0 <= i < |events| && events[i].event.eventId == id }

  /** Held events that belong to the new one's session or share its logical identifier. */
  function Cohort(events: seq<Held>, e: Event): seq<Event> {
    if events == [] then []
    else Cohort(events[..|events| - 1], e) + (if Related(events[|events| - 1].event, e) then [events[|events| - 1].event] else [])
  }

  // The group budget: every row that the events could open in a report.

  ghost function BudgetVersions(u: set<Event>): set<Option<string>> { set e | e in u :: e.body.flowVersion }

  /** A start's unknown state, and both states of a turn. */
  function EventGroups(e: Event): set<StateKey> {
    match e.body.fact
    case SessionStart => {StateKey(e.body.flowVersion, None)}
    case Turn(_, _, previous, next, _, _, _) => {StateKey(e.body.flowVersion, previous), StateKey(e.body.flowVersion, next)}
    case _ => {}
  }

  ghost function BudgetGroups(u: set<Event>): set<StateKey> { set e, k | e in u && k in EventGroups(e) :: k }

  ghost predicate WithinBudget(u: set<Event>) { |BudgetVersions(u)| <= MAX_FLOWS && |BudgetGroups(u)| <= MAX_STATES }

  function Full(c: Controls, s: State, e: Event, bytes: nat): bool {
    |s.events| >= c.maxEvents || s.bytes + bytes > c.maxBytes || (e.body.sessionId !in s.sessions && |s.sessions| >= c.maxSessions)
  }

  function Keep(s: State, e: Event, bytes: nat): State {
    var at := e.body.at;
    s.(events := s.events + [Held(e, bytes)], bytes := s.bytes + bytes,
       sessions := s.sessions[e.body.sessionId := Min(if e.body.sessionId in s.sessions then s.sessions[e.body.sessionId] else at, at)],
       counts := s.counts.(accepted := s.counts.accepted + 1))
  }

  function Refuse(s: State): State { s.(counts := s.counts.(rejected := s.counts.rejected + 1)) }

  /** The verdict on an event in a pruned state; what throws is refused as invalid and counted as a failure. */
  ghost function Judge(c: Controls, s: State, e: Event, bytes: nat): Verdict {
    var time := s.lastNow;
    if s.sealed then Refused(NoCapacity)
    else if !ValidEvent(e) then Thrown
    else if !Labelled(c, e) then Refused(UnknownLabel)
    else if e.body.sessionId in s.tombstones then Refused(SessionDenied)
    else if e.body.at > time + c.maxFutureSkewMs then Refused(InFuture)
    else if e.body.at + c.retentionMs <= time then Refused(TooOld)
    else if HeldId(s.events, e.eventId) then (if e in EventSet(s.events) then Kept(true) else Refused(NotValid))
    else if Full(c, s, e, bytes) || !WithinBudget(EventSet(s.events) + {e}) then Refused(NoCapacity)
    else if time + c.maxFutureSkewMs > MAX_TIME then Thrown
    else if !Acceptable(Cohort(s.events, e) + [e], time + c.maxFutureSkewMs, c.inactivityMs) then Thrown
    else Kept(false)
  }

  /** What the verdict does to the books. */
  function Recorded(s: State, e: Event, bytes: nat, verdict: Verdict): State {
    match verdict
    case Kept(true) => s.(counts := s.counts.(duplicates := s.counts.duplicates + 1))
    case Kept(false) => Keep(s, e, bytes)
    case Refused(_) => Refuse(s)
    case Thrown => Refuse(Failure(s))
  }

  // ---- steps ----

  datatype Call =
    | Record(event: Event, bytes: nat)
    | Delete(id: Id)
    | Look
    | Clear
    | Close

  /** deleteSession in a pruned state. */
  function Deleted(c: Controls, s: State, id: Id): State {
    var gone := RemoveSession(s, id);
    var denied := Deny(c, gone, id, None);
    Invalidate(denied.(counts := denied.counts.(deleted := denied.counts.deleted + |s.events| - |gone.events|)))
  }

  function Cleared(s: State): State {
    Invalidate(s.(counts := s.counts.(deleted := s.counts.deleted + |s.events|),
                  events := [], sessions := map[], tombstones := map[], bytes := 0, sealed := true))
  }

  /** A call with a good clock on an open buffer, pruning in the order given. */
  ghost predicate After(c: Controls, s: State, call: Call, clock: int, order: seq<Id>, s': State) {
    var b := Begin(c, s, order, clock);
    match call
    case Look => s' == b
    case Delete(id) => s' == Deleted(c, b, id)
    case Record(e, bytes) => s' == Recorded(b, e, bytes, Judge(c, b, e, bytes))
    case _ => false
  }

  /** One call: `clock` is what the clock read; an unusable reading changes no more than the counters. */
  ghost predicate Next(c: Controls, s: State, call: Call, clock: int, s': State) {
    if call.Clear? then s' == if s.closed then s else Cleared(s)
    else if call.Close? then s' == if s.closed then s else Cleared(s).(closed := true)
    else if s.closed then s' == if call.Record? then Refuse(s) else s
    else if !ClockOk(clock) then s' == if call.Record? then Refuse(Failure(s)) else s
    else exists order: seq<Id> :: Listing(order, s.sessions.Keys) && After(c, s, call, clock, order, s')
  }
}
