/**
  Metric evidence (lib/MetricEvents.js): the event schema, what makes a batch of events consistent, and
  the summary of a consistent batch. Identifiers are opaque and ordered; times are milliseconds.
 */
module MetricEvents {
  import opened Wrappers

  /** An opaque UUID; the number stands for its place in the order of identifiers. */
  datatype Id = Id(number: int)

  datatype ErrorClass = Validation | Timeout | Storage | Provider | Handler | OtherError
  datatype RequestOutcome = Accepted | Replayed | Rejected | RequestError
  datatype TurnOutcome = Success | ValidationError | TurnError | Blocked | FlowRestart
  datatype EndOutcome = EndCompleted | EndCancelled | EndExpired | EndUnknown
  datatype ProviderOutcome = ProviderSuccess | ProviderIncomplete | ProviderFailed
  datatype BusinessOutcome = BusinessCompleted | BusinessCancelled | BusinessFailed

  datatype Fact =
    | Request(requestId: Id, requestOutcome: RequestOutcome, requestMs: int, requestError: Option<ErrorClass>)
    | Turn(turnId: Id, position: int, previousState: Option<string>, nextState: Option<string>,
           outcome: TurnOutcome, durationMs: int, errorClass: Option<ErrorClass>)
    | SessionStart
    | SessionEnd(ended: EndOutcome)
    | ProviderEnd(provider: ProviderOutcome)
    | Business(businessId: Id, business: BusinessOutcome)

  /** Everything but the envelope's own identity: two envelopes of one fact agree on it. */
  datatype Body = Body(at: int, sessionId: Id, flowVersion: Option<string>, fact: Fact)

  datatype Event = Event(eventId: Id, body: Body)

  const MAX_COUNT := 2147483647
  const MAX_BATCH := 100000

  predicate IsCount(n: int) { 0 <= n <= MAX_COUNT }

  /** createMetricEvent: the field rules. */
  predicate ValidFact(f: Fact) {
    match f
    case Request(_, outcome, ms, error) => IsCount(ms) && (outcome == RequestError <==> error.Some?)
    case Turn(_, position, _, _, outcome, ms, error) =>
      && IsCount(position) && IsCount(ms)
      && (outcome in {TurnError, ValidationError} <==> error.Some?)
      && (outcome == ValidationError ==> error == Some(Validation))
    case _ => true
  }

  predicate ValidEvent(e: Event) { ValidFact(e.body.fact) }

  /** The identifier a fact shares with other envelopes of the same operation. */
  datatype Logical = RequestKey(id: Id) | TurnKey(id: Id) | BusinessKey(id: Id)

  function LogicalOf(f: Fact): Option<Logical> {
    match f
    case Request(id, _, _, _) => Some(RequestKey(id))
    case Turn(id, _, _, _, _, _, _) => Some(TurnKey(id))
    case Business(id, _) => Some(BusinessKey(id))
    case _ => None
  }

  // ---- consistency ----

  /** Why two events can stand in one batch. */
  ghost predicate Compatible(a: Event, b: Event) {
    var f, g := a.body.fact, b.body.fact;
    && (a.eventId == b.eventId ==> a == b)
    && (LogicalOf(f).Some? && LogicalOf(f) == LogicalOf(g) ==>
          if f.Business? then a.body.sessionId == b.body.sessionId && a.body.flowVersion == b.body.flowVersion
          else a.body == b.body)
    && (f.Turn? && g.Turn? && a.body.sessionId == b.body.sessionId ==>
          && (f.position == g.position ==> f.turnId == g.turnId)
          && (f.position < g.position ==> a.body.at <= b.body.at))
    && (f.SessionStart? && a.body.sessionId == b.body.sessionId ==>
          && b.body.at >= a.body.at
          && (g.SessionStart? ==> a.body.at == b.body.at && a.body.flowVersion == b.body.flowVersion))
  }

  ghost predicate Consistent(events: set<Event>) {
    forall a, b | a in events && b in events :: Compatible(a, b)
  }

  ghost function Included(events: set<Event>, asOf: int): set<Event> {
    set e | e in events && e.body.at <= asOf
  }

  ghost function SetOf(events: seq<Event>): set<Event> { set e | e in events }

  predicate ValidPolicy(inactivityMs: Option<int>) {
    inactivityMs.Some? ==> 0 < inactivityMs.value <= MAX_COUNT
  }

  /** No two different events claim one identity. */
  predicate Identified(sources: seq<Event>) {
    forall a, b | a in sources && b in sources :: a.eventId == b.eventId ==> a == b
  }

  /** When aggregation succeeds: it throws on every other batch. */
  ghost predicate Acceptable(sources: seq<Event>, asOf: int, inactivityMs: Option<int>) {
    && ValidPolicy(inactivityMs)
    && |sources| <= MAX_BATCH
    && (forall e <- sources :: ValidEvent(e))
    && Identified(sources)
    && Consistent(Included(SetOf(sources), asOf))
  }

  /** Leaving events out never makes a batch inconsistent: pruning, and reporting as of an earlier time, are safe. */
  lemma ConsistentSubset(events: set<Event>, part: set<Event>)
    requires Consistent(events) && part <= events
    ensures Consistent(part)
  {
  }

  /** The events the buffer checks a new one against: its session's, and those that share its logical identifier. */
  predicate Related(held: Event, e: Event) {
    held.body.sessionId == e.body.sessionId
    || (LogicalOf(e.body.fact).Some? && LogicalOf(held.body.fact) == LogicalOf(e.body.fact))
  }

  ghost function RelatedTo(held: set<Event>, e: Event): set<Event> {
    set h | h in held && Related(h, e)
  }

  /** Events of other sessions that share no logical identifier are always compatible. */
  lemma UnrelatedCompatible(h: Event, e: Event)
    requires !Related(h, e) && h.eventId != e.eventId
    ensures Compatible(h, e) && Compatible(e, h)
  {
  }

  /** The local check is enough: a new event consistent with its own cohort is consistent with everything held. */
  lemma LocalCheckSuffices(held: set<Event>, e: Event)
    requires Consistent(held) && forall h <- held :: h.eventId != e.eventId
    requires Consistent(RelatedTo(held, e) + {e})
    ensures Consistent(held + {e})
  {
    forall a, b | a in held + {e} && b in held + {e}
      ensures Compatible(a, b)
    {
      var cohort := RelatedTo(held, e) + {e};
      if a in held && b in held {
      } else if a in cohort && b in cohort {
      } else if a == e {
        UnrelatedCompatible(b, e);
      } else {
        UnrelatedCompatible(a, e);
      }
    }
  }

  // ---- the summary of a consistent batch, as a function of its set of events ----

  /** Logical identifiers of the requests and turns among the events, all of them or those with one outcome. */
  ghost function RequestIds(u: set<Event>): set<Id> {
    set e | e in u && e.body.fact.Request? :: e.body.fact.requestId
  }

  ghost function RequestIdsWith(u: set<Event>, o: RequestOutcome): set<Id> {
    set e | e in u && e.body.fact.Request? && e.body.fact.requestOutcome == o :: e.body.fact.requestId
  }

  ghost function TurnIds(u: set<Event>): set<Id> {
    set e | e in u && e.body.fact.Turn? :: e.body.fact.turnId
  }

  ghost function TurnIdsWith(u: set<Event>, o: TurnOutcome): set<Id> {
    set e | e in u && e.body.fact.Turn? && e.body.fact.outcome == o :: e.body.fact.turnId
  }

  ghost function TurnIdsFailed(u: set<Event>, c: ErrorClass): set<Id> {
    set e | e in u && e.body.fact.Turn? && e.body.fact.errorClass == Some(c) :: e.body.fact.turnId
  }

  ghost function BusinessIds(u: set<Event>): set<Id> {
    set e | e in u && e.body.fact.Business? :: e.body.fact.businessId
  }

  ghost function Started(u: set<Event>): set<Id> {
    set e | e in u && e.body.fact.SessionStart? :: e.body.sessionId
  }

  /** A turn repeats the state of the validation error just before it. */
  predicate Retries(p: Body, t: Body) {
    && p.fact.Turn? && t.fact.Turn? && p.sessionId == t.sessionId
    && p.fact.outcome == ValidationError
    && t.fact.position == p.fact.position + 1
    && p.fact.previousState.Some? && p.fact.previousState == t.fact.previousState
    && p.flowVersion == t.flowVersion
  }

  /** Turns that retry a validation error of the batch. */
  ghost function RetryIds(u: set<Event>): set<Id> {
    set e | e in u && e.body.fact.Turn? && (exists p :: p in u && Retries(p.body, e.body)) :: e.body.fact.turnId
  }

  ghost function BusinessOutcomes(u: set<Event>, id: Id): set<BusinessOutcome> {
    set e | e in u && e.body.fact.Business? && e.body.fact.businessId == id :: e.body.fact.business
  }

  datatype SessionOutcome = Completed | Cancelled | Expired | Abandoned | Unknown | Open
  datatype Basis = Observed | ConflictingReasons | ObservedClosure | Inferred
  datatype Closing = NoProvider | ProviderSays(status: ProviderOutcome) | ProviderConflict

  datatype Detail = Detail(sessionId: Id, flowVersion: Option<string>, startedAt: int, lastActivityAt: int,
                           lastState: Option<string>, outcome: SessionOutcome, basis: Basis, closing: Closing)

  const REQUEST_OUTCOMES: set<RequestOutcome> := {Accepted, Replayed, Rejected, RequestError}
  const TURN_OUTCOMES: set<TurnOutcome> := {Success, ValidationError, TurnError, Blocked, FlowRestart}
  const ERROR_CLASSES: set<ErrorClass> := {Validation, Timeout, Storage, Provider, Handler, OtherError}
  const SESSION_OUTCOMES: set<SessionOutcome> := {Completed, Cancelled, Expired, Abandoned, Unknown, Open}
  /** None stands for an operation whose outcomes disagree. */
  const BUSINESS_OUTCOMES: set<Option<BusinessOutcome>> := {Some(BusinessCompleted), Some(BusinessCancelled), Some(BusinessFailed), None}

  datatype Summary = Summary(
    uniqueEvents: nat, futureEvents: nat, duplicateEvents: nat, duplicateFacts: nat, orphanEvents: nat, orphanSessions: nat,
    requests: nat, requestOutcomes: map<RequestOutcome, nat>,
    turns: nat, turnOutcomes: map<TurnOutcome, nat>, turnErrors: map<ErrorClass, nat>, validationRetries: nat,
    details: seq<Detail>, sessionOutcomes: map<SessionOutcome, nat>,
    business: nat, businessOutcomes: map<Option<BusinessOutcome>, nat>)

  ghost function Reasons(u: set<Event>, s: Id): set<EndOutcome> {
    set e | e in u && e.body.sessionId == s && e.body.fact.SessionEnd? && e.body.fact.ended != EndUnknown :: e.body.fact.ended
  }

  ghost function Statuses(u: set<Event>, s: Id): set<ProviderOutcome> {
    set e | e in u && e.body.sessionId == s && e.body.fact.ProviderEnd? :: e.body.fact.provider
  }

  /** Provider closures of a session disagree in status, or two of them claim the same time. */
  ghost predicate ProviderDisputed(u: set<Event>, s: Id) {
    exists a, b :: a in u && b in u && a != b && a.body.sessionId == s && b.body.sessionId == s
      && a.body.fact.ProviderEnd? && b.body.fact.ProviderEnd?
      && (a.body.fact.provider != b.body.fact.provider || a.body.at == b.body.at)
  }

  function EndedAs(reason: EndOutcome): SessionOutcome {
    match reason
    case EndCompleted => Completed
    case EndCancelled => Cancelled
    case EndExpired => Expired
    case EndUnknown => Unknown
  }

  /** What one session's detail says about the evidence; every field is determined by it. */
  ghost predicate DetailOk(u: set<Event>, asOf: int, inactivityMs: Option<int>, d: Detail) {
    var s := d.sessionId;
    && (exists e :: e in u && e.body == Body(d.startedAt, s, d.flowVersion, SessionStart))
    && IsLastActivity(u, s, d.startedAt, d.lastActivityAt)
    && IsLastState(u, s, d.lastState)
    && ClosingOk(u, s, d.closing)
    && OutcomeOk(u, s, asOf, inactivityMs, d.lastActivityAt, d.outcome, d.basis)
  }

  /** What the provider's closures amount to. */
  ghost predicate ClosingOk(u: set<Event>, s: Id, closing: Closing) {
    && (closing == ProviderConflict <==> ProviderDisputed(u, s))
    && (closing == NoProvider <==> Statuses(u, s) == {})
    && (closing.ProviderSays? ==> Statuses(u, s) == {closing.status})
  }

  ghost predicate SeveralReasons(u: set<Event>, s: Id) {
    exists a, b :: a in Reasons(u, s) && b in Reasons(u, s) && a != b
  }

  /** Some closure, of whichever kind, was reported. */
  ghost predicate Ended(u: set<Event>, s: Id) {
    exists e :: e in u && e.body.sessionId == s && (e.body.fact.SessionEnd? || e.body.fact.ProviderEnd?)
  }

  /** Stated reasons decide, then any closure, then inactivity. */
  ghost predicate OutcomeOk(u: set<Event>, s: Id, asOf: int, inactivityMs: Option<int>, last: int, outcome: SessionOutcome, basis: Basis) {
    if SeveralReasons(u, s) then outcome == Unknown && basis == ConflictingReasons
    else if Reasons(u, s) != {} then (exists r :: r in Reasons(u, s) && outcome == EndedAs(r)) && basis == Observed
    else if Ended(u, s) then outcome == Unknown && basis == (if ProviderDisputed(u, s) then ConflictingReasons else ObservedClosure)
    else if inactivityMs.Some? && asOf - last >= inactivityMs.value then outcome == Abandoned && basis == Inferred
    else outcome == Open && basis == Observed
  }

  /** The latest of the start and the turns. */
  ghost predicate IsLastActivity(u: set<Event>, s: Id, startedAt: int, last: int) {
    && last >= startedAt
    && (forall e | e in u && e.body.sessionId == s && e.body.fact.Turn? :: e.body.at <= last)
    && (last == startedAt || exists e :: e in u && e.body.sessionId == s && e.body.fact.Turn? && e.body.at == last)
  }

  /** Where the turn with the highest position left the session, or found it. */
  ghost predicate IsLastState(u: set<Event>, s: Id, state: Option<string>) {
    if exists e :: e in u && e.body.sessionId == s && e.body.fact.Turn? then
      exists e :: e in u && LastTurn(u, s, e) && state == ExitState(e.body.fact)
    else state.None?
  }

  ghost predicate LastTurn(u: set<Event>, s: Id, e: Event) {
    && e.body.sessionId == s && e.body.fact.Turn?
    && forall t | t in u && t.body.sessionId == s && t.body.fact.Turn? :: t.body.fact.position <= e.body.fact.position
  }

  function ExitState(f: Fact): Option<string>
    requires f.Turn?
  {
    if f.nextState.Some? then f.nextState else f.previousState
  }

  ghost function DuplicateFacts(u: set<Event>): int {
    (|set e | e in u && e.body.fact.Request?| - |RequestIds(u)|)
    + (|set e | e in u && e.body.fact.Turn?| - |TurnIds(u)|)
    + (|set e | e in u && e.body.fact.SessionStart?| - |Started(u)|)
    + (|set e | e in u && e.body.fact.Business?| - |set e | e in u && e.body.fact.Business? :: e.body|)
  }

  /** Evidence of sessions whose start is not among the events. */
  ghost function Orphans(u: set<Event>): set<Event> {
    set e | e in u && !e.body.fact.SessionStart? && e.body.sessionId !in Started(u)
  }

  ghost predicate SummaryOk(all: set<Event>, duplicates: nat, asOf: int, inactivityMs: Option<int>, r: Summary) {
    var u := Included(all, asOf);
    && r.uniqueEvents == |u| && r.futureEvents == |all| - |u|
    && r.duplicateEvents == duplicates
    && EvidenceOk(u, asOf, inactivityMs, r)
  }

  /** What the included events determine. */
  ghost predicate EvidenceOk(u: set<Event>, asOf: int, inactivityMs: Option<int>, r: Summary) {
    && r.duplicateFacts == DuplicateFacts(u)
    && r.orphanEvents == |Orphans(u)|
    && r.orphanSessions == |set e | e in Orphans(u) :: e.body.sessionId|
    && RequestsOk(u, r) && TurnsOk(u, r) && SessionsOk(u, asOf, inactivityMs, r) && BusinessOk(u, r)
  }

  ghost predicate RequestsOk(u: set<Event>, r: Summary) {
    && r.requests == |RequestIds(u)|
    && r.requestOutcomes.Keys == REQUEST_OUTCOMES
    && forall o <- REQUEST_OUTCOMES :: r.requestOutcomes[o] == |RequestIdsWith(u, o)|
  }

  ghost predicate TurnsOk(u: set<Event>, r: Summary) {
    && r.turns == |TurnIds(u)|
    && r.turnOutcomes.Keys == TURN_OUTCOMES
    && (forall o <- TURN_OUTCOMES :: r.turnOutcomes[o] == |TurnIdsWith(u, o)|)
    && r.turnErrors.Keys == ERROR_CLASSES
    && (forall c <- ERROR_CLASSES :: r.turnErrors[c] == |TurnIdsFailed(u, c)|)
    && r.validationRetries == |RetryIds(u)|
  }

  ghost predicate InOrder(details: seq<Detail>) {
    forall i, j | 0 <= i < j < |details| :: details[i].sessionId.number < details[j].sessionId.number
  }

  function IdsOf(details: seq<Detail>): set<Id> { set d | d in details :: d.sessionId }

  /** The details are the started sessions, once each, in order of identifier. */
  ghost predicate SessionsOk(u: set<Event>, asOf: int, inactivityMs: Option<int>, r: Summary) {
    && InOrder(r.details) && IdsOf(r.details) == Started(u)
    && (forall d <- r.details :: DetailOk(u, asOf, inactivityMs, d))
    && r.sessionOutcomes.Keys == SESSION_OUTCOMES
    && forall o <- SESSION_OUTCOMES :: r.sessionOutcomes[o] == |set d | d in r.details && d.outcome == o|
  }

  ghost predicate BusinessOk(u: set<Event>, r: Summary) {
    && r.business == |BusinessIds(u)|
    && r.businessOutcomes.Keys == BUSINESS_OUTCOMES
    && forall o <- BUSINESS_OUTCOMES :: r.businessOutcomes[o] == |set id | id in BusinessIds(u) && VerdictOk(u, id, o)|
  }

  /** An operation's envelopes agree on one outcome, or they disagree. */
  ghost predicate VerdictOk(u: set<Event>, id: Id, o: Option<BusinessOutcome>) {
    if o.Some? then BusinessOutcomes(u, id) == {o.value} else Disagree(BusinessOutcomes(u, id))
  }

  ghost predicate Disagree(outcomes: set<BusinessOutcome>) {
    exists a, b :: a in outcomes && b in outcomes && a != b
  }

  // ---- the summary is a function of the set of events ----

  lemma DetailUnique(u: set<Event>, asOf: int, inactivityMs: Option<int>, d: Detail, d': Detail)
    requires Consistent(u) && DetailOk(u, asOf, inactivityMs, d) && DetailOk(u, asOf, inactivityMs, d') && d.sessionId == d'.sessionId
    ensures d == d'
  {
    var s := d.sessionId;
    StartUnique(u, d, d');
    LastActivityUnique(u, s, d.startedAt, d.lastActivityAt, d'.lastActivityAt);
    LastStateUnique(u, s, d.lastState, d'.lastState);
    ClosingUnique(u, s, d.closing, d'.closing);
    OutcomeUnique(u, s, asOf, inactivityMs, d, d');
  }

  lemma OutcomeUnique(u: set<Event>, s: Id, asOf: int, inactivityMs: Option<int>, d: Detail, d': Detail)
    requires d.lastActivityAt == d'.lastActivityAt
    requires OutcomeOk(u, s, asOf, inactivityMs, d.lastActivityAt, d.outcome, d.basis)
    requires OutcomeOk(u, s, asOf, inactivityMs, d'.lastActivityAt, d'.outcome, d'.basis)
    ensures d.outcome == d'.outcome && d.basis == d'.basis
  {
  }

  lemma StartUnique(u: set<Event>, d: Detail, d': Detail)
    requires Consistent(u) && d.sessionId == d'.sessionId
    requires exists e :: e in u && e.body == Body(d.startedAt, d.sessionId, d.flowVersion, SessionStart)
    requires exists e :: e in u && e.body == Body(d'.startedAt, d'.sessionId, d'.flowVersion, SessionStart)
    ensures d.startedAt == d'.startedAt && d.flowVersion == d'.flowVersion
  {
    var a :| a in u && a.body == Body(d.startedAt, d.sessionId, d.flowVersion, SessionStart);
    var b :| b in u && b.body == Body(d'.startedAt, d'.sessionId, d'.flowVersion, SessionStart);
    assert Compatible(a, b);
  }

  lemma LastActivityUnique(u: set<Event>, s: Id, startedAt: int, last: int, last': int)
    requires IsLastActivity(u, s, startedAt, last) && IsLastActivity(u, s, startedAt, last')
    ensures last == last'
  {
  }

  lemma LastStateUnique(u: set<Event>, s: Id, state: Option<string>, state': Option<string>)
    requires Consistent(u) && IsLastState(u, s, state) && IsLastState(u, s, state')
    ensures state == state'
  {
    if exists e :: e in u && e.body.sessionId == s && e.body.fact.Turn? {
      var a :| a in u && LastTurn(u, s, a) && state == ExitState(a.body.fact);
      var b :| b in u && LastTurn(u, s, b) && state' == ExitState(b.body.fact);
      assert Compatible(a, b);
    }
  }

  lemma ClosingUnique(u: set<Event>, s: Id, c: Closing, c': Closing)
    requires ClosingOk(u, s, c) && ClosingOk(u, s, c')
    ensures c == c'
  {
    if c.ProviderSays? && c'.ProviderSays? {
      assert c.status in Statuses(u, s);
    }
  }

  /** Two lists in strict order of identifier with the same identifiers, and details determined by them, are one list. */
  lemma {:induction false} DetailsUnique(u: set<Event>, asOf: int, inactivityMs: Option<int>, a: seq<Detail>, b: seq<Detail>)
    requires Consistent(u) && InOrder(a) && InOrder(b) && IdsOf(a) == IdsOf(b)
    requires forall d <- a :: DetailOk(u, asOf, inactivityMs, d)
    requires forall d <- b :: DetailOk(u, asOf, inactivityMs, d)
    ensures a == b
  {
    assert b != [] ==> b[0].sessionId in IdsOf(b);
    if a != [] {
      FirstIds(a, b);
      DetailUnique(u, asOf, inactivityMs, a[0], b[0]);
      TailIds(a);
      TailIds(b);
      DetailsUnique(u, asOf, inactivityMs, a[1..], b[1..]);
    }
  }

  lemma FirstIds(a: seq<Detail>, b: seq<Detail>)
    requires InOrder(a) && InOrder(b) && IdsOf(a) == IdsOf(b) && a != []
    ensures b != [] && a[0].sessionId == b[0].sessionId
  {
    assert a[0].sessionId in IdsOf(a);
    var d :| d in b && d.sessionId == a[0].sessionId;
    assert b[0].sessionId in IdsOf(b);
    var c :| c in a && c.sessionId == b[0].sessionId;
  }

  lemma TailIds(a: seq<Detail>)
    requires a != [] && InOrder(a)
    ensures IdsOf(a[1..]) == IdsOf(a) - {a[0].sessionId}
  {
    forall id: Id | id in IdsOf(a) && id != a[0].sessionId
      ensures id in IdsOf(a[1..])
    {
      var d :| d in a && d.sessionId == id;
      assert d in a[1..];
    }
  }

  lemma RequestsUnique(u: set<Event>, r: Summary, r': Summary)
    requires RequestsOk(u, r) && RequestsOk(u, r')
    ensures r.requests == r'.requests && r.requestOutcomes == r'.requestOutcomes
  {
  }

  lemma TurnsUnique(u: set<Event>, r: Summary, r': Summary)
    requires TurnsOk(u, r) && TurnsOk(u, r')
    ensures r.turns == r'.turns && r.turnOutcomes == r'.turnOutcomes && r.turnErrors == r'.turnErrors && r.validationRetries == r'.validationRetries
  {
  }

  lemma SessionsUnique(u: set<Event>, asOf: int, inactivityMs: Option<int>, r: Summary, r': Summary)
    requires Consistent(u) && SessionsOk(u, asOf, inactivityMs, r) && SessionsOk(u, asOf, inactivityMs, r')
    ensures r.details == r'.details && r.sessionOutcomes == r'.sessionOutcomes
  {
    DetailsUnique(u, asOf, inactivityMs, r.details, r'.details);
    assert r.details == r'.details;
    hide DetailOk, InOrder, IdsOf, Consistent;
    assert forall o <- SESSION_OUTCOMES :: r.sessionOutcomes[o] == r'.sessionOutcomes[o];
  }

  lemma BusinessUnique(u: set<Event>, r: Summary, r': Summary)
    requires BusinessOk(u, r) && BusinessOk(u, r')
    ensures r.business == r'.business && r.businessOutcomes == r'.businessOutcomes
  {
  }

  lemma SummaryUnique(all: set<Event>, duplicates: nat, asOf: int, inactivityMs: Option<int>, r: Summary, r': Summary)
    requires Consistent(Included(all, asOf))
    requires SummaryOk(all, duplicates, asOf, inactivityMs, r) && SummaryOk(all, duplicates, asOf, inactivityMs, r')
    ensures r == r'
  {
    var u := Included(all, asOf);
    RequestsUnique(u, r, r');
    TurnsUnique(u, r, r');
    SessionsUnique(u, asOf, inactivityMs, r, r');
    BusinessUnique(u, r, r');
  }
}
