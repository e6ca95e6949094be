/**
  What aggregation means in terms of the evidence alone (lib/MetricEvents.js:98-197): which batches it refuses, when a
  session counts as completed, cancelled, expired, abandoned, unknown or open, and how errors add up to outcomes.
 */
module MetricOutcomes {
  import opened Wrappers
  import opened MetricEvents
  import opened MetricAggregate
  import opened MetricGroups
  import opened Tally

  // ---- refusals ----

  ghost predicate OutOfRange(n: int) { n < 0 || n > 2147483647 }

  ghost predicate HasFailed(f: Fact) {
    (f.Request? && f.requestOutcome == RequestError) || (f.Turn? && (f.outcome == TurnError || f.outcome == ValidationError))
  }

  ghost predicate HasErrorClass(f: Fact) { (f.Request? && f.requestError.Some?) || (f.Turn? && f.errorClass.Some?) }

  /** A number out of range, an error class without an error or the reverse, or a validation error of another class. */
  ghost predicate IllFormed(f: Fact) {
    || (f.Request? && OutOfRange(f.requestMs))
    || (f.Turn? && (OutOfRange(f.position) || OutOfRange(f.durationMs)))
    || ((f.Request? || f.Turn?) && (HasFailed(f) <==> !HasErrorClass(f)))
    || (f.Turn? && f.outcome == ValidationError && f.errorClass != Some(Validation))
  }

  ghost predicate SameTurn(f: Fact, g: Fact) { f.Turn? && g.Turn? && f.turnId == g.turnId }

  /** Two reports of one operation that differ, or two turns of a session out of order, or evidence before its session's start. */
  ghost predicate Contradict(a: Event, b: Event) {
    var f, g := a.body.fact, b.body.fact;
    var together := a.body.sessionId == b.body.sessionId;
    || (f.Request? && g.Request? && f.requestId == g.requestId && a.body != b.body)
    || (SameTurn(f, g) && a.body != b.body)
    || (f.Business? && g.Business? && f.businessId == g.businessId && !(together && a.body.flowVersion == b.body.flowVersion))
    || (f.Turn? && g.Turn? && together && f.position == g.position && f.turnId != g.turnId)
    || (f.Turn? && g.Turn? && together && f.position < g.position && b.body.at < a.body.at)
    || (f.SessionStart? && together && b.body.at < a.body.at)
    || (f.SessionStart? && g.SessionStart? && together && (a.body.at != b.body.at || a.body.flowVersion != b.body.flowVersion))
  }

  /** The batch holds two events that contradict each other and are not in the future. */
  ghost predicate Contradictory(sources: seq<Event>, asOf: int) {
    exists a, b :: a in sources && b in sources && a.body.at <= asOf && b.body.at <= asOf && Contradict(a, b)
  }

  ghost predicate SharesIdentity(sources: seq<Event>) {
    exists a, b :: a in sources && b in sources && a.eventId == b.eventId && a != b
  }

  lemma CompatibleIs(a: Event, b: Event)
    requires a.eventId == b.eventId ==> a == b
    ensures Compatible(a, b) && Compatible(b, a) <==> !Contradict(a, b) && !Contradict(b, a)
  {
  }

  lemma WellFormedIs(e: Event)
    ensures ValidEvent(e) <==> !IllFormed(e.body.fact)
  {
  }

  lemma ConsistencyIs(sources: seq<Event>, asOf: int)
    requires Identified(sources)
    ensures Consistent(Included(SetOf(sources), asOf)) <==> !Contradictory(sources, asOf)
  {
    var u := Included(SetOf(sources), asOf);
    if Contradictory(sources, asOf) {
      var a, b :| a in sources && b in sources && a.body.at <= asOf && b.body.at <= asOf && Contradict(a, b);
      assert a in u && b in u;
      CompatibleIs(a, b);
    } else {
      forall a, b | a in u && b in u
        ensures Compatible(a, b)
      {
        assert !Contradict(a, b) && !Contradict(b, a);
        CompatibleIs(a, b);
      }
    }
  }

  /**
    Aggregation refuses a batch exactly for one of these: an inactivity period that is not positive, too many events,
    an ill-formed event, two events under one identity, or contradictory evidence up to the time of reckoning.
   */
  lemma RefusedExactly(sources: seq<Event>, asOf: int, inactivityMs: Option<int>, r: Option<Summary>)
    requires Answers(sources, asOf, inactivityMs, r)
    ensures r.None? <==>
      || (inactivityMs.Some? && (inactivityMs.value == 0 || OutOfRange(inactivityMs.value)))
      || |sources| > 100000
      || (exists e <- sources :: IllFormed(e.body.fact))
      || SharesIdentity(sources)
      || Contradictory(sources, asOf)
  {
    hide Consistent, SummaryOk, ValidEvent, IllFormed, Contradictory, Included, SetOf;
    assert Identified(sources) <==> !SharesIdentity(sources);
    forall e <- sources
      ensures ValidEvent(e) <==> !IllFormed(e.body.fact)
    {
      WellFormedIs(e);
    }
    if Identified(sources) { ConsistencyIs(sources, asOf); }
  }

  // ---- where a session was last ----

  /** No turn of the session is at a later position. */
  ghost predicate IsFinal(u: set<Event>, s: Id, t: Event) {
    && t in u && t.body.sessionId == s && t.body.fact.Turn?
    && forall x | x in u && x.body.sessionId == s && x.body.fact.Turn? :: x.body.fact.position <= t.body.fact.position
  }

  lemma FinalState(u: set<Event>, s: Id, state: Option<string>, t: Event)
    requires Consistent(u) && IsLastState(u, s, state) && IsFinal(u, s, t)
    ensures state == if t.body.fact.nextState.Some? then t.body.fact.nextState else t.body.fact.previousState
  {
    var e :| e in u && LastTurn(u, s, e) && state == ExitState(e.body.fact);
    assert Compatible(e, t);
    hide Consistent, IsLastState;
    assert e.body.fact.position == t.body.fact.position;
  }

  /** A session was last where its final turn led, or stayed if that led nowhere; without turns it was nowhere. */
  lemma LastStateIsEvidence(u: set<Event>, asOf: int, inactivityMs: Option<int>, d: Detail, t: Event)
    requires Consistent(u) && DetailOk(u, asOf, inactivityMs, d)
    ensures IsFinal(u, d.sessionId, t) ==>
      d.lastState == if t.body.fact.nextState.Some? then t.body.fact.nextState else t.body.fact.previousState
    ensures (forall x <- u :: x.body.sessionId == d.sessionId ==> !x.body.fact.Turn?) ==> d.lastState == None
  {
    hide Consistent, IsFinal, ClosingOk, OutcomeOk, IsLastActivity;
    if IsFinal(u, d.sessionId, t) { FinalState(u, d.sessionId, d.lastState, t); }
  }

  // ---- session outcomes ----

  /** Some ending of the session states this reason. */
  ghost predicate States(u: set<Event>, s: Id, reason: EndOutcome) {
    exists e :: e in u && e.body.sessionId == s && e.body.fact == SessionEnd(reason)
  }

  /** It is the only reason stated; an ending without a reason states none. */
  ghost predicate OnlyStates(u: set<Event>, s: Id, reason: EndOutcome) {
    forall r | r in {EndCompleted, EndCancelled, EndExpired} :: States(u, s, r) <==> r == reason
  }

  /** The session or the provider reported some end. */
  ghost predicate HasClosure(u: set<Event>, s: Id) {
    exists e :: e in u && e.body.sessionId == s && (e.body.fact.SessionEnd? || e.body.fact.ProviderEnd?)
  }

  /** Neither its start nor any of its turns is more recent than the period. */
  ghost predicate Quiet(u: set<Event>, s: Id, asOf: int, period: int) {
    forall e | e in u && e.body.sessionId == s && (e.body.fact.SessionStart? || e.body.fact.Turn?) :: asOf - e.body.at >= period
  }

  ghost predicate GoneQuiet(u: set<Event>, s: Id, asOf: int, inactivityMs: Option<int>) {
    inactivityMs.Some? && Quiet(u, s, asOf, inactivityMs.value)
  }

  /** What a session's outcome says about its evidence. */
  ghost predicate Came(u: set<Event>, s: Id, asOf: int, inactivityMs: Option<int>, outcome: SessionOutcome) {
    match outcome
    case Completed => OnlyStates(u, s, EndCompleted)
    case Cancelled => OnlyStates(u, s, EndCancelled)
    case Expired => OnlyStates(u, s, EndExpired)
    case Abandoned => !HasClosure(u, s) && GoneQuiet(u, s, asOf, inactivityMs)
    case Open => !HasClosure(u, s) && !GoneQuiet(u, s, asOf, inactivityMs)
    case Unknown => HasClosure(u, s) && !OnlyStates(u, s, EndCompleted) && !OnlyStates(u, s, EndCancelled) && !OnlyStates(u, s, EndExpired)
  }

  lemma ReasonsAre(u: set<Event>, s: Id, reason: EndOutcome)
    ensures reason in Reasons(u, s) <==> reason != EndUnknown && States(u, s, reason)
  {
    if reason in Reasons(u, s) {
      var e :| e in u && e.body.sessionId == s && e.body.fact.SessionEnd? && e.body.fact.ended != EndUnknown && e.body.fact.ended == reason;
      assert e.body.fact == SessionEnd(reason);
    }
  }

  lemma LastIsQuiet(u: set<Event>, d: Detail, asOf: int, period: int)
    requires Consistent(u) && IsLastActivity(u, d.sessionId, d.startedAt, d.lastActivityAt)
    requires exists e :: e in u && e.body == Body(d.startedAt, d.sessionId, d.flowVersion, SessionStart)
    ensures asOf - d.lastActivityAt >= period <==> Quiet(u, d.sessionId, asOf, period)
  {
    var start :| start in u && start.body == Body(d.startedAt, d.sessionId, d.flowVersion, SessionStart);
    forall e | e in u && e.body.sessionId == d.sessionId && e.body.fact.SessionStart?
      ensures e.body.at == d.startedAt
    {
      assert Compatible(start, e);
    }
  }

  lemma ClosureIs(u: set<Event>, s: Id)
    ensures Ended(u, s) <==> HasClosure(u, s)
    ensures forall r | r in {EndCompleted, EndCancelled, EndExpired} :: States(u, s, r) ==> HasClosure(u, s)
  {
  }

  /** Each detail's outcome is the one that the session's evidence amounts to, and no other. */
  lemma OutcomeIsEvidence(u: set<Event>, asOf: int, inactivityMs: Option<int>, d: Detail, outcome: SessionOutcome)
    requires Consistent(u) && DetailOk(u, asOf, inactivityMs, d)
    ensures d.outcome == outcome <==> Came(u, d.sessionId, asOf, inactivityMs, outcome)
  {
    var s := d.sessionId;
    ClosureIs(u, s);
    if inactivityMs.Some? { LastIsQuiet(u, d, asOf, inactivityMs.value); }
    assert OutcomeOk(u, s, asOf, inactivityMs, d.lastActivityAt, d.outcome, d.basis);
    OnlyIs(u, s, EndCompleted);
    OnlyIs(u, s, EndCancelled);
    OnlyIs(u, s, EndExpired);
    ReasonsAtMost(u, s);
    hide Reasons, States, OnlyStates, Consistent, IsLastActivity, IsLastState, ClosingOk, HasClosure, Quiet, DetailOk, Ended, ProviderDisputed;
  }

  /** One reason is the only one stated when it is the only one listed. */
  lemma OnlyIs(u: set<Event>, s: Id, reason: EndOutcome)
    requires reason != EndUnknown
    ensures OnlyStates(u, s, reason) <==> Reasons(u, s) == {reason}
    ensures reason in Reasons(u, s) ==> HasClosure(u, s)
  {
    ReasonsByName(u, s);
    assert reason in {EndCompleted, EndCancelled, EndExpired};
    hide Reasons, States;
    if OnlyStates(u, s, reason) {
      forall r: EndOutcome
        ensures r in Reasons(u, s) <==> r == reason
      {
      }
    }
    if reason in Reasons(u, s) { ClosureIs(u, s); }
  }

  lemma ReasonsAtMost(u: set<Event>, s: Id)
    ensures forall r <- Reasons(u, s) :: r in {EndCompleted, EndCancelled, EndExpired}
    ensures SeveralReasons(u, s) || Reasons(u, s) in {{}, {EndCompleted}, {EndCancelled}, {EndExpired}}
    ensures SeveralReasons(u, s) ==> Reasons(u, s) !in {{}, {EndCompleted}, {EndCancelled}, {EndExpired}}
  {
    ReasonsByName(u, s);
    hide Reasons, States;
    if Reasons(u, s) != {} && !SeveralReasons(u, s) {
      var r :| r in Reasons(u, s);
      assert Reasons(u, s) == {r};
    }
  }

  lemma ReasonsByName(u: set<Event>, s: Id)
    ensures forall r: EndOutcome :: r in Reasons(u, s) <==> r in {EndCompleted, EndCancelled, EndExpired} && States(u, s, r)
  {
    forall r: EndOutcome
      ensures r in Reasons(u, s) <==> r in {EndCompleted, EndCancelled, EndExpired} && States(u, s, r)
    {
      ReasonsAre(u, s, r);
    }
  }

  ghost function SessionsThat(u: set<Event>, asOf: int, inactivityMs: Option<int>, outcome: SessionOutcome): set<Id> {
    set s | s in Started(u) && Came(u, s, asOf, inactivityMs, outcome)
  }

  lemma DetailsAreSessions(u: set<Event>, asOf: int, inactivityMs: Option<int>, r: Summary, outcome: SessionOutcome)
    requires Consistent(u) && SessionsOk(u, asOf, inactivityMs, r)
    ensures (set d | d in r.details && d.outcome == outcome :: d.sessionId) == SessionsThat(u, asOf, inactivityMs, outcome)
  {
    hide Came, DetailOk, Consistent;
    var left := set d | d in r.details && d.outcome == outcome :: d.sessionId;
    forall s: Id
      ensures s in left <==> s in SessionsThat(u, asOf, inactivityMs, outcome)
    {
      if s in left {
        var d :| d in r.details && d.outcome == outcome && d.sessionId == s;
        OutcomeIsEvidence(u, asOf, inactivityMs, d, outcome);
        assert s in IdsOf(r.details);
      }
      if s in SessionsThat(u, asOf, inactivityMs, outcome) {
        assert s in IdsOf(r.details);
        var d :| d in r.details && d.sessionId == s;
        OutcomeIsEvidence(u, asOf, inactivityMs, d, outcome);
      }
    }
  }

  lemma AnswersMean(sources: seq<Event>, asOf: int, inactivityMs: Option<int>, r: Summary)
    requires Answers(sources, asOf, inactivityMs, Some(r))
    ensures var u := Included(SetOf(sources), asOf);
      Consistent(u) && SessionsOk(u, asOf, inactivityMs, r) && TurnsOk(u, r) && forall e <- u :: ValidEvent(e)
  {
    hide Consistent, DetailOk, SessionsOk, TurnsOk, RequestsOk, BusinessOk;
  }

  lemma {:induction false} IdsCountDetails(ds: set<Detail>)
    requires forall a, b | a in ds && b in ds :: a.sessionId == b.sessionId ==> a == b
    ensures |ds| == |set d | d in ds :: d.sessionId|
  {
    if ds != {} {
      var x :| x in ds;
      var rest := ds - {x};
      IdsCountDetails(rest);
      assert (set d | d in ds :: d.sessionId) == (set d | d in rest :: d.sessionId) + {x.sessionId};
    }
  }

  /**
    The counts of an aggregation, on the evidence alone: a session counts as completed if and only if completion is
    the one reason stated for it, and so on; every started session counts once.
   */
  lemma SessionsCounted(sources: seq<Event>, asOf: int, inactivityMs: Option<int>, r: Summary, outcome: SessionOutcome)
    requires Answers(sources, asOf, inactivityMs, Some(r))
    ensures outcome in r.sessionOutcomes
    ensures r.sessionOutcomes[outcome] == |SessionsThat(Included(SetOf(sources), asOf), asOf, inactivityMs, outcome)|
  {
    hide SessionsThat, SessionsOk, Consistent, Answers, TurnsOk;
    AnswersMean(sources, asOf, inactivityMs, r);
    OutcomeCounted(Included(SetOf(sources), asOf), asOf, inactivityMs, r, outcome);
  }

  lemma OutcomeCounted(u: set<Event>, asOf: int, inactivityMs: Option<int>, r: Summary, outcome: SessionOutcome)
    requires Consistent(u) && SessionsOk(u, asOf, inactivityMs, r)
    ensures outcome in r.sessionOutcomes && r.sessionOutcomes[outcome] == |SessionsThat(u, asOf, inactivityMs, outcome)|
  {
    assert outcome in SESSION_OUTCOMES by { assert outcome.Completed? || outcome.Cancelled? || outcome.Expired? || outcome.Abandoned? || outcome.Unknown? || outcome.Open?; }
    DetailsAreSessions(u, asOf, inactivityMs, r, outcome);
    assert InOrder(r.details) && r.sessionOutcomes[outcome] == |set d | d in r.details && d.outcome == outcome|;
    hide SessionsOk, SessionsThat, InOrder;
    SessionsAreDetails(r, outcome);
  }

  lemma SessionsAreDetails(r: Summary, outcome: SessionOutcome)
    requires InOrder(r.details)
    ensures |set d | d in r.details && d.outcome == outcome| == |set d | d in r.details && d.outcome == outcome :: d.sessionId|
  {
    var ds := set d | d in r.details && d.outcome == outcome;
    forall a, b | a in ds && b in ds && a.sessionId == b.sessionId
      ensures a == b
    {
      var i :| 0 <= i < |r.details| && r.details[i] == a;
      var j :| 0 <= j < |r.details| && r.details[j] == b;
    }
    IdsCountDetails(ds);
    assert (set d | d in ds :: d.sessionId) == (set d | d in r.details && d.outcome == outcome :: d.sessionId);
  }

  // ---- errors ----

  lemma FailedAreErrors(u: set<Event>, c: ErrorClass)
    requires forall e <- u :: ValidEvent(e)
    ensures TurnIdsFailed(u, c) <= TurnIdsWith(u, TurnError) + TurnIdsWith(u, ValidationError)
    ensures TurnIdsWith(u, ValidationError) <= TurnIdsFailed(u, Validation)
  {
    forall id <- TurnIdsFailed(u, c)
      ensures id in TurnIdsWith(u, TurnError) + TurnIdsWith(u, ValidationError)
    {
      var e :| e in u && e.body.fact.Turn? && e.body.fact.errorClass == Some(c) && e.body.fact.turnId == id;
      assert ValidEvent(e);
    }
    forall id <- TurnIdsWith(u, ValidationError)
      ensures id in TurnIdsFailed(u, Validation)
    {
      var e :| e in u && e.body.fact.Turn? && e.body.fact.outcome == ValidationError && e.body.fact.turnId == id;
      assert ValidEvent(e);
    }
  }

  /** Turns with one identifier have one body, so what one of them says all of them say. */
  lemma OneSaying(u: set<Event>, a: Event, b: Event)
    requires Consistent(u) && a in u && b in u && a.body.fact.Turn? && b.body.fact.Turn? && a.body.fact.turnId == b.body.fact.turnId
    ensures a.body == b.body
  {
    assert Compatible(a, b);
  }

  ghost function Failed(u: set<Event>): set<Id> { TurnIdsWith(u, TurnError) + TurnIdsWith(u, ValidationError) }

  lemma ClassesSplit(u: set<Event>, c: ErrorClass, d: ErrorClass)
    requires Consistent(u) && c != d
    ensures TurnIdsFailed(u, c) !! TurnIdsFailed(u, d)
  {
    if id :| id in TurnIdsFailed(u, c) && id in TurnIdsFailed(u, d) {
      var a :| a in u && a.body.fact.Turn? && a.body.fact.errorClass == Some(c) && a.body.fact.turnId == id;
      var b :| b in u && b.body.fact.Turn? && b.body.fact.errorClass == Some(d) && b.body.fact.turnId == id;
      OneSaying(u, a, b);
    }
  }

  lemma OutcomesSplit(u: set<Event>)
    requires Consistent(u)
    ensures TurnIdsWith(u, TurnError) !! TurnIdsWith(u, ValidationError)
  {
    if id :| id in TurnIdsWith(u, TurnError) && id in TurnIdsWith(u, ValidationError) {
      var a :| a in u && a.body.fact.Turn? && a.body.fact.outcome == TurnError && a.body.fact.turnId == id;
      var b :| b in u && b.body.fact.Turn? && b.body.fact.outcome == ValidationError && b.body.fact.turnId == id;
      OneSaying(u, a, b);
    }
  }

  lemma ClassesCover(u: set<Event>)
    requires Consistent(u) && forall e <- u :: ValidEvent(e)
    ensures Failed(u) == TurnIdsFailed(u, Validation) + TurnIdsFailed(u, Timeout) + TurnIdsFailed(u, Storage)
                         + TurnIdsFailed(u, Provider) + TurnIdsFailed(u, Handler) + TurnIdsFailed(u, OtherError)
  {
    FailedAreErrors(u, Validation);
    FailedAreErrors(u, Timeout);
    FailedAreErrors(u, Storage);
    FailedAreErrors(u, Provider);
    FailedAreErrors(u, Handler);
    FailedAreErrors(u, OtherError);
    forall id <- Failed(u)
      ensures exists c: ErrorClass :: id in TurnIdsFailed(u, c)
    {
      var e :| e in u && e.body.fact.Turn? && e.body.fact.outcome in {TurnError, ValidationError} && e.body.fact.turnId == id;
      assert ValidEvent(e);
      assert id in TurnIdsFailed(u, e.body.fact.errorClass.value);
    }
    forall id <- Failed(u)
      ensures id in TurnIdsFailed(u, Validation) + TurnIdsFailed(u, Timeout) + TurnIdsFailed(u, Storage)
                    + TurnIdsFailed(u, Provider) + TurnIdsFailed(u, Handler) + TurnIdsFailed(u, OtherError)
    {
      var c: ErrorClass :| id in TurnIdsFailed(u, c);
      assert c.Validation? || c.Timeout? || c.Storage? || c.Provider? || c.Handler? || c.OtherError?;
    }
  }

  /**
    Every failed turn has one error class: the classes add up to the errors and the validation errors, and the
    validation errors are all in the class of that name.
   */
  lemma ErrorsAreClassified(sources: seq<Event>, asOf: int, inactivityMs: Option<int>, r: Summary)
    requires Answers(sources, asOf, inactivityMs, Some(r))
    ensures r.turnErrors.Keys == ERROR_CLASSES && r.turnOutcomes.Keys == TURN_OUTCOMES
    ensures r.turnErrors[Validation] + r.turnErrors[Timeout] + r.turnErrors[Storage] + r.turnErrors[Provider]
            + r.turnErrors[Handler] + r.turnErrors[OtherError] == r.turnOutcomes[TurnError] + r.turnOutcomes[ValidationError]
    ensures r.turnErrors[Validation] >= r.turnOutcomes[ValidationError]
  {
    hide Consistent, Answers, ValidEvent, SessionsOk, Included;
    AnswersMean(sources, asOf, inactivityMs, r);
    ErrorsAdd(Included(SetOf(sources), asOf), r);
  }

  lemma ErrorsAdd(u: set<Event>, r: Summary)
    requires Consistent(u) && TurnsOk(u, r) && forall e <- u :: ValidEvent(e)
    ensures r.turnErrors[Validation] + r.turnErrors[Timeout] + r.turnErrors[Storage] + r.turnErrors[Provider]
            + r.turnErrors[Handler] + r.turnErrors[OtherError] == r.turnOutcomes[TurnError] + r.turnOutcomes[ValidationError]
    ensures r.turnErrors[Validation] >= r.turnOutcomes[ValidationError]
  {
    hide Consistent, ValidEvent, TurnIdsFailed, TurnIdsWith;
    ClassesCover(u);
    OutcomesSplit(u);
    FailedAreErrors(u, Validation);
    SubsetCard(TurnIdsWith(u, ValidationError), TurnIdsFailed(u, Validation));
    ClassesApart(u);
    SixParts(TurnIdsFailed(u, Validation), TurnIdsFailed(u, Timeout), TurnIdsFailed(u, Storage),
             TurnIdsFailed(u, Provider), TurnIdsFailed(u, Handler), TurnIdsFailed(u, OtherError));
  }

  lemma ClassesApart(u: set<Event>)
    requires Consistent(u)
    ensures TurnIdsFailed(u, Validation) !! TurnIdsFailed(u, Timeout) !! TurnIdsFailed(u, Storage)
            !! TurnIdsFailed(u, Provider) !! TurnIdsFailed(u, Handler) !! TurnIdsFailed(u, OtherError)
  {
    hide Consistent, TurnIdsFailed;
    forall c, d | c in ERROR_CLASSES && d in ERROR_CLASSES && c != d
      ensures TurnIdsFailed(u, c) !! TurnIdsFailed(u, d)
    {
      ClassesSplit(u, c, d);
    }
  }

  lemma SixParts(a: set<Id>, b: set<Id>, c: set<Id>, d: set<Id>, e: set<Id>, f: set<Id>)
    requires a !! b !! c !! d !! e !! f
    ensures |a + b + c + d + e + f| == |a| + |b| + |c| + |d| + |e| + |f|
  {
  }
}
