/**
  The turn protocol of one session key as a transition system: the store's slot and clock, and any
  number of requests that read, claim, prepare or recover, and commit, interleaved in any order.
  A request may stall or be abandoned between any two steps. The clock only moves forward; a key may
  lapse at any time except while some request stands between its read and its claim. The event record
  lapses after its retention, independently of the key.
 */
module TurnProtocol {
  import opened Wrappers
  import opened TurnTypes
  import opened TurnStoreSpec
  import opened TurnGateway

  /**
    Where a request stands. A request draws one fresh token, so the token is the request's own number.
    `life` is the record lifetime in which a claim was won, and `deadlineAt` the deadline the claim asked for.
   */
  datatype Stage =
    | Ready
    | Seen(seen: Observation)
    | Admitted(base: Ledger, pending: Pending, replace: Option<Token>, session: Option<Session>)
    | Outbid
    | Owner(life: nat, base: Ledger, pending: Pending, session: Option<Session>, deadlineAt: nat)
    | Working(life: nat, base: Ledger, pending: Pending, session: Option<Session>, deadlineAt: nat)
    | Prepared(life: nat, base: Ledger, pending: Pending, session: Option<Session>, deadlineAt: nat, response: Response, after: Session)
    | Done(life: nat, response: Response)
    | Answered
    | Abandoned

  datatype Request = Request(turn: Turn, recovering: bool, stage: Stage)

  /** One installed revision: its receipt, who installed it, and the snapshot the turn started from. */
  datatype Entry = Entry(receipt: Receipt, token: Token, kind: Kind, before: Option<Session>)

  /** One lifetime of the store's record, with the binding its first claim fixed. */
  datatype Life = Life(binding: Option<Binding>, entries: seq<Entry>)

  datatype Win = Win(life: nat, revision: nat, token: Token)
  datatype Answer = Answer(life: nat, turn: Turn, response: Response)

  /**
    The source keeps the slot, the clock, the event record (`event` is when it lapses) and the requests;
    `lives`, `wins` (granted normal claims), `starts` (calls of prepareTurn) and `answers` are history.
   */
  datatype System = System(slot: Slot, now: int, event: Option<int>, requests: map<Token, Request>,
                           lives: seq<Life>, wins: seq<Win>, starts: seq<Win>, answers: seq<Answer>)

  const INITIAL := System(ABSENT, 0, None, map[], [Life(None, [])], [], [], [])

  datatype Step =
    | Arrive(id: Token, turn: Turn, recovering: bool)
    | Tick(now: int)
    | ReadStore(id: Token)
    | Decide(id: Token)
    | TryClaim(id: Token, ttl: nat, leaseMs: nat, deadlineAt: nat)
    | ReadAgain(id: Token)
    | Begin(id: Token)
    | Finish(id: Token, response: Response, after: Session)
    | Install(id: Token, commitTtl: nat, activeMs: nat)
    | Reply(id: Token)
    | Abandon(id: Token)
    | AcceptEnd(binding: Binding, retentionMs: nat)

  function Lapses(s: System, now: int): bool {
    s.slot.expiresAt.Some? && s.slot.expiresAt.value <= now
  }

  predicate Enabled(cfg: Config, s: System, step: Step) {
    match step
    case Arrive(id, turn, recovering) => id !in s.requests && turn.sessionKey == cfg.key
    case Tick(now) =>
      && s.now <= now
      && (Lapses(s, now) ==> forall id <- s.requests :: !s.requests[id].stage.Seen? && !s.requests[id].stage.Admitted?)
    case AcceptEnd(binding, retentionMs) => retentionMs >= 1000 && (s.slot.ledger.Some? ==> s.slot.ledger.value.binding == binding)
    case ReadStore(id) => id in s.requests && s.requests[id].stage.Ready?
    case Decide(id) => id in s.requests && s.requests[id].stage.Seen?
    case TryClaim(id, ttl, leaseMs, deadlineAt) =>
      && id in s.requests && s.requests[id].stage.Admitted?
      && ValidClaim(s.requests[id].stage.base.revision, Pended(s.requests[id].stage), ttl, Some(leaseMs), Some(deadlineAt))
    case ReadAgain(id) => id in s.requests && s.requests[id].stage.Outbid?
    case Begin(id) => id in s.requests && s.requests[id].stage.Owner?
    case Finish(id, response, after) => id in s.requests && s.requests[id].stage.Working? && Formatted(response)
    case Install(id, ttl, activeMs) =>
      && id in s.requests && s.requests[id].stage.Prepared?
      && 1 <= ttl <= 2147483647 && 1 <= activeMs <= ttl * 1000
    case Reply(id) => id in s.requests && s.requests[id].stage.Done?
    case Abandon(id) => id in s.requests
  }

  function Pended(stage: Stage): Ledger
    requires stage.Admitted?
  {
    stage.base.(pending := Some(stage.pending))
  }

  /** The index of the current lifetime. */
  function Now(s: System): nat
    requires |s.lives| > 0
  {
    |s.lives| - 1
  }

  function At(s: System, id: Token, stage: Stage): System
    requires id in s.requests
  {
    s.(requests := s.requests[id := s.requests[id].(stage := stage)])
  }

  function Settle(s: System, id: Token, verdict: Verdict): System
    requires id in s.requests && |s.lives| > 0
  {
    match verdict
    case Replay(response) => At(s, id, Answered).(answers := s.answers + [Answer(Now(s), s.requests[id].turn, response)])
    case Reject(_) => At(s, id, Abandoned)
    case Proceed(base, pending, replace, session) => At(s, id, Admitted(base, pending, replace, session))
  }

  function Apply(cfg: Config, s: System, step: Step): (s': System)
    requires |s.lives| > 0 && Enabled(cfg, s, step)
    ensures |s.lives| <= |s'.lives|
  {
    match step
    case Arrive(id, turn, recovering) => s.(requests := s.requests[id := Request(turn, recovering, Ready)])
    case Tick(now) =>
      var s' := s.(now := now, event := if s.event.Some? && s.event.value <= now then None else s.event);
      if Lapses(s, now) then s'.(slot := Live(s.slot, now), lives := s.lives + [Life(None, [])]) else s'
    case ReadStore(id) => At(s, id, Seen(Read(s.slot, s.now)))
    case Decide(id) =>
      var r := s.requests[id];
      Settle(s, id, Admit(cfg, r.turn, r.recovering, r.stage.seen, s.event.Some?, id))
    case TryClaim(id, ttl, leaseMs, deadlineAt) => ApplyClaim(s, id, ttl, leaseMs, deadlineAt)
    case ReadAgain(id) => Settle(s, id, AfterLostClaim(cfg, s.requests[id].turn, Read(s.slot, s.now)))
    case Begin(id) =>
      var o := s.requests[id].stage;
      var s' := At(s, id, Working(o.life, o.base, o.pending, o.session, o.deadlineAt));
      if o.pending.kind == Normal then s'.(starts := s.starts + [Win(o.life, o.base.revision, id)]) else s'
    case Finish(id, response, after) =>
      var w := s.requests[id].stage;
      At(s, id, Prepared(w.life, w.base, w.pending, w.session, w.deadlineAt, response, after))
    case Install(id, ttl, activeMs) => ApplyInstall(s, id, ttl, activeMs)
    case Reply(id) =>
      var d := s.requests[id].stage;
      At(s, id, Answered).(answers := s.answers + [Answer(d.life, s.requests[id].turn, d.response)])
    case Abandon(id) => At(s, id, Abandoned)
    case AcceptEnd(binding, retentionMs) => ApplyEnd(s, retentionMs)
  }

  function ApplyClaim(s: System, id: Token, ttl: nat, leaseMs: nat, deadlineAt: nat): System
    requires |s.lives| > 0 && id in s.requests && s.requests[id].stage.Admitted?
  {
    var a := s.requests[id].stage;
    if CanClaim(s.slot, s.now, a.base.revision, a.replace, Some(deadlineAt)) then
      var s' := At(s, id, Owner(Now(s), a.base, a.pending, a.session, deadlineAt)).(
        slot := Claim(s.slot, s.now, Pended(a), ttl, Some(leaseMs), Some(deadlineAt)),
        lives := s.lives[Now(s) := s.lives[Now(s)].(binding := Some(a.base.binding))]);
      if a.replace.None? then s'.(wins := s.wins + [Win(Now(s), a.base.revision, id)]) else s'
    else At(s, id, Outbid)
  }

  function ApplyInstall(s: System, id: Token, ttl: nat, activeMs: nat): System
    requires |s.lives| > 0 && id in s.requests && s.requests[id].stage.Prepared?
  {
    var p := s.requests[id].stage;
    var ledger := Committed(p.base, s.requests[id].turn, p.response);
    if CanCommit(s.slot, s.now, p.base.revision, id) then
      var entry := Entry(Receipt(s.requests[id].turn.Identity(), s.requests[id].turn.Position(), p.response), id, p.pending.kind, p.session);
      At(s, id, Done(Now(s), p.response)).(
        slot := Commit(s.slot, s.now, ledger, p.after, ttl, activeMs),
        lives := s.lives[Now(s) := s.lives[Now(s)].(entries := s.lives[Now(s)].entries + [entry])])
    else At(s, id, Abandoned)
  }

  /** ACCEPT: the end event is stored for its retention and the key is marked closed, in one step. */
  function ApplyEnd(s: System, retentionMs: nat): System {
    s.(slot := Close(s.slot, s.now, retentionMs), event := Some(s.now + retentionMs))
  }

  /** A run: every step is enabled where it is taken. */
  ghost predicate Legal(cfg: Config, s: System, steps: seq<Step>)
    requires |s.lives| > 0
    decreases |steps|
  {
    steps == [] || (Enabled(cfg, s, steps[0]) && Legal(cfg, Apply(cfg, s, steps[0]), steps[1..]))
  }

  ghost function Run(cfg: Config, s: System, steps: seq<Step>): (s': System)
    requires |s.lives| > 0 && Legal(cfg, s, steps)
    ensures |s.lives| <= |s'.lives|
    decreases |steps|
  {
    if steps == [] then s else Run(cfg, Apply(cfg, s, steps[0]), steps[1..])
  }
}
