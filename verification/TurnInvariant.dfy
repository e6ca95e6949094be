/** The inductive invariant of the turn protocol, and the proof that every step keeps it. */
module TurnInvariant {
  import opened Wrappers
  import opened TurnTypes
  import opened TurnStoreSpec
  import opened TurnGateway
  import opened TurnProtocol

  ghost function ReceiptsOf(entries: seq<Entry>): seq<Receipt> {
    seq(|entries|, i requires 0 <= i < |entries| => entries[i].receipt)
  }

  /** The slot holds a well-formed ledger whose receipts are the current lifetime's entries. */
  ghost predicate StoreInv(cfg: Config, s: System) {
    && |s.lives| > 0
    && (s.slot.ledger.None? ==> s.slot.session.None? && s.lives[Now(s)] == Life(None, []))
    && (s.slot.ledger.Some? ==>
          var ledger := s.slot.ledger.value;
          && LedgerOk(cfg, ledger)
          && s.slot.expiresAt.Some?
          && ReceiptsOf(s.lives[Now(s)].entries) == ledger.receipts
          && s.lives[Now(s)].binding == Some(ledger.binding)
          && (ledger.pending.Some? ==>
                ledger.pending.value.token in s.requests && MayHold(s.requests[ledger.pending.value.token].stage)))
  }

  predicate Holds(stage: Stage) { stage.Owner? || stage.Working? || stage.Prepared? }
  predicate MayHold(stage: Stage) { Holds(stage) || stage.Abandoned? }
  predicate PastClaim(stage: Stage) { MayHold(stage) || stage.Done? || stage.Answered? }

  ghost predicate LifeOk(cfg: Config, life: Life) {
    && ChainOk(cfg, ReceiptsOf(life.entries))
    && |life.entries| <= cfg.maxTurns
    && (life.entries != [] ==> life.binding.Some?)
  }

  ghost predicate LivesInv(cfg: Config, s: System) {
    forall k | 0 <= k < |s.lives| :: LifeOk(cfg, s.lives[k])
  }

  /** A ledger read in this lifetime is a past or the present of the stored one. */
  ghost predicate Behind(base: Ledger, session: Option<Session>, s: System) {
    && s.slot.ledger.Some?
    && var current := s.slot.ledger.value;
    && base.revision <= current.revision
    && base.receipts <= current.receipts
    && base.binding == current.binding
    && (base.revision == current.revision ==> base == Core(current) && session == s.slot.session)
  }

  /** While the revision stands, a pending operation stays pending for the same request. */
  ghost predicate SameOperation(revision: nat, fingerprint: Fingerprint, s: System) {
    s.slot.ledger.Some? && s.slot.ledger.value.revision == revision ==>
      s.slot.ledger.value.pending.Some? && s.slot.ledger.value.pending.value.fingerprint == fingerprint
  }

  ghost predicate SeenOk(cfg: Config, s: System, seen: Observation) {
    seen.Found? ==>
      && LedgerOk(cfg, seen.ledger)
      && Behind(Core(seen.ledger), seen.session, s)
      && (seen.ledger.pending.Some? ==> SameOperation(seen.ledger.revision, seen.ledger.pending.value.fingerprint, s))
  }

  /** What an admitted or owning request carries. */
  ghost predicate Carries(cfg: Config, r: Request, id: Token, base: Ledger, pending: Pending) {
    && pending == Owning(r.turn, r.recovering, base.revision, id)
    && base == Core(base) && CoreOk(cfg, base) && Follows(cfg, base, r.turn.Identity())
    && base.binding == r.turn.binding
  }

  ghost predicate AdmittedOk(cfg: Config, s: System, id: Token, r: Request)
    requires r.stage.Admitted?
  {
    var a := r.stage;
    && Carries(cfg, r, id, a.base, a.pending)
    && (a.replace.Some? <==> r.recovering)
    && (if a.base.revision > 0 || r.recovering then Behind(a.base, a.session, s)
        else a.base == FreshLedger(r.turn.binding) && a.session.None?)
    && (r.recovering ==> SameOperation(a.base.revision, r.turn.Identity(), s))
  }

  /** An owner whose token is still the stored one carries exactly the stored ledger and snapshot, and is bound by the deadline it asked for. */
  ghost predicate HolderOk(cfg: Config, s: System, id: Token, r: Request, life: nat, base: Ledger, pending: Pending, session: Option<Session>, deadlineAt: nat) {
    && life < |s.lives|
    && Carries(cfg, r, id, base, pending)
    && (!r.recovering ==> Win(life, base.revision, id) in s.wins)
    && (s.slot.ledger.Some? && s.slot.ledger.value.pending.Some? && s.slot.ledger.value.pending.value.token == id ==>
          && life == Now(s)
          && Core(s.slot.ledger.value) == base
          && session == s.slot.session
          && s.slot.ledger.value.pending.value.(deadlineAt := None) == pending
          && s.slot.ledger.value.pending.value.deadlineAt.Some? && s.slot.ledger.value.pending.value.deadlineAt.value <= deadlineAt)
  }

  /** The response was installed for this request in that lifetime, under the caller's own binding. */
  ghost predicate Recorded(s: System, life: nat, turn: Turn, response: Response) {
    && life < |s.lives|
    && s.lives[life].binding == Some(turn.binding)
    && exists i :: 0 <= i < |s.lives[life].entries| && Records(s.lives[life].entries[i], turn, response)
  }

  predicate Records(entry: Entry, turn: Turn, response: Response) {
    entry.receipt.fingerprint == turn.Identity() && entry.receipt.response == response
  }

  ghost predicate RequestOk(cfg: Config, s: System, id: Token)
    requires id in s.requests && |s.lives| > 0
  {
    var r := s.requests[id];
    && r.turn.sessionKey == cfg.key
    && match r.stage
       case Seen(seen) => SeenOk(cfg, s, seen)
       case Admitted(_, _, _, _) => AdmittedOk(cfg, s, id, r)
       case Owner(life, base, pending, session, deadlineAt) => HolderOk(cfg, s, id, r, life, base, pending, session, deadlineAt)
       case Working(life, base, pending, session, deadlineAt) => HolderOk(cfg, s, id, r, life, base, pending, session, deadlineAt)
       case Prepared(life, base, pending, session, deadlineAt, response, _) =>
         HolderOk(cfg, s, id, r, life, base, pending, session, deadlineAt) && Formatted(response)
       case Done(life, response) => Recorded(s, life, r.turn, response)
       case _ => true
  }

  ghost predicate RequestsInv(cfg: Config, s: System)
    requires |s.lives| > 0
  {
    forall id <- s.requests :: RequestOk(cfg, s, id)
  }

  /** The revision a normal claim was granted for is pending or committed from then on. */
  ghost predicate Spent(s: System, win: Win)
    requires |s.lives| > 0
  {
    win.life <= Now(s)
    && (win.life == Now(s) ==>
          && s.slot.ledger.Some?
          && (s.slot.ledger.value.revision > win.revision
              || (s.slot.ledger.value.revision == win.revision && s.slot.ledger.value.pending.Some?)))
  }

  ghost predicate WinOk(s: System, win: Win)
    requires |s.lives| > 0
  {
    && Spent(s, win)
    && win.token in s.requests && PastClaim(s.requests[win.token].stage)
  }

  ghost predicate WinsInv(s: System)
    requires |s.lives| > 0
  {
    && (forall i | 0 <= i < |s.wins| :: WinOk(s, s.wins[i]))
    && (forall i, j | 0 <= i < j < |s.wins| :: s.wins[i].token != s.wins[j].token)
    && (forall i, j | 0 <= i < j < |s.wins| :: (s.wins[i].life, s.wins[i].revision) != (s.wins[j].life, s.wins[j].revision))
  }

  ghost predicate StartsInv(s: System) {
    && (forall i | 0 <= i < |s.starts| ::
          s.starts[i] in s.wins && s.starts[i].token in s.requests && PastClaim(s.requests[s.starts[i].token].stage)
          && !s.requests[s.starts[i].token].stage.Owner?)
    && (forall i, j | 0 <= i < j < |s.starts| :: s.starts[i].token != s.starts[j].token)
  }

  ghost predicate AnswersInv(s: System) {
    forall a <- s.answers :: Recorded(s, a.life, a.turn, a.response)
  }

  /** While an end event is on record, a gateway that consults it has no normal turn on its way to a key that is not closed itself. */
  ghost predicate EventInv(cfg: Config, s: System) {
    cfg.checksEvents && s.event.Some? && !s.slot.closed ==>
      forall id <- s.requests :: s.requests[id].stage.Admitted? ==> s.requests[id].recovering
  }

  ghost predicate Inv(cfg: Config, s: System) {
    && StoreInv(cfg, s)
    && LivesInv(cfg, s)
    && RequestsInv(cfg, s)
    && WinsInv(s)
    && StartsInv(s)
    && AnswersInv(s)
    && EventInv(cfg, s)
  }

  // ---- preservation ----

  /** How a step may move the store, as far as every request other than `id` can tell (NOBODY when no request moves). */
  const NOBODY := -1

  ghost predicate Moves(s: System, s': System, id: int)
    requires |s.lives| > 0
  {
    && |s.lives| <= |s'.lives|
    && (forall k | 0 <= k < |s.lives| :: LifeGrows(s.lives[k], s'.lives[k]))
    && (forall w <- s.wins :: w in s'.wins)
    && (|s.lives| == |s'.lives| ==> SlotMoves(s, s', id))
    && (|s.lives| < |s'.lives| ==> s'.slot.ledger.None? && forall j <- s.requests :: !s.requests[j].stage.Seen? && !s.requests[j].stage.Admitted?)
  }

  ghost predicate LifeGrows(before: Life, after: Life) {
    before.entries <= after.entries && (before.binding.Some? ==> after.binding == before.binding)
  }

  ghost predicate SlotMoves(s: System, s': System, id: int) {
    && (s.slot.ledger.Some? ==>
          && s'.slot.ledger.Some?
          && var (l, l') := (s.slot.ledger.value, s'.slot.ledger.value);
          && l.revision <= l'.revision && l.receipts <= l'.receipts && l.binding == l'.binding
          && (l.revision == l'.revision ==>
                && Core(l) == Core(l') && s.slot.session == s'.slot.session
                && (l.pending.Some? ==> l'.pending.Some? && l'.pending.value.fingerprint == l.pending.value.fingerprint)))
    && (s'.slot.ledger.Some? && s'.slot.ledger.value.pending.Some? && s'.slot.ledger.value.pending.value.token != id ==>
          s'.slot.ledger == s.slot.ledger && s'.slot.session == s.slot.session)
  }

  lemma RequestStable(cfg: Config, s: System, s': System, id: int, j: Token)
    requires Inv(cfg, s) && |s'.lives| > 0
    requires j in s.requests && j in s'.requests && s'.requests[j] == s.requests[j]
    requires Moves(s, s', id) && (j == id ==> s'.slot.ledger == s.slot.ledger && s'.slot.session == s.slot.session)
    ensures RequestOk(cfg, s', j)
  {
    hide LedgerOk, CoreOk, ChainOk, Follows, Recorded, LifeOk, StartsInv, AnswersInv;
    assert RequestOk(cfg, s, j);
    var r := s.requests[j];
    match r.stage
    case Done(life, response) => RecordedStable(s, s', life, r.turn, response);
    case _ =>
  }

  lemma RecordedStable(s: System, s': System, life: nat, turn: Turn, response: Response)
    requires |s.lives| <= |s'.lives|
    requires forall k | 0 <= k < |s.lives| :: LifeGrows(s.lives[k], s'.lives[k])
    requires Recorded(s, life, turn, response)
    ensures Recorded(s', life, turn, response)
  {
    assert LifeGrows(s.lives[life], s'.lives[life]);
    var i :| 0 <= i < |s.lives[life].entries| && Records(s.lives[life].entries[i], turn, response);
    assert s'.lives[life].entries[i] == s.lives[life].entries[i];
  }

  lemma AnswersStable(s: System, s': System)
    requires |s.lives| <= |s'.lives|
    requires forall k | 0 <= k < |s.lives| :: LifeGrows(s.lives[k], s'.lives[k])
    requires AnswersInv(s) && s'.answers == s.answers
    ensures AnswersInv(s')
  {
    forall a <- s'.answers
      ensures Recorded(s', a.life, a.turn, a.response)
    {
      RecordedStable(s, s', a.life, a.turn, a.response);
    }
  }

  /** A step that moves one request and leaves the store alone. */
  lemma LocalKeeps(cfg: Config, s: System, s': System, id: Token, r: Request)
    requires Inv(cfg, s)
    requires s' == s.(requests := s.requests[id := r], starts := s'.starts, answers := s'.answers)
    requires id in s.requests && PastClaim(s.requests[id].stage) ==> PastClaim(r.stage)
    requires id in s.requests && MayHold(s.requests[id].stage) ==> MayHold(r.stage)
    requires RequestOk(cfg, s', id)
    requires StartsInv(s') && AnswersInv(s')
    requires r.stage.Admitted? ==> r.recovering || !(cfg.checksEvents && s.event.Some?)
    ensures Inv(cfg, s')
  {
    forall j <- s'.requests
      ensures RequestOk(cfg, s', j)
    {
      if j != id {
        RequestStable(cfg, s, s', id, j);
      }
    }
    forall i | 0 <= i < |s'.wins|
      ensures WinOk(s', s'.wins[i])
    {
      assert WinOk(s, s.wins[i]);
    }
  }

  lemma StartsLocal(s: System, s': System, id: Token)
    requires StartsInv(s) && s'.starts == s.starts && s'.wins == s.wins
    requires s'.requests.Keys == s.requests.Keys + {id}
    requires forall j <- s.requests :: j != id ==> s'.requests[j] == s.requests[j]
    requires id in s.requests && PastClaim(s.requests[id].stage) && !s.requests[id].stage.Owner? ==>
      PastClaim(s'.requests[id].stage) && !s'.requests[id].stage.Owner?
    ensures StartsInv(s')
  {
  }

  /** Begin, Finish, Abandon and the arrival of a request: nobody else notices. */
  lemma QuietStepKeeps(cfg: Config, s: System, step: Step)
    requires Inv(cfg, s) && Enabled(cfg, s, step)
    requires step.Arrive? || step.ReadStore? || step.Finish? || step.Abandon?
    ensures Inv(cfg, Apply(cfg, s, step))
  {
    hide CoreOk, ChainOk, Follows, Recorded, LifeOk, WinOk;
    var s' := Apply(cfg, s, step);
    if step.id in s.requests {
      assert RequestOk(cfg, s, step.id);
    }
    StartsLocal(s, s', step.id);
    AnswersStable(s, s');
    LocalKeeps(cfg, s, s', step.id, s'.requests[step.id]);
  }

  /** An owner has not started before, and what it starts was won by its own claim. */
  lemma BeginStarts(cfg: Config, s: System, id: Token)
    requires |s.lives| > 0 && StartsInv(s) && Enabled(cfg, s, Begin(id))
    requires var o := s.requests[id].stage; o.pending.kind == Normal ==> Win(o.life, o.base.revision, id) in s.wins
    ensures StartsInv(Apply(cfg, s, Begin(id)))
  {
  }

  lemma BeginKeeps(cfg: Config, s: System, id: Token)
    requires Inv(cfg, s) && Enabled(cfg, s, Begin(id))
    ensures Inv(cfg, Apply(cfg, s, Begin(id)))
  {
    hide CoreOk, ChainOk, LedgerOk, Follows, Recorded, LifeOk, WinOk;
    var s' := Apply(cfg, s, Begin(id));
    assert RequestOk(cfg, s, id);
    AnswersStable(s, s');
    BeginStarts(cfg, s, id);
    LocalKeeps(cfg, s, s', id, s'.requests[id]);
  }

  lemma ReceiptIsRecorded(cfg: Config, s: System, turn: Turn, response: Response, i: nat)
    requires StoreInv(cfg, s) && s.slot.ledger.Some? && s.slot.ledger.value.binding == turn.binding
    requires i < |s.slot.ledger.value.receipts|
    requires s.slot.ledger.value.receipts[i].fingerprint == turn.Identity() && s.slot.ledger.value.receipts[i].response == response
    ensures Recorded(s, Now(s), turn, response)
  {
    var entries := s.lives[Now(s)].entries;
    assert ReceiptsOf(entries)[i] == entries[i].receipt;
    assert Records(entries[i], turn, response);
  }

  lemma AnswerKeeps(cfg: Config, s: System, s': System, id: Token, life: nat, response: Response)
    requires Inv(cfg, s) && id in s.requests && Recorded(s, life, s.requests[id].turn, response)
    requires s' == At(s, id, Answered).(answers := s.answers + [Answer(life, s.requests[id].turn, response)])
    requires !MayHold(s.requests[id].stage)
    ensures Inv(cfg, s')
  {
    assert RequestOk(cfg, s, id);
    StartsLocal(s, s', id);
    forall a <- s'.answers
      ensures Recorded(s', a.life, a.turn, a.response)
    {
      RecordedStable(s, s', a.life, a.turn, a.response);
    }
    LocalKeeps(cfg, s, s', id, s'.requests[id]);
  }

  lemma ReplyKeeps(cfg: Config, s: System, id: Token)
    requires Inv(cfg, s) && Enabled(cfg, s, Reply(id))
    ensures Inv(cfg, Apply(cfg, s, Reply(id)))
  {
    assert RequestOk(cfg, s, id);
    AnswerKeeps(cfg, s, Apply(cfg, s, Reply(id)), id, s.requests[id].stage.life, s.requests[id].stage.response);
  }

  lemma RejectKeeps(cfg: Config, s: System, id: Token)
    requires Inv(cfg, s) && id in s.requests
    ensures Inv(cfg, At(s, id, Abandoned))
  {
    QuietStepKeeps(cfg, s, Abandon(id));
  }

  /** A replayed receipt was found among the stored receipts, so it is on record. */
  lemma ReplayKeeps(cfg: Config, s: System, id: Token, receipts: seq<Receipt>)
    requires Inv(cfg, s) && id in s.requests && !MayHold(s.requests[id].stage)
    requires s.slot.ledger.Some? && receipts <= s.slot.ledger.value.receipts
    requires s.slot.ledger.value.binding == s.requests[id].turn.binding
    requires FindReceipt(receipts, s.requests[id].turn.Identity()).Some?
    ensures var response := FindReceipt(receipts, s.requests[id].turn.Identity()).value.response;
      Inv(cfg, Settle(s, id, Replay(response)))
  {
    var turn := s.requests[id].turn;
    var receipt := FindReceipt(receipts, turn.Identity()).value;
    var i :| 0 <= i < |receipts| && receipts[i] == receipt;
    assert s.slot.ledger.value.receipts[i] == receipt;
    ReceiptIsRecorded(cfg, s, turn, receipt.response, i);
    AnswerKeeps(cfg, s, Settle(s, id, Replay(receipt.response)), id, Now(s), receipt.response);
  }

  lemma AdmissionIsOk(cfg: Config, s: System, id: Token, r: Request, seen: Observation, v: Verdict)
    requires SeenOk(cfg, s, seen) && v.Proceed? && AdmittedFrom(cfg, r.turn, r.recovering, seen, s.event.Some?, id, v)
    requires CoreOk(cfg, v.base) && Follows(cfg, v.base, r.turn.Identity())
    requires r.stage == Admitted(v.base, v.pending, v.replace, v.session)
    ensures AdmittedOk(cfg, s, id, r)
  {
    if seen.Found? {
      assert LedgerOk(cfg, seen.ledger);
    }
  }

  lemma ProceedKeeps(cfg: Config, s: System, id: Token, seen: Observation, v: Verdict)
    requires Inv(cfg, s) && id in s.requests && s.requests[id].stage == Seen(seen) && v.Proceed?
    requires s.requests[id].turn.sessionKey == cfg.key
    requires var r := s.requests[id].(stage := Admitted(v.base, v.pending, v.replace, v.session)); AdmittedOk(cfg, s, id, r)
    requires !s.requests[id].recovering ==> !(cfg.checksEvents && s.event.Some?)
    ensures Inv(cfg, Settle(s, id, v))
  {
    var s' := Settle(s, id, v);
    StartsLocal(s, s', id);
    AnswersStable(s, s');
    assert AdmittedOk(cfg, s', id, s'.requests[id]);
    LocalKeeps(cfg, s, s', id, s'.requests[id]);
  }

  lemma SeenIsOk(cfg: Config, s: System, id: Token)
    requires Inv(cfg, s) && id in s.requests && s.requests[id].stage.Seen?
    ensures SeenOk(cfg, s, s.requests[id].stage.seen) && s.requests[id].turn.sessionKey == cfg.key
  {
    assert RequestOk(cfg, s, id);
  }

  lemma SettleKeeps(cfg: Config, s: System, id: Token, seen: Observation, v: Verdict)
    requires Inv(cfg, s) && id in s.requests && s.requests[id].stage == Seen(seen)
    requires SeenOk(cfg, s, seen) && s.requests[id].turn.sessionKey == cfg.key
    requires v.Proceed? ==> AdmittedFrom(cfg, s.requests[id].turn, s.requests[id].recovering, seen, s.event.Some?, id, v)
                            && CoreOk(cfg, v.base) && Follows(cfg, v.base, s.requests[id].turn.Identity())
    requires v.Replay? ==> seen.Found? && seen.ledger.binding == s.requests[id].turn.binding
                           && FindReceipt(seen.ledger.receipts, s.requests[id].turn.Identity()).Some?
                           && v.response == FindReceipt(seen.ledger.receipts, s.requests[id].turn.Identity()).value.response
    ensures Inv(cfg, Settle(s, id, v))
  {
    match v
    case Replay(_) => ReplayKeeps(cfg, s, id, seen.ledger.receipts);
    case Reject(_) => RejectKeeps(cfg, s, id);
    case Proceed(base, pending, replace, session) =>
      AdmissionIsOk(cfg, s, id, s.requests[id].(stage := Admitted(base, pending, replace, session)), seen, v);
      ProceedKeeps(cfg, s, id, seen, v);
  }

  lemma DecideKeeps(cfg: Config, s: System, id: Token)
    requires Inv(cfg, s) && Enabled(cfg, s, Decide(id))
    ensures Inv(cfg, Apply(cfg, s, Decide(id)))
  {
    var r := s.requests[id];
    var seen := r.stage.seen;
    var v := Admit(cfg, r.turn, r.recovering, seen, s.event.Some?, id);
    SeenIsOk(cfg, s, id);
    assert Inv(cfg, Settle(s, id, v)) by {
      AdmitShape(cfg, r.turn, r.recovering, seen, s.event.Some?, id);
      if v.Proceed? {
        AdmittedFollows(cfg, r.turn, r.recovering, seen, s.event.Some?, id);
      }
      SettleKeeps(cfg, s, id, seen, v);
    }
  }

  lemma SettledRejectKeeps(cfg: Config, s: System, id: Token, v: Verdict)
    requires Inv(cfg, s) && id in s.requests && v.Reject?
    ensures Inv(cfg, Settle(s, id, v))
  {
    RejectKeeps(cfg, s, id);
  }

  lemma ReadAgainKeeps(cfg: Config, s: System, id: Token)
    requires Inv(cfg, s) && Enabled(cfg, s, ReadAgain(id))
    ensures Inv(cfg, Apply(cfg, s, ReadAgain(id)))
  {
    var seen := Read(s.slot, s.now);
    hide Inv, Settle;
    match AfterLostClaim(cfg, s.requests[id].turn, seen)
    case Replay(_) => ReplayKeeps(cfg, s, id, seen.ledger.receipts);
    case Reject(_) => SettledRejectKeeps(cfg, s, id, AfterLostClaim(cfg, s.requests[id].turn, seen));
  }

  /** A step that moves the store, and at most one request with it. */
  lemma StoreStepKeepsOthers(cfg: Config, s: System, s': System, id: int)
    requires Inv(cfg, s) && |s'.lives| > 0 && Moves(s, s', id)
    requires s'.requests.Keys == s.requests.Keys
    requires forall j <- s.requests :: j != id ==> s'.requests[j] == s.requests[j]
    ensures forall j <- s'.requests :: j != id ==> RequestOk(cfg, s', j)
  {
    forall j <- s'.requests | j != id
      ensures RequestOk(cfg, s', j)
    {
      RequestStable(cfg, s, s', id, j);
    }
  }

  lemma TickKeeps(cfg: Config, s: System, now: int)
    requires Inv(cfg, s) && Enabled(cfg, s, Tick(now))
    ensures Inv(cfg, Apply(cfg, s, Tick(now)))
  {
    hide CoreOk, LedgerOk, Follows, Recorded;
    var s' := Apply(cfg, s, Tick(now));
    if Lapses(s, now) {
      forall k | 0 <= k < |s'.lives|
        ensures LifeOk(cfg, s'.lives[k])
      {
        assert k < |s.lives| ==> s'.lives[k] == s.lives[k] && LifeOk(cfg, s.lives[k]);
      }
    }
    forall k | 0 <= k < |s.lives|
      ensures LifeGrows(s.lives[k], s'.lives[k])
    {
    }
    StoreStepKeepsOthers(cfg, s, s', NOBODY);
    AnswersStable(s, s');
    forall i | 0 <= i < |s'.wins|
      ensures WinOk(s', s'.wins[i])
    {
      assert WinOk(s, s.wins[i]);
    }
  }

  lemma AcceptEndKeeps(cfg: Config, s: System, binding: Binding, retentionMs: nat)
    requires Inv(cfg, s) && Enabled(cfg, s, AcceptEnd(binding, retentionMs))
    ensures Inv(cfg, Apply(cfg, s, AcceptEnd(binding, retentionMs)))
  {
    var s' := Apply(cfg, s, AcceptEnd(binding, retentionMs));
    StoreStepKeepsOthers(cfg, s, s', NOBODY);
    AnswersStable(s, s');
    forall i | 0 <= i < |s'.wins|
      ensures WinOk(s', s'.wins[i])
    {
      assert WinOk(s, s.wins[i]);
    }
  }

  /** A granted claim carries exactly the stored ledger and snapshot, or is the first of its lifetime. */
  ghost predicate ClaimFits(s: System, r: Request)
    requires r.stage.Admitted?
  {
    var a := r.stage;
    if s.slot.ledger.None? then a.base == FreshLedger(r.turn.binding) && a.session.None? && !r.recovering
    else
      var current := s.slot.ledger.value;
      && a.base == Core(current) && a.session == s.slot.session
      && (if r.recovering then current.pending.Some? && current.pending.value.fingerprint == r.turn.Identity() else current.pending.None?)
  }

  lemma GrantedClaimFits(cfg: Config, s: System, id: Token, deadlineAt: Option<int>)
    requires Inv(cfg, s) && id in s.requests && s.requests[id].stage.Admitted?
    requires CanClaim(s.slot, s.now, s.requests[id].stage.base.revision, s.requests[id].stage.replace, deadlineAt)
    ensures ClaimFits(s, s.requests[id])
    ensures AdmittedOk(cfg, s, id, s.requests[id]) && s.requests[id].turn.sessionKey == cfg.key
  {
    assert RequestOk(cfg, s, id);
  }

  lemma ClaimMoves(cfg: Config, s: System, id: Token, ttl: nat, leaseMs: nat, deadlineAt: nat)
    requires Inv(cfg, s) && id in s.requests && s.requests[id].stage.Admitted?
    requires CanClaim(s.slot, s.now, s.requests[id].stage.base.revision, s.requests[id].stage.replace, Some(deadlineAt))
    requires ClaimFits(s, s.requests[id]) && AdmittedOk(cfg, s, id, s.requests[id])
    ensures var s' := ApplyClaim(s, id, ttl, leaseMs, deadlineAt);
      Moves(s, s', id) && StoreInv(cfg, s') && LivesInv(cfg, s') && AnswersInv(s')
  {
    var s' := ApplyClaim(s, id, ttl, leaseMs, deadlineAt);
    forall k | 0 <= k < |s'.lives|
      ensures LifeOk(cfg, s'.lives[k]) && LifeGrows(s.lives[k], s'.lives[k])
    {
      assert LifeOk(cfg, s.lives[k]);
    }
    AnswersStable(s, s');
  }

  /** A normal claim wins a revision no earlier normal claim of this lifetime can have won. */
  lemma ClaimWins(s: System, id: Token, ttl: nat, leaseMs: nat, deadlineAt: nat)
    requires |s.lives| > 0 && WinsInv(s) && id in s.requests && s.requests[id].stage.Admitted?
    requires CanClaim(s.slot, s.now, s.requests[id].stage.base.revision, s.requests[id].stage.replace, Some(deadlineAt))
    requires ClaimFits(s, s.requests[id]) && (s.requests[id].stage.replace.Some? <==> s.requests[id].recovering)
    ensures WinsInv(ApplyClaim(s, id, ttl, leaseMs, deadlineAt))
  {
    var s' := ApplyClaim(s, id, ttl, leaseMs, deadlineAt);
    forall i | 0 <= i < |s.wins|
      ensures WinOk(s', s.wins[i]) && s.wins[i].token != id
    {
      assert WinOk(s, s.wins[i]);
    }
    if !s.requests[id].recovering {
      forall i | 0 <= i < |s.wins|
        ensures (s.wins[i].life, s.wins[i].revision) != (Now(s), s.requests[id].stage.base.revision)
      {
        assert WinOk(s, s.wins[i]);
      }
    }
  }

  lemma ClaimStarts(s: System, id: Token, ttl: nat, leaseMs: nat, deadlineAt: nat)
    requires |s.lives| > 0 && StartsInv(s) && id in s.requests && s.requests[id].stage.Admitted?
    ensures StartsInv(ApplyClaim(s, id, ttl, leaseMs, deadlineAt))
  {
  }

  lemma ClaimHolder(cfg: Config, s: System, id: Token, ttl: nat, leaseMs: nat, deadlineAt: nat)
    requires |s.lives| > 0 && id in s.requests && s.requests[id].stage.Admitted?
    requires CanClaim(s.slot, s.now, s.requests[id].stage.base.revision, s.requests[id].stage.replace, Some(deadlineAt))
    requires ClaimFits(s, s.requests[id]) && AdmittedOk(cfg, s, id, s.requests[id]) && s.requests[id].turn.sessionKey == cfg.key
    requires s.slot.ledger.None? ==> s.slot.session.None?
    ensures RequestOk(cfg, ApplyClaim(s, id, ttl, leaseMs, deadlineAt), id)
  {
    var s' := ApplyClaim(s, id, ttl, leaseMs, deadlineAt);
    var a := s.requests[id].stage;
    assert HolderOk(cfg, s', id, s'.requests[id], Now(s), a.base, a.pending, a.session, deadlineAt);
  }

  lemma GrantedClaimKeeps(cfg: Config, s: System, id: Token, ttl: nat, leaseMs: nat, deadlineAt: nat)
    requires Inv(cfg, s) && id in s.requests && s.requests[id].stage.Admitted?
    requires CanClaim(s.slot, s.now, s.requests[id].stage.base.revision, s.requests[id].stage.replace, Some(deadlineAt))
    ensures Inv(cfg, ApplyClaim(s, id, ttl, leaseMs, deadlineAt))
  {
    var s' := ApplyClaim(s, id, ttl, leaseMs, deadlineAt);
    GrantedClaimFits(cfg, s, id, Some(deadlineAt));
    ClaimMoves(cfg, s, id, ttl, leaseMs, deadlineAt);
    ClaimWins(s, id, ttl, leaseMs, deadlineAt);
    ClaimStarts(s, id, ttl, leaseMs, deadlineAt);
    ClaimHolder(cfg, s, id, ttl, leaseMs, deadlineAt);
    StoreStepKeepsOthers(cfg, s, s', id);
  }

  lemma ClaimKeeps(cfg: Config, s: System, id: Token, ttl: nat, leaseMs: nat, deadlineAt: nat)
    requires Inv(cfg, s) && Enabled(cfg, s, TryClaim(id, ttl, leaseMs, deadlineAt))
    ensures Inv(cfg, Apply(cfg, s, TryClaim(id, ttl, leaseMs, deadlineAt)))
  {
    var a := s.requests[id].stage;
    if CanClaim(s.slot, s.now, a.base.revision, a.replace, Some(deadlineAt)) {
      GrantedClaimKeeps(cfg, s, id, ttl, leaseMs, deadlineAt);
    } else {
      var s' := At(s, id, Outbid);
      assert RequestOk(cfg, s, id);
      StartsLocal(s, s', id);
      AnswersStable(s, s');
      LocalKeeps(cfg, s, s', id, s'.requests[id]);
    }
  }

  /** A request that may commit still holds exactly what it claimed. */
  lemma CommitterHolds(cfg: Config, s: System, id: Token)
    requires Inv(cfg, s) && id in s.requests && s.requests[id].stage.Prepared?
    requires CanCommit(s.slot, s.now, s.requests[id].stage.base.revision, id)
    ensures var p := s.requests[id].stage;
      && p.life == Now(s) && Core(s.slot.ledger.value) == p.base && p.session == s.slot.session
      && s.slot.ledger.value.pending.value.(deadlineAt := None) == p.pending && s.now < p.deadlineAt
      && Carries(cfg, s.requests[id], id, p.base, p.pending) && Formatted(p.response)
      && s.requests[id].turn.sessionKey == cfg.key
  {
    assert RequestOk(cfg, s, id);
  }

  lemma InstallMoves(cfg: Config, s: System, id: Token, ttl: nat, activeMs: nat)
    requires Inv(cfg, s) && id in s.requests && s.requests[id].stage.Prepared?
    requires CanCommit(s.slot, s.now, s.requests[id].stage.base.revision, id)
    ensures var s' := ApplyInstall(s, id, ttl, activeMs);
      Moves(s, s', id) && StoreInv(cfg, s') && LivesInv(cfg, s') && AnswersInv(s') && WinsInv(s')
  {
    var s' := ApplyInstall(s, id, ttl, activeMs);
    var p := s.requests[id].stage;
    CommitterHolds(cfg, s, id);
    CommitKeepsChain(cfg, p.base, s.requests[id].turn, p.response);
    var ledger := Committed(p.base, s.requests[id].turn, p.response);
    assert ReceiptsOf(s'.lives[Now(s)].entries) == ledger.receipts by {
      assert ReceiptsOf(s.lives[Now(s)].entries) == p.base.receipts;
    }
    forall k | 0 <= k < |s'.lives|
      ensures LifeOk(cfg, s'.lives[k]) && LifeGrows(s.lives[k], s'.lives[k])
    {
      assert LifeOk(cfg, s.lives[k]);
    }
    AnswersStable(s, s');
    forall i | 0 <= i < |s.wins|
      ensures WinOk(s', s.wins[i])
    {
      assert WinOk(s, s.wins[i]);
    }
  }

  lemma InstallDone(cfg: Config, s: System, id: Token, ttl: nat, activeMs: nat)
    requires |s.lives| > 0 && id in s.requests && s.requests[id].stage.Prepared?
    requires CanCommit(s.slot, s.now, s.requests[id].stage.base.revision, id)
    requires s.requests[id].turn.sessionKey == cfg.key
    requires s.lives[Now(s)].binding == Some(s.requests[id].turn.binding)
    ensures RequestOk(cfg, ApplyInstall(s, id, ttl, activeMs), id)
  {
    var s' := ApplyInstall(s, id, ttl, activeMs);
    var entries := s'.lives[Now(s)].entries;
    assert Records(entries[|entries| - 1], s.requests[id].turn, s.requests[id].stage.response);
  }

  lemma InstallStarts(s: System, id: Token, ttl: nat, activeMs: nat)
    requires |s.lives| > 0 && StartsInv(s) && id in s.requests && s.requests[id].stage.Prepared?
    ensures StartsInv(ApplyInstall(s, id, ttl, activeMs))
  {
  }

  lemma InstallKeeps(cfg: Config, s: System, id: Token, ttl: nat, activeMs: nat)
    requires Inv(cfg, s) && Enabled(cfg, s, Install(id, ttl, activeMs))
    ensures Inv(cfg, Apply(cfg, s, Install(id, ttl, activeMs)))
  {
    var s' := ApplyInstall(s, id, ttl, activeMs);
    if CanCommit(s.slot, s.now, s.requests[id].stage.base.revision, id) {
      CommitterHolds(cfg, s, id);
      InstallMoves(cfg, s, id, ttl, activeMs);
      StoreStepKeepsOthers(cfg, s, s', id);
      InstallDone(cfg, s, id, ttl, activeMs);
      InstallStarts(s, id, ttl, activeMs);
    } else {
      RejectKeeps(cfg, s, id);
    }
  }

  /** Every step keeps the invariant. */
  lemma StepKeeps(cfg: Config, s: System, step: Step)
    requires Inv(cfg, s) && Enabled(cfg, s, step)
    ensures Inv(cfg, Apply(cfg, s, step))
  {
    match step
    case Arrive(_, _, _) => QuietStepKeeps(cfg, s, step);
    case ReadStore(_) => QuietStepKeeps(cfg, s, step);
    case Finish(_, _, _) => QuietStepKeeps(cfg, s, step);
    case Abandon(_) => QuietStepKeeps(cfg, s, step);
    case Tick(now) => TickKeeps(cfg, s, now);
    case Decide(id) => DecideKeeps(cfg, s, id);
    case TryClaim(id, ttl, leaseMs, deadlineAt) => ClaimKeeps(cfg, s, id, ttl, leaseMs, deadlineAt);
    case ReadAgain(id) => ReadAgainKeeps(cfg, s, id);
    case Begin(id) => BeginKeeps(cfg, s, id);
    case Install(id, ttl, activeMs) => InstallKeeps(cfg, s, id, ttl, activeMs);
    case Reply(id) => ReplyKeeps(cfg, s, id);
    case AcceptEnd(binding, retentionMs) => AcceptEndKeeps(cfg, s, binding, retentionMs);
  }
}
