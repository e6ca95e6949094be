/**
  TurnGateway.process (lib/TurnGateway.js:32-124) as one uninterrupted call against the store: read, admit,
  claim, prepare or recover, commit. TurnProtocol interleaves many such calls; here the call itself is run.
 */
module TurnProcess {
  import opened Wrappers
  import opened TurnTypes
  import opened TurnStoreSpec
  import opened TurnGateway
  import opened RedisTurns
  import B = TurnBudget

  /** What the staged handler, or recoverTurn, produced. */
  datatype Work = Work(response: Response, after: Session, activeMs: int)

  /** Clock readings along one call: the store's milliseconds and the gateway's monotonic clock. */
  datatype Times = Times(startedAt: real, readAt: int, anchoredAt: real, shortenedAt: real, claimAt: int, claimedAt: real, checkedAt: real, commitAt: int)

  datatype Result =
    | Replied(response: Response)
    | Failed(code: Code)
    | Late
    | Malformed
    | Unresolved
    | StaleOwner

  // ---- the course of an admitted call, in its clock readings ----

  /** The end of the budget once it is shortened to the lease. */
  function EndOf(end: real, leaseMs: nat, t: Times): real { B.Min(end, t.shortenedAt + leaseMs as real) }

  /** What the claim asks for: the rest of the budget as its lease, and the budget's end in store time as its deadline. */
  function AskedLease(t: Times, end: real): int { if end - t.claimedAt <= 1.0 then 1 else B.Ceil(end - t.claimedAt) }

  function AskedDeadline(t: Times, end: real): int { (t.readAt as real + end - t.anchoredAt).Floor }

  /** The claim can be asked for: within the budget, and with arguments the store accepts. */
  ghost predicate CanAsk(t: Times, end: real) {
    t.claimedAt < end && AskedDeadline(t, end) >= 1 && AskedLease(t, end) <= 2147483647
  }

  /** The store grants it: before the deadline, and for a normal turn while the record is open and the session active. */
  ghost predicate IsGranted(slot: Slot, recovering: bool, t: Times, end: real) {
    && t.claimAt < AskedDeadline(t, end)
    && (recovering || (!slot.closed && (slot.ledger.Some? ==> t.claimAt < slot.activeExpiresAt)))
  }

  function ActiveMs(work: Work): int { if work.activeMs < 1 then 1 else work.activeMs }

  /** The answer can be delivered and kept. */
  ghost predicate Deliverable(work: Work, receiptTTL: nat) { Formatted(work.response) && (if work.activeMs < 1 then 1 else work.activeMs) <= receiptTTL * 1000 }

  /** The owner commits while its lease and its deadline last. */
  ghost predicate OwnsStill(t: Times, end: real) {
    t.commitAt < t.claimAt + AskedLease(t, end) && t.commitAt < AskedDeadline(t, end)
  }

  /**
    What its deadlines leave an owner, whatever the offsets of the two clocks: a commit in the budget, less two
    milliseconds and the time the first read took to arrive, is never refused as stale, and none is granted past its end.
   */
  lemma PromptCommitOwns(t: Times, end: real, readAt: real, claimAt: real, commitAt: real, mono: real, clock: real)
    requires t.readAt == B.StoreTime(readAt, clock) && t.claimAt == B.StoreTime(claimAt, clock) && t.commitAt == B.StoreTime(commitAt, clock)
    requires B.Monotonic(readAt, mono) <= t.anchoredAt && t.claimedAt <= B.Monotonic(claimAt, mono)
    ensures B.Monotonic(commitAt, mono) + (t.anchoredAt - B.Monotonic(readAt, mono)) + 2.0 <= end ==> OwnsStill(t, end)
    ensures OwnsStill(t, end) ==> B.Monotonic(commitAt, mono) < end
  {
    assert (t.readAt as real + end - t.anchoredAt).Floor as real <= t.readAt as real + end - t.anchoredAt;
  }

  /** The claim is won. */
  ghost predicate Wins(slot: Slot, recovering: bool, t: Times, end: real) { CanAsk(t, end) && IsGranted(slot, recovering, t, end) }

  /** The handler, or the recovery, produced an answer that can be delivered, with the budget still running. */
  ghost predicate Produces(t: Times, end: real, work: Option<Work>, receiptTTL: nat) {
    work.Some? && Deliverable(work.value, receiptTTL) && t.checkedAt < end
  }

  /** The answer came after the budget's end. */
  ghost predicate IsLate(t: Times, end: real, work: Option<Work>, receiptTTL: nat) {
    work.Some? && Deliverable(work.value, receiptTTL) && t.checkedAt >= end
  }

  ghost predicate IsMalformed(work: Option<Work>, receiptTTL: nat) { work.Some? && !Deliverable(work.value, receiptTTL) }

  /** What the store holds of the call once its claim is won. */
  ghost predicate HoldsClaim(before: Slot, after: Slot, turn: Turn, recovering: bool, token: Token, t: Times, end: real, receiptTTL: nat) {
    && after.ledger.Some? && after.ledger.value.binding == turn.binding
    && ReceiptsIn(after) == ReceiptsIn(before) && after.ledger.value.revision == |ReceiptsIn(before)|
    && PendingIn(after) == Some(Pending(token, turn.Identity(), turn.Position(), |ReceiptsIn(before)|, if recovering then Recovery else Normal,
         Some(if t.claimAt + AskedLease(t, end) < AskedDeadline(t, end) then t.claimAt + AskedLease(t, end) else AskedDeadline(t, end))))
    && after.session == before.session && after.activeExpiresAt == before.activeExpiresAt && after.closed == before.closed
    && after.expiresAt == Some(t.claimAt + receiptTTL * 1000)
  }

  /** What it holds once the answer is installed. */
  ghost predicate HoldsAnswer(before: Slot, after: Slot, turn: Turn, t: Times, work: Work, receiptTTL: nat) {
    && after.ledger.Some? && after.ledger.value.binding == turn.binding && PendingIn(after).None?
    && ReceiptsIn(after) == ReceiptsIn(before) + [Receipt(turn.Identity(), turn.Position(), work.response)]
    && after.ledger.value.revision == |ReceiptsIn(before)| + 1
    && after.ledger.value.transcript == Some(turn.transcript) && (after.ledger.value.completed <==> IsEnd(work.response))
    && after.session == Some(work.after) && after.closed == before.closed
    && after.activeExpiresAt == t.commitAt + (if work.activeMs < 1 then 1 else work.activeMs) && after.expiresAt == Some(t.commitAt + receiptTTL * 1000)
  }

  /** A stored answer is found by its own request. */
  ghost predicate Answers(slot: Slot, turn: Turn, response: Response) {
    && slot.ledger.Some? && slot.ledger.value.binding == turn.binding
    && FindReceipt(slot.ledger.value.receipts, turn.Identity()).Some?
    && FindReceipt(slot.ledger.value.receipts, turn.Identity()).value.response == response
  }

  /** Once answered, a request is answered the same way forever: any attempt, by any instance, replays the receipt. */
  lemma AnsweredReplays(cfg: Config, slot: Slot, turn: Turn, response: Response, recovering: bool, ended: bool, token: Token, now: int)
    requires Answers(slot, turn, response)
    requires BindSession(cfg, turn, None).None?
    ensures Admit(cfg, turn, recovering, Read(slot, now), ended, token) == Replay(response)
  {
  }

  lemma ReplayAnswers(cfg: Config, slot: Slot, turn: Turn, recovering: bool, ended: bool, token: Token, now: int)
    requires Admit(cfg, turn, recovering, Read(slot, now), ended, token).Replay?
    ensures Answers(slot, turn, Admit(cfg, turn, recovering, Read(slot, now), ended, token).response)
  {
    AdmitShape(cfg, turn, recovering, Read(slot, now), ended, token);
  }

  lemma {:induction false} FoundAtEnd(receipts: seq<Receipt>, last: Receipt)
    requires FindReceipt(receipts, last.fingerprint).None?
    ensures FindReceipt(receipts + [last], last.fingerprint) == Some(last)
  {
    if receipts != [] {
      FoundAtEnd(receipts[1..], last);
      assert (receipts + [last])[1..] == receipts[1..] + [last];
    }
  }

  lemma ProceedIsNew(cfg: Config, turn: Turn, recovering: bool, seen: Observation, ended: bool, token: Token)
    requires Admit(cfg, turn, recovering, seen, ended, token).Proceed?
    ensures var v := Admit(cfg, turn, recovering, seen, ended, token);
      FindReceipt(v.base.receipts, turn.Identity()).None? && v.pending.deadlineAt.None? && v.pending.token == token
  {
  }

  /** What installing the answer does to the slot. */
  lemma InstallAnswers(cfg: Config, turn: Turn, recovering: bool, slot: Slot, ended: bool, token: Token, readAt: int,
                       claimed: Slot, commitAt: int, work: Work, ttl: nat, activeMs: nat)
    requires turn.sessionKey == cfg.key && SlotOk(cfg, slot) && Formatted(work.response)
    requires Admit(cfg, turn, recovering, Read(slot, readAt), ended, token).Proceed?
    ensures var v := Admit(cfg, turn, recovering, Read(slot, readAt), ended, token);
      var after := Commit(claimed, commitAt, Committed(v.base, turn, work.response), work.after, ttl, activeMs);
      && SlotOk(cfg, after) && Answers(after, turn, work.response)
      && ReceiptsIn(after) == ReceiptsIn(slot) + [Receipt(turn.Identity(), turn.Position(), work.response)]
  {
    var seen := Read(slot, readAt);
    var v := Admit(cfg, turn, recovering, seen, ended, token);
    AdmittedFollows(cfg, turn, recovering, seen, ended, token);
    AdmitShape(cfg, turn, recovering, seen, ended, token);
    ProceedIsNew(cfg, turn, recovering, seen, ended, token);
    CommitKeepsChain(cfg, v.base, turn, work.response);
    hide CoreOk, ChainOk, Follows;
    FoundAtEnd(v.base.receipts, Receipt(turn.Identity(), turn.Position(), work.response));
  }

  /** A claim leaves every receipt and the shape of the ledger in place. */
  lemma ClaimHolds(cfg: Config, turn: Turn, recovering: bool, slot: Slot, ended: bool, token: Token, readAt: int,
                   claimAt: int, ttl: nat, leaseMs: Option<int>, deadlineAt: Option<int>)
    requires turn.sessionKey == cfg.key && SlotOk(cfg, slot)
    requires Admit(cfg, turn, recovering, Read(slot, readAt), ended, token).Proceed?
    ensures var v := Admit(cfg, turn, recovering, Read(slot, readAt), ended, token);
      var after := Claim(slot, claimAt, v.base.(pending := Some(v.pending)), ttl, leaseMs, deadlineAt);
      && SlotOk(cfg, after) && ReceiptsIn(after) == ReceiptsIn(slot)
      && after.ledger.value.revision == v.base.revision && after.ledger.value.pending.value.token == token
      && after.closed == slot.closed && after.ledger.value.pending.value.kind == (if recovering then Recovery else Normal)
  {
    var seen := Read(slot, readAt);
    AdmittedFollows(cfg, turn, recovering, seen, ended, token);
    AdmitShape(cfg, turn, recovering, seen, ended, token);
    hide ChainOk;
  }

  class Gateway {
    const cfg: Config
    const store: RedisTurnStore
    const receiptTTL: nat
    const leaseMs: nat

    constructor (cfg: Config, store: RedisTurnStore, receiptTTL: nat, leaseMs: nat)
      requires 1 <= receiptTTL <= 2147483647 && 1 <= leaseMs <= 2147483647
      ensures this.cfg == cfg && this.store == store && this.receiptTTL == receiptTTL && this.leaseMs == leaseMs
    {
      this.cfg, this.store, this.receiptTTL, this.leaseMs := cfg, store, receiptTTL, leaseMs;
    }

    /**
      One call, with `work` what the handler (or, when recovering, the recovery callback) produced; None when it
      failed or could not tell. A call that starts in its budget is answered from a receipt, refused, or due; one
      that is due is answered with its work, which the store then holds, exactly if its claim is won, its work
      produced in the budget and its ownership kept; every way to fail has its own condition.
     */
    method Process(turn: Turn, recovering: bool, ended: bool, token: Token, t: Times, budget: B.TurnBudget, work: Option<Work>)
        returns (r: Result)
      requires turn.sessionKey == cfg.key && store.Valid() && SlotOk(cfg, store.SlotAt(cfg.key))
      requires 1 <= receiptTTL <= 2147483647 && 1 <= leaseMs <= 2147483647
      modifies store, budget
      ensures store.Valid() && SlotOk(cfg, store.SlotAt(cfg.key)) && store.OthersSame(old(store.hashes), cfg.key)
      ensures !(old(budget.aborted).None? && t.startedAt < old(budget.end)) ==> r == Late && store.SlotAt(cfg.key) == old(store.SlotAt(cfg.key))
      ensures old(budget.aborted).None? && t.startedAt < old(budget.end) ==>
        var before, after := old(store.SlotAt(cfg.key)), store.SlotAt(cfg.key);
        var end := EndOf(old(budget.end), leaseMs, t);
        // a request already answered is answered again, and the store is not touched
        && (BoundTo(cfg, before, turn) && IsAnswered(before, turn) ==> r.Replied? && HasAnswer(before, turn, r.response) && after == before)
        // so it is refused
        && (forall code :: RefusedWith(cfg, before, turn, recovering, ended, t.readAt, code) ==> r == Failed(code) && after == before)
        // or due
        && (Due(cfg, before, turn, recovering, ended, t.readAt) ==> Took(before, after, turn, recovering, token, t, end, work, r))
      ensures r.Replied? ==> Answers(store.SlotAt(cfg.key), turn, r.response)
      ensures ReceiptsIn(store.SlotAt(cfg.key)) == ReceiptsIn(old(store.SlotAt(cfg.key)))
        || (r.Replied? && ReceiptsIn(store.SlotAt(cfg.key))
              == ReceiptsIn(old(store.SlotAt(cfg.key))) + [Receipt(turn.Identity(), turn.Position(), r.response)])
    {
      ghost var before := store.SlotAt(cfg.key);
      var ok := budget.Check(t.startedAt);
      if !ok { return Late; }
      var seen := store.Read(cfg.key, t.readAt);
      budget.AnchorStore(t.readAt, t.anchoredAt);
      var verdict := Admit(cfg, turn, recovering, seen, ended, token);
      AdmissionIsExact(cfg, before, turn, recovering, ended, token, t.readAt);
      DueIsNotRefused(cfg, before, turn, recovering, ended, t.readAt);
      hide Admit, LedgerOk, Due, BoundTo, IsAnswered, RefusedWith, HasAnswer, Took, Answers;
      match verdict
      case Replay(response) =>
        ReplayAnswers(cfg, before, turn, recovering, ended, token, t.readAt);
        return Replied(response);
      case Reject(code) =>
        return Failed(code);
      case Proceed(base, pending, replace, session) =>
        r := Take(turn, recovering, ended, token, t, budget, work, seen, base, pending, replace);
        TookAdds(before, store.SlotAt(cfg.key), turn, recovering, token, t, EndOf(old(budget.end), leaseMs, t), work, r);
    }

    /** Whatever happened, only a reply added a receipt, and just its own. */
    lemma TookAdds(before: Slot, after: Slot, turn: Turn, recovering: bool, token: Token, t: Times, end: real, work: Option<Work>, r: Result)
      requires Took(before, after, turn, recovering, token, t, end, work, r)
      ensures ReceiptsIn(after) == ReceiptsIn(before)
        || (r.Replied? && ReceiptsIn(after) == ReceiptsIn(before) + [Receipt(turn.Identity(), turn.Position(), r.response)])
    {
      hide Wins, Produces, OwnsStill, IsLate, IsMalformed, CanAsk, IsGranted, Deliverable;
    }

    /** After a lost claim: the winner may already have installed the exact answer. */
    method ReadAgain(turn: Turn, now: int) returns (r: Result)
      requires store.Valid() && SlotOk(cfg, store.SlotAt(cfg.key))
      ensures r.Replied? ==> Answers(store.SlotAt(cfg.key), turn, r.response)
      ensures r.Replied? <==> BoundTo(cfg, store.SlotAt(cfg.key).(session := None), turn) && IsAnswered(store.SlotAt(cfg.key), turn)
      ensures BoundTo(cfg, store.SlotAt(cfg.key).(session := None), turn) && !IsAnswered(store.SlotAt(cfg.key), turn) ==> r == Failed(TurnInProgress)
    {
      var latest := store.Read(cfg.key, now);
      Lookups(cfg, store.SlotAt(cfg.key), turn);
      match AfterLostClaim(cfg, turn, latest)
      case Replay(response) => r := Replied(response);
      case Reject(code) => r := Failed(code);
      case Proceed(_, _, _, _) => r := Malformed;
    }

    /** How a call that was due ended. */
    ghost predicate Took(before: Slot, after: Slot, turn: Turn, recovering: bool, token: Token, t: Times, end: real, work: Option<Work>, r: Result) {
      && (r.Replied? <==> Wins(before, recovering, t, end) && Produces(t, end, work, receiptTTL) && OwnsStill(t, end))
      && (r.Replied? ==> r.response == work.value.response && HoldsAnswer(before, after, turn, t, work.value, receiptTTL))
      && (r == StaleOwner <==> Wins(before, recovering, t, end) && Produces(t, end, work, receiptTTL) && !OwnsStill(t, end))
      && (r == Unresolved <==> Wins(before, recovering, t, end) && work.None?)
      && (r == Failed(TurnInProgress) <==> CanAsk(t, end) && !IsGranted(before, recovering, t, end))
      && (r == Late <==> (t.claimedAt >= end || (Wins(before, recovering, t, end) && IsLate(t, end, work, receiptTTL))))
      && (r == Malformed <==> ((t.claimedAt < end && !CanAsk(t, end)) || (Wins(before, recovering, t, end) && IsMalformed(work, receiptTTL))))
      && (!Wins(before, recovering, t, end) ==> after == before)
      && (Wins(before, recovering, t, end) && !r.Replied? ==> HoldsClaim(before, after, turn, recovering, token, t, end, receiptTTL))
    }

    /** The rest of a call that was admitted: claim, prepare, commit. */
    method Take(turn: Turn, recovering: bool, ended: bool, token: Token, t: Times, budget: B.TurnBudget, work: Option<Work>,
                seen: Observation, base: Ledger, pending: Pending, replace: Option<Token>) returns (r: Result)
      requires turn.sessionKey == cfg.key && store.Valid() && SlotOk(cfg, store.SlotAt(cfg.key))
      requires budget.storeClock == Some(B.Anchor(t.readAt, t.anchoredAt)) && budget.aborted.None?
      requires 1 <= receiptTTL <= 2147483647 && 1 <= leaseMs <= 2147483647
      requires seen == Read(store.SlotAt(cfg.key), t.readAt)
      requires var v := Admit(cfg, turn, recovering, seen, ended, token);
        v.Proceed? && v.base == base && v.pending == pending && v.replace == replace
      modifies store, budget
      ensures store.Valid() && SlotOk(cfg, store.SlotAt(cfg.key)) && store.OthersSame(old(store.hashes), cfg.key)
      ensures Took(old(store.SlotAt(cfg.key)), store.SlotAt(cfg.key), turn, recovering, token, t, EndOf(old(budget.end), leaseMs, t), work, r)
      ensures r.Replied? ==> Answers(store.SlotAt(cfg.key), turn, r.response)
    {
      hide Admit, Due, BoundTo, IsAnswered, LedgerOk, CanAsk, IsGranted, HoldsClaim, HoldsAnswer, Produces, OwnsStill, Answers, Claim, EndOf,
           AskedLease, AskedDeadline, IsLate, IsMalformed, SlotOk, Read;
      ghost var before := store.SlotAt(cfg.key);
      ghost var end := EndOf(budget.end, leaseMs, t);
      var early := Ask(turn, recovering, ended, token, t, budget, seen, base, pending, replace, end);
      if early.Some? { return early.value; }
      r := Deliver(turn, recovering, ended, token, t, budget, work, base, before, end);
    }

    /** The claim: None when it is won. */
    method Ask(turn: Turn, recovering: bool, ended: bool, token: Token, t: Times, budget: B.TurnBudget,
               seen: Observation, base: Ledger, pending: Pending, replace: Option<Token>, ghost end: real) returns (early: Option<Result>)
      requires turn.sessionKey == cfg.key && store.Valid() && SlotOk(cfg, store.SlotAt(cfg.key)) && end == EndOf(budget.end, leaseMs, t)
      requires budget.storeClock == Some(B.Anchor(t.readAt, t.anchoredAt)) && budget.aborted.None?
      requires 1 <= receiptTTL <= 2147483647 && 1 <= leaseMs <= 2147483647
      requires seen == Read(store.SlotAt(cfg.key), t.readAt)
      requires var v := Admit(cfg, turn, recovering, seen, ended, token);
        v.Proceed? && v.base == base && v.pending == pending && v.replace == replace
      modifies store, budget
      ensures store.Valid() && SlotOk(cfg, store.SlotAt(cfg.key)) && store.OthersSame(old(store.hashes), cfg.key)
      ensures early.None? <==> Wins(old(store.SlotAt(cfg.key)), recovering, t, end)
      ensures early.None? ==>
        && budget.end == end && budget.aborted.None?
        && HoldsClaim(old(store.SlotAt(cfg.key)), store.SlotAt(cfg.key), turn, recovering, token, t, end, receiptTTL)
        && store.SlotAt(cfg.key) == Claim(old(store.SlotAt(cfg.key)), t.claimAt, base.(pending := Some(pending)), receiptTTL,
                                          Some(AskedLease(t, end)), Some(AskedDeadline(t, end)))
      ensures early.Some? ==> early.value in {Late, Malformed, Failed(TurnInProgress)} && store.SlotAt(cfg.key) == old(store.SlotAt(cfg.key))
      ensures early == Some(Late) <==> t.claimedAt >= end
      ensures early == Some(Malformed) <==> t.claimedAt < end && !CanAsk(t, end)
      ensures early == Some(Failed(TurnInProgress)) <==> CanAsk(t, end) && !IsGranted(old(store.SlotAt(cfg.key)), recovering, t, end)
    {
      hide Admit, BoundTo, IsAnswered, LedgerOk, CanClaim, ValidClaim, IsGranted, HoldsClaim, Answers, Claim;
      ghost var before := store.SlotAt(cfg.key);
      budget.Shorten(leaseMs, t.shortenedAt);
      var ok := budget.Check(t.claimedAt);
      if !ok { return Some(Late); }
      var remaining := budget.Remaining(t.claimedAt);
      var lease := if remaining < 1 then 1 else remaining;
      var deadline := budget.StoreDeadline();
      AskedIs(t, end, lease, deadline);
      MayClaim(cfg, turn, recovering, before, ended, token, t, end, receiptTTL);
      hide AskedLease, AskedDeadline, EndOf, SlotOk;
      var claimed := base.(pending := Some(pending));
      var claim := store.Claim(cfg.key, base.revision, claimed, receiptTTL, replace, Some(lease), Some(deadline), t.claimAt);
      if claim.Invalid? { return Some(Malformed); }
      if claim.Refused? {
        var r := ReadAgain(turn, t.claimAt);
        return Some(r);
      }
      early := None;
    }

    /** The owner's part: prepare, and commit what was prepared. */
    method Deliver(turn: Turn, recovering: bool, ended: bool, token: Token, t: Times, budget: B.TurnBudget, work: Option<Work>,
                   base: Ledger, ghost before: Slot, ghost end: real) returns (r: Result)
      requires turn.sessionKey == cfg.key && store.Valid() && SlotOk(cfg, before) && SlotOk(cfg, store.SlotAt(cfg.key))
      requires budget.end == end && budget.aborted.None? && 1 <= receiptTTL <= 2147483647
      requires var v := Admit(cfg, turn, recovering, Read(before, t.readAt), ended, token);
        && v.Proceed? && v.base == base
        && store.SlotAt(cfg.key) == Claim(before, t.claimAt, base.(pending := Some(v.pending)), receiptTTL, Some(AskedLease(t, end)), Some(AskedDeadline(t, end)))
      requires HoldsClaim(before, store.SlotAt(cfg.key), turn, recovering, token, t, end, receiptTTL) && IsGranted(before, recovering, t, end)
      modifies store, budget
      ensures store.Valid() && SlotOk(cfg, store.SlotAt(cfg.key)) && store.OthersSame(old(store.hashes), cfg.key)
      ensures r.Replied? <==> Produces(t, end, work, receiptTTL) && OwnsStill(t, end)
      ensures r.Replied? ==> r.response == work.value.response && HoldsAnswer(before, store.SlotAt(cfg.key), turn, t, work.value, receiptTTL)
      ensures r.Replied? ==> Answers(store.SlotAt(cfg.key), turn, r.response)
      ensures r == StaleOwner <==> Produces(t, end, work, receiptTTL) && !OwnsStill(t, end)
      ensures r == Unresolved <==> work.None?
      ensures r == Late <==> IsLate(t, end, work, receiptTTL)
      ensures r == Malformed <==> IsMalformed(work, receiptTTL)
      ensures !r.Replied? ==> store.SlotAt(cfg.key) == old(store.SlotAt(cfg.key))
      ensures !r.Failed?
    {
      ghost var owned := store.SlotAt(cfg.key);
      CommitIs(cfg, turn, recovering, before, ended, token, t, end, receiptTTL);
      hide Admit, LedgerOk, CanCommit, Formatted, HoldsAnswer, Answers, HoldsClaim, IsGranted, Claim, Commit, Committed;
      if work.None? { return Unresolved; }
      if !Formatted(work.value.response) { return Malformed; }
      var activeMs := if work.value.activeMs < 1 then 1 else work.value.activeMs;
      if activeMs > receiptTTL * 1000 { return Malformed; }
      var ok := budget.Check(t.checkedAt);
      if !ok { return Late; }
      InstallAnswers(cfg, turn, recovering, before, ended, token, t.readAt, owned, t.commitAt, work.value, receiptTTL, activeMs);
      AnswerIs(cfg, turn, recovering, before, ended, token, t, end, receiptTTL, work.value);
      CommitIsValid(base, turn, work.value, receiptTTL);
      hide ValidCommit;
      var committed := Committed(base, turn, work.value.response);
      var commit := store.Commit(cfg.key, base.revision, token, committed, Some(work.value.after), receiptTTL, activeMs, t.commitAt);
      if !commit.Installed? { return StaleOwner; }
      r := Replied(work.value.response);
    }
  }

  lemma DueIsUnanswered(cfg: Config, slot: Slot, turn: Turn, recovering: bool, ended: bool, now: int)
    requires Due(cfg, slot, turn, recovering, ended, now)
    ensures BoundTo(cfg, slot.(session := None), turn) && !IsAnswered(slot, turn)
  {
  }

  /** All that a due request's claim depends on, and all that it leads to. */
  lemma MayClaim(cfg: Config, turn: Turn, recovering: bool, slot: Slot, ended: bool, token: Token, t: Times, end: real, receiptTTL: nat)
    requires turn.sessionKey == cfg.key && SlotOk(cfg, slot) && Admit(cfg, turn, recovering, Read(slot, t.readAt), ended, token).Proceed?
    requires t.claimedAt < end && 1 <= receiptTTL <= 2147483647
    ensures var v := Admit(cfg, turn, recovering, Read(slot, t.readAt), ended, token);
      var claimed := v.base.(pending := Some(v.pending));
      var after := Claim(slot, t.claimAt, claimed, receiptTTL, Some(AskedLease(t, end)), Some(AskedDeadline(t, end)));
      && v.pending.deadlineAt.None?
      && (ValidClaim(v.base.revision, claimed, receiptTTL, Some(AskedLease(t, end)), Some(AskedDeadline(t, end))) <==> CanAsk(t, end))
      && (CanClaim(slot, t.claimAt, v.base.revision, v.replace, Some(AskedDeadline(t, end))) <==> IsGranted(slot, recovering, t, end))
      && HoldsClaim(slot, after, turn, recovering, token, t, end, receiptTTL) && SlotOk(cfg, after)
    ensures BoundTo(cfg, slot.(session := None), turn) && !IsAnswered(slot, turn)
  {
    hide Admit, BoundTo, IsAnswered, LedgerOk, CanClaim, ValidClaim, IsGranted, HoldsClaim, Claim, CanAsk;
    AdmissionIsExact(cfg, slot, turn, recovering, ended, token, t.readAt);
    ProceedIsNew(cfg, turn, recovering, Read(slot, t.readAt), ended, token);
    ClaimIs(cfg, turn, recovering, slot, ended, token, t, end, receiptTTL);
    ClaimHolds(cfg, turn, recovering, slot, ended, token, t.readAt, t.claimAt, receiptTTL, Some(AskedLease(t, end)), Some(AskedDeadline(t, end)));
    DueIsUnanswered(cfg, slot, turn, recovering, ended, t.readAt);
  }

  /** The store's rule for the owner's commit. */
  lemma CommitIs(cfg: Config, turn: Turn, recovering: bool, slot: Slot, ended: bool, token: Token, t: Times, end: real, receiptTTL: nat)
    requires Admit(cfg, turn, recovering, Read(slot, t.readAt), ended, token).Proceed? && IsGranted(slot, recovering, t, end)
    ensures var v := Admit(cfg, turn, recovering, Read(slot, t.readAt), ended, token);
      var owned := Claim(slot, t.claimAt, v.base.(pending := Some(v.pending)), receiptTTL, Some(AskedLease(t, end)), Some(AskedDeadline(t, end)));
      CanCommit(owned, t.commitAt, v.base.revision, token) <==> OwnsStill(t, end)
  {
    AdmitShape(cfg, turn, recovering, Read(slot, t.readAt), ended, token);
    hide Admit;
  }

  lemma CommitIsValid(base: Ledger, turn: Turn, work: Work, receiptTTL: nat)
    requires 1 <= receiptTTL <= 2147483647 && Deliverable(work, receiptTTL)
    ensures ValidCommit(base.revision, Committed(base, turn, work.response), receiptTTL, ActiveMs(work))
  {
  }

  /** What the store holds after that commit. */
  lemma AnswerIs(cfg: Config, turn: Turn, recovering: bool, slot: Slot, ended: bool, token: Token, t: Times, end: real, receiptTTL: nat, work: Work)
    requires SlotOk(cfg, slot) && Admit(cfg, turn, recovering, Read(slot, t.readAt), ended, token).Proceed?
    ensures var v := Admit(cfg, turn, recovering, Read(slot, t.readAt), ended, token);
      var owned := Claim(slot, t.claimAt, v.base.(pending := Some(v.pending)), receiptTTL, Some(AskedLease(t, end)), Some(AskedDeadline(t, end)));
      HoldsAnswer(slot, Commit(owned, t.commitAt, Committed(v.base, turn, work.response), work.after, receiptTTL, ActiveMs(work)),
                  turn, t, work, receiptTTL)
  {
    hide Admit, ChainOk, Follows, AskedLease, AskedDeadline;
    BaseIs(cfg, turn, recovering, slot, ended, token, t.readAt);
  }

  /** What an admitted request goes on from. */
  lemma BaseIs(cfg: Config, turn: Turn, recovering: bool, slot: Slot, ended: bool, token: Token, readAt: int)
    requires SlotOk(cfg, slot) && Admit(cfg, turn, recovering, Read(slot, readAt), ended, token).Proceed?
    ensures var b := Admit(cfg, turn, recovering, Read(slot, readAt), ended, token).base;
      b.receipts == ReceiptsIn(slot) && b.revision == |b.receipts| && b.binding == turn.binding && b.pending.None?
  {
    AdmitShape(cfg, turn, recovering, Read(slot, readAt), ended, token);
    hide Admit, ChainOk, Follows;
  }

  lemma AskedIs(t: Times, end: real, lease: int, deadline: int)
    requires t.claimedAt < end
    requires lease == (if B.Ceil(end - t.claimedAt) < 1 then 1 else B.Ceil(end - t.claimedAt))
    requires deadline == B.DeadlineFrom(B.Anchor(t.readAt, t.anchoredAt), end)
    ensures lease == AskedLease(t, end) && deadline == AskedDeadline(t, end)
  {
  }

  lemma DueIsNotRefused(cfg: Config, slot: Slot, turn: Turn, recovering: bool, ended: bool, now: int)
    ensures Due(cfg, slot, turn, recovering, ended, now) ==> !(BoundTo(cfg, slot, turn) && IsAnswered(slot, turn))
    ensures forall code :: RefusedWith(cfg, slot, turn, recovering, ended, now, code) ==>
      !Due(cfg, slot, turn, recovering, ended, now) && !(BoundTo(cfg, slot, turn) && IsAnswered(slot, turn))
  {
    forall code | RefusedWith(cfg, slot, turn, recovering, ended, now, code)
      ensures !Due(cfg, slot, turn, recovering, ended, now) && !(BoundTo(cfg, slot, turn) && IsAnswered(slot, turn))
    {
      DecisionsDiffer(cfg, slot, turn, recovering, ended, now, code, code);
    }
  }

  /** The store's rule for an admitted request's claim, and the slot it leaves. */
  lemma ClaimIs(cfg: Config, turn: Turn, recovering: bool, slot: Slot, ended: bool, token: Token, t: Times, end: real, receiptTTL: nat)
    requires SlotOk(cfg, slot) && Admit(cfg, turn, recovering, Read(slot, t.readAt), ended, token).Proceed? && t.claimedAt < end
    ensures var v := Admit(cfg, turn, recovering, Read(slot, t.readAt), ended, token);
      var claimed := v.base.(pending := Some(v.pending));
      && (1 <= receiptTTL <= 2147483647 ==>
            (ValidClaim(v.base.revision, claimed, receiptTTL, Some(AskedLease(t, end)), Some(AskedDeadline(t, end))) <==> CanAsk(t, end)))
      && (CanClaim(slot, t.claimAt, v.base.revision, v.replace, Some(AskedDeadline(t, end))) <==> IsGranted(slot, recovering, t, end))
      && HoldsClaim(slot, Claim(slot, t.claimAt, claimed, receiptTTL, Some(AskedLease(t, end)), Some(AskedDeadline(t, end))),
                    turn, recovering, token, t, end, receiptTTL)
  {
    AdmissionIsExact(cfg, slot, turn, recovering, ended, token, t.readAt);
    var v := Admit(cfg, turn, recovering, Read(slot, t.readAt), ended, token);
    hide Admit, LedgerOk, Due, ValidClaim, CanAsk, CanClaim, IsGranted, HoldsClaim, AskedLease, AskedDeadline, CarriesBase;
    BaseIsRead(cfg, turn, recovering, slot, ended, token, t.readAt);
    ClaimIsValid(v, turn, recovering, slot, token, t, end, receiptTTL);
    ClaimIsGranted(cfg, turn, recovering, slot, ended, token, t, end, v);
    hide SlotOk;
    BaseCounts(cfg, v, turn, recovering, slot, token);
    ClaimIsHeld(turn, recovering, slot, token, t, end, receiptTTL, v);
  }

  /** The ledger, owner and predecessor that an admitted request takes from the slot it read. */
  ghost predicate CarriesBase(v: Verdict, turn: Turn, recovering: bool, slot: Slot, token: Token) {
    && v.Proceed? && v.base == (if slot.ledger.Some? then Core(slot.ledger.value) else FreshLedger(turn.binding))
    && v.base.binding == turn.binding && v.pending == Owning(turn, recovering, v.base.revision, token)
    && v.replace == if recovering && PendingIn(slot).Some? then Some(PendingIn(slot).value.token) else None
  }

  lemma BaseIsRead(cfg: Config, turn: Turn, recovering: bool, slot: Slot, ended: bool, token: Token, now: int)
    requires Admit(cfg, turn, recovering, Read(slot, now), ended, token).Proceed?
    ensures CarriesBase(Admit(cfg, turn, recovering, Read(slot, now), ended, token), turn, recovering, slot, token)
  {
    AdmitShape(cfg, turn, recovering, Read(slot, now), ended, token);
    hide Admit;
  }

  lemma ClaimIsValid(v: Verdict, turn: Turn, recovering: bool, slot: Slot, token: Token, t: Times, end: real, receiptTTL: nat)
    requires CarriesBase(v, turn, recovering, slot, token) && t.claimedAt < end
    ensures 1 <= receiptTTL <= 2147483647 ==>
      (ValidClaim(v.base.revision, v.base.(pending := Some(v.pending)), receiptTTL, Some(AskedLease(t, end)), Some(AskedDeadline(t, end)))
       <==> CanAsk(t, end))
  {
    hide CarriesBase, AskedDeadline;
  }

  lemma ClaimIsGranted(cfg: Config, turn: Turn, recovering: bool, slot: Slot, ended: bool, token: Token, t: Times, end: real, v: Verdict)
    requires Due(cfg, slot, turn, recovering, ended, t.readAt) && CarriesBase(v, turn, recovering, slot, token)
    ensures CanClaim(slot, t.claimAt, v.base.revision, v.replace, Some(AskedDeadline(t, end))) <==> IsGranted(slot, recovering, t, end)
  {
    hide AskedDeadline, Continues, IsAnswered, BoundTo;
  }

  lemma ClaimIsHeld(turn: Turn, recovering: bool, slot: Slot, token: Token, t: Times, end: real, receiptTTL: nat, v: Verdict)
    requires CarriesBase(v, turn, recovering, slot, token) && v.base.receipts == ReceiptsIn(slot) && v.base.revision == |ReceiptsIn(slot)|
    ensures HoldsClaim(slot, Claim(slot, t.claimAt, v.base.(pending := Some(v.pending)), receiptTTL, Some(AskedLease(t, end)), Some(AskedDeadline(t, end))),
                       turn, recovering, token, t, end, receiptTTL)
  {
    hide AskedDeadline, AskedLease;
  }

  /** A well-formed ledger counts its receipts. */
  lemma BaseCounts(cfg: Config, v: Verdict, turn: Turn, recovering: bool, slot: Slot, token: Token)
    requires SlotOk(cfg, slot) && CarriesBase(v, turn, recovering, slot, token)
    ensures v.base.receipts == ReceiptsIn(slot) && v.base.revision == |ReceiptsIn(slot)|
  {
    hide ChainOk, Follows;
  }
}
