/**
  The gateway's local decisions (lib/TurnGateway.js): what one request does with what it has read.
  The interleaving of many requests is TurnProtocol.
 */
module TurnGateway {
  import opened Wrappers
  import opened TurnTypes
  import opened TurnStoreSpec
  import T = Transcript

  datatype Code =
    | UnboundSession | ScopeConflict | BindingConflict | ProviderSessionClosed | UncertainTurn
    | NoPendingTurn | TranscriptConflict | ReceiptLimit | TurnInProgress

  /** One gateway and one session key. `canRecover` and `checksEvents` say which collaborators are configured. */
  datatype Config = Config(key: string, applicationId: string, serviceCode: string, maxTurns: nat,
                           canRecover: bool, checksEvents: bool)

  datatype Verdict =
    | Replay(response: Response)
    | Reject(code: Code)
    | Proceed(base: Ledger, pending: Pending, replace: Option<Token>, session: Option<Session>)

  function FindReceipt(receipts: seq<Receipt>, fingerprint: Fingerprint): (found: Option<Receipt>)
    ensures found.Some? ==> found.value in receipts && found.value.fingerprint == fingerprint
    ensures found.None? ==> forall r <- receipts :: r.fingerprint != fingerprint
  {
    if receipts == [] then None
    else if receipts[0].fingerprint == fingerprint then Some(receipts[0])
    else FindReceipt(receipts[1..], fingerprint)
  }

  /** bindSession: the request must be in scope, and agree with the stored binding on every field. */
  function BindSession(cfg: Config, turn: Turn, existing: Option<Binding>): Option<Code> {
    if turn.binding.provider != "africas-talking" || turn.binding.applicationId != cfg.applicationId
       || turn.binding.serviceCode != cfg.serviceCode then Some(ScopeConflict)
    else if existing.Some? && existing.value != turn.binding then Some(BindingConflict)
    else None
  }

  /** The request after its first read; `ended` is what the event store answered, if it is consulted. */
  function Admit(cfg: Config, turn: Turn, recovering: bool, seen: Observation, ended: bool, token: Token): Verdict {
    if seen.Orphan? then Reject(UnboundSession)
    else
      var bound := BindSession(cfg, turn, if seen.Found? then Some(seen.ledger.binding) else None);
      if bound.Some? then Reject(bound.value)
      else
        var receipt := if seen.Found? then FindReceipt(seen.ledger.receipts, turn.Identity()) else None;
        if receipt.Some? then Replay(receipt.value.response)
        else if !recovering && ((seen.Found? && seen.closed) || (cfg.checksEvents && ended)) then Reject(ProviderSessionClosed)
        else if seen.Found? && seen.ledger.pending.Some? then
          if !recovering || !cfg.canRecover || seen.ledger.pending.value.fingerprint != turn.Identity() then Reject(UncertainTurn)
          else if |seen.ledger.receipts| >= cfg.maxTurns then Reject(ReceiptLimit)
          else Proceed(Core(seen.ledger), Owning(turn, true, seen.ledger.revision, token),
                       Some(seen.ledger.pending.value.token), seen.session)
        else if recovering then Reject(NoPendingTurn)
        else
          var relation := T.CompareTranscript(turn.Position(), turn.transcript, if seen.Found? then seen.ledger.transcript else None);
          if relation !in {T.Initial, T.Next} || (seen.Found? && (seen.ledger.completed || seen.activeExpiresAt <= seen.now)) then
            Reject(TranscriptConflict)
          else if seen.Found? && |seen.ledger.receipts| >= cfg.maxTurns then Reject(ReceiptLimit)
          else if seen.Found? then Proceed(Core(seen.ledger), Owning(turn, false, seen.ledger.revision, token), None, seen.session)
          else if 0 >= cfg.maxTurns then Reject(ReceiptLimit)
          else Proceed(FreshLedger(turn.binding), Owning(turn, false, 0, token), None, None)
  }

  function Owning(turn: Turn, recovering: bool, revision: nat, token: Token): Pending {
    Pending(token, turn.Identity(), turn.Position(), revision, if recovering then Recovery else Normal, None)
  }

  /** A request whose claim was refused reads again: the winner may already have installed its answer. */
  function AfterLostClaim(cfg: Config, turn: Turn, seen: Observation): Verdict {
    var bound := BindSession(cfg, turn, if seen.Found? then Some(seen.ledger.binding) else None);
    if bound.Some? then Reject(bound.value)
    else
      var receipt := if seen.Found? then FindReceipt(seen.ledger.receipts, turn.Identity()) else None;
      if receipt.Some? then Replay(receipt.value.response) else Reject(TurnInProgress)
  }

  /** The ledger a prepared turn asks the store to install. */
  function Committed(base: Ledger, turn: Turn, response: Response): Ledger {
    base.(pending := None, revision := base.revision + 1, transcript := Some(turn.transcript),
          completed := IsEnd(response),
          receipts := base.receipts + [Receipt(turn.Identity(), turn.Position(), response)])
  }

  /** formatResponse: an answer opens with CON or END and says something. */
  predicate Formatted(response: Response) {
    ("CON " <= response || "END " <= response) && |response| > 4
  }

  predicate IsAnswer(response: Response, text: string) { response == "CON " + text || response == "END " + text }

  /** An answer is one of the two words followed by a text that is not empty, and it ends the session exactly if the word is END. */
  lemma FormattedIs(response: Response)
    ensures Formatted(response) <==> exists text :: text != "" && IsAnswer(response, text)
    ensures Formatted(response) ==> (IsEnd(response) <==> response == "END " + response[4..])
  {
    if Formatted(response) {
      var word, text := response[..4], response[4..];
      assert response == word + text && (word == "CON " || word == "END ");
      assert IsAnswer(response, text);
    }
    if text :| text != "" && IsAnswer(response, text) {
      assert ("CON " + text)[..4] == "CON " && ("END " + text)[..4] == "END ";
    }
    assert "END "[0] == 'E' && "CON "[0] == 'C';
  }

  // ---- what a ledger must satisfy ----

  /** Receipt i answers the request at position i, and each request extends the one before by one choice. */
  ghost predicate ChainOk(cfg: Config, receipts: seq<Receipt>) {
    && (forall i | 0 <= i < |receipts| :: ReceiptOk(cfg, receipts[i], i))
    && (forall i | 0 < i < |receipts| :: LinkOk(receipts, i))
  }

  ghost predicate LinkOk(receipts: seq<Receipt>, i: nat)
    requires 0 < i < |receipts|
  {
    && T.ExtendsByOne(receipts[i - 1].fingerprint.transcript, receipts[i].fingerprint.transcript)
    && !IsEnd(receipts[i - 1].response)
  }

  ghost predicate ReceiptOk(cfg: Config, receipt: Receipt, i: nat) {
    && receipt.position == i
    && receipt.fingerprint == Fingerprint(cfg.key, i, receipt.fingerprint.transcript)
    && T.Position(receipt.fingerprint.transcript) == i
    && Formatted(receipt.response)
  }

  ghost predicate CoreOk(cfg: Config, ledger: Ledger) {
    && ChainOk(cfg, ledger.receipts)
    && |ledger.receipts| == ledger.revision <= cfg.maxTurns
    && (ledger.revision == 0 ==> ledger.transcript.None? && !ledger.completed)
    && (ledger.revision > 0 ==>
          var last := ledger.receipts[ledger.revision - 1];
          ledger.transcript == Some(last.fingerprint.transcript) && (ledger.completed <==> IsEnd(last.response)))
  }

  /** `fingerprint` is the identity of a request that may follow this ledger. */
  ghost predicate Follows(cfg: Config, ledger: Ledger, fingerprint: Fingerprint) {
    && !ledger.completed && ledger.revision < cfg.maxTurns
    && fingerprint == Fingerprint(cfg.key, ledger.revision, fingerprint.transcript)
    && T.Position(fingerprint.transcript) == ledger.revision
    && (ledger.transcript.Some? ==> T.ExtendsByOne(ledger.transcript.value, fingerprint.transcript))
  }

  /** A stored ledger: its pending owner may follow it, and a first claim is pending until it commits. */
  ghost predicate LedgerOk(cfg: Config, ledger: Ledger) {
    && CoreOk(cfg, Core(ledger))
    && (ledger.revision == 0 ==> ledger.pending.Some?)
    && (ledger.pending.Some? ==>
          var p := ledger.pending.value;
          Follows(cfg, Core(ledger), p.fingerprint) && p.revision == ledger.revision && p.position == ledger.revision)
  }

  lemma DistinctFingerprints(cfg: Config, receipts: seq<Receipt>, i: nat, j: nat)
    requires ChainOk(cfg, receipts) && i < |receipts| && j < |receipts|
    requires receipts[i].fingerprint == receipts[j].fingerprint
    ensures i == j
  {
    assert ReceiptOk(cfg, receipts[i], i) && ReceiptOk(cfg, receipts[j], j);
  }

  /** What an admitted request carries, and what it must have seen. */
  ghost predicate AdmittedFrom(cfg: Config, turn: Turn, recovering: bool, seen: Observation, ended: bool, token: Token, v: Verdict)
    requires v.Proceed?
  {
    && !seen.Orphan?
    && v.base == Core(v.base) && v.base.binding == turn.binding
    && v.pending == Owning(turn, recovering, v.base.revision, token)
    && (v.replace.Some? <==> recovering)
    && (seen.Found? ==> v.base == Core(seen.ledger) && v.session == seen.session && (recovering <==> seen.ledger.pending.Some?))
    && (seen.Empty? ==> v.base == FreshLedger(turn.binding) && v.session.None? && !recovering)
    && (recovering ==> seen.ledger.pending.value.fingerprint == turn.Identity() && v.replace.value == seen.ledger.pending.value.token)
    && (!recovering ==> !(cfg.checksEvents && ended))
  }

  lemma AdmitShape(cfg: Config, turn: Turn, recovering: bool, seen: Observation, ended: bool, token: Token)
    ensures var v := Admit(cfg, turn, recovering, seen, ended, token);
      && (v.Proceed? ==> AdmittedFrom(cfg, turn, recovering, seen, ended, token, v))
      && (v.Replay? ==> seen.Found? && seen.ledger.binding == turn.binding
                        && FindReceipt(seen.ledger.receipts, turn.Identity()).Some?
                        && v.response == FindReceipt(seen.ledger.receipts, turn.Identity()).value.response)
  {
  }

  /** An admitted request follows the ledger it read, whether it is a first attempt or a recovery. */
  lemma AdmittedFollows(cfg: Config, turn: Turn, recovering: bool, seen: Observation, ended: bool, token: Token)
    requires turn.sessionKey == cfg.key
    requires seen.Found? ==> LedgerOk(cfg, seen.ledger)
    requires Admit(cfg, turn, recovering, seen, ended, token).Proceed?
    ensures var v := Admit(cfg, turn, recovering, seen, ended, token);
      CoreOk(cfg, v.base) && Follows(cfg, v.base, turn.Identity()) && v.base == Core(v.base)
  {
    var v := Admit(cfg, turn, recovering, seen, ended, token);
    if seen.Found? && !recovering {
      assert CoreOk(cfg, Core(seen.ledger));
      assert seen.ledger.transcript.Some?;
      T.ComparisonIsExact(turn.Position(), turn.transcript, seen.ledger.transcript.value);
      var last := seen.ledger.receipts[seen.ledger.revision - 1];
      assert ReceiptOk(cfg, last, seen.ledger.revision - 1);
    }
  }

  /** Installing the answer of a request that follows keeps the ledger's chain and appends exactly one receipt. */
  lemma CommitKeepsChain(cfg: Config, base: Ledger, turn: Turn, response: Response)
    requires turn.sessionKey == cfg.key && CoreOk(cfg, base) && Follows(cfg, base, turn.Identity()) && Formatted(response)
    ensures var l := Committed(base, turn, response);
      && CoreOk(cfg, l) && l.pending.None? && l.revision > 0
      && l.receipts == base.receipts + [Receipt(turn.Identity(), base.revision, response)]
  {
    var l := Committed(base, turn, response);
    forall i | 0 <= i < |l.receipts|
      ensures ReceiptOk(cfg, l.receipts[i], i)
    {
      if i < |base.receipts| {
        assert ReceiptOk(cfg, base.receipts[i], i);
      }
    }
    forall i | 0 < i < |l.receipts|
      ensures LinkOk(l.receipts, i)
    {
      if i < |base.receipts| {
        assert LinkOk(base.receipts, i);
      }
    }
  }

  // ---- what the admission decides ----

  function ReceiptsIn(slot: Slot): seq<Receipt> { if slot.ledger.Some? then slot.ledger.value.receipts else [] }

  function PendingIn(slot: Slot): Option<Pending> { if slot.ledger.Some? then slot.ledger.value.pending else None }

  ghost predicate SlotOk(cfg: Config, slot: Slot) { slot.ledger.Some? ==> LedgerOk(cfg, slot.ledger.value) }

  /** The request's own channel, application and service. */
  ghost predicate InScope(cfg: Config, turn: Turn) {
    && turn.binding.provider == "africas-talking"
    && turn.binding.applicationId == cfg.applicationId
    && turn.binding.serviceCode == cfg.serviceCode
  }

  /** A session written by other code, which no ledger accounts for. */
  ghost predicate Stray(slot: Slot) { slot.ledger.None? && slot.session.Some? }

  /** The request belongs to the session the record is bound to, if there is a record. */
  ghost predicate BoundTo(cfg: Config, slot: Slot, turn: Turn) {
    InScope(cfg, turn) && !Stray(slot) && (slot.ledger.Some? ==> slot.ledger.value.binding == turn.binding)
  }

  ghost predicate HasAnswer(slot: Slot, turn: Turn, response: Response) {
    exists r :: r in ReceiptsIn(slot) && r.fingerprint == turn.Identity() && r.response == response
  }

  ghost predicate IsAnswered(slot: Slot, turn: Turn) { exists r :: r in ReceiptsIn(slot) && r.fingerprint == turn.Identity() }

  /** A provider end event bars the turn: by the record's mark, or by the event store where the gateway consults it. */
  ghost predicate IsBarred(cfg: Config, slot: Slot, ended: bool) { (slot.ledger.Some? && slot.closed) || (cfg.checksEvents && ended) }

  /** The transcript opens a session that has no record, or adds one input to the last one answered, while the session is active. */
  ghost predicate Continues(slot: Slot, turn: Turn, now: int) {
    if slot.ledger.None? then turn.transcript == ""
    else
      var l := slot.ledger.value;
      && !l.completed && now < slot.activeExpiresAt
      && l.transcript.Some? && T.ExtendsByOne(l.transcript.value, turn.transcript)
  }

  /** The request takes over the very turn that is pending. */
  ghost predicate TakesOver(cfg: Config, slot: Slot, turn: Turn) {
    cfg.canRecover && PendingIn(slot).Some? && PendingIn(slot).value.fingerprint == turn.Identity()
  }

  /** When a request is admitted to claim the next revision, or to take the pending one over. */
  ghost predicate Due(cfg: Config, slot: Slot, turn: Turn, recovering: bool, ended: bool, now: int) {
    && BoundTo(cfg, slot, turn) && !IsAnswered(slot, turn) && |ReceiptsIn(slot)| < cfg.maxTurns
    && if recovering then TakesOver(cfg, slot, turn)
       else !IsBarred(cfg, slot, ended) && PendingIn(slot).None? && Continues(slot, turn, now)
  }

  /** When it is refused, and with which code. */
  ghost predicate RefusedWith(cfg: Config, slot: Slot, turn: Turn, recovering: bool, ended: bool, now: int, code: Code) {
    var open := BoundTo(cfg, slot, turn) && !IsAnswered(slot, turn) && (recovering || !IsBarred(cfg, slot, ended));
    match code
    case UnboundSession => Stray(slot)
    case ScopeConflict => !Stray(slot) && !InScope(cfg, turn)
    case BindingConflict => InScope(cfg, turn) && slot.ledger.Some? && slot.ledger.value.binding != turn.binding
    case ProviderSessionClosed => BoundTo(cfg, slot, turn) && !IsAnswered(slot, turn) && !recovering && IsBarred(cfg, slot, ended)
    case UncertainTurn => open && PendingIn(slot).Some? && !(recovering && TakesOver(cfg, slot, turn))
    case NoPendingTurn => open && recovering && PendingIn(slot).None?
    case TranscriptConflict => open && !recovering && PendingIn(slot).None? && !Continues(slot, turn, now)
    case ReceiptLimit =>
      && open && |ReceiptsIn(slot)| >= cfg.maxTurns
      && (if recovering then TakesOver(cfg, slot, turn) else PendingIn(slot).None? && Continues(slot, turn, now))
    case TurnInProgress => false
  }

  lemma FoundIsAnswer(receipts: seq<Receipt>, fingerprint: Fingerprint)
    ensures FindReceipt(receipts, fingerprint).Some? <==> exists r :: r in receipts && r.fingerprint == fingerprint
  {
    var found := FindReceipt(receipts, fingerprint);
    if found.Some? { assert found.value in receipts; }
  }

  lemma RelationIs(turn: Turn, previous: Option<string>)
    ensures var relation := T.CompareTranscript(turn.Position(), turn.transcript, previous);
      relation in {T.Initial, T.Next} <==>
        if previous.None? then turn.transcript == "" else T.ExtendsByOne(previous.value, turn.transcript)
  {
    if previous.Some? {
      T.ComparisonIsExact(turn.Position(), turn.transcript, previous.value);
    } else {
      assert turn.Position() == 0 <==> turn.transcript == "";
    }
  }

  lemma Lookups(cfg: Config, slot: Slot, turn: Turn)
    requires SlotOk(cfg, slot)
    ensures var found := FindReceipt(ReceiptsIn(slot), turn.Identity());
      && (found.Some? <==> IsAnswered(slot, turn))
      && (found.Some? ==> HasAnswer(slot, turn, found.value.response))
      && (slot.ledger.None? ==> found.None?)
    ensures slot.ledger.Some? && slot.ledger.value.pending.None? ==> slot.ledger.value.transcript.Some?
  {
    FoundIsAnswer(ReceiptsIn(slot), turn.Identity());
  }

  lemma DecisionHolds(cfg: Config, slot: Slot, turn: Turn, recovering: bool, ended: bool, token: Token, now: int)
    requires SlotOk(cfg, slot)
    ensures var v := Admit(cfg, turn, recovering, Read(slot, now), ended, token);
      && (v.Proceed? ==> Due(cfg, slot, turn, recovering, ended, now))
      && (v.Replay? ==> BoundTo(cfg, slot, turn) && IsAnswered(slot, turn) && HasAnswer(slot, turn, v.response))
      && (v.Reject? ==> RefusedWith(cfg, slot, turn, recovering, ended, now, v.code))
  {
    hide T.CompareTranscript, T.ExtendsByOne, T.Position, T.Segments, T.LatestInput, FindReceipt, HasAnswer, IsAnswered, LedgerOk, Owning, FreshLedger;
    Lookups(cfg, slot, turn);
    RelationIs(turn, if slot.ledger.Some? then slot.ledger.value.transcript else None);
  }

  lemma DecisionsDiffer(cfg: Config, slot: Slot, turn: Turn, recovering: bool, ended: bool, now: int, code: Code, other: Code)
    requires RefusedWith(cfg, slot, turn, recovering, ended, now, code)
    ensures !Due(cfg, slot, turn, recovering, ended, now) && !(BoundTo(cfg, slot, turn) && IsAnswered(slot, turn))
    ensures RefusedWith(cfg, slot, turn, recovering, ended, now, other) ==> other == code
  {
    hide IsAnswered, Continues;
  }

  /** The decision on a request, stated on the record alone: admitted, answered from a receipt, or refused with one code. */
  lemma AdmissionIsExact(cfg: Config, slot: Slot, turn: Turn, recovering: bool, ended: bool, token: Token, now: int)
    requires SlotOk(cfg, slot)
    ensures var v := Admit(cfg, turn, recovering, Read(slot, now), ended, token);
      && (v.Proceed? <==> Due(cfg, slot, turn, recovering, ended, now))
      && (v.Replay? <==> BoundTo(cfg, slot, turn) && IsAnswered(slot, turn))
      && (v.Replay? ==> HasAnswer(slot, turn, v.response))
      && (forall code :: v == Reject(code) <==> RefusedWith(cfg, slot, turn, recovering, ended, now, code))
  {
    DecisionHolds(cfg, slot, turn, recovering, ended, token, now);
    var v := Admit(cfg, turn, recovering, Read(slot, now), ended, token);
    assert Due(cfg, slot, turn, recovering, ended, now) ==> !IsAnswered(slot, turn);
    hide Admit, RefusedWith, Due, BoundTo, IsAnswered, HasAnswer;
    forall code
      ensures v == Reject(code) <==> RefusedWith(cfg, slot, turn, recovering, ended, now, code)
    {
      if RefusedWith(cfg, slot, turn, recovering, ended, now, code) {
        DecisionsDiffer(cfg, slot, turn, recovering, ended, now, code, if v.Reject? then v.code else code);
      }
    }
    if v.Reject? { DecisionsDiffer(cfg, slot, turn, recovering, ended, now, v.code, v.code); }
  }

  /** In a well-formed record the request that continues it is not yet answered. */
  lemma NextIsUnanswered(cfg: Config, ledger: Ledger, turn: Turn)
    requires LedgerOk(cfg, ledger) && ledger.transcript.Some? && T.ExtendsByOne(ledger.transcript.value, turn.transcript)
    ensures forall r <- ledger.receipts :: r.fingerprint != turn.Identity()
  {
    var last := ledger.receipts[ledger.revision - 1];
    assert ReceiptOk(cfg, last, ledger.revision - 1);
    forall r <- ledger.receipts
      ensures r.fingerprint != turn.Identity()
    {
      var i :| 0 <= i < |ledger.receipts| && ledger.receipts[i] == r;
      assert ReceiptOk(cfg, r, i);
    }
  }

  /**
    The active window, across commit, read, admission and claim. After a commit at `at` a turn that goes on from it
    is admitted on a live and unfenced record if and only if it reads before `at + activeMs`, is refused with a
    transcript conflict otherwise, and once admitted is granted its claim if and only if that too comes before it.
   */
  lemma ActiveWindow(cfg: Config, slot: Slot, at: int, ledger: Ledger, session: Session, ttl: nat, activeMs: nat,
                     turn: Turn, ended: bool, token: Token, readAt: int, claimAt: int, deadlineAt: int)
    requires LedgerOk(cfg, ledger) && ledger.pending.None? && !ledger.completed && ledger.revision < cfg.maxTurns
    requires InScope(cfg, turn) && ledger.binding == turn.binding && T.ExtendsByOne(ledger.transcript.value, turn.transcript)
    requires !slot.closed && !(cfg.checksEvents && ended)
    requires readAt < at + ttl * 1000 && claimAt < at + ttl * 1000 && claimAt < deadlineAt
    ensures var after := Commit(slot, at, ledger, session, ttl, activeMs);
      var v := Admit(cfg, turn, false, Read(Live(after, readAt), readAt), ended, token);
      && (v.Proceed? <==> readAt < at + activeMs)
      && (!v.Proceed? ==> v == Reject(TranscriptConflict))
      && (v.Proceed? ==>
            (CanClaim(Live(after, claimAt), claimAt, v.base.revision, v.replace, Some(deadlineAt)) <==> claimAt < at + activeMs))
  {
    var after := Commit(slot, at, ledger, session, ttl, activeMs);
    CommitLasts(slot, at, ledger, session, ttl, activeMs, readAt);
    CommitLasts(slot, at, ledger, session, ttl, activeMs, claimAt);
    NextIsUnanswered(cfg, ledger, turn);
    AdmissionIsExact(cfg, after, turn, false, ended, token, readAt);
    AdmitShape(cfg, turn, false, Read(after, readAt), ended, token);
    hide Admit, LedgerOk, T.ExtendsByOne;
  }
}
