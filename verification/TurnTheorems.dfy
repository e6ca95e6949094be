/** What the turn protocol guarantees over every run. */
module TurnTheorems {
  import opened Wrappers
  import opened TurnTypes
  import opened TurnStoreSpec
  import opened TurnGateway
  import opened TurnProtocol
  import opened TurnInvariant
  import B = TurnBudget
  import T = Transcript

  lemma InitialOk(cfg: Config)
    ensures Inv(cfg, INITIAL)
  {
  }

  lemma {:induction false} RunKeeps(cfg: Config, s: System, steps: seq<Step>)
    requires Inv(cfg, s) && Legal(cfg, s, steps)
    ensures Inv(cfg, Run(cfg, s, steps))
    decreases |steps|
  {
    if steps != [] {
      StepKeeps(cfg, s, steps[0]);
      RunKeeps(cfg, Apply(cfg, s, steps[0]), steps[1..]);
    }
  }

  lemma ReachableOk(cfg: Config, steps: seq<Step>)
    requires Legal(cfg, INITIAL, steps)
    ensures Inv(cfg, Run(cfg, INITIAL, steps))
  {
    InitialOk(cfg);
    RunKeeps(cfg, INITIAL, steps);
  }

  /**
    Within one record lifetime prepareTurn starts at most once for a revision, and at most one normal
    claim is ever granted for it: neither a crash, nor a lapsed lease, nor a recovery reopens it.
   */
  lemma PreparedAtMostOnce(cfg: Config, steps: seq<Step>, i: nat, j: nat)
    requires Legal(cfg, INITIAL, steps)
    ensures var s := Run(cfg, INITIAL, steps);
      && (i < |s.starts| && j < |s.starts| && s.starts[i].life == s.starts[j].life && s.starts[i].revision == s.starts[j].revision ==> i == j)
      && (i < |s.wins| && j < |s.wins| && s.wins[i].life == s.wins[j].life && s.wins[i].revision == s.wins[j].revision ==> i == j)
  {
    ReachableOk(cfg, steps);
  }

  /** No step rewrites or drops an installed receipt of any lifetime. */
  lemma StepGrows(cfg: Config, s: System, step: Step, k: nat)
    requires Enabled(cfg, s, step) && k < |s.lives|
    ensures s.lives[k].entries <= Apply(cfg, s, step).lives[k].entries
  {
    if step.TryClaim? {
    } else if step.Install? {
    } else if step.Decide? || step.ReadAgain? {
      assert Apply(cfg, s, step).lives == s.lives;
    }
  }

  lemma {:induction false} RunGrows(cfg: Config, s: System, steps: seq<Step>, k: nat)
    requires Inv(cfg, s) && Legal(cfg, s, steps) && k < |s.lives|
    ensures s.lives[k].entries <= Run(cfg, s, steps).lives[k].entries
    decreases |steps|
  {
    if steps != [] {
      StepGrows(cfg, s, steps[0], k);
      StepKeeps(cfg, s, steps[0]);
      RunGrows(cfg, Apply(cfg, s, steps[0]), steps[1..], k);
    }
  }

  lemma {:induction false} RunSplit(cfg: Config, s: System, first: seq<Step>, rest: seq<Step>)
    requires |s.lives| > 0 && Legal(cfg, s, first) && Legal(cfg, Run(cfg, s, first), rest)
    ensures Legal(cfg, s, first + rest) && Run(cfg, s, first + rest) == Run(cfg, Run(cfg, s, first), rest)
    decreases |first|
  {
    if first == [] {
      assert first + rest == rest;
    } else {
      assert (first + rest)[1..] == first[1..] + rest;
      RunSplit(cfg, Apply(cfg, s, first[0]), first[1..], rest);
    }
  }

  /**
    Of the original owner of a revision and all who recover it, at most one installs it: whatever runs
    follow, the revision keeps the installer, the receipt and the kind it first got.
   */
  lemma OneInstallPerRevision(cfg: Config, steps: seq<Step>, id: Token, ttl: nat, activeMs: nat, later: seq<Step>)
    requires Legal(cfg, INITIAL, steps)
    requires Enabled(cfg, Run(cfg, INITIAL, steps), Install(id, ttl, activeMs))
    requires var s := Run(cfg, INITIAL, steps); CanCommit(s.slot, s.now, s.requests[id].stage.base.revision, id)
    requires Legal(cfg, Apply(cfg, Run(cfg, INITIAL, steps), Install(id, ttl, activeMs)), later)
    ensures var s := Run(cfg, INITIAL, steps);
      var p := s.requests[id].stage;
      var end := Run(cfg, Apply(cfg, s, Install(id, ttl, activeMs)), later);
      && p.life == Now(s)
      && p.base.revision < |end.lives[p.life].entries|
      && var e := end.lives[p.life].entries[p.base.revision];
      e.token == id && e.kind == p.pending.kind && e.receipt.fingerprint == s.requests[id].turn.Identity() && e.receipt.response == p.response
  {
    var s := Run(cfg, INITIAL, steps);
    ReachableOk(cfg, steps);
    CommitterHolds(cfg, s, id);
    assert |ReceiptsOf(s.lives[Now(s)].entries)| == |s.lives[Now(s)].entries|;
    InstallKeeps(cfg, s, id, ttl, activeMs);
    RunGrows(cfg, Apply(cfg, s, Install(id, ttl, activeMs)), later, Now(s));
  }

  /**
    The ledger in every reachable state: as many receipts as revisions and at most maxTurns; receipt i
    answers position i; fingerprints are distinct; each transcript extends the previous one by exactly
    one segment; only the last receipt can end the session, and then nothing is pending.
   */
  lemma LedgerShape(cfg: Config, steps: seq<Step>, ledger: Ledger, i: nat, j: nat)
    requires Legal(cfg, INITIAL, steps) && Run(cfg, INITIAL, steps).slot.ledger == Some(ledger)
    requires i < |ledger.receipts| && j < |ledger.receipts|
    ensures |ledger.receipts| == ledger.revision <= cfg.maxTurns
    ensures ledger.receipts[i].position == i == T.Position(ledger.receipts[i].fingerprint.transcript)
    ensures ledger.receipts[i].fingerprint == ledger.receipts[j].fingerprint <==> i == j
    ensures j == i + 1 ==>
      && T.ExtendsByOne(ledger.receipts[i].fingerprint.transcript, ledger.receipts[j].fingerprint.transcript)
      && !IsEnd(ledger.receipts[i].response)
    ensures IsEnd(ledger.receipts[i].response) ==> i == ledger.revision - 1 && ledger.completed && ledger.pending.None?
  {
    ReachableOk(cfg, steps);
    assert LedgerOk(cfg, ledger);
    hide Inv, Run, Legal, T.Position, T.ExtendsByOne;
    assert ReceiptOk(cfg, ledger.receipts[i], i) && ReceiptOk(cfg, ledger.receipts[j], j);
    if j == i + 1 {
      assert LinkOk(ledger.receipts, j);
    }
    if i + 1 < |ledger.receipts| {
      assert LinkOk(ledger.receipts, i + 1);
    }
  }

  /**
    Any two successful answers for one request identity in one record lifetime are equal, whether they
    were committed, replayed, or replayed after a lost claim; and they went to the same caller.
   */
  lemma AnswersAgree(cfg: Config, steps: seq<Step>, a: Answer, b: Answer)
    requires Legal(cfg, INITIAL, steps)
    requires a in Run(cfg, INITIAL, steps).answers && b in Run(cfg, INITIAL, steps).answers
    requires a.life == b.life
    ensures a.turn.binding == b.turn.binding
    ensures a.turn.Identity() == b.turn.Identity() ==> a.response == b.response
  {
    var s := Run(cfg, INITIAL, steps);
    ReachableOk(cfg, steps);
    assert Recorded(s, a.life, a.turn, a.response) && Recorded(s, b.life, b.turn, b.response);
    var entries := s.lives[a.life].entries;
    var i :| 0 <= i < |entries| && Records(entries[i], a.turn, a.response);
    var j :| 0 <= j < |entries| && Records(entries[j], b.turn, b.response);
    assert LifeOk(cfg, s.lives[a.life]);
    if a.turn.Identity() == b.turn.Identity() {
      DistinctFingerprints(cfg, ReceiptsOf(entries), i, j);
    }
  }

  /** No answer is taken back, so what was answered at one point of a run is answered the same at any later point. */
  lemma {:induction false} AnswersGrow(cfg: Config, s: System, steps: seq<Step>)
    requires |s.lives| > 0 && Legal(cfg, s, steps)
    ensures s.answers <= Run(cfg, s, steps).answers
    decreases |steps|
  {
    if steps != [] {
      AnswersGrow(cfg, Apply(cfg, s, steps[0]), steps[1..]);
    }
  }

  lemma LaterAnswersAgree(cfg: Config, steps: seq<Step>, later: seq<Step>, a: Answer, b: Answer)
    requires Legal(cfg, INITIAL, steps) && Legal(cfg, Run(cfg, INITIAL, steps), later)
    requires a in Run(cfg, INITIAL, steps).answers && b in Run(cfg, Run(cfg, INITIAL, steps), later).answers
    requires a.life == b.life
    ensures a.turn.binding == b.turn.binding
    ensures a.turn.Identity() == b.turn.Identity() ==> a.response == b.response
  {
    AnswersGrow(cfg, Run(cfg, INITIAL, steps), later);
    RunSplit(cfg, INITIAL, steps, later);
    AnswersAgree(cfg, steps + later, a, b);
  }

  // ---- deadlines ----

  /** Some claim of this request asked for this deadline. */
  ghost predicate Asked(steps: seq<Step>, id: Token, deadlineAt: nat) {
    exists k :: 0 <= k < |steps| && steps[k].TryClaim? && steps[k].id == id && steps[k].deadlineAt == deadlineAt
  }

  ghost predicate HoldsUntil(s: System, id: Token, deadlineAt: nat) {
    id in s.requests && Holds(s.requests[id].stage) && s.requests[id].stage.deadlineAt == deadlineAt
  }

  lemma StepHolds(cfg: Config, s: System, step: Step, id: Token, deadlineAt: nat)
    requires |s.lives| > 0 && Enabled(cfg, s, step) && HoldsUntil(Apply(cfg, s, step), id, deadlineAt)
    ensures HoldsUntil(s, id, deadlineAt) || (step.TryClaim? && step.id == id && step.deadlineAt == deadlineAt)
  {
    hide Admit, CanCommit, Committed, Commit, Claim;
  }

  /** An owner's deadline is the one its claim asked for. */
  lemma {:induction false} HolderAsked(cfg: Config, s: System, steps: seq<Step>, id: Token, deadlineAt: nat)
    requires |s.lives| > 0 && Legal(cfg, s, steps) && HoldsUntil(Run(cfg, s, steps), id, deadlineAt)
    ensures HoldsUntil(s, id, deadlineAt) || Asked(steps, id, deadlineAt)
    decreases |steps|
  {
    if steps != [] {
      var s' := Apply(cfg, s, steps[0]);
      HolderAsked(cfg, s', steps[1..], id, deadlineAt);
      if HoldsUntil(s', id, deadlineAt) {
        StepHolds(cfg, s, steps[0], id, deadlineAt);
        assert HoldsUntil(s, id, deadlineAt) || steps[0].deadlineAt == deadlineAt;
      } else {
        var k :| 0 <= k < |steps[1..]| && steps[1..][k].TryClaim? && steps[1..][k].id == id && steps[1..][k].deadlineAt == deadlineAt;
        assert steps[k + 1].TryClaim?;
      }
    }
  }

  /** Over every run a commit is granted only before the deadline the request's own claim asked for, on the store's clock. */
  lemma CommitsMeetDeadlines(cfg: Config, steps: seq<Step>, id: Token, ttl: nat, activeMs: nat)
    requires Legal(cfg, INITIAL, steps)
    requires Enabled(cfg, Run(cfg, INITIAL, steps), Install(id, ttl, activeMs))
    requires var s := Run(cfg, INITIAL, steps); CanCommit(s.slot, s.now, s.requests[id].stage.base.revision, id)
    ensures var s := Run(cfg, INITIAL, steps); exists d: nat :: s.now < d && Asked(steps, id, d)
  {
    var s := Run(cfg, INITIAL, steps);
    ReachableOk(cfg, steps);
    CommitterHolds(cfg, s, id);
    HolderAsked(cfg, INITIAL, steps, id, s.requests[id].stage.deadlineAt);
  }

  /**
    Over every run no commit is granted after the request's own budget has ended, whatever the offset of
    the clocks and however long any step takes: each claim of the request passes the deadline its budget
    computes from the reading it anchored, and the reading was taken before it was anchored.
   */
  lemma NoCommitAfterBudgetEnd(cfg: Config, steps: seq<Step>, id: Token, ttl: nat, activeMs: nat,
                               readAt: real, anchoredAt: real, commitAt: real, end: real, mono: real, store: real)
    requires Legal(cfg, INITIAL, steps)
    requires Enabled(cfg, Run(cfg, INITIAL, steps), Install(id, ttl, activeMs))
    requires var s := Run(cfg, INITIAL, steps); CanCommit(s.slot, s.now, s.requests[id].stage.base.revision, id)
    requires readAt <= anchoredAt && Run(cfg, INITIAL, steps).now == B.StoreTime(commitAt, store)
    requires forall step <- steps :: step.TryClaim? && step.id == id ==>
      step.deadlineAt == B.DeadlineFrom(B.Anchor(B.StoreTime(readAt, store), B.Monotonic(anchoredAt, mono)), end)
    ensures B.Monotonic(commitAt, mono) < end
  {
    CommitsMeetDeadlines(cfg, steps, id, ttl, activeMs);
    var d: nat :| Run(cfg, INITIAL, steps).now < d && Asked(steps, id, d);
    B.CommitBeforeDeadline(d, readAt, anchoredAt, commitAt, end, mono, store);
  }

  // ---- progress ----

  /** The steps of one request up to its handler's start, when nothing disturbs it. */
  function Opening(id: Token, turn: Turn, recovering: bool, ttl: nat, leaseMs: nat, deadlineAt: nat): seq<Step> {
    [Arrive(id, turn, recovering), ReadStore(id), Decide(id), TryClaim(id, ttl, leaseMs, deadlineAt), Begin(id)]
  }

  /** The rest of them. */
  function Closing(id: Token, response: Response, after: Session, ttl: nat, activeMs: nat): seq<Step> {
    [Finish(id, response, after), Install(id, ttl, activeMs), Reply(id)]
  }

  function Undisturbed(id: Token, turn: Turn, recovering: bool, response: Response, after: Session,
                       ttl: nat, leaseMs: nat, deadlineAt: nat, activeMs: nat): seq<Step>
  {
    Opening(id, turn, recovering, ttl, leaseMs, deadlineAt) + Closing(id, response, after, ttl, activeMs)
  }

  /** What the store and the clock ask of a request that is to be served now. */
  predicate Admissible(cfg: Config, s: System, id: Token, turn: Turn, recovering: bool) {
    && |s.lives| > 0 && id !in s.requests && turn.sessionKey == cfg.key
    && Admit(cfg, turn, recovering, Read(s.slot, s.now), s.event.Some?, id).Proceed?
    && (s.slot.closed ==> recovering)
  }

  predicate ClaimTimes(s: System, ttl: nat, leaseMs: nat, deadlineAt: nat) {
    1 <= ttl <= 2147483647 && 1 <= leaseMs <= 2147483647 && deadlineAt > 0 && deadlineAt > s.now
  }

  predicate CommitTimes(ttl: nat, activeMs: nat) { 1 <= ttl <= 2147483647 && 1 <= activeMs <= ttl * 1000 }

  /** The state once an admissible request has claimed and begun. */
  function Opened(cfg: Config, s: System, id: Token, turn: Turn, recovering: bool, ttl: nat, leaseMs: nat, deadlineAt: nat): System
    requires Admissible(cfg, s, id, turn, recovering)
  {
    var v := Admit(cfg, turn, recovering, Read(s.slot, s.now), s.event.Some?, id);
    var win := if recovering then [] else [Win(Now(s), v.base.revision, id)];
    s.(requests := s.requests[id := Request(turn, recovering, Working(Now(s), v.base, v.pending, v.session, deadlineAt))],
       slot := Claim(s.slot, s.now, v.base.(pending := Some(v.pending)), ttl, Some(leaseMs), Some(deadlineAt)),
       lives := s.lives[Now(s) := s.lives[Now(s)].(binding := Some(v.base.binding))],
       wins := s.wins + win, starts := s.starts + win)
  }

  /** The state once an owner has prepared, installed and replied. */
  function Closed(s: System, id: Token, response: Response, after: Session, ttl: nat, activeMs: nat): System
    requires |s.lives| > 0 && id in s.requests && s.requests[id].stage.Working?
  {
    var w := s.requests[id].stage;
    var turn := s.requests[id].turn;
    var entry := Entry(Receipt(turn.Identity(), turn.Position(), response), id, w.pending.kind, w.session);
    s.(requests := s.requests[id := s.requests[id].(stage := Answered)],
       slot := Commit(s.slot, s.now, Committed(w.base, turn, response), after, ttl, activeMs),
       lives := s.lives[Now(s) := s.lives[Now(s)].(entries := s.lives[Now(s)].entries + [entry])],
       answers := s.answers + [Answer(Now(s), turn, response)])
  }

  lemma LegalCons(cfg: Config, s: System, step: Step, rest: seq<Step>)
    requires |s.lives| > 0 && Enabled(cfg, s, step) && Legal(cfg, Apply(cfg, s, step), rest)
    ensures Legal(cfg, s, [step] + rest) && Run(cfg, s, [step] + rest) == Run(cfg, Apply(cfg, s, step), rest)
  {
    assert ([step] + rest)[1..] == rest;
  }

  lemma NoSteps(cfg: Config, s: System)
    requires |s.lives| > 0
    ensures Legal(cfg, s, []) && Run(cfg, s, []) == s
  {
  }

  /** An admissible request that nothing disturbs claims, and its handler starts. */
  lemma OpeningIsOpened(cfg: Config, s: System, id: Token, turn: Turn, recovering: bool, ttl: nat, leaseMs: nat, deadlineAt: nat)
    requires Admissible(cfg, s, id, turn, recovering) && ClaimTimes(s, ttl, leaseMs, deadlineAt)
    ensures Legal(cfg, s, Opening(id, turn, recovering, ttl, leaseMs, deadlineAt))
    ensures Run(cfg, s, Opening(id, turn, recovering, ttl, leaseMs, deadlineAt)) == Opened(cfg, s, id, turn, recovering, ttl, leaseMs, deadlineAt)
  {
    assert |s.lives| > 0;
    hide Legal, Run, Apply, Enabled, Admissible, ClaimTimes, Opened, Admit;
    AdmittedReaches(cfg, s, id, turn, recovering);
    var s1 := Apply(cfg, s, Arrive(id, turn, recovering));
    var s2 := Apply(cfg, s1, ReadStore(id));
    var s3 := Apply(cfg, s2, Decide(id));
    ClaimOpens(cfg, s, id, turn, recovering, ttl, leaseMs, deadlineAt);
    var s4 := Apply(cfg, s3, TryClaim(id, ttl, leaseMs, deadlineAt));
    NoSteps(cfg, Apply(cfg, s4, Begin(id)));
    LegalCons(cfg, s4, Begin(id), []);
    LegalCons(cfg, s3, TryClaim(id, ttl, leaseMs, deadlineAt), [Begin(id)] + []);
    LegalCons(cfg, s2, Decide(id), [TryClaim(id, ttl, leaseMs, deadlineAt)] + ([Begin(id)] + []));
    LegalCons(cfg, s1, ReadStore(id), [Decide(id)] + ([TryClaim(id, ttl, leaseMs, deadlineAt)] + ([Begin(id)] + [])));
    LegalCons(cfg, s, Arrive(id, turn, recovering), [ReadStore(id)] + ([Decide(id)] + ([TryClaim(id, ttl, leaseMs, deadlineAt)] + ([Begin(id)] + []))));
    assert Opening(id, turn, recovering, ttl, leaseMs, deadlineAt)
        == [Arrive(id, turn, recovering)] + ([ReadStore(id)] + ([Decide(id)] + ([TryClaim(id, ttl, leaseMs, deadlineAt)] + ([Begin(id)] + []))));
  }

  /** From arrival to admission nothing but the request itself changes. */
  lemma AdmittedReaches(cfg: Config, s: System, id: Token, turn: Turn, recovering: bool)
    requires Admissible(cfg, s, id, turn, recovering)
    ensures Enabled(cfg, s, Arrive(id, turn, recovering))
    ensures var s1 := Apply(cfg, s, Arrive(id, turn, recovering));
      && Enabled(cfg, s1, ReadStore(id))
      && var s2 := Apply(cfg, s1, ReadStore(id));
      && Enabled(cfg, s2, Decide(id))
      && var v := Admit(cfg, turn, recovering, Read(s.slot, s.now), s.event.Some?, id);
      Apply(cfg, s2, Decide(id)) == s.(requests := s.requests[id := Request(turn, recovering, Admitted(v.base, v.pending, v.replace, v.session))])
  {
    hide Admit;
    var v := Admit(cfg, turn, recovering, Read(s.slot, s.now), s.event.Some?, id);
    var s2 := Apply(cfg, Apply(cfg, s, Arrive(id, turn, recovering)), ReadStore(id));
    assert s2.requests == s.requests[id := Request(turn, recovering, Seen(Read(s.slot, s.now)))];
    assert Apply(cfg, s2, Decide(id)).requests == s.requests[id := Request(turn, recovering, Admitted(v.base, v.pending, v.replace, v.session))];
  }

  /** The state in which an admitted request holds its claim. */
  function Granted(s: System, id: Token, turn: Turn, recovering: bool, base: Ledger, pending: Pending, session: Option<Session>,
                   ttl: nat, leaseMs: nat, deadlineAt: nat): System
    requires |s.lives| > 0
  {
    s.(requests := s.requests[id := Request(turn, recovering, Owner(Now(s), base, pending, session, deadlineAt))],
       slot := Claim(s.slot, s.now, base.(pending := Some(pending)), ttl, Some(leaseMs), Some(deadlineAt)),
       lives := s.lives[Now(s) := s.lives[Now(s)].(binding := Some(base.binding))],
       wins := s.wins + if recovering then [] else [Win(Now(s), base.revision, id)])
  }

  lemma ClaimGrants(cfg: Config, s: System, id: Token, turn: Turn, recovering: bool, base: Ledger, pending: Pending, replace: Option<Token>,
                    session: Option<Session>, ttl: nat, leaseMs: nat, deadlineAt: nat)
    requires |s.lives| > 0 && ClaimTimes(s, ttl, leaseMs, deadlineAt)
    requires CanClaim(s.slot, s.now, base.revision, replace, Some(deadlineAt)) && (replace.Some? <==> recovering)
    ensures var s3 := s.(requests := s.requests[id := Request(turn, recovering, Admitted(base, pending, replace, session))]);
      && Enabled(cfg, s3, TryClaim(id, ttl, leaseMs, deadlineAt))
      && Apply(cfg, s3, TryClaim(id, ttl, leaseMs, deadlineAt)) == Granted(s, id, turn, recovering, base, pending, session, ttl, leaseMs, deadlineAt)
  {
    hide CanClaim, Claim;
    var s3 := s.(requests := s.requests[id := Request(turn, recovering, Admitted(base, pending, replace, session))]);
    assert At(s3, id, Owner(Now(s), base, pending, session, deadlineAt)).requests
        == s.requests[id := Request(turn, recovering, Owner(Now(s), base, pending, session, deadlineAt))];
  }

  lemma GrantBegins(cfg: Config, s: System, id: Token, turn: Turn, recovering: bool, base: Ledger, pending: Pending, session: Option<Session>,
                    ttl: nat, leaseMs: nat, deadlineAt: nat)
    requires |s.lives| > 0 && (pending.kind == Normal <==> !recovering)
    ensures var s4 := Granted(s, id, turn, recovering, base, pending, session, ttl, leaseMs, deadlineAt);
      && Enabled(cfg, s4, Begin(id))
      && Apply(cfg, s4, Begin(id)) == s4.(
           requests := s.requests[id := Request(turn, recovering, Working(Now(s), base, pending, session, deadlineAt))],
           starts := s.starts + if recovering then [] else [Win(Now(s), base.revision, id)])
  {
    hide Claim;
    var s4 := Granted(s, id, turn, recovering, base, pending, session, ttl, leaseMs, deadlineAt);
    assert At(s4, id, Working(Now(s), base, pending, session, deadlineAt)).requests
        == s.requests[id := Request(turn, recovering, Working(Now(s), base, pending, session, deadlineAt))];
  }

  /** A request that has just been admitted is granted its claim. */
  lemma ClaimOpens(cfg: Config, s: System, id: Token, turn: Turn, recovering: bool, ttl: nat, leaseMs: nat, deadlineAt: nat)
    requires Admissible(cfg, s, id, turn, recovering) && ClaimTimes(s, ttl, leaseMs, deadlineAt)
    ensures var v := Admit(cfg, turn, recovering, Read(s.slot, s.now), s.event.Some?, id);
      var s3 := s.(requests := s.requests[id := Request(turn, recovering, Admitted(v.base, v.pending, v.replace, v.session))]);
      && Enabled(cfg, s3, TryClaim(id, ttl, leaseMs, deadlineAt))
      && var s4 := Apply(cfg, s3, TryClaim(id, ttl, leaseMs, deadlineAt));
      && Enabled(cfg, s4, Begin(id))
      && Apply(cfg, s4, Begin(id)) == Opened(cfg, s, id, turn, recovering, ttl, leaseMs, deadlineAt)
  {
    AdmittedMayClaim(cfg, s, id, turn, recovering, deadlineAt);
    var v := Admit(cfg, turn, recovering, Read(s.slot, s.now), s.event.Some?, id);
    hide Admit, CanClaim, Claim, Apply, Enabled, Admissible, ClaimTimes;
    ClaimGrants(cfg, s, id, turn, recovering, v.base, v.pending, v.replace, v.session, ttl, leaseMs, deadlineAt);
    GrantBegins(cfg, s, id, turn, recovering, v.base, v.pending, v.session, ttl, leaseMs, deadlineAt);
  }

  lemma AdmittedMayClaim(cfg: Config, s: System, id: Token, turn: Turn, recovering: bool, deadlineAt: nat)
    requires Admissible(cfg, s, id, turn, recovering) && deadlineAt > s.now
    ensures var v := Admit(cfg, turn, recovering, Read(s.slot, s.now), s.event.Some?, id);
      && CanClaim(s.slot, s.now, v.base.revision, v.replace, Some(deadlineAt))
      && (v.replace.Some? <==> recovering) && (v.pending.kind == Normal <==> !recovering) && v.base.pending.None?
  {
    AdmitShape(cfg, turn, recovering, Read(s.slot, s.now), s.event.Some?, id);
  }

  /** An owner that nothing disturbs prepares, installs and replies. */
  lemma ClosingIsClosed(cfg: Config, s: System, id: Token, response: Response, after: Session, ttl: nat, activeMs: nat)
    requires |s.lives| > 0 && id in s.requests && s.requests[id].stage.Working? && s.requests[id].stage.life == Now(s)
    requires CanCommit(s.slot, s.now, s.requests[id].stage.base.revision, id) && Formatted(response) && CommitTimes(ttl, activeMs)
    ensures Legal(cfg, s, Closing(id, response, after, ttl, activeMs))
    ensures Run(cfg, s, Closing(id, response, after, ttl, activeMs)) == Closed(s, id, response, after, ttl, activeMs)
  {
    hide Legal, Run, Formatted, Enabled, Apply, Closed;
    OwnerCloses(cfg, s, id, response, after, ttl, activeMs);
    var s1 := Apply(cfg, s, Finish(id, response, after));
    var s2 := Apply(cfg, s1, Install(id, ttl, activeMs));
    NoSteps(cfg, Apply(cfg, s2, Reply(id)));
    LegalCons(cfg, s2, Reply(id), []);
    LegalCons(cfg, s1, Install(id, ttl, activeMs), [Reply(id)] + []);
    LegalCons(cfg, s, Finish(id, response, after), [Install(id, ttl, activeMs)] + ([Reply(id)] + []));
    assert Closing(id, response, after, ttl, activeMs) == [Finish(id, response, after)] + ([Install(id, ttl, activeMs)] + ([Reply(id)] + []));
  }

  lemma OwnerCloses(cfg: Config, s: System, id: Token, response: Response, after: Session, ttl: nat, activeMs: nat)
    requires |s.lives| > 0 && id in s.requests && s.requests[id].stage.Working? && s.requests[id].stage.life == Now(s)
    requires CanCommit(s.slot, s.now, s.requests[id].stage.base.revision, id) && Formatted(response) && CommitTimes(ttl, activeMs)
    ensures Enabled(cfg, s, Finish(id, response, after))
    ensures var s1 := Apply(cfg, s, Finish(id, response, after));
      && Enabled(cfg, s1, Install(id, ttl, activeMs))
      && var s2 := Apply(cfg, s1, Install(id, ttl, activeMs));
      && Enabled(cfg, s2, Reply(id))
      && Apply(cfg, s2, Reply(id)) == Closed(s, id, response, after, ttl, activeMs)
  {
    hide CanCommit, Commit, Committed, Formatted;
    var s1 := Apply(cfg, s, Finish(id, response, after));
    var s2 := Apply(cfg, s1, Install(id, ttl, activeMs));
    assert s2.requests == s.requests[id := s.requests[id].(stage := Done(Now(s), response))];
    assert Apply(cfg, s2, Reply(id)).requests == s.requests[id := s.requests[id].(stage := Answered)];
  }

  /**
    The protocol is not vacuous: whatever runs came before, an admissible request (a turn, or the recovery of
    the pending one) that nothing disturbs claims, commits exactly one receipt and is answered.
   */
  lemma UndisturbedIsAnswered(cfg: Config, s: System, id: Token, turn: Turn, recovering: bool, response: Response, after: Session,
                              ttl: nat, leaseMs: nat, deadlineAt: nat, activeMs: nat)
    requires Admissible(cfg, s, id, turn, recovering)
    requires Formatted(response) && ClaimTimes(s, ttl, leaseMs, deadlineAt) && CommitTimes(ttl, activeMs)
    ensures var steps := Undisturbed(id, turn, recovering, response, after, ttl, leaseMs, deadlineAt, activeMs);
      && Legal(cfg, s, steps)
      && var s' := Run(cfg, s, steps);
      && s'.answers == s.answers + [Answer(Now(s), turn, response)]
      && |s'.lives| == |s.lives| && |s'.lives[Now(s)].entries| == |s.lives[Now(s)].entries| + 1
      && s'.lives[Now(s)].entries[|s.lives[Now(s)].entries|].receipt == Receipt(turn.Identity(), turn.Position(), response)
  {
    OpeningIsOpened(cfg, s, id, turn, recovering, ttl, leaseMs, deadlineAt);
    var s1 := Opened(cfg, s, id, turn, recovering, ttl, leaseMs, deadlineAt);
    AdmitShape(cfg, turn, recovering, Read(s.slot, s.now), s.event.Some?, id);
    hide Legal, Run, Formatted, ClaimTimes, CommitTimes, Admit;
    assert CanCommit(s1.slot, s1.now, s1.requests[id].stage.base.revision, id);
    ClosingIsClosed(cfg, s1, id, response, after, ttl, activeMs);
    RunSplit(cfg, s, Opening(id, turn, recovering, ttl, leaseMs, deadlineAt), Closing(id, response, after, ttl, activeMs));
  }

  /** An answer in the store to an admitted request means that the store has moved past what the request read. */
  lemma Overtaken(cfg: Config, s: System, id: Token, response: Response)
    requires Inv(cfg, s) && id in s.requests && s.requests[id].stage.Admitted?
    requires HasAnswer(s.slot, s.requests[id].turn, response)
    ensures s.slot.ledger.Some? && s.requests[id].stage.base.revision < s.slot.ledger.value.revision && SlotOk(cfg, s.slot)
  {
    assert RequestOk(cfg, s, id);
    var receipts := s.slot.ledger.value.receipts;
    var i :| 0 <= i < |receipts| && receipts[i].fingerprint == s.requests[id].turn.Identity();
    assert ReceiptOk(cfg, receipts[i], i);
    hide Behind, T.Position, Formatted, WinsInv, StartsInv, AnswersInv, LivesInv, EventInv, RequestsInv;
  }

  /** Reading again after a lost claim finds the one answer there is. */
  lemma FindsAnswer(cfg: Config, slot: Slot, turn: Turn, response: Response, now: int)
    requires SlotOk(cfg, slot) && BoundTo(cfg, slot, turn) && HasAnswer(slot, turn, response)
    ensures AfterLostClaim(cfg, turn, Read(slot, now)) == Replay(response)
  {
    Lookups(cfg, slot, turn);
    var receipts := slot.ledger.value.receipts;
    var found := FindReceipt(receipts, turn.Identity()).value;
    var i :| 0 <= i < |receipts| && receipts[i] == found;
    var j :| 0 <= j < |receipts| && receipts[j].fingerprint == turn.Identity() && receipts[j].response == response;
    if i != j { DistinctFingerprints(cfg, receipts, if i < j then i else j, if i < j then j else i); }
  }

  lemma LosesClaim(cfg: Config, s: System, id: Token, ttl: nat, leaseMs: nat, deadlineAt: nat)
    requires |s.lives| > 0 && Enabled(cfg, s, TryClaim(id, ttl, leaseMs, deadlineAt))
    requires s.slot.ledger.Some? && s.requests[id].stage.base.revision != s.slot.ledger.value.revision
    ensures Apply(cfg, s, TryClaim(id, ttl, leaseMs, deadlineAt)) == At(s, id, Outbid)
  {
    hide ValidClaim, Claim;
    assert ApplyClaim(s, id, ttl, leaseMs, deadlineAt) == At(s, id, Outbid);
  }

  lemma ReadsAnswer(cfg: Config, s: System, id: Token, response: Response)
    requires |s.lives| > 0 && id in s.requests && s.requests[id].stage.Outbid?
    requires AfterLostClaim(cfg, s.requests[id].turn, Read(s.slot, s.now)) == Replay(response)
    ensures Legal(cfg, s, [ReadAgain(id)])
    ensures Run(cfg, s, [ReadAgain(id)]) == At(s, id, Answered).(answers := s.answers + [Answer(Now(s), s.requests[id].turn, response)])
  {
    hide AfterLostClaim, Admit;
    var s' := Apply(cfg, s, ReadAgain(id));
    hide Legal, Run;
    NoSteps(cfg, s');
    LegalCons(cfg, s, ReadAgain(id), []);
    assert [ReadAgain(id)] + [] == [ReadAgain(id)];
  }

  lemma ThenLoses(cfg: Config, s: System, id: Token, ttl: nat, leaseMs: nat, deadlineAt: nat, s': System)
    requires |s.lives| > 0 && Enabled(cfg, s, TryClaim(id, ttl, leaseMs, deadlineAt))
    requires s.slot.ledger.Some? && s.requests[id].stage.base.revision != s.slot.ledger.value.revision
    requires Legal(cfg, At(s, id, Outbid), [ReadAgain(id)]) && Run(cfg, At(s, id, Outbid), [ReadAgain(id)]) == s'
    ensures Legal(cfg, s, [TryClaim(id, ttl, leaseMs, deadlineAt), ReadAgain(id)])
    ensures Run(cfg, s, [TryClaim(id, ttl, leaseMs, deadlineAt), ReadAgain(id)]) == s'
  {
    hide Legal, Run;
    LosesClaim(cfg, s, id, ttl, leaseMs, deadlineAt);
    LegalCons(cfg, s, TryClaim(id, ttl, leaseMs, deadlineAt), [ReadAgain(id)]);
    assert [TryClaim(id, ttl, leaseMs, deadlineAt)] + [ReadAgain(id)] == [TryClaim(id, ttl, leaseMs, deadlineAt), ReadAgain(id)];
  }

  lemma HoldsAdmission(cfg: Config, s: System, id: Token, ttl: nat, leaseMs: nat, deadlineAt: nat)
    requires Inv(cfg, s) && Enabled(cfg, s, TryClaim(id, ttl, leaseMs, deadlineAt))
    ensures |s.lives| > 0 && id in s.requests && s.requests[id].stage.Admitted?
  {
  }

  /** A request outrun by another attempt of the same turn loses its claim, reads again, and gives that attempt's answer. */
  lemma LoserIsAnswered(cfg: Config, s: System, id: Token, ttl: nat, leaseMs: nat, deadlineAt: nat, response: Response)
    requires Inv(cfg, s) && Enabled(cfg, s, TryClaim(id, ttl, leaseMs, deadlineAt))
    requires BoundTo(cfg, s.slot, s.requests[id].turn) && HasAnswer(s.slot, s.requests[id].turn, response)
    ensures var steps := [TryClaim(id, ttl, leaseMs, deadlineAt), ReadAgain(id)];
      && Legal(cfg, s, steps)
      && Run(cfg, s, steps) == At(s, id, Answered).(answers := s.answers + [Answer(Now(s), s.requests[id].turn, response)])
  {
    hide Inv, SlotOk, BoundTo, HasAnswer, AfterLostClaim, Admit, Apply, Enabled, Legal, Run;
    HoldsAdmission(cfg, s, id, ttl, leaseMs, deadlineAt);
    Overtaken(cfg, s, id, response);
    FindsAnswer(cfg, s.slot, s.requests[id].turn, response, s.now);
    var s1 := At(s, id, Outbid);
    ReadsAnswer(cfg, s1, id, response);
    assert At(s1, id, Answered) == At(s, id, Answered);
    ThenLoses(cfg, s, id, ttl, leaseMs, deadlineAt, Run(cfg, s1, [ReadAgain(id)]));
  }
}
