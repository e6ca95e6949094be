/**
  What a provider end event guarantees (lib/RedisSessionEventStore.js:4-22 with lib/TurnGateway.js:48-50 and the
  scripts of lib/TurnStore.js): an accepted event marks the turn's key closed and leaves an event record, each
  with its own time to live. While one of the two fences stands, no normal turn gets through; when neither
  does, the next one is served.
 */
module TurnClosure {
  import opened Wrappers
  import opened TurnTypes
  import opened TurnStoreSpec
  import opened TurnGateway
  import opened TurnProtocol
  import opened TurnInvariant
  import opened TurnTheorems
  import T = Transcript

  /** The two fences: the mark on the key, and the event record where the gateway consults it. */
  predicate Fenced(cfg: Config, s: System) { s.slot.closed || (cfg.checksEvents && s.event.Some?) }

  /** A fence stands wherever the run takes a step. */
  ghost predicate FencedThroughout(cfg: Config, s: System, steps: seq<Step>)
    requires |s.lives| > 0 && Legal(cfg, s, steps)
    decreases |steps|
  {
    steps == [] || (Fenced(cfg, s) && FencedThroughout(cfg, Apply(cfg, s, steps[0]), steps[1..]))
  }

  /** What was installed and what was pending when an end event is accepted. */
  datatype Closure = Closure(life: nat, revision: nat, pending: Option<Fingerprint>)

  function ClosureOf(s: System): Closure
    requires |s.lives| > 0
  {
    Closure(Now(s), |s.lives[Now(s)].entries|, PendingOf(s.slot))
  }

  function PendingOf(slot: Slot): Option<Fingerprint> {
    if slot.ledger.Some? && slot.ledger.value.pending.Some? then Some(slot.ledger.value.pending.value.fingerprint) else None
  }

  /** How far the ledger may have moved since the closure `c`. */
  ghost predicate Shut(s: System, c: Closure) {
    && c.life < |s.lives|
    && (c.pending.None? ==> |s.lives[c.life].entries| <= c.revision)
    && |s.lives[c.life].entries| <= c.revision + 1
    && (|s.lives[c.life].entries| == c.revision + 1 ==>
          var e := s.lives[c.life].entries[c.revision];
          e.kind == Recovery && c.pending == Some(e.receipt.fingerprint))
    && (c.life == Now(s) ==> ShutNow(s.slot, c))
    && (c.life < Now(s) ==> s.slot.ledger.None? && forall k | c.life < k < |s.lives| :: s.lives[k].entries == [])
  }

  /** In the lifetime of the closure the key stays closed, and only the operation pending then may still be pending. */
  ghost predicate ShutNow(slot: Slot, c: Closure) {
    && slot.closed
    && (slot.ledger.None? ==> c.revision == 0 && c.pending.None?)
    && (slot.ledger.Some? ==>
          && slot.ledger.value.revision >= c.revision
          && (slot.ledger.value.revision == c.revision ==> PendingOf(slot) == c.pending)
          && (slot.ledger.value.revision > c.revision ==> slot.ledger.value.pending.None?))
  }

  // ---- while a fence stands ----

  /** A granted claim of a normal turn means no fence stands. */
  lemma FencedGrantsRecoveries(cfg: Config, s: System, id: Token, deadlineAt: Option<int>)
    requires Inv(cfg, s) && Fenced(cfg, s) && id in s.requests && s.requests[id].stage.Admitted?
    requires CanClaim(s.slot, s.now, s.requests[id].stage.base.revision, s.requests[id].stage.replace, deadlineAt)
    ensures s.requests[id].recovering && s.requests[id].stage.replace.Some?
  {
    assert RequestOk(cfg, s, id);
  }

  lemma NoNormalClaimWhileFenced(cfg: Config, s: System, step: Step)
    requires Inv(cfg, s) && Enabled(cfg, s, step) && Fenced(cfg, s)
    ensures Apply(cfg, s, step).wins == s.wins
  {
    if step.TryClaim? && CanClaim(s.slot, s.now, s.requests[step.id].stage.base.revision, s.requests[step.id].stage.replace, Some(step.deadlineAt)) {
      FencedGrantsRecoveries(cfg, s, step.id, Some(step.deadlineAt));
    }
  }

  lemma EventShuts(cfg: Config, s: System, binding: Binding, retentionMs: nat)
    requires Inv(cfg, s) && Enabled(cfg, s, AcceptEnd(binding, retentionMs))
    ensures Shut(Apply(cfg, s, AcceptEnd(binding, retentionMs)), ClosureOf(s))
  {
    assert |ReceiptsOf(s.lives[Now(s)].entries)| == |s.lives[Now(s)].entries|;
  }

  lemma ClaimShuts(cfg: Config, s: System, id: Token, ttl: nat, leaseMs: nat, deadlineAt: nat, c: Closure)
    requires Inv(cfg, s) && Fenced(cfg, s) && Shut(s, c) && Enabled(cfg, s, TryClaim(id, ttl, leaseMs, deadlineAt))
    ensures Shut(Apply(cfg, s, TryClaim(id, ttl, leaseMs, deadlineAt)), c)
  {
    if CanClaim(s.slot, s.now, s.requests[id].stage.base.revision, s.requests[id].stage.replace, Some(deadlineAt)) {
      FencedGrantsRecoveries(cfg, s, id, Some(deadlineAt));
      GrantedClaimFits(cfg, s, id, Some(deadlineAt));
      hide Inv;
    }
  }

  lemma InstallShuts(cfg: Config, s: System, id: Token, ttl: nat, activeMs: nat, c: Closure)
    requires Inv(cfg, s) && Shut(s, c) && Enabled(cfg, s, Install(id, ttl, activeMs))
    ensures Shut(Apply(cfg, s, Install(id, ttl, activeMs)), c)
  {
    if CanCommit(s.slot, s.now, s.requests[id].stage.base.revision, id) {
      CommitterHolds(cfg, s, id);
      assert |ReceiptsOf(s.lives[Now(s)].entries)| == |s.lives[Now(s)].entries|;
      hide Inv, ReceiptsOf;
    }
  }

  lemma StepShuts(cfg: Config, s: System, step: Step, c: Closure)
    requires Inv(cfg, s) && Fenced(cfg, s) && Shut(s, c) && Enabled(cfg, s, step)
    ensures Shut(Apply(cfg, s, step), c)
  {
    hide Inv, Fenced, CanClaim, CanCommit, Claim, Commit, Committed, Admit;
    match step
    case TryClaim(id, ttl, leaseMs, deadlineAt) => ClaimShuts(cfg, s, id, ttl, leaseMs, deadlineAt, c);
    case Install(id, ttl, activeMs) => InstallShuts(cfg, s, id, ttl, activeMs, c);
    case Decide(id) => assert Apply(cfg, s, step).lives == s.lives && Apply(cfg, s, step).slot == s.slot;
    case ReadAgain(id) => assert Apply(cfg, s, step).lives == s.lives && Apply(cfg, s, step).slot == s.slot;
    case _ =>
  }

  lemma {:induction false} RunShuts(cfg: Config, s: System, steps: seq<Step>, c: Closure)
    requires Inv(cfg, s) && Shut(s, c) && Legal(cfg, s, steps) && FencedThroughout(cfg, s, steps)
    ensures var s' := Run(cfg, s, steps); Inv(cfg, s') && Shut(s', c) && s'.wins == s.wins
    decreases |steps|
  {
    if steps != [] {
      NoNormalClaimWhileFenced(cfg, s, steps[0]);
      StepShuts(cfg, s, steps[0], c);
      StepKeeps(cfg, s, steps[0]);
      RunShuts(cfg, Apply(cfg, s, steps[0]), steps[1..], c);
    }
  }

  /**
    From the acceptance of any end event, over every continuation that takes its steps behind a fence: no
    normal claim is granted; at most one more revision is installed, and if one is, it is a recovery's, for
    the very turn that was pending at the acceptance; later record lifetimes stay empty.
   */
  lemma ClosedSession(cfg: Config, s: System, binding: Binding, retentionMs: nat, steps: seq<Step>)
    requires Inv(cfg, s) && Enabled(cfg, s, AcceptEnd(binding, retentionMs))
    requires var s1 := Apply(cfg, s, AcceptEnd(binding, retentionMs)); Legal(cfg, s1, steps) && FencedThroughout(cfg, s1, steps)
    ensures var s' := Run(cfg, Apply(cfg, s, AcceptEnd(binding, retentionMs)), steps);
      && s'.wins == s.wins && |s.lives| <= |s'.lives|
      && |s'.lives[Now(s)].entries| <= |s.lives[Now(s)].entries| + 1
      && (forall k | Now(s) < k < |s'.lives| :: s'.lives[k].entries == [])
      && (|s'.lives[Now(s)].entries| > |s.lives[Now(s)].entries| ==>
            var e := s'.lives[Now(s)].entries[|s.lives[Now(s)].entries|];
            e.kind == Recovery && PendingOf(s.slot) == Some(e.receipt.fingerprint))
  {
    StepKeeps(cfg, s, AcceptEnd(binding, retentionMs));
    EventShuts(cfg, s, binding, retentionMs);
    RunShuts(cfg, Apply(cfg, s, AcceptEnd(binding, retentionMs)), steps, ClosureOf(s));
  }

  // ---- when a fence stands ----

  lemma StepStaysClosed(cfg: Config, s: System, step: Step)
    requires |s.lives| > 0 && Enabled(cfg, s, step) && s.slot.closed && |Apply(cfg, s, step).lives| == |s.lives|
    ensures Apply(cfg, s, step).slot.closed
  {
  }

  /** The mark on the key stands as long as the record lives in which the event was accepted, whatever the gateway consults. */
  lemma {:induction false} FencedForLife(cfg: Config, s: System, steps: seq<Step>)
    requires |s.lives| > 0 && s.slot.closed && Legal(cfg, s, steps) && |Run(cfg, s, steps).lives| == |s.lives|
    ensures FencedThroughout(cfg, s, steps) && Fenced(cfg, Run(cfg, s, steps))
    decreases |steps|
  {
    if steps != [] {
      StepStaysClosed(cfg, s, steps[0]);
      FencedForLife(cfg, Apply(cfg, s, steps[0]), steps[1..]);
    }
  }

  lemma StepKeepsRecord(cfg: Config, s: System, step: Step, until: int)
    requires |s.lives| > 0 && Enabled(cfg, s, step) && s.event.Some? && s.event.value >= until > Apply(cfg, s, step).now
    requires step.AcceptEnd? ==> s.now + step.retentionMs >= until
    ensures Apply(cfg, s, step).event.Some? && Apply(cfg, s, step).event.value >= until
    ensures Apply(cfg, s, step).now >= s.now
  {
  }

  lemma {:induction false} TimePasses(cfg: Config, s: System, steps: seq<Step>)
    requires |s.lives| > 0 && Legal(cfg, s, steps)
    ensures s.now <= Run(cfg, s, steps).now
    decreases |steps|
  {
    if steps != [] {
      assert s.now <= Apply(cfg, s, steps[0]).now;
      TimePasses(cfg, Apply(cfg, s, steps[0]), steps[1..]);
    }
  }

  /** The event record stands for its retention after the last acceptance, in whatever lifetime of the turn's record. */
  lemma {:induction false} FencedForRetention(cfg: Config, s: System, steps: seq<Step>, since: int, retentionMs: nat)
    requires |s.lives| > 0 && cfg.checksEvents && Legal(cfg, s, steps)
    requires since <= s.now && s.event.Some? && s.event.value >= since + retentionMs > Run(cfg, s, steps).now
    requires forall step <- steps :: step.AcceptEnd? ==> step.retentionMs == retentionMs
    ensures FencedThroughout(cfg, s, steps) && Fenced(cfg, Run(cfg, s, steps))
    decreases |steps|
  {
    if steps != [] {
      var s' := Apply(cfg, s, steps[0]);
      TimePasses(cfg, s', steps[1..]);
      StepKeepsRecord(cfg, s, steps[0], since + retentionMs);
      FencedForRetention(cfg, s', steps[1..], since, retentionMs);
    }
  }

  // ---- when no fence stands ----

  /** A request that opens a session: in scope, with the transcript of a first dial. */
  predicate OpensSession(cfg: Config, s: System, id: Token, turn: Turn) {
    && id !in s.requests && turn.sessionKey == cfg.key && cfg.maxTurns > 0
    && BindSession(cfg, turn, None).None?
    && T.CompareTranscript(turn.Position(), turn.transcript, None) == T.Initial
  }

  lemma UnfencedAdmits(cfg: Config, s: System, id: Token, turn: Turn)
    requires Inv(cfg, s) && !Fenced(cfg, s) && s.slot.ledger.None? && OpensSession(cfg, s, id, turn)
    ensures Admissible(cfg, s, id, turn, false)
  {
  }

  lemma {:induction false} LegalPrefix(cfg: Config, s: System, first: seq<Step>, rest: seq<Step>)
    requires |s.lives| > 0 && Legal(cfg, s, first + rest)
    ensures Legal(cfg, s, first)
    decreases |first|
  {
    if first != [] {
      assert (first + rest)[1..] == first[1..] + rest;
      LegalPrefix(cfg, Apply(cfg, s, first[0]), first[1..], rest);
    }
  }

  lemma LegalHead(cfg: Config, s: System, step: Step, rest: seq<Step>)
    requires |s.lives| > 0 && Legal(cfg, s, [step] + rest)
    ensures Enabled(cfg, s, step) && Legal(cfg, Apply(cfg, s, step), rest)
  {
    assert ([step] + rest)[1..] == rest;
  }

  /** Behind a fence a normal turn's handler does not start, however promptly the turn takes its steps. */
  lemma FencedRefuses(cfg: Config, s: System, id: Token, turn: Turn, ttl: nat, leaseMs: nat, deadlineAt: nat)
    requires Inv(cfg, s) && Fenced(cfg, s)
    ensures !Legal(cfg, s, Opening(id, turn, false, ttl, leaseMs, deadlineAt))
  {
    var steps := Opening(id, turn, false, ttl, leaseMs, deadlineAt);
    if Legal(cfg, s, steps) {
      hide Inv, Apply, Enabled, Fenced;
      assert steps == [Arrive(id, turn, false)] + ([ReadStore(id)] + ([Decide(id)] + ([TryClaim(id, ttl, leaseMs, deadlineAt)] + ([Begin(id)] + []))));
      LegalHead(cfg, s, Arrive(id, turn, false), [ReadStore(id)] + ([Decide(id)] + ([TryClaim(id, ttl, leaseMs, deadlineAt)] + ([Begin(id)] + []))));
      var s1 := Apply(cfg, s, Arrive(id, turn, false));
      LegalHead(cfg, s1, ReadStore(id), [Decide(id)] + ([TryClaim(id, ttl, leaseMs, deadlineAt)] + ([Begin(id)] + [])));
      var s2 := Apply(cfg, s1, ReadStore(id));
      LegalHead(cfg, s2, Decide(id), [TryClaim(id, ttl, leaseMs, deadlineAt)] + ([Begin(id)] + []));
      var s3 := Apply(cfg, s2, Decide(id));
      LegalHead(cfg, s3, TryClaim(id, ttl, leaseMs, deadlineAt), [Begin(id)] + []);
      var s4 := Apply(cfg, s3, TryClaim(id, ttl, leaseMs, deadlineAt));
      LegalHead(cfg, s4, Begin(id), []);
      StepKeeps(cfg, s, Arrive(id, turn, false));
      StepKeeps(cfg, s1, ReadStore(id));
      StepKeeps(cfg, s2, Decide(id));
      StaysFenced(cfg, s, Arrive(id, turn, false), id);
      StaysFenced(cfg, s1, ReadStore(id), id);
      StaysFenced(cfg, s2, Decide(id), id);
      NotStarted(cfg, s3, id, ttl, leaseMs, deadlineAt);
    }
  }

  /** The steps of a normal turn before its claim move no fence. */
  lemma StaysFenced(cfg: Config, s: System, step: Step, id: Token)
    requires |s.lives| > 0 && Enabled(cfg, s, step) && Fenced(cfg, s)
    requires (step.Arrive? && step.id == id && !step.recovering)
          || ((step.ReadStore? || step.Decide?) && step.id == id && !s.requests[id].recovering)
    ensures Fenced(cfg, Apply(cfg, s, step))
    ensures id in Apply(cfg, s, step).requests && !Apply(cfg, s, step).requests[id].recovering
  {
  }

  lemma NotStarted(cfg: Config, s: System, id: Token, ttl: nat, leaseMs: nat, deadlineAt: nat)
    requires Inv(cfg, s) && Fenced(cfg, s) && id in s.requests && !s.requests[id].recovering
    requires Enabled(cfg, s, TryClaim(id, ttl, leaseMs, deadlineAt))
    ensures !Enabled(cfg, Apply(cfg, s, TryClaim(id, ttl, leaseMs, deadlineAt)), Begin(id))
  {
    if CanClaim(s.slot, s.now, s.requests[id].stage.base.revision, s.requests[id].stage.replace, Some(deadlineAt)) {
      FencedGrantsRecoveries(cfg, s, id, Some(deadlineAt));
      assert false;
    }
  }

  /**
    The exact reach of a closure. Follow any run from the acceptance of an end event for as long as it takes
    its steps behind a fence: at its end a promptly handled turn that opens a session is served, its handler
    runs and its answer is installed, if and only if no fence stands any more. Within the lifetime of the
    accepting record one always does.
   */
  lemma ServedExactlyWhenUnfenced(cfg: Config, s: System, binding: Binding, retentionMs: nat, steps: seq<Step>,
                                  id: Token, turn: Turn, response: Response, after: Session,
                                  ttl: nat, leaseMs: nat, deadlineAt: nat, activeMs: nat)
    requires Inv(cfg, s) && Enabled(cfg, s, AcceptEnd(binding, retentionMs))
    requires var s1 := Apply(cfg, s, AcceptEnd(binding, retentionMs)); Legal(cfg, s1, steps) && FencedThroughout(cfg, s1, steps)
    requires var t := Run(cfg, Apply(cfg, s, AcceptEnd(binding, retentionMs)), steps);
      OpensSession(cfg, t, id, turn) && ClaimTimes(t, ttl, leaseMs, deadlineAt)
    requires Formatted(response) && CommitTimes(ttl, activeMs)
    ensures var t := Run(cfg, Apply(cfg, s, AcceptEnd(binding, retentionMs)), steps);
      var dial := Undisturbed(id, turn, false, response, after, ttl, leaseMs, deadlineAt, activeMs);
      && (Legal(cfg, t, dial) <==> !Fenced(cfg, t))
      && (Legal(cfg, t, dial) ==>
            && |t.lives| > |s.lives|
            && Run(cfg, t, dial).lives[Now(t)].entries != []
            && Run(cfg, t, dial).lives[Now(t)].entries[0].receipt == Receipt(turn.Identity(), turn.Position(), response))
  {
    var s1 := Apply(cfg, s, AcceptEnd(binding, retentionMs));
    StepKeeps(cfg, s, AcceptEnd(binding, retentionMs));
    EventShuts(cfg, s, binding, retentionMs);
    RunShuts(cfg, s1, steps, ClosureOf(s));
    var t := Run(cfg, s1, steps);
    if Fenced(cfg, t) {
      FencedRefuses(cfg, t, id, turn, ttl, leaseMs, deadlineAt);
      if Legal(cfg, t, Undisturbed(id, turn, false, response, after, ttl, leaseMs, deadlineAt, activeMs)) {
        LegalPrefix(cfg, t, Opening(id, turn, false, ttl, leaseMs, deadlineAt), Closing(id, response, after, ttl, activeMs));
      }
    } else {
      assert t.slot.ledger.None? && t.lives[Now(t)].entries == [];
      UnfencedAdmits(cfg, t, id, turn);
      UndisturbedIsAnswered(cfg, t, id, turn, false, response, after, ttl, leaseMs, deadlineAt, activeMs);
    }
  }

  // ---- two sessions that end and go on ----

  /** A first dial from a state without a record, with times that suit it. */
  function Dial(now: nat, turn: Turn, response: Response, after: Session): seq<Step> {
    Undisturbed(0, turn, false, response, after, 1, 1, now + 1, 1)
  }

  lemma DialAfter(cfg: Config, steps: seq<Step>, now: nat, turn: Turn, response: Response, after: Session)
    requires Legal(cfg, INITIAL, steps) && Run(cfg, INITIAL, steps).now == now && Run(cfg, INITIAL, steps).slot.ledger.None?
    requires OpensSession(cfg, Run(cfg, INITIAL, steps), 0, turn) && Formatted(response)
    ensures Legal(cfg, INITIAL, steps + Dial(now, turn, response, after)) <==> !Fenced(cfg, Run(cfg, INITIAL, steps))
    ensures !Fenced(cfg, Run(cfg, INITIAL, steps)) ==>
      var s := Run(cfg, INITIAL, steps);
      Run(cfg, INITIAL, steps + Dial(now, turn, response, after)).answers == s.answers + [Answer(Now(s), turn, response)]
  {
    var s := Run(cfg, INITIAL, steps);
    ReachableOk(cfg, steps);
    if Fenced(cfg, s) {
      FencedRefuses(cfg, s, 0, turn, 1, 1, now + 1);
      if Legal(cfg, INITIAL, steps + Dial(now, turn, response, after)) {
        LegalRest(cfg, INITIAL, steps, Dial(now, turn, response, after));
        LegalPrefix(cfg, s, Opening(0, turn, false, 1, 1, now + 1), Closing(0, response, after, 1, 1));
      }
    } else {
      UnfencedAdmits(cfg, s, 0, turn);
      UndisturbedIsAnswered(cfg, s, 0, turn, false, response, after, 1, 1, now + 1, 1);
      RunSplit(cfg, INITIAL, steps, Dial(now, turn, response, after));
    }
  }

  lemma {:induction false} LegalRest(cfg: Config, s: System, first: seq<Step>, rest: seq<Step>)
    requires |s.lives| > 0 && Legal(cfg, s, first) && Legal(cfg, s, first + rest)
    ensures Legal(cfg, Run(cfg, s, first), rest)
    decreases |first|
  {
    if first == [] {
      assert first + rest == rest;
    } else {
      assert (first + rest)[1..] == first[1..] + rest;
      LegalRest(cfg, Apply(cfg, s, first[0]), first[1..], rest);
    }
  }

  /**
    An end event that arrives before any turn gives both keys the same time to live. They lapse together,
    and the next dial is served by every gateway, with or without the event store.
   */
  lemma ForgottenEvent(cfg: Config, binding: Binding, turn: Turn, response: Response, after: Session)
    requires OpensSession(cfg, INITIAL, 0, turn) && Formatted(response)
    ensures var steps := [AcceptEnd(binding, 1000), Tick(1000)] + Dial(1000, turn, response, after);
      Legal(cfg, INITIAL, steps) && Run(cfg, INITIAL, steps).answers == [Answer(1, turn, response)]
  {
    var s1 := Apply(cfg, INITIAL, AcceptEnd(binding, 1000));
    NoSteps(cfg, Apply(cfg, s1, Tick(1000)));
    LegalCons(cfg, s1, Tick(1000), []);
    LegalCons(cfg, INITIAL, AcceptEnd(binding, 1000), [Tick(1000)] + []);
    assert [AcceptEnd(binding, 1000), Tick(1000)] == [AcceptEnd(binding, 1000)] + ([Tick(1000)] + []);
    DialAfter(cfg, [AcceptEnd(binding, 1000), Tick(1000)], 1000, turn, response, after);
  }

  /**
    A second event prolongs the event record only. Once the key has lapsed, the next dial is served exactly
    by the gateways that do not consult the record.
   */
  lemma OnlyTheRecordRemembers(cfg: Config, binding: Binding, turn: Turn, response: Response, after: Session)
    requires OpensSession(cfg, INITIAL, 0, turn) && Formatted(response)
    ensures var steps := [AcceptEnd(binding, 1000), Tick(500), AcceptEnd(binding, 1000), Tick(1000)];
      && Legal(cfg, INITIAL, steps)
      && (Legal(cfg, INITIAL, steps + Dial(1000, turn, response, after)) <==> !cfg.checksEvents)
  {
    var steps := [AcceptEnd(binding, 1000), Tick(500), AcceptEnd(binding, 1000), Tick(1000)];
    var s1 := Apply(cfg, INITIAL, AcceptEnd(binding, 1000));
    var s2 := Apply(cfg, s1, Tick(500));
    var s3 := Apply(cfg, s2, AcceptEnd(binding, 1000));
    NoSteps(cfg, Apply(cfg, s3, Tick(1000)));
    LegalCons(cfg, s3, Tick(1000), []);
    LegalCons(cfg, s2, AcceptEnd(binding, 1000), [Tick(1000)] + []);
    LegalCons(cfg, s1, Tick(500), [AcceptEnd(binding, 1000)] + ([Tick(1000)] + []));
    LegalCons(cfg, INITIAL, AcceptEnd(binding, 1000), [Tick(500)] + ([AcceptEnd(binding, 1000)] + ([Tick(1000)] + [])));
    assert steps == [AcceptEnd(binding, 1000)] + ([Tick(500)] + ([AcceptEnd(binding, 1000)] + ([Tick(1000)] + [])));
    DialAfter(cfg, steps, 1000, turn, response, after);
  }
}
