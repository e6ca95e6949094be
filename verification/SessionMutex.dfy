/**
  The per-session mutex shared by all machines over one storage (lib/USSDStateMachine.js). JavaScript runs
  each piece between two awaits to completion, so every method below is one such piece: the synchronous
  part of an acquisition, the continuation of a woken waiter, an abort event, and a release.
 */
module SessionMutex {
  datatype Request = Request(session: string, id: nat)

  /**
    Waiting: registered in the lock's waiter set, its promise unsettled. Woken: the promise is settled but
    the continuation has not run, so another request may still take the lock first.
   */
  datatype Phase = Waiting | Woken | Holding | Released | Refused

  type Locks = map<string, set<Request>>
  type Phases = map<Request, Phase>

  predicate Is(phases: Phases, r: Request, phase: Phase) { r in phases && phases[r] == phase }

  predicate Waits(locks: Locks, r: Request) { r.session in locks && r in locks[r.session] }

  predicate Holds(holders: map<string, Request>, r: Request) { r.session in holders && holders[r.session] == r }

  /** The waiter sets are exactly the waiting requests, and each locked session has exactly one holder. */
  ghost predicate Consistent(locks: Locks, phases: Phases, holders: map<string, Request>) {
    && (forall s <- locks, r :: r in locks[s] ==> r.session == s)
    && (forall r :: Is(phases, r, Waiting) <==> Waits(locks, r))
    && (forall r :: Is(phases, r, Holding) <==> Holds(holders, r))
    && holders.Keys == locks.Keys
    && (forall s <- holders :: holders[s].session == s)
  }

  /** The phases after a release: every waiter of the session is woken. */
  function WakeAll(phases: Phases, r: Request): Phases {
    map k | k in phases ::
      if k == r then Released
      else if phases[k].Waiting? && k.session == r.session then Woken
      else phases[k]
  }

  lemma WaitKeeps(locks: Locks, phases: Phases, holders: map<string, Request>, r: Request)
    requires Consistent(locks, phases, holders) && r.session in locks && !Is(phases, r, Holding)
    ensures Consistent(locks[r.session := locks[r.session] + {r}], phases[r := Waiting], holders)
  {
    var locks' := locks[r.session := locks[r.session] + {r}];
    var phases' := phases[r := Waiting];
    assert forall k :: k != r ==> (Waits(locks', k) <==> Waits(locks, k)) && phases'.Keys == phases.Keys + {r};
    assert forall k :: k != r ==> (Is(phases', k, Waiting) <==> Is(phases, k, Waiting)) && (Is(phases', k, Holding) <==> Is(phases, k, Holding));
    assert !Is(phases', r, Holding) && !Holds(holders, r);
  }

  lemma TakeKeeps(locks: Locks, phases: Phases, holders: map<string, Request>, r: Request)
    requires Consistent(locks, phases, holders) && r.session !in locks
    ensures Consistent(locks[r.session := {}], phases[r := Holding], holders[r.session := r])
  {
    var phases' := phases[r := Holding];
    assert forall k :: k != r ==> (Is(phases', k, Waiting) <==> Is(phases, k, Waiting)) && (Is(phases', k, Holding) <==> Is(phases, k, Holding));
    assert forall k: Request :: k.session == r.session ==> !Waits(locks, k) && !Holds(holders, k);
  }

  lemma SetAsideKeeps(locks: Locks, phases: Phases, holders: map<string, Request>, r: Request)
    requires Consistent(locks, phases, holders) && !Is(phases, r, Waiting) && !Is(phases, r, Holding)
    ensures Consistent(locks, phases[r := Refused], holders)
  {
    var phases' := phases[r := Refused];
    assert forall k :: k != r ==> (Is(phases', k, Waiting) <==> Is(phases, k, Waiting)) && (Is(phases', k, Holding) <==> Is(phases, k, Holding));
    assert !Waits(locks, r) && !Holds(holders, r);
  }

  lemma LeaveKeeps(locks: Locks, phases: Phases, holders: map<string, Request>, r: Request)
    requires Consistent(locks, phases, holders) && Is(phases, r, Waiting)
    ensures r.session in locks && Consistent(locks[r.session := locks[r.session] - {r}], phases[r := Refused], holders)
  {
    assert Waits(locks, r);
    var locks' := locks[r.session := locks[r.session] - {r}];
    var phases' := phases[r := Refused];
    assert forall k :: k != r ==> (Waits(locks', k) <==> Waits(locks, k));
    assert forall k :: k != r ==> (Is(phases', k, Waiting) <==> Is(phases, k, Waiting)) && (Is(phases', k, Holding) <==> Is(phases, k, Holding));
    assert !Is(phases, r, Holding) && !Holds(holders, r);
  }

  lemma ReleaseKeeps(locks: Locks, phases: Phases, holders: map<string, Request>, r: Request)
    requires Consistent(locks, phases, holders) && Is(phases, r, Holding)
    ensures r.session in locks && Consistent(locks - {r.session}, WakeAll(phases, r), holders - {r.session})
  {
    assert Holds(holders, r);
    var locks' := locks - {r.session};
    var phases' := WakeAll(phases, r);
    forall k
      ensures Is(phases', k, Waiting) <==> Waits(locks', k)
      ensures Is(phases', k, Holding) <==> Holds(holders - {r.session}, k)
    {
      assert Is(phases, k, Waiting) <==> Waits(locks, k);
      assert Is(phases, k, Holding) <==> Holds(holders, k);
    }
  }

  class SessionLocks {
    /** A session is locked while it has an entry; the entry is its set of waiters. */
    var locks: Locks
    /** Where each request stands, who holds each session, and whose signal has fired (history). */
    ghost var phases: Phases
    ghost var holders: map<string, Request>
    ghost var aborted: set<Request>

    ghost predicate Valid()
      reads this
    {
      Consistent(locks, phases, holders)
    }

    constructor ()
      ensures Valid() && locks == map[] && phases == map[] && aborted == {}
    {
      locks := map[];
      phases := map[];
      holders := map[];
      aborted := {};
    }

    /** A new request: refused if already aborted, otherwise it takes a free lock at once or waits. */
    method Acquire(r: Request, signalled: bool)
      requires Valid() && r !in phases
      modifies this
      ensures Valid()
      ensures phases == old(phases)[r := if signalled then Refused else if r.session in old(locks) then Waiting else Holding]
      ensures aborted == old(aborted) + (if signalled then {r} else {})
    {
      if signalled {
        aborted := aborted + {r};
      }
      Proceed(r, signalled);
    }

    /** The loop test of a request that is not waiting: take the lock if it is free, otherwise join its waiters. */
    method Proceed(r: Request, signalled: bool)
      requires Valid() && !Is(phases, r, Waiting) && !Is(phases, r, Holding)
      modifies this`locks, this`phases, this`holders
      ensures Valid()
      ensures phases == old(phases)[r := if signalled then Refused else if r.session in old(locks) then Waiting else Holding]
    {
      if signalled {
        SetAsideKeeps(locks, phases, holders, r);
        phases := phases[r := Refused];
      } else if r.session in locks {
        WaitKeeps(locks, phases, holders, r);
        locks := locks[r.session := locks[r.session] + {r}];
        phases := phases[r := Waiting];
      } else {
        TakeKeeps(locks, phases, holders, r);
        locks := locks[r.session := {}];
        phases := phases[r := Holding];
        holders := holders[r.session := r];
      }
    }

    /** The continuation of a woken waiter: refused if its signal has fired, and waiting again if it lost the race. */
    method Resume(r: Request, signalled: bool)
      requires Valid() && Is(phases, r, Woken) && (signalled <==> r in aborted)
      modifies this`locks, this`phases, this`holders
      ensures Valid()
      ensures phases == old(phases)[r := if signalled then Refused else if r.session in old(locks) then Waiting else Holding]
    {
      Proceed(r, signalled);
    }

    /** The abort event: a waiter leaves the set and is refused; one already woken is refused when it resumes. */
    method Abort(r: Request)
      requires Valid()
      modifies this
      ensures Valid() && aborted == old(aborted) + {r}
      ensures phases == if Is(old(phases), r, Waiting) then old(phases)[r := Refused] else old(phases)
      ensures locks.Keys == old(locks.Keys)
    {
      assert Is(phases, r, Waiting) <==> Waits(locks, r);
      if r.session in locks && r in locks[r.session] {
        LeaveKeeps(locks, phases, holders, r);
        locks := locks[r.session := locks[r.session] - {r}];
        phases := phases[r := Refused];
      }
      aborted := aborted + {r};
    }

    /** Release: the lock goes, and every waiter it had is woken. */
    method Release(r: Request)
      requires Valid() && Is(phases, r, Holding)
      modifies this`locks, this`phases, this`holders
      ensures Valid() && r.session !in locks && phases == WakeAll(old(phases), r)
      ensures phases.Keys == old(phases).Keys && Is(phases, r, Released)
      ensures forall k <- phases :: k != r ==>
        if k.session == r.session && Is(old(phases), k, Waiting) then Is(phases, k, Woken) else phases[k] == old(phases)[k]
    {
      ReleaseKeeps(locks, phases, holders, r);
      locks := locks - {r.session};
      phases := WakeAll(phases, r);
      holders := holders - {r.session};
    }
  }

  /**
    In every state the methods keep: at most one holder per session, whichever machine it runs on; and no
    wakeup is lost, for a session that nobody holds has nobody left waiting in it.
   */
  lemma HeldOrRunnable(locks: Locks, phases: Phases, holders: map<string, Request>, a: Request, b: Request)
    requires Consistent(locks, phases, holders) && a.session == b.session
    ensures Is(phases, a, Holding) && Is(phases, b, Holding) ==> a == b
    ensures Is(phases, a, Waiting) ==> exists h :: Is(phases, h, Holding) && h.session == a.session
  {
    assert Is(phases, a, Holding) <==> Holds(holders, a);
    assert Is(phases, b, Holding) <==> Holds(holders, b);
    if Is(phases, a, Waiting) {
      assert Waits(locks, a);
      assert Holds(holders, holders[a.session]);
      assert Is(phases, holders[a.session], Holding);
    }
  }

  /** A woken request whose signal has not fired takes a free session as soon as it runs, whoever else was woken with it. */
  lemma WokenTakesFree(locks: Locks, phases: Phases, holders: map<string, Request>, r: Request)
    requires Consistent(locks, phases, holders) && Is(phases, r, Woken) && r.session !in locks
    ensures forall k: Request :: k.session == r.session ==> !Is(phases, k, Holding) && !Is(phases, k, Waiting)
    ensures Is(phases[r := Holding], r, Holding) && Consistent(locks[r.session := {}], phases[r := Holding], holders[r.session := r])
  {
    TakeKeeps(locks, phases, holders, r);
    forall k: Request | k.session == r.session
      ensures !Is(phases, k, Holding) && !Is(phases, k, Waiting)
    {
      assert Is(phases, k, Holding) <==> Holds(holders, k);
      assert Is(phases, k, Waiting) <==> Waits(locks, k);
    }
  }
}
