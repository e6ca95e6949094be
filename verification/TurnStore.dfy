/**
  The atomic turn store of one session key (lib/TurnStore.js). `Slot` is what both implementations
  keep for a key; Claim and Commit below are the transitions their compare-and-set operations perform.
 */
module TurnStoreSpec {
  import opened Wrappers
  import opened TurnTypes

  /**
    One key of the store. A slot may hold a closure flag without a ledger, when a provider end event
    arrived first, and a session without a ledger, when other code wrote it.
   */
  datatype Slot = Slot(ledger: Option<Ledger>, session: Option<Session>, activeExpiresAt: int,
                       closed: bool, expiresAt: Option<int>)

  const ABSENT := Slot(None, None, 0, false, None)

  /** Key expiry: a lapsed key is gone. */
  function Live(slot: Slot, now: int): Slot {
    if slot.expiresAt.Some? && slot.expiresAt.value <= now then ABSENT else slot
  }

  /** What a provider end event does to the key: a closure mark, and the event's retention where there is no time to live. */
  function Close(slot: Slot, now: int, retentionMs: nat): Slot {
    slot.(closed := true, expiresAt := if slot.expiresAt.None? then Some(now + retentionMs) else slot.expiresAt)
  }

  datatype Observation =
    | Empty(now: int)
    | Orphan(stray: Session, now: int)
    | Found(ledger: Ledger, session: Option<Session>, activeExpiresAt: int, closed: bool, now: int)

  function Read(slot: Slot, now: int): Observation {
    if slot.ledger.Some? then Found(slot.ledger.value, slot.session, slot.activeExpiresAt, slot.closed, now)
    else if slot.session.Some? then Orphan(slot.session.value, now)
    else Empty(now)
  }

  /** When a claim is granted. A recoverer names the token it replaces; a normal turn names none. */
  predicate CanClaim(slot: Slot, now: int, revision: nat, replace: Option<Token>, deadlineAt: Option<int>) {
    var current := if slot.ledger.Some? then slot.ledger.value.revision else 0;
    var pending := if slot.ledger.Some? then slot.ledger.value.pending else None;
    && current == revision
    && (if replace.Some? then pending.Some? && pending.value.token == replace.value
        else !slot.closed && pending.None? && (slot.ledger.Some? ==> slot.activeExpiresAt > now))
    && (deadlineAt.Some? ==> deadlineAt.value > now)
  }

  function OwnerDeadline(now: int, leaseMs: Option<int>, deadlineAt: Option<int>): Option<int> {
    match (leaseMs, deadlineAt)
    case (None, None) => None
    case (Some(l), None) => Some(now + l)
    case (None, Some(d)) => Some(d)
    case (Some(l), Some(d)) => Some(if now + l < d then now + l else d)
  }

  function Claim(slot: Slot, now: int, ledger: Ledger, ttl: nat, leaseMs: Option<int>, deadlineAt: Option<int>): Slot
    requires ledger.pending.Some?
  {
    var pending := ledger.pending.value.(deadlineAt := OwnerDeadline(now, leaseMs, deadlineAt));
    Slot(Some(ledger.(pending := Some(pending))), slot.session, slot.activeExpiresAt, slot.closed, Some(now + ttl * 1000))
  }

  /** When a commit is installed: the caller is the pending owner, unexpired and not fenced by a closure. */
  predicate CanCommit(slot: Slot, now: int, revision: nat, token: Token) {
    && slot.ledger.Some?
    && slot.ledger.value.revision == revision
    && slot.ledger.value.pending.Some?
    && var pending := slot.ledger.value.pending.value;
    && pending.token == token
    && (slot.closed ==> pending.kind == Recovery)
    && (pending.deadlineAt.Some? ==> pending.deadlineAt.value > now)
  }

  function Commit(slot: Slot, now: int, ledger: Ledger, session: Session, ttl: nat, activeMs: nat): Slot {
    Slot(Some(ledger), Some(session), now + activeMs, slot.closed, Some(now + ttl * 1000))
  }

  // ---- what the two windows are ----

  /** From a commit on, the record lapses after exactly its time to live, and what is left then is nothing; the window of a valid commit opens, and within it. */
  lemma CommitLasts(slot: Slot, at: int, ledger: Ledger, session: Session, ttl: nat, activeMs: nat, now: int)
    ensures var after := Commit(slot, at, ledger, session, ttl, activeMs);
      && (Live(after, now) == ABSENT <==> now >= at + ttl * 1000)
      && (Live(after, now) == after <==> now < at + ttl * 1000)
      && Read(after, now) == Found(ledger, Some(session), at + activeMs, slot.closed, now)
      && (forall revision: nat :: ValidCommit(revision, ledger, ttl, activeMs) ==> at < after.activeExpiresAt <= after.expiresAt.value)
  {
  }

  /** So it does from a claim on, whose owner may commit exactly while both its lease and its deadline last, and no fence bars it. */
  lemma ClaimLasts(slot: Slot, at: int, ledger: Ledger, ttl: nat, leaseMs: int, deadlineAt: int, now: int)
    requires ledger.pending.Some?
    ensures var after := Claim(slot, at, ledger, ttl, Some(leaseMs), Some(deadlineAt));
      && (Live(after, now) == ABSENT <==> now >= at + ttl * 1000)
      && (Live(after, now) == after <==> now < at + ttl * 1000)
      && (CanCommit(after, now, ledger.revision, ledger.pending.value.token)
          <==> now < at + leaseMs && now < deadlineAt && (slot.closed ==> ledger.pending.value.kind == Recovery))
      && after.session == slot.session && after.activeExpiresAt == slot.activeExpiresAt && after.closed == slot.closed
      && (ValidClaim(ledger.revision, ledger, ttl, Some(leaseMs), Some(deadlineAt)) && at < deadlineAt && !slot.closed ==>
            CanCommit(after, at, ledger.revision, ledger.pending.value.token) && at < after.expiresAt.value)
  {
  }

  /** An end event takes nothing away: what the slot holds lapses when it would have, and a mark on an empty slot lasts the retention. */
  lemma CloseLasts(slot: Slot, at: int, retentionMs: nat, now: int)
    ensures var after := Close(slot, at, retentionMs);
      && (slot.expiresAt.Some? ==> Live(after, now) == if now < slot.expiresAt.value then slot.(closed := true) else ABSENT)
      && (slot.expiresAt.None? ==> Live(after, now) == if now < at + retentionMs then after else ABSENT)
      && after.closed && after.ledger == slot.ledger && after.session == slot.session && after.activeExpiresAt == slot.activeExpiresAt
  {
  }

  /** The argument checks that make the operations throw before they touch the store. */
  predicate ValidClaim(revision: nat, ledger: Ledger, ttl: int, leaseMs: Option<int>, deadlineAt: Option<int>) {
    && ledger.revision == revision && ledger.pending.Some?
    && 1 <= ttl <= 2147483647
    && (leaseMs.Some? ==> 1 <= leaseMs.value <= 2147483647)
    && (deadlineAt.Some? ==> 1 <= deadlineAt.value)
  }

  predicate ValidCommit(revision: nat, ledger: Ledger, ttl: int, activeMs: int) {
    && ledger.revision == revision + 1 && ledger.pending.None?
    && 1 <= ttl <= 2147483647
    && 1 <= activeMs <= ttl * 1000
  }

  datatype Outcome = Invalid | Refused | Installed
}

/**
  RedisTurnStore: one hash per key, its fields written by three Lua scripts. Key expiry is the
  server's; `Expire` is that server action.
 */
module RedisTurns {
  import opened Wrappers
  import opened TurnTypes
  import opened TurnStoreSpec

  /** The fields of the Redis hash: the owner's deadline lives beside the ledger, not inside it. */
  datatype Hash = Hash(gateway: Option<Ledger>, state: Option<string>, data: Option<map<string, Json>>,
                       stateHistory: seq<string>, turnExpiresAt: Option<int>, turnOwnerExpiresAt: Option<int>,
                       providerClosed: bool, expiresAt: Option<int>)

  const NO_HASH := Hash(None, None, None, [], None, None, false, None)

  function SessionOf(h: Hash): Session {
    Session(h.state, if h.data.Some? then h.data.value else map[], h.stateHistory)
  }

  predicate HasSession(h: Hash) { h.state.Some? || h.data.Some? }

  /** READ joins the separate deadline field back into a pending owner. */
  function LedgerOf(h: Hash): Option<Ledger> {
    if h.gateway.None? then None
    else
      var ledger := h.gateway.value;
      if ledger.pending.Some? && h.turnOwnerExpiresAt.Some? then
        Some(ledger.(pending := Some(ledger.pending.value.(deadlineAt := h.turnOwnerExpiresAt))))
      else Some(ledger)
  }

  function Abstract(h: Hash): Slot {
    Slot(LedgerOf(h), if HasSession(h) then Some(SessionOf(h)) else None,
         if h.turnExpiresAt.Some? then h.turnExpiresAt.value else 0, h.providerClosed, h.expiresAt)
  }

  /** The two fields that hold a claim and its deadline read as the claimed slot. */
  lemma ClaimedHash(h: Hash, ledger: Ledger, deadline: Option<int>, now: int, ttl: nat, leaseMs: Option<int>, deadlineAt: Option<int>)
    requires ledger.pending.Some? && ledger.pending.value.deadlineAt.None? && deadline == OwnerDeadline(now, leaseMs, deadlineAt)
    ensures Abstract(h.(gateway := Some(ledger), turnOwnerExpiresAt := deadline, expiresAt := Some(now + ttl * 1000)))
            == TurnStoreSpec.Claim(Abstract(h), now, ledger, ttl, leaseMs, deadlineAt)
  {
  }

  class RedisTurnStore {
    var hashes: map<string, Hash>

    /** A stored ledger never carries its own deadline; the field beside it does. */
    ghost predicate Valid()
      reads this
    {
      forall k <- hashes :: hashes[k].gateway.Some? && hashes[k].gateway.value.pending.Some?
        ==> hashes[k].gateway.value.pending.value.deadlineAt.None?
    }

    function HashAt(key: string): Hash
      reads this
    {
      if key in hashes then hashes[key] else NO_HASH
    }

    ghost function SlotAt(key: string): Slot
      reads this
    {
      Abstract(HashAt(key))
    }

    ghost predicate OthersSame(before: map<string, Hash>, key: string)
      reads this
    {
      && (forall k <- hashes :: k != key ==> k in before && hashes[k] == before[k])
      && (forall k <- before :: k != key ==> k in hashes)
    }

    constructor ()
      ensures Valid() && forall key :: SlotAt(key) == ABSENT
    {
      hashes := map[];
    }

    /** The server drops a key whose time to live has passed. */
    method Expire(key: string, now: int)
      requires Valid()
      modifies this
      ensures Valid() && OthersSame(old(hashes), key)
      ensures SlotAt(key) == Live(old(SlotAt(key)), now)
    {
      if key in hashes && hashes[key].expiresAt.Some? && hashes[key].expiresAt.value <= now {
        hashes := hashes - {key};
      }
    }

    method Read(key: string, now: int) returns (seen: Observation)
      requires Valid()
      ensures seen == TurnStoreSpec.Read(SlotAt(key), now)
    {
      var h := HashAt(key);
      if h.gateway.None? {
        if HasSession(h) { return Orphan(SessionOf(h), now); }
        return Empty(now);
      }
      var ledger := h.gateway.value;
      if ledger.pending.Some? && h.turnOwnerExpiresAt.Some? {
        ledger := ledger.(pending := Some(ledger.pending.value.(deadlineAt := h.turnOwnerExpiresAt)));
      }
      return Found(ledger, if HasSession(h) then Some(SessionOf(h)) else None,
                   if h.turnExpiresAt.Some? then h.turnExpiresAt.value else 0, h.providerClosed, now);
    }

    method Claim(key: string, revision: nat, ledger: Ledger, ttl: int, replace: Option<Token>,
                 leaseMs: Option<int>, deadlineAt: Option<int>, now: int) returns (outcome: Outcome)
      requires Valid()
      // the gateway's pending owner carries no deadline of its own
      requires ledger.pending.Some? ==> ledger.pending.value.deadlineAt.None?
      modifies this
      ensures Valid() && OthersSame(old(hashes), key)
      ensures outcome.Invalid? <==> !ValidClaim(revision, ledger, ttl, leaseMs, deadlineAt)
      ensures outcome.Installed? <==> ValidClaim(revision, ledger, ttl, leaseMs, deadlineAt)
                                      && CanClaim(old(SlotAt(key)), now, revision, replace, deadlineAt)
      ensures SlotAt(key) == if outcome.Installed? then TurnStoreSpec.Claim(old(SlotAt(key)), now, ledger, ttl, leaseMs, deadlineAt)
                             else old(SlotAt(key))
      ensures outcome.Installed? ==> SlotAt(key).expiresAt == Some(now + ttl * 1000)
    {
      hide TurnStoreSpec.Claim;
      if !ValidClaim(revision, ledger, ttl, leaseMs, deadlineAt) { return Invalid; }
      var h := HashAt(key);
      var current := if h.gateway.Some? then h.gateway.value.revision else 0;
      if current != revision { return Refused; }
      var pending := if h.gateway.Some? then h.gateway.value.pending else None;
      if replace.Some? {
        if pending.None? || pending.value.token != replace.value { return Refused; }
      } else {
        if h.providerClosed { return Refused; }
        if pending.Some? { return Refused; }
        if h.gateway.Some? {
          var expires := if h.turnExpiresAt.Some? then h.turnExpiresAt.value else 0;
          if expires <= now { return Refused; }
        }
      }
      if deadlineAt.Some? && deadlineAt.value <= now { return Refused; }
      var deadline := deadlineAt;
      if leaseMs.Some? {
        var expires := now + leaseMs.value;
        if deadlineAt.Some? && deadlineAt.value < expires { expires := deadlineAt.value; }
        deadline := Some(expires);
      }
      ClaimedHash(h, ledger, deadline, now, ttl, leaseMs, deadlineAt);
      hashes := hashes[key := h.(gateway := Some(ledger), turnOwnerExpiresAt := deadline, expiresAt := Some(now + ttl * 1000))];
      return Installed;
    }

    method Commit(key: string, revision: nat, token: Token, ledger: Ledger, session: Option<Session>,
                  ttl: int, activeMs: int, now: int) returns (outcome: Outcome)
      requires Valid()
      modifies this
      ensures Valid() && OthersSame(old(hashes), key)
      ensures outcome.Invalid? <==> !ValidCommit(revision, ledger, ttl, activeMs)
      ensures outcome.Installed? <==> ValidCommit(revision, ledger, ttl, activeMs)
                                      && CanCommit(old(SlotAt(key)), now, revision, token)
      ensures !outcome.Installed? ==> SlotAt(key) == old(SlotAt(key))
      ensures outcome.Installed? ==>
        var snapshot := if session.Some? then session.value else EMPTY_SESSION;
        SlotAt(key) == TurnStoreSpec.Commit(old(SlotAt(key)), now, ledger, snapshot, ttl, activeMs)
      ensures outcome.Installed? ==> SlotAt(key).activeExpiresAt == now + activeMs && SlotAt(key).expiresAt == Some(now + ttl * 1000)
    {
      if !ValidCommit(revision, ledger, ttl, activeMs) { return Invalid; }
      var h := HashAt(key);
      if h.gateway.None? { return Refused; }
      var record := h.gateway.value;
      if record.revision != revision || record.pending.None? || record.pending.value.token != token { return Refused; }
      if h.providerClosed && record.pending.value.kind != Recovery { return Refused; }
      if h.turnOwnerExpiresAt.Some? && h.turnOwnerExpiresAt.value <= now { return Refused; }
      var snapshot := if session.Some? then session.value else EMPTY_SESSION;
      hashes := hashes[key := h.(gateway := Some(ledger), state := snapshot.state, data := Some(snapshot.data),
                                 stateHistory := snapshot.history, turnExpiresAt := Some(now + activeMs),
                                 expiresAt := Some(now + ttl * 1000))];
      return Installed;
    }
  }
}

/** InMemoryTurnStore: a map of records, each carrying its own receipt expiry, beside the session storage. */
module InMemoryTurns {
  import opened Wrappers
  import opened TurnTypes
  import opened TurnStoreSpec

  datatype Record = Record(ledger: Ledger, session: Option<Session>, activeExpiresAt: Option<int>, receiptExpiresAt: int)

  datatype Stored = Stored(session: Session, expiresAt: int)

  class InMemoryTurnStore {
    var records: map<string, Record>
    /** `storage.store`: the machine's own session map, which shares the snapshots. */
    var sessions: map<string, Stored>

    /** A record without a committed snapshot has never been active. */
    ghost predicate Valid()
      reads this
    {
      forall k <- records :: records[k].activeExpiresAt.None? ==> records[k].ledger.pending.Some? && records[k].ledger.revision == 0
    }

    predicate IsCurrent(key: string, now: int)
      reads this
    {
      key in records && records[key].receiptExpiresAt > now
    }

    /** The slot this store presents for a key at a given time. It never learns of a provider closure. */
    ghost function SlotAt(key: string, now: int): Slot
      reads this
    {
      if IsCurrent(key, now) then
        var r := records[key];
        Slot(Some(r.ledger), r.session, if r.activeExpiresAt.Some? then r.activeExpiresAt.value else 0, false, Some(r.receiptExpiresAt))
      else if key in sessions && sessions[key].expiresAt > now then
        Slot(None, Some(sessions[key].session), 0, false, Some(sessions[key].expiresAt))
      else ABSENT
    }

    ghost predicate OthersSame(oldRecords: map<string, Record>, oldSessions: map<string, Stored>, key: string)
      reads this
    {
      && (forall k <- records :: k != key ==> k in oldRecords && records[k] == oldRecords[k])
      && (forall k <- oldRecords :: k != key ==> k in records)
      && (forall k <- sessions :: k != key ==> k in oldSessions && sessions[k] == oldSessions[k])
      && (forall k <- oldSessions :: k != key ==> k in sessions)
    }

    constructor ()
      ensures Valid() && forall key, now :: SlotAt(key, now) == ABSENT
    {
      records := map[];
      sessions := map[];
    }

    method Read(key: string, now: int) returns (seen: Observation)
      requires Valid()
      modifies this
      ensures Valid() && OthersSame(old(records), old(sessions), key)
      ensures SlotAt(key, now) == old(SlotAt(key, now))
      ensures seen == TurnStoreSpec.Read(SlotAt(key, now), now)
    {
      if IsCurrent(key, now) {
        var r := records[key];
        return Found(r.ledger, r.session, if r.activeExpiresAt.Some? then r.activeExpiresAt.value else 0, false, now);
      }
      records := records - {key};
      if key in sessions {
        if sessions[key].expiresAt > now { return Orphan(sessions[key].session, now); }
        sessions := sessions - {key};
      }
      return Empty(now);
    }

    method Claim(key: string, revision: nat, ledger: Ledger, ttl: int, replace: Option<Token>,
                 leaseMs: Option<int>, deadlineAt: Option<int>, now: int) returns (outcome: Outcome)
      requires Valid()
      requires ledger.pending.Some? ==> ledger.pending.value.deadlineAt.None?
      modifies this
      ensures Valid() && OthersSame(old(records), old(sessions), key)
      ensures outcome.Invalid? <==> !ValidClaim(revision, ledger, ttl, leaseMs, deadlineAt)
      ensures outcome.Installed? <==> ValidClaim(revision, ledger, ttl, leaseMs, deadlineAt)
                                      && CanClaim(old(SlotAt(key, now)), now, revision, replace, deadlineAt)
      ensures !outcome.Installed? ==> SlotAt(key, now) == old(SlotAt(key, now))
      // a first claim over a session that other code wrote starts from no snapshot
      ensures outcome.Installed? ==>
        var before := old(SlotAt(key, now));
        var adopted := if before.ledger.Some? then before else ABSENT;
        SlotAt(key, now) == TurnStoreSpec.Claim(adopted, now, ledger, ttl, leaseMs, deadlineAt)
    {
      if !ValidClaim(revision, ledger, ttl, leaseMs, deadlineAt) { return Invalid; }
      var current := if IsCurrent(key, now) then Some(records[key]) else None;
      if (if current.Some? then current.value.ledger.revision else 0) != revision { return Refused; }
      var pending := if current.Some? then current.value.ledger.pending else None;
      if (if replace.Some? then pending.None? || pending.value.token != replace.value else pending.Some?) { return Refused; }
      if current.Some? && replace.None? && (if current.value.activeExpiresAt.Some? then current.value.activeExpiresAt.value else 0) <= now {
        return Refused;
      }
      if deadlineAt.Some? && deadlineAt.value <= now { return Refused; }
      var claimed := ledger;
      if leaseMs.Some? || deadlineAt.Some? {
        var bound := if deadlineAt.None? then Some(now + leaseMs.value)
                     else if leaseMs.None? || deadlineAt.value <= now + leaseMs.value then deadlineAt
                     else Some(now + leaseMs.value);
        claimed := claimed.(pending := Some(ledger.pending.value.(deadlineAt := bound)));
      }
      var session := if current.Some? then current.value.session else None;
      var active := if current.Some? then current.value.activeExpiresAt else None;
      records := records[key := Record(claimed, session, active, now + ttl * 1000)];
      return Installed;
    }

    method Commit(key: string, revision: nat, token: Token, ledger: Ledger, session: Option<Session>,
                  ttl: int, activeMs: int, now: int) returns (outcome: Outcome)
      requires Valid()
      modifies this
      ensures Valid() && OthersSame(old(records), old(sessions), key)
      ensures outcome.Invalid? <==> !ValidCommit(revision, ledger, ttl, activeMs)
      ensures outcome.Installed? <==> ValidCommit(revision, ledger, ttl, activeMs)
                                      && CanCommit(old(SlotAt(key, now)), now, revision, token)
      ensures !outcome.Installed? ==> SlotAt(key, now) == old(SlotAt(key, now))
      ensures outcome.Installed? ==>
        var snapshot := if session.Some? then session.value else EMPTY_SESSION;
        && SlotAt(key, now) == TurnStoreSpec.Commit(old(SlotAt(key, now)), now, ledger, snapshot, ttl, activeMs)
        && SlotAt(key, now).activeExpiresAt == now + activeMs && SlotAt(key, now).expiresAt == Some(now + ttl * 1000)
        // the machine's own storage receives the same snapshot
        && key in sessions && sessions[key] == Stored(snapshot, now + activeMs)
    {
      if !ValidCommit(revision, ledger, ttl, activeMs) { return Invalid; }
      if key !in records { return Refused; }
      var record := records[key];
      if record.receiptExpiresAt <= now || record.ledger.revision != revision || record.ledger.pending.None?
         || record.ledger.pending.value.token != token
         || (record.ledger.pending.value.deadlineAt.Some? && record.ledger.pending.value.deadlineAt.value <= now) {
        return Refused;
      }
      var snapshot := if session.Some? then session.value else EMPTY_SESSION;
      sessions := sessions[key := Stored(snapshot, now + activeMs)];
      records := records[key := Record(ledger, Some(snapshot), Some(now + activeMs), now + ttl * 1000)];
      return Installed;
    }
  }
}
