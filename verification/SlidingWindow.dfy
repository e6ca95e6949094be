/**
  The bucketed sliding-window limiter (lib/SlidingWindowRateLimit.js). Requests are counted in
  sub-windows; a bucket counts while its start lies inside the window. A sub-window is windowMs/precision
  long, which need not be a whole number of milliseconds, so time is counted in ticks of 1/precision ms:
  a window is `window` = windowMs * precision ticks and a sub-window `sub` = windowMs ticks.
 */
module SlidingWindow {
  datatype Start = Start(at: int)

  /** An admission: its time, and the start of its sub-window. */
  datatype Hit = Hit(at: int, start: Start)

  /** An admission, filed under the start of its sub-window. */
  function HitAt(now: int, sub: int): (hit: Hit)
    requires sub > 0
    ensures hit.at == now && HitOk(hit, sub) && exists k: int :: hit.start.at == k * sub
  {
    Hit(now, Start(now / sub * sub))
  }

  predicate HitOk(hit: Hit, sub: int) { hit.start.at <= hit.at < hit.start.at + sub }

  /** Admissions whose bucket starts at `from` or later. */
  function CountSince(hits: seq<Hit>, from: int): nat {
    if hits == [] then 0
    else CountSince(hits[..|hits| - 1], from) + (if hits[|hits| - 1].start.at >= from then 1 else 0)
  }

  /** Admissions with from <= time <= to. */
  function CountSpan(hits: seq<Hit>, from: int, to: int): nat {
    if hits == [] then 0
    else CountSpan(hits[..|hits| - 1], from, to) + (if from <= hits[|hits| - 1].at <= to then 1 else 0)
  }

  /** Admissions in one of a set of buckets that start at `from` or later. */
  ghost function CountIn(hits: seq<Hit>, starts: set<Start>, from: int): nat {
    if hits == [] then 0
    else CountIn(hits[..|hits| - 1], starts, from)
         + (if hits[|hits| - 1].start in starts && hits[|hits| - 1].start.at >= from then 1 else 0)
  }

  ghost function CountBucket(hits: seq<Hit>, start: Start): nat {
    if hits == [] then 0
    else CountBucket(hits[..|hits| - 1], start) + (if hits[|hits| - 1].start == start then 1 else 0)
  }

  lemma {:induction false} CountInAdds(hits: seq<Hit>, starts: set<Start>, b: Start, from: int)
    requires b !in starts
    ensures CountIn(hits, starts + {b}, from) == CountIn(hits, starts, from) + (if b.at >= from then CountBucket(hits, b) else 0)
  {
    if hits != [] { CountInAdds(hits[..|hits| - 1], starts, b, from); }
  }

  lemma {:induction false} CountInNone(hits: seq<Hit>, from: int)
    ensures CountIn(hits, {}, from) == 0
  {
    if hits != [] { CountInNone(hits[..|hits| - 1], from); }
  }

  /** Buckets that are missing but start too early do not change the count. */
  lemma {:induction false} CountInAll(hits: seq<Hit>, starts: set<Start>, from: int)
    requires forall h <- hits :: h.start in starts || h.start.at < from
    ensures CountIn(hits, starts, from) == CountSince(hits, from)
  {
    if hits != [] { CountInAll(hits[..|hits| - 1], starts, from); }
  }

  lemma {:induction false} NoneSince(hits: seq<Hit>, from: int)
    requires forall h <- hits :: h.start.at < from
    ensures CountSince(hits, from) == 0
  {
    if hits != [] { NoneSince(hits[..|hits| - 1], from); }
  }

  lemma {:induction false} EmptyBucket(hits: seq<Hit>, b: Start)
    requires forall h <- hits :: h.start != b
    ensures CountBucket(hits, b) == 0
  {
    if hits != [] { EmptyBucket(hits[..|hits| - 1], b); }
  }

  /** Every admission found fewer than `max` earlier ones still counted, and came no earlier than them. */
  ghost predicate Governed(hits: seq<Hit>, max: nat, window: int, sub: int) {
    hits == [] ||
    var init, last := hits[..|hits| - 1], hits[|hits| - 1];
    && Governed(init, max, window, sub)
    && CountSince(init, last.at - window) < max
    && HitOk(last, sub)
    && (forall h <- init :: h.at <= last.at)
  }

  lemma GovernedGrows(hits: seq<Hit>, hit: Hit, max: nat, window: int, sub: int)
    requires Governed(hits, max, window, sub) && HitOk(hit, sub) && forall h <- hits :: h.at <= hit.at
    requires CountSince(hits, hit.at - window) < max
    ensures Governed(hits + [hit], max, window, sub)
  {
    assert (hits + [hit])[..|hits|] == hits;
  }

  lemma {:induction false} GovernedHits(hits: seq<Hit>, max: nat, window: int, sub: int)
    requires Governed(hits, max, window, sub)
    ensures forall h <- hits :: HitOk(h, sub)
  {
    if hits != [] { GovernedHits(hits[..|hits| - 1], max, window, sub); }
  }

  /** Buckets count their admissions; by time `clock` an admission without a bucket can no longer count. */
  ghost predicate Tracks(buckets: map<Start, nat>, hits: seq<Hit>, clock: int, window: int) {
    && (forall b <- buckets :: buckets[b] == CountBucket(hits, b) && exists h :: h in hits && h.start == b)
    && (forall h <- hits :: h.at <= clock && (h.start in buckets || h.start.at < clock - window))
  }

  ghost predicate IsPruned(buckets: map<Start, nat>, kept: map<Start, nat>, from: int) {
    && (forall b <- kept :: b in buckets && kept[b] == buckets[b] && b.at >= from)
    && (forall b <- buckets :: b.at >= from ==> b in kept)
  }

  lemma PrunedTracks(hits: seq<Hit>, buckets: map<Start, nat>, kept: map<Start, nat>, clock: int, now: int, window: int)
    requires now >= clock && Tracks(buckets, hits, clock, window) && IsPruned(buckets, kept, now - window)
    ensures Tracks(kept, hits, now, window)
  {
  }

  lemma TracksLater(hits: seq<Hit>, buckets: map<Start, nat>, clock: int, now: int, window: int)
    requires now >= clock && Tracks(buckets, hits, clock, window)
    ensures Tracks(buckets, hits, now, window)
  {
  }

  /** Buckets after an increment still track the admissions, before any pruning. */
  lemma IncrementTracks(hits: seq<Hit>, buckets: map<Start, nat>, hit: Hit, clock: int, window: int, sub: int)
    requires hit.at >= clock && Tracks(buckets, hits, clock, window) && HitOk(hit, sub) && sub <= window
    ensures Tracks(buckets[hit.start := (if hit.start in buckets then buckets[hit.start] else 0) + 1], hits + [hit], hit.at, window)
  {
    var after := hits + [hit];
    assert after[..|hits|] == hits && after[|hits|] == hit && hit in after;
    assert forall h <- hits :: h in after;
    if hit.start !in buckets {
      EmptyBucket(hits, hit.start);
    }
  }

  lemma AdmissionKept(hits: seq<Hit>, buckets: map<Start, nat>, kept: map<Start, nat>, hit: Hit, clock: int, max: nat, window: int, sub: int)
    requires hit.at >= clock && Tracks(buckets, hits, clock, window) && HitOk(hit, sub) && sub <= window
    requires Governed(hits, max, window, sub) && CountSince(hits, hit.at - window) < max
    requires IsPruned(buckets[hit.start := (if hit.start in buckets then buckets[hit.start] else 0) + 1], kept, hit.at - window)
    ensures Tracks(kept, hits + [hit], hit.at, window) && Governed(hits + [hit], max, window, sub)
  {
    var more := buckets[hit.start := (if hit.start in buckets then buckets[hit.start] else 0) + 1];
    IncrementTracks(hits, buckets, hit, clock, window, sub);
    PrunedTracks(hits + [hit], more, kept, hit.at, hit.at, window);
    GovernedGrows(hits, hit, max, window, sub);
  }

  /** `reset` is when the oldest counted bucket leaves the window, or a whole window ahead if none counts. */
  ghost predicate IsResetTime(hits: seq<Hit>, now: int, window: int, reset: int) {
    && reset <= now + window
    && (forall h <- hits :: h.start.at >= now - window ==> reset <= h.start.at + window)
    && (reset == now + window || exists h :: h in hits && h.start.at >= now - window && reset == h.start.at + window)
  }

  datatype Window = Window(buckets: map<Start, nat>, lastAccess: int)

  /** Outside `rest` every key has been pruned, or dropped because nothing was left. */
  ghost predicate Cleaned(before: map<string, Window>, after: map<string, Window>, rest: set<string>, from: int) {
    forall k <- before :: k !in rest ==> IsPruned(before[k].buckets, if k in after then after[k].buckets else map[], from)
  }

  function BucketsOf(windows: map<string, Window>, key: string): map<Start, nat> {
    if key in windows then windows[key].buckets else map[]
  }

  function HitsOf(admitted: map<string, seq<Hit>>, key: string): seq<Hit> {
    if key in admitted then admitted[key] else []
  }

  ghost predicate KeyOk(buckets: map<Start, nat>, hits: seq<Hit>, clock: int, max: nat, window: int, sub: int) {
    Tracks(buckets, hits, clock, window) && Governed(hits, max, window, sub)
  }

  ghost predicate AllOk(windows: map<string, Window>, admitted: map<string, seq<Hit>>, clock: int, max: nat, window: int, sub: int) {
    forall key :: KeyOk(BucketsOf(windows, key), HitsOf(admitted, key), clock, max, window, sub)
  }

  /** Only `key` was touched: every other key stays in order as the clock moves on. */
  lemma OthersLater(windows: map<string, Window>, admitted: map<string, seq<Hit>>, windows': map<string, Window>, admitted': map<string, seq<Hit>>,
                    key: string, clock: int, now: int, max: nat, window: int, sub: int)
    requires AllOk(windows, admitted, clock, max, window, sub) && now >= clock
    requires forall k :: k != key ==> BucketsOf(windows', k) == BucketsOf(windows, k) && HitsOf(admitted', k) == HitsOf(admitted, k)
    requires KeyOk(BucketsOf(windows', key), HitsOf(admitted', key), now, max, window, sub)
    ensures AllOk(windows', admitted', now, max, window, sub)
  {
    forall k | k != key
      ensures KeyOk(BucketsOf(windows', k), HitsOf(admitted', k), now, max, window, sub)
    {
      TracksLater(HitsOf(admitted, k), BucketsOf(windows, k), clock, now, window);
    }
  }

  /** Writing one key's window and admissions leaves every other key's alone. */
  lemma OneKeyUpdated(windows: map<string, Window>, admitted: map<string, seq<Hit>>, key: string, w: Window, hits: seq<Hit>)
    ensures forall k :: k != key ==> BucketsOf(windows[key := w], k) == BucketsOf(windows, k) && HitsOf(admitted[key := hits], k) == HitsOf(admitted, k)
    ensures BucketsOf(windows[key := w], key) == w.buckets && HitsOf(admitted[key := hits], key) == hits
  {
  }

  lemma CleanedLater(before: map<string, Window>, after: map<string, Window>, admitted: map<string, seq<Hit>>,
                     clock: int, now: int, max: nat, window: int, sub: int)
    requires AllOk(before, admitted, clock, max, window, sub) && now >= clock
    requires Cleaned(before, after, {}, now - window) && after.Keys <= before.Keys
    ensures AllOk(after, admitted, now, max, window, sub)
  {
    forall k
      ensures KeyOk(BucketsOf(after, k), HitsOf(admitted, k), now, max, window, sub)
    {
      assert KeyOk(BucketsOf(before, k), HitsOf(admitted, k), clock, max, window, sub);
      if k in before {
        PrunedTracks(HitsOf(admitted, k), before[k].buckets, BucketsOf(after, k), clock, now, window);
      } else {
        TracksLater(HitsOf(admitted, k), map[], clock, now, window);
      }
    }
  }

  datatype Result = Result(allowed: bool, remaining: nat, resetAt: int)

  class SlidingWindowRateLimit {
    const max: nat
    const window: int
    const sub: int
    var windows: map<string, Window>
    /** Latest clock reading, and the admissions of each key since its last reset (history). */
    ghost var clock: int
    ghost var admitted: map<string, seq<Hit>>

    constructor (maxRequests: nat, windowMs: int, precision: int)
      requires windowMs > 0 && precision > 0
      ensures Valid() && max == maxRequests && window == windowMs * precision && sub == windowMs
      ensures forall key :: Admitted(key) == []
    {
      max := maxRequests;
      window := windowMs * precision;
      sub := windowMs;
      windows := map[];
      clock := 0;
      admitted := map[];
    }

    ghost function Admitted(key: string): seq<Hit>
      reads this
    {
      HitsOf(admitted, key)
    }

    function Buckets(key: string): map<Start, nat>
      reads this
    {
      BucketsOf(windows, key)
    }

    ghost predicate Valid()
      reads this
    {
      window >= sub > 0 && AllOk(windows, admitted, clock, max, window, sub)
    }

    /** _getCount: the counts of the buckets inside the window, added up. */
    static method GetCount(buckets: map<Start, nat>, from: int, ghost hits: seq<Hit>) returns (count: nat)
      requires forall b <- buckets :: buckets[b] == CountBucket(hits, b)
      ensures count == CountIn(hits, buckets.Keys, from)
    {
      var rest := buckets.Keys;
      count := 0;
      assert buckets.Keys - rest == {};
      CountInNone(hits, from);
      while rest != {}
        invariant rest <= buckets.Keys
        invariant count == CountIn(hits, buckets.Keys - rest, from)
        decreases |rest|
      {
        var b :| b in rest;
        CountInAdds(hits, buckets.Keys - rest, b, from);
        assert buckets.Keys - (rest - {b}) == buckets.Keys - rest + {b};
        if b.at >= from { count := count + buckets[b]; }
        rest := rest - {b};
      }
      assert buckets.Keys - rest == buckets.Keys;
    }

    /** Buckets that start before the window are dropped. */
    static method Prune(buckets: map<Start, nat>, from: int) returns (kept: map<Start, nat>)
      ensures IsPruned(buckets, kept, from)
    {
      kept := buckets;
      var rest := buckets.Keys;
      while rest != {}
        invariant rest <= buckets.Keys && kept.Keys <= buckets.Keys
        invariant forall b <- buckets :: b in rest || b.at >= from ==> b in kept
        invariant forall b <- kept :: kept[b] == buckets[b] && (b in rest || b.at >= from)
        decreases |rest|
      {
        var b :| b in rest;
        if b.at < from { kept := kept - {b}; }
        rest := rest - {b};
      }
    }

    /** _getResetTime: oldest counted bucket, plus the window. */
    static method GetResetTime(buckets: map<Start, nat>, now: int, window: int, ghost hits: seq<Hit>, ghost clock: int) returns (reset: int)
      requires Tracks(buckets, hits, clock, window) && now >= clock
      ensures IsResetTime(hits, now, window, reset)
    {
      var from := now - window;
      var oldest := now;
      var rest := buckets.Keys;
      while rest != {}
        invariant rest <= buckets.Keys
        invariant oldest <= now
        invariant forall b <- buckets :: b !in rest && b.at >= from ==> oldest <= b.at
        invariant oldest == now || (Start(oldest) in buckets && oldest >= from)
        decreases |rest|
      {
        var b :| b in rest;
        if b.at >= from && b.at < oldest { oldest := b.at; }
        rest := rest - {b};
      }
      reset := oldest + window;
    }

    /** _increment: count the request in its sub-window, then drop the buckets that left the window. */
    static method Increment(buckets: map<Start, nat>, now: int, window: int, sub: int, ghost hits: seq<Hit>, ghost clock: int, ghost max: nat)
      returns (kept: map<Start, nat>)
      requires window >= sub > 0 && now >= clock && KeyOk(buckets, hits, clock, max, window, sub)
      requires CountSince(hits, now - window) < max
      ensures KeyOk(kept, hits + [HitAt(now, sub)], now, max, window, sub)
    {
      var hit := HitAt(now, sub);
      kept := Prune(buckets[hit.start := (if hit.start in buckets then buckets[hit.start] else 0) + 1], now - window);
      AdmissionKept(hits, buckets, kept, hit, clock, max, window, sub);
    }

    ghost predicate OthersSame(key: string, oldWindows: map<string, Window>, oldAdmitted: map<string, seq<Hit>>)
      reads this
    {
      forall k :: k != key ==> BucketsOf(windows, k) == BucketsOf(oldWindows, k) && HitsOf(admitted, k) == HitsOf(oldAdmitted, k)
    }

    /**
      A request is admitted exactly when fewer than `max` admissions are still counted. The clock must
      not run backwards between calls.
     */
    method Check(key: string, now: int) returns (result: Result)
      requires Valid() && now >= clock
      modifies this
      ensures Valid() && clock == now
      ensures var count := CountSince(old(Admitted(key)), now - window);
        && (result.allowed <==> count < max)
        && result.remaining == (if count < max then max - count - 1 else 0)
        && Admitted(key) == if result.allowed then old(Admitted(key)) + [HitAt(now, sub)] else old(Admitted(key))
      ensures IsResetTime(old(Admitted(key)), now, window, result.resetAt)
      ensures OthersSame(key, old(windows), old(admitted))
    {
      hide Governed, IsResetTime, HitAt, CountIn, CountSince;
      var buckets := Buckets(key);
      ghost var hits := Admitted(key);
      assert KeyOk(buckets, hits, clock, max, window, sub);
      hide AllOk, BucketsOf, HitsOf;
      var count := GetCount(buckets, now - window, hits);
      CountInAll(hits, buckets.Keys, now - window);
      hide Tracks;
      var allowed := count < max;
      var reset := GetResetTime(buckets, now, window, hits, clock);
      if allowed {
        buckets := Increment(buckets, now, window, sub, hits, clock, max);
        admitted := admitted[key := hits + [HitAt(now, sub)]];
      } else {
        TracksLater(hits, buckets, clock, now, window);
      }
      windows := windows[key := Window(buckets, now)];
      OneKeyUpdated(old(windows), old(admitted), key, windows[key], hits + [HitAt(now, sub)]);
      result := Result(allowed, if max - count - (if allowed then 1 else 0) < 0 then 0 else max - count - (if allowed then 1 else 0), reset);
      OthersLater(old(windows), old(admitted), windows, admitted, key, clock, now, max, window, sub);
      clock := now;
    }

    /** The periodic cleanup: expired buckets of every key go, and idle empty keys with them. Nothing observable changes. */
    method Cleanup(now: int)
      requires Valid() && now >= clock
      modifies this
      ensures Valid() && clock == now && admitted == old(admitted)
    {
      hide AllOk, IsPruned;
      ghost var before := windows;
      var rest := windows.Keys;
      while rest != {}
        invariant rest <= windows.Keys <= before.Keys
        invariant admitted == old(admitted) && clock == old(clock)
        invariant forall k <- rest :: windows[k] == before[k]
        invariant Cleaned(before, windows, rest, now - window)
        decreases |rest|
      {
        var key :| key in rest;
        var data := windows[key];
        var kept := Prune(data.buckets, now - window);
        windows := windows[key := data.(buckets := kept)];
        if kept == map[] && now - data.lastAccess > window * 2 {
          windows := windows - {key};
        }
        rest := rest - {key};
      }
      CleanedLater(before, windows, admitted, clock, now, max, window, sub);
      clock := now;
    }

    method Reset(key: string)
      requires Valid()
      modifies this
      ensures Valid() && Admitted(key) == [] && clock == old(clock)
      ensures OthersSame(key, old(windows), old(admitted))
    {
      windows := windows - {key};
      admitted := admitted[key := []];
      OthersLater(old(windows), old(admitted), windows, admitted, key, clock, clock, max, window, sub);
    }
  }

  // ---- two-sided bounds ----

  lemma {:induction false} SpanCounted(hits: seq<Hit>, from: int, to: int, start: int, sub: int)
    requires start <= from - sub + 1 && forall h <- hits :: HitOk(h, sub)
    ensures CountSpan(hits, from, to) <= CountSince(hits, start)
  {
    if hits != [] {
      SpanCounted(hits[..|hits| - 1], from, to, start, sub);
      assert HitOk(hits[|hits| - 1], sub);
    }
  }

  /** Never more than `max` admissions in a span one sub-window shorter than the window. */
  lemma {:induction false} AtMostMaxPerSpan(hits: seq<Hit>, max: nat, window: int, sub: int, from: int, span: int)
    requires Governed(hits, max, window, sub) && span <= window - sub + 1
    ensures CountSpan(hits, from, from + span) <= max
  {
    if hits != [] {
      var init, last := hits[..|hits| - 1], hits[|hits| - 1];
      AtMostMaxPerSpan(init, max, window, sub, from, span);
      GovernedHits(init, max, window, sub);
      if from <= last.at <= from + span {
        SpanCounted(init, from, from + span, last.at - window, sub);
      }
    }
  }

  /** Never a refusal unless `max` requests were admitted in the last window. */
  lemma {:induction false} RefusedOnlyWhenFull(hits: seq<Hit>, window: int, sub: int, now: int)
    requires forall h <- hits :: HitOk(h, sub) && h.at <= now
    ensures CountSince(hits, now - window) <= CountSpan(hits, now - window, now)
  {
    if hits != [] { RefusedOnlyWhenFull(hits[..|hits| - 1], window, sub, now); }
  }

  // The limit is not per window: how long a span it does bound.

  ghost predicate Within(hits: seq<Hit>, from: int, span: int, max: nat) { CountSpan(hits, from, from + span) <= max }

  /** No governed run admits more than `max` in any span of this length. */
  ghost predicate Bounds(max: nat, window: int, sub: int, span: int) {
    forall hits: seq<Hit>, from: int :: Governed(hits, max, window, sub) ==> Within(hits, from, span, max)
  }

  /** n requests in the last instant of the first sub-window. */
  function Burst(n: nat, sub: int): (hits: seq<Hit>)
    ensures |hits| == n && forall i | 0 <= i < n :: hits[i] == Hit(sub - 1, Start(0))
  {
    if n == 0 then [] else Burst(n - 1, sub) + [Hit(sub - 1, Start(0))]
  }

  lemma {:induction false} BurstCounts(n: nat, sub: int, to: int, from: int)
    requires to >= sub - 1
    ensures CountSpan(Burst(n, sub), sub - 1, to) == n
    ensures CountSince(Burst(n, sub), from) == if from <= 0 then n else 0
  {
    if n > 0 {
      BurstCounts(n - 1, sub, to, from);
      assert Burst(n, sub)[..n - 1] == Burst(n - 1, sub);
    }
  }

  lemma {:induction false} BurstGoverned(n: nat, max: nat, window: int, sub: int)
    requires n <= max && 0 < sub <= window
    ensures Governed(Burst(n, sub), max, window, sub)
  {
    if n == 0 {
      assert Governed([], max, window, sub);
    } else {
      hide Governed, CountSince, CountSpan;
      BurstGoverned(n - 1, max, window, sub);
      BurstCounts(n - 1, sub, sub - 1, sub - 1 - window);
      BurstSame(n - 1, sub);
      GovernedAdds(Burst(n - 1, sub), Hit(sub - 1, Start(0)), max, window, sub);
    }
  }

  lemma BurstSame(n: nat, sub: int)
    ensures forall h <- Burst(n, sub) :: h == Hit(sub - 1, Start(0))
  {
  }

  lemma GovernedAdds(init: seq<Hit>, last: Hit, max: nat, window: int, sub: int)
    requires Governed(init, max, window, sub) && CountSince(init, last.at - window) < max && HitOk(last, sub)
    requires forall h <- init :: h.at <= last.at
    ensures Governed(init + [last], max, window, sub)
  {
    assert (init + [last])[..|init|] == init;
  }

  /** A burst at the end of a sub-window stops counting one tick after the window has passed its start. */
  lemma BurstEscapes(max: nat, window: int, sub: int, span: int)
    requires max > 0 && 0 < sub <= window && span > window - sub + 1
    ensures !Bounds(max, window, sub, span)
  {
    hide HitAt, Burst;
    var burst := Burst(max, sub);
    var next := HitAt(window + 1, sub);
    BurstGoverned(max, max, window, sub);
    BurstCounts(max, sub, sub - 1 + span, 1);
    GovernedGrows(burst, next, max, window, sub);
    hide Governed, CountSince;
    assert (burst + [next])[..max] == burst;
    assert !Within(burst + [next], sub - 1, span, max);
  }

  /**
    Exactly which spans the limiter bounds, for any limit, window and sub-window: those at most one tick longer
    than the window less a sub-window. The promised limit per whole window holds only when a sub-window is one tick.
   */
  lemma BoundedSpans(max: nat, window: int, sub: int, span: int)
    requires max > 0 && 0 < sub <= window
    ensures Bounds(max, window, sub, span) <==> span <= window - sub + 1
    ensures Bounds(max, window, sub, window) <==> sub == 1
  {
    BoundedWithin(max, window, sub, span);
    BoundedWithin(max, window, sub, window);
  }

  lemma BoundedWithin(max: nat, window: int, sub: int, span: int)
    requires max > 0 && 0 < sub <= window
    ensures Bounds(max, window, sub, span) <==> span <= window - sub + 1
  {
    if span <= window - sub + 1 {
      forall hits: seq<Hit>, from: int | Governed(hits, max, window, sub)
        ensures Within(hits, from, span, max)
      {
        AtMostMaxPerSpan(hits, max, window, sub, from, span);
      }
    } else {
      BurstEscapes(max, window, sub, span);
    }
  }

  lemma {:induction false} SinceMonotone(hits: seq<Hit>, from: int, later: int)
    requires from <= later
    ensures CountSince(hits, later) <= CountSince(hits, from)
  {
    if hits != [] { SinceMonotone(hits[..|hits| - 1], from, later); }
  }

  /** What is still counted never exceeds the limit, at any time after the last admission. */
  lemma CountedAtMostMax(hits: seq<Hit>, max: nat, window: int, sub: int, now: int)
    requires Governed(hits, max, window, sub) && forall h <- hits :: h.at <= now
    ensures CountSince(hits, now - window) <= max
  {
    if hits != [] {
      assert hits[|hits| - 1] in hits;
      SinceMonotone(hits[..|hits| - 1], hits[|hits| - 1].at - window, now - window);
    }
  }

  /** Counting from a later start drops any admission between the two starts. */
  lemma {:induction false} SinceDrops(hits: seq<Hit>, h: Hit, from: int, later: int)
    requires h in hits && from <= h.start.at < later
    ensures CountSince(hits, later) < CountSince(hits, from)
  {
    var init, last := hits[..|hits| - 1], hits[|hits| - 1];
    if last == h {
      SinceMonotone(init, from, later);
    } else {
      SinceDrops(init, h, from, later);
    }
  }

  lemma {:induction false} SinceSame(hits: seq<Hit>, from: int, later: int)
    requires from <= later && forall h <- hits :: h.start.at >= from ==> h.start.at >= later
    ensures CountSince(hits, later) == CountSince(hits, from)
  {
    if hits != [] { SinceSame(hits[..|hits| - 1], from, later); }
  }

  /**
    The advertised reset time is exact, and exclusive: a key refused at `now` that admits nothing in
    between is admitted at a later time t if and only if t is strictly after `reset`.
   */
  lemma ResetTimeIsExclusive(hits: seq<Hit>, max: nat, window: int, sub: int, now: int, reset: int, t: int)
    requires Governed(hits, max, window, sub) && now <= t && forall h <- hits :: h.at <= now
    requires CountSince(hits, now - window) >= max > 0 && IsResetTime(hits, now, window, reset)
    ensures CountSince(hits, t - window) < max <==> t > reset
  {
    CountedAtMostMax(hits, max, window, sub, now);
    GovernedHits(hits, max, window, sub);
    ResetExact(hits, max, window, sub, now, reset, t);
  }

  lemma ResetExact(hits: seq<Hit>, max: nat, window: int, sub: int, now: int, reset: int, t: int)
    requires now <= t && forall h <- hits :: h.at <= now && HitOk(h, sub)
    requires CountSince(hits, now - window) == max > 0 && IsResetTime(hits, now, window, reset)
    ensures CountSince(hits, t - window) < max <==> t > reset
  {
    if t <= reset {
      SinceSame(hits, now - window, t - window);
    } else if reset == now + window {
      forall h <- hits
        ensures h.start.at < t - window
      {
        assert HitOk(h, sub);
      }
      NoneSince(hits, t - window);
    } else {
      var h :| h in hits && h.start.at >= now - window && reset == h.start.at + window;
      SinceDrops(hits, h, now - window, t - window);
    }
  }
}
