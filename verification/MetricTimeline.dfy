/**
  Turns in aggregateMetricEvents (lib/MetricEvents.js): no two share a position, each session's are sorted
  and checked against the clock, and one pass over neighbours counts every validation retry.
 */
module MetricTimeline {
  import opened Wrappers
  import opened MetricEvents
  import opened MetricGroups

  ghost predicate AllTurns(turns: seq<Event>) { forall i | 0 <= i < |turns| :: turns[i].body.fact.Turn? }

  /** One envelope of every turn in the evidence. */
  ghost predicate TurnList(u: set<Event>, turns: seq<Event>) {
    Represents(u, ByTurn, turns)
  }

  // ---- positions ----

  predicate SamePlace(a: Body, b: Body) {
    a.fact.Turn? && b.fact.Turn? && a.sessionId == b.sessionId && a.fact.position == b.fact.position
  }

  /** No two turns of a session share a position. */
  ghost predicate PositionsOk(u: set<Event>) {
    forall a, b | a in u && b in u && SamePlace(a.body, b.body) :: a.body.fact.turnId == b.body.fact.turnId
  }

  ghost predicate PlacesDistinct(turns: seq<Event>) {
    forall i, j | 0 <= i < j < |turns| :: !SamePlace(turns[i].body, turns[j].body)
  }

  datatype Place = Place(sessionId: Id, position: int)

  function PlaceOf(t: Event): Place
    requires t.body.fact.Turn?
  {
    Place(t.body.sessionId, t.body.fact.position)
  }

  method CheckPositions(turns: seq<Event>) returns (ok: bool)
    requires AllTurns(turns)
    ensures ok <==> PlacesDistinct(turns)
  {
    var seen: set<Place> := {};
    var i := 0;
    while i < |turns|
      invariant 0 <= i <= |turns|
      invariant forall j | 0 <= j < i :: PlaceOf(turns[j]) in seen
      invariant forall p <- seen :: exists j :: 0 <= j < i && PlaceOf(turns[j]) == p
      invariant forall j, k | 0 <= j < k < i :: !SamePlace(turns[j].body, turns[k].body)
    {
      if PlaceOf(turns[i]) in seen {
        var j :| 0 <= j < i && PlaceOf(turns[j]) == PlaceOf(turns[i]);
        assert SamePlace(turns[j].body, turns[i].body);
        return false;
      }
      seen := seen + {PlaceOf(turns[i])};
      i := i + 1;
    }
    ok := true;
  }

  lemma PositionsByList(u: set<Event>, turns: seq<Event>)
    requires TurnList(u, turns)
    ensures PositionsOk(u) <==> PlacesDistinct(turns)
  {
    if PlacesDistinct(turns) {
      forall a, b | a in u && b in u && SamePlace(a.body, b.body)
        ensures a.body.fact.turnId == b.body.fact.turnId
      {
        assert Represented(turns, a.body) && Represented(turns, b.body);
        var i :| 0 <= i < |turns| && turns[i].body == a.body;
        var j :| 0 <= j < |turns| && turns[j].body == b.body;
        assert SamePlace(turns[i].body, turns[j].body) && SamePlace(turns[j].body, turns[i].body);
      }
    } else {
      var i, j :| 0 <= i < j < |turns| && SamePlace(turns[i].body, turns[j].body);
      assert turns[i] in u && turns[j] in u && KeyOf(ByTurn, turns[i]) != KeyOf(ByTurn, turns[j]);
    }
  }

  // ---- sorting ----

  /** A session's turns in order of position. */
  ghost predicate ByPosition(line: seq<Event>) {
    && AllTurns(line)
    && forall i, j | 0 <= i < j < |line| :: line[i].body.fact.position < line[j].body.fact.position
  }

  ghost predicate PositionsDiffer(turns: seq<Event>) {
    && AllTurns(turns)
    && forall i, j | 0 <= i < j < |turns| :: turns[i].body.fact.position != turns[j].body.fact.position
  }

  ghost predicate Sorted(turns: seq<Event>, line: seq<Event>) {
    ByPosition(line) && multiset(line) == multiset(turns)
  }

  function InsertByPosition(t: Event, line: seq<Event>): seq<Event>
    requires t.body.fact.Turn? && forall i | 0 <= i < |line| :: line[i].body.fact.Turn?
  {
    if line == [] || t.body.fact.position < line[0].body.fact.position then [t] + line
    else [line[0]] + InsertByPosition(t, line[1..])
  }

  lemma {:induction false} InsertKeepsAll(t: Event, line: seq<Event>)
    requires t.body.fact.Turn? && AllTurns(line)
    ensures multiset(InsertByPosition(t, line)) == multiset(line) + multiset{t}
  {
    if line == [] || t.body.fact.position < line[0].body.fact.position {
    } else {
      InsertKeepsAll(t, line[1..]);
      assert line == [line[0]] + line[1..];
    }
  }

  lemma {:induction false} InsertKeepsOrder(t: Event, line: seq<Event>)
    requires t.body.fact.Turn? && ByPosition(line) && forall i | 0 <= i < |line| :: line[i].body.fact.position != t.body.fact.position
    ensures var r := InsertByPosition(t, line);
      ByPosition(r) && r != [] && (r[0] == t || (line != [] && r[0] == line[0]))
  {
    if line == [] || t.body.fact.position < line[0].body.fact.position {
    } else {
      InsertKeepsOrder(t, line[1..]);
      HeadKeepsOrder(line[0], InsertByPosition(t, line[1..]));
    }
  }

  lemma HeadKeepsOrder(head: Event, rest: seq<Event>)
    requires head.body.fact.Turn? && ByPosition(rest) && rest != [] && head.body.fact.position < rest[0].body.fact.position
    ensures ByPosition([head] + rest)
  {
  }

  /** The same turns, in order of position. */
  method SortByPosition(turns: seq<Event>) returns (line: seq<Event>)
    requires PositionsDiffer(turns)
    ensures Sorted(turns, line)
  {
    line := [];
    var i := 0;
    while i < |turns|
      invariant 0 <= i <= |turns|
      invariant ByPosition(line) && multiset(line) == multiset(turns[..i])
    {
      NewPosition(turns, i, line);
      InsertKeepsOrder(turns[i], line);
      InsertKeepsAll(turns[i], line);
      line := InsertByPosition(turns[i], line);
      assert turns[..i + 1] == turns[..i] + [turns[i]];
      i := i + 1;
    }
    assert turns[..i] == turns;
  }

  lemma NewPosition(turns: seq<Event>, i: nat, line: seq<Event>)
    requires PositionsDiffer(turns) && i < |turns| && ByPosition(line) && multiset(line) == multiset(turns[..i])
    ensures forall j | 0 <= j < |line| :: line[j].body.fact.position != turns[i].body.fact.position
  {
    forall j | 0 <= j < |line|
      ensures line[j].body.fact.position != turns[i].body.fact.position
    {
      assert line[j] in multiset(line);
      assert line[j] in turns[..i];
    }
  }

  method SortAll(groups: Groups, keys: seq<Id>) returns (lines: Groups)
    requires Listing(keys, groups.Keys) && forall k <- groups :: PositionsDiffer(groups[k])
    ensures lines.Keys == groups.Keys && forall k <- groups :: Sorted(groups[k], lines[k])
  {
    lines := map[];
    var i := 0;
    while i < |keys|
      invariant 0 <= i <= |keys|
      invariant lines.Keys <= groups.Keys
      invariant forall j | 0 <= j < i :: keys[j] in lines
      invariant forall k <- lines :: Sorted(groups[k], lines[k])
    {
      var line := SortByPosition(groups[keys[i]]);
      lines := lines[keys[i] := line];
      i := i + 1;
    }
  }

  // ---- timelines ----

  /** A session's turns in order of position, one envelope each. */
  ghost predicate IsTimeline(u: set<Event>, s: Id, line: seq<Event>) {
    && ByPosition(line) && DistinctKeys(ByTurn, line)
    && (forall i | 0 <= i < |line| :: line[i] in u && line[i].body.sessionId == s)
    && (forall e <- u :: e.body.fact.Turn? && e.body.sessionId == s ==> Represented(line, e.body))
  }

  ghost predicate Timelines(u: set<Event>, lines: Groups) {
    && (forall s <- lines :: IsTimeline(u, s, lines[s]))
    && (forall e <- u :: e.body.fact.Turn? ==> e.body.sessionId in lines)
    && (forall s <- lines :: lines[s] != [])
  }

  lemma GroupPositions(u: set<Event>, turns: seq<Event>, groups: Groups, s: Id)
    requires TurnList(u, turns) && PlacesDistinct(turns) && IsGrouped(SetOf(turns), BySession, groups) && s in groups
    ensures PositionsDiffer(groups[s])
  {
    var group := groups[s];
    forall i | 0 <= i < |group|
      ensures group[i] in turns && group[i].body.sessionId == s && group[i].body.fact.Turn?
    {
      assert group[i] in group;
    }
    forall i, j | 0 <= i < j < |group|
      ensures group[i].body.fact.position != group[j].body.fact.position
    {
      var p :| 0 <= p < |turns| && turns[p] == group[i];
      var q :| 0 <= q < |turns| && turns[q] == group[j];
      assert p < q ==> !SamePlace(turns[p].body, turns[q].body);
      assert q < p ==> !SamePlace(turns[q].body, turns[p].body);
    }
  }

  lemma SortedTimeline(u: set<Event>, turns: seq<Event>, groups: Groups, s: Id, line: seq<Event>)
    requires TurnList(u, turns) && IsGrouped(SetOf(turns), BySession, groups) && s in groups && Sorted(groups[s], line)
    ensures IsTimeline(u, s, line) && line != []
  {
    var group := groups[s];
    assert group[0] in group;
    forall e: Event
      ensures e in line <==> e in group
    {
      assert e in multiset(line) <==> e in multiset(group);
    }
    forall i | 0 <= i < |line|
      ensures line[i] in turns && line[i] in u && line[i].body.sessionId == s
    {
      assert line[i] in line;
    }
    LineKeys(turns, line);
    forall e <- u | e.body.fact.Turn? && e.body.sessionId == s
      ensures Represented(line, e.body)
    {
      assert KeyOf(ByTurn, e).Some? && Represented(turns, e.body);
      var p :| 0 <= p < |turns| && turns[p].body == e.body;
      assert turns[p] in SetOf(turns) && KeyOf(BySession, turns[p]) == Some(s);
      assert turns[p] in line;
    }
  }

  /** Distinct positions come from distinct turns. */
  lemma LineKeys(turns: seq<Event>, line: seq<Event>)
    requires DistinctKeys(ByTurn, turns) && ByPosition(line) && forall i | 0 <= i < |line| :: line[i] in turns
    ensures DistinctKeys(ByTurn, line)
  {
    forall i, j | 0 <= i < j < |line|
      ensures KeyOf(ByTurn, line[i]) != KeyOf(ByTurn, line[j])
    {
      var p :| 0 <= p < |turns| && turns[p] == line[i];
      var q :| 0 <= q < |turns| && turns[q] == line[j];
      assert p != q;
      assert KeyOf(ByTurn, turns[if p < q then p else q]) != KeyOf(ByTurn, turns[if p < q then q else p]);
    }
  }

  lemma SortedTimelines(u: set<Event>, turns: seq<Event>, groups: Groups, lines: Groups)
    requires TurnList(u, turns) && IsGrouped(SetOf(turns), BySession, groups)
    requires lines.Keys == groups.Keys && forall k <- groups :: Sorted(groups[k], lines[k])
    ensures Timelines(u, lines)
  {
    forall s <- lines
      ensures IsTimeline(u, s, lines[s]) && lines[s] != []
    {
      SortedTimeline(u, turns, groups, s, lines[s]);
    }
    forall e <- u | e.body.fact.Turn?
      ensures e.body.sessionId in lines
    {
      assert KeyOf(ByTurn, e).Some? && Represented(turns, e.body);
      var p :| 0 <= p < |turns| && turns[p].body == e.body;
      assert turns[p] in SetOf(turns) && KeyOf(BySession, turns[p]) == Some(e.body.sessionId);
    }
  }

  // ---- order of time ----

  /** Turns of a session happened in the order of their positions. */
  ghost predicate ChronologyOk(u: set<Event>) {
    forall a, b | a in u && b in u && Precedes(a.body, b.body) :: a.body.at <= b.body.at
  }

  predicate Precedes(a: Body, b: Body) {
    a.fact.Turn? && b.fact.Turn? && a.sessionId == b.sessionId && a.fact.position < b.fact.position
  }

  /** Each turn of a line is not before its predecessor. */
  predicate Chronological(line: seq<Event>) {
    forall i | 0 < i < |line| :: line[i].body.at >= line[i - 1].body.at
  }

  lemma {:induction false} NeighboursSuffice(line: seq<Event>, i: nat, j: nat)
    requires Chronological(line) && i <= j < |line|
    ensures line[i].body.at <= line[j].body.at
    decreases j
  {
    if i < j {
      NeighboursSuffice(line, i, j - 1);
    }
  }

  lemma ChronologyByLine(u: set<Event>, lines: Groups)
    requires Timelines(u, lines)
    ensures ChronologyOk(u) <==> forall s <- lines :: Chronological(lines[s])
  {
    if ChronologyOk(u) {
      forall s <- lines
        ensures Chronological(lines[s])
      {
        var line := lines[s];
        assert IsTimeline(u, s, line);
        forall i | 0 < i < |line|
          ensures line[i].body.at >= line[i - 1].body.at
        {
          assert Precedes(line[i - 1].body, line[i].body);
        }
      }
    }
    if forall s <- lines :: Chronological(lines[s]) {
      forall a, b | a in u && b in u && Precedes(a.body, b.body)
        ensures a.body.at <= b.body.at
      {
        LineOrders(u, a.body.sessionId, lines[a.body.sessionId], a, b);
      }
    }
  }

  lemma LineOrders(u: set<Event>, s: Id, line: seq<Event>, a: Event, b: Event)
    requires IsTimeline(u, s, line) && Chronological(line)
    requires a in u && b in u && Precedes(a.body, b.body) && a.body.sessionId == s
    ensures a.body.at <= b.body.at
  {
    assert Represented(line, a.body) && Represented(line, b.body);
    var i :| 0 <= i < |line| && line[i].body == a.body;
    var j :| 0 <= j < |line| && line[j].body == b.body;
    NeighboursSuffice(line, i, j);
  }

  // ---- retries ----

  /** Retries among the first n turns of a line: each is judged against its neighbour alone. */
  function RetryCount(line: seq<Event>, n: nat): nat
    requires n <= |line|
  {
    if n <= 1 then 0
    else RetryCount(line, n - 1) + (if Retries(line[n - 2].body, line[n - 1].body) then 1 else 0)
  }

  /** One pass: whether the line is in order of time, and how many turns retry the one before. */
  method CheckTimeline(line: seq<Event>) returns (r: Option<nat>)
    ensures r.Some? <==> Chronological(line)
    ensures r.Some? ==> r.value == RetryCount(line, |line|)
  {
    if !Chronological(line) { return None; }
    var retries := 0;
    var i := 1;
    while i < |line|
      invariant 1 <= i && (i <= |line| || line == [])
      invariant retries == RetryCount(line, if i <= |line| then i else 0)
    {
      if Retries(line[i - 1].body, line[i].body) { retries := retries + 1; }
      i := i + 1;
    }
    r := Some(retries);
  }

  /** Retries on the first n lines. */
  function RetrySum(lines: Groups, keys: seq<Id>, n: nat): nat
    requires n <= |keys| && forall i | 0 <= i < |keys| :: keys[i] in lines
  {
    if n == 0 then 0 else RetrySum(lines, keys, n - 1) + RetryCount(lines[keys[n - 1]], |lines[keys[n - 1]]|)
  }

  method CheckTimelines(lines: Groups, keys: seq<Id>) returns (r: Option<nat>)
    requires Listing(keys, lines.Keys)
    ensures r.Some? <==> forall s <- lines :: Chronological(lines[s])
    ensures r.Some? ==> r.value == RetrySum(lines, keys, |keys|)
  {
    var retries := 0;
    var i := 0;
    while i < |keys|
      invariant 0 <= i <= |keys|
      invariant forall j | 0 <= j < i :: Chronological(lines[keys[j]])
      invariant retries == RetrySum(lines, keys, i)
    {
      var line := CheckTimeline(lines[keys[i]]);
      if line.None? { return None; }
      retries := retries + line.value;
      i := i + 1;
    }
    r := Some(retries);
  }

  ghost predicate IsRetry(u: set<Event>, e: Event) {
    e in u && e.body.fact.Turn? && exists p :: p in u && Retries(p.body, e.body)
  }

  ghost function RetryIdsIn(u: set<Event>, ks: set<Id>): set<Id> {
    set e | e in u && IsRetry(u, e) && e.body.sessionId in ks :: TurnIdOf(e)
  }

  function TurnIdOf(t: Event): Id { if t.body.fact.Turn? then t.body.fact.turnId else t.eventId }

  ghost function LineRetries(line: seq<Event>, n: nat): set<Id>
    requires n <= |line|
  {
    if n <= 1 then {}
    else LineRetries(line, n - 1) + (if Retries(line[n - 2].body, line[n - 1].body) then {TurnIdOf(line[n - 1])} else {})
  }

  lemma {:induction false} LineRetriesAre(line: seq<Event>, n: nat, id: Id)
    requires n <= |line|
    ensures id in LineRetries(line, n) <==> exists i :: 0 < i < n && Retries(line[i - 1].body, line[i].body) && TurnIdOf(line[i]) == id
  {
    if n > 1 {
      LineRetriesAre(line, n - 1, id);
    }
  }

  lemma LastRetryIsNew(line: seq<Event>, n: nat)
    requires 0 < n <= |line| && AllTurns(line) && DistinctKeys(ByTurn, line)
    ensures TurnIdOf(line[n - 1]) !in LineRetries(line, n - 1)
  {
    LineRetriesAre(line, n - 1, TurnIdOf(line[n - 1]));
    assert forall i | 0 < i < n - 1 :: KeyOf(ByTurn, line[i]) != KeyOf(ByTurn, line[n - 1]);
  }

  lemma {:induction false} LineRetriesCounted(line: seq<Event>, n: nat)
    requires n <= |line| && AllTurns(line) && DistinctKeys(ByTurn, line)
    ensures |LineRetries(line, n)| == RetryCount(line, n)
  {
    hide DistinctKeys, AllTurns;
    if n > 1 {
      LineRetriesCounted(line, n - 1);
      LastRetryIsNew(line, n);
    }
  }

  /** The predecessor a turn retries is its neighbour on the line. */
  lemma RetryNeighbour(u: set<Event>, s: Id, line: seq<Event>, e: Event) returns (i: nat)
    requires IsTimeline(u, s, line) && IsRetry(u, e) && e.body.sessionId == s
    ensures 0 < i < |line| && line[i].body == e.body && Retries(line[i - 1].body, line[i].body)
  {
    var p :| p in u && Retries(p.body, e.body);
    assert Represented(line, p.body) && Represented(line, e.body);
    var j :| 0 <= j < |line| && line[j].body == p.body;
    i :| 0 <= i < |line| && line[i].body == e.body;
    assert j < i;
    PositionGap(line, j, i);
  }

  lemma {:induction false} PositionGap(line: seq<Event>, j: nat, i: nat)
    requires ByPosition(line) && j <= i < |line|
    ensures line[i].body.fact.position - line[j].body.fact.position >= i - j
    decreases i
  {
    if j < i { PositionGap(line, j, i - 1); }
  }

  lemma RetryOnLine(u: set<Event>, s: Id, line: seq<Event>, id: Id)
    requires IsTimeline(u, s, line) && id in RetryIdsIn(u, {s})
    ensures exists i :: 0 < i < |line| && Retries(line[i - 1].body, line[i].body) && TurnIdOf(line[i]) == id
  {
    var e :| e in u && IsRetry(u, e) && e.body.sessionId == s && TurnIdOf(e) == id;
    var i := RetryNeighbour(u, s, line, e);
    assert Retries(line[i - 1].body, line[i].body) && TurnIdOf(line[i]) == id;
  }

  lemma LineRetryCounts(u: set<Event>, s: Id, line: seq<Event>, i: nat)
    requires IsTimeline(u, s, line) && 0 < i < |line| && Retries(line[i - 1].body, line[i].body)
    ensures TurnIdOf(line[i]) in RetryIdsIn(u, {s})
  {
    assert line[i - 1] in u && line[i] in u;
    assert IsRetry(u, line[i]);
  }

  lemma SessionRetries(u: set<Event>, s: Id, line: seq<Event>)
    requires IsTimeline(u, s, line)
    ensures RetryIdsIn(u, {s}) == LineRetries(line, |line|)
  {
    hide IsTimeline, RetryIdsIn;
    forall id: Id | id in RetryIdsIn(u, {s})
      ensures id in LineRetries(line, |line|)
    {
      RetryOnLine(u, s, line, id);
      LineRetriesAre(line, |line|, id);
    }
    forall id: Id | id in LineRetries(line, |line|)
      ensures id in RetryIdsIn(u, {s})
    {
      LineRetriesAre(line, |line|, id);
      var i :| 0 < i < |line| && Retries(line[i - 1].body, line[i].body) && TurnIdOf(line[i]) == id;
      LineRetryCounts(u, s, line, i);
    }
  }

  lemma LineCounted(u: set<Event>, s: Id, lines: Groups)
    requires Timelines(u, lines) && s in lines
    ensures |RetryIdsIn(u, {s})| == RetryCount(lines[s], |lines[s]|)
  {
    assert IsTimeline(u, s, lines[s]);
    SessionRetries(u, s, lines[s]);
    LineRetriesCounted(lines[s], |lines[s]|);
  }

  lemma RetryIdsAdd(u: set<Event>, ks: set<Id>, s: Id)
    requires Uniform(u, ByTurn) && s !in ks
    ensures |RetryIdsIn(u, ks + {s})| == |RetryIdsIn(u, ks)| + |RetryIdsIn(u, {s})|
  {
    assert RetryIdsIn(u, ks + {s}) == RetryIdsIn(u, ks) + RetryIdsIn(u, {s});
    forall a, b | a in u && b in u && a.body.fact.Turn? && b.body.fact.Turn? && TurnIdOf(a) == TurnIdOf(b)
      ensures a.body.sessionId == b.body.sessionId
    {
      assert KeyOf(ByTurn, a) == KeyOf(ByTurn, b);
    }
    assert RetryIdsIn(u, ks) !! RetryIdsIn(u, {s});
  }

  lemma {:induction false} RetrySumIs(u: set<Event>, lines: Groups, keys: seq<Id>, n: nat)
    requires Uniform(u, ByTurn) && Timelines(u, lines) && Listing(keys, lines.Keys) && n <= |keys|
    ensures RetrySum(lines, keys, n) == |RetryIdsIn(u, KeySet(keys[..n]))|
  {
    hide Uniform, Timelines;
    if n == 0 {
      assert RetryIdsIn(u, KeySet(keys[..n])) == {};
    } else {
      RetrySumIs(u, lines, keys, n - 1);
      ListingPrefix(keys, lines.Keys, n - 1);
      RetryIdsAdd(u, KeySet(keys[..n - 1]), keys[n - 1]);
      LineCounted(u, keys[n - 1], lines);
    }
  }

  /** Counting neighbours on the sorted lines counts every turn that retries a validation error. */
  lemma RetriesByLine(u: set<Event>, lines: Groups, keys: seq<Id>)
    requires Uniform(u, ByTurn) && Timelines(u, lines) && Listing(keys, lines.Keys)
    ensures RetrySum(lines, keys, |keys|) == |RetryIds(u)|
  {
    RetrySumIs(u, lines, keys, |keys|);
    assert keys[..|keys|] == keys;
    ListingSet(keys, lines.Keys);
    AllRetries(u, lines);
  }

  lemma AllRetries(u: set<Event>, lines: Groups)
    requires Timelines(u, lines)
    ensures RetryIdsIn(u, lines.Keys) == RetryIds(u)
  {
    forall e | e in u && e.body.fact.Turn? && (exists p :: p in u && Retries(p.body, e.body))
      ensures e.body.fact.turnId in RetryIdsIn(u, lines.Keys)
    {
      assert IsRetry(u, e);
    }
  }
}
