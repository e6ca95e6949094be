/**
  Session details in aggregateMetricEvents (lib/MetricEvents.js): the start's checks, the last activity and
  state, and how the session ended.
 */
module MetricSessions {
  import opened Wrappers
  import opened MetricEvents
  import opened MetricGroups
  import opened MetricTimeline
  import opened Tally

  // ---- starts ----

  /** The starts of a session agree, and no evidence of it is earlier. */
  ghost predicate StartsOk(u: set<Event>) {
    && Uniform(u, ByStart)
    && forall a, b | a in u && b in u && a.body.fact.SessionStart? && a.body.sessionId == b.body.sessionId :: b.body.at >= a.body.at
  }

  predicate StartOk(starts: seq<Event>, evidence: seq<Event>) {
    && starts != [] && UniformGroup(starts)
    && forall i | 0 <= i < |evidence| :: evidence[i].body.at >= starts[0].body.at
  }

  lemma StartsByGroup(u: set<Event>, starts: Groups, sessions: Groups)
    requires IsGrouped(u, ByStart, starts) && IsGrouped(u, BySession, sessions)
    ensures StartsOk(u) <==> forall s <- starts :: StartOk(starts[s], GroupOf(sessions, s))
  {
    if StartsOk(u) {
      forall s <- starts
        ensures StartOk(starts[s], GroupOf(sessions, s))
      {
        OneStartOk(u, starts, sessions, s);
      }
    }
    if forall s <- starts :: StartOk(starts[s], GroupOf(sessions, s)) {
      UniformByGroup(u, ByStart, starts);
      forall a, b | a in u && b in u && a.body.fact.SessionStart? && a.body.sessionId == b.body.sessionId
        ensures b.body.at >= a.body.at
      {
        AfterStart(u, starts, sessions, a, b);
      }
    }
  }

  lemma OneStartOk(u: set<Event>, starts: Groups, sessions: Groups, s: Id)
    requires IsGrouped(u, ByStart, starts) && IsGrouped(u, BySession, sessions) && StartsOk(u) && s in starts
    ensures StartOk(starts[s], GroupOf(sessions, s))
  {
    UniformByGroup(u, ByStart, starts);
    GroupOfIs(u, BySession, sessions, s);
    assert starts[s][0] in starts[s];
  }

  lemma AfterStart(u: set<Event>, starts: Groups, sessions: Groups, a: Event, b: Event)
    requires IsGrouped(u, ByStart, starts) && IsGrouped(u, BySession, sessions)
    requires forall s <- starts :: StartOk(starts[s], GroupOf(sessions, s))
    requires a in u && b in u && a.body.fact.SessionStart? && a.body.sessionId == b.body.sessionId
    ensures b.body.at >= a.body.at
  {
    var s := a.body.sessionId;
    assert KeyOf(ByStart, a) == Some(s) && KeyOf(BySession, b) == Some(s);
    assert s in starts && StartOk(starts[s], GroupOf(sessions, s));
    var i :| 0 <= i < |starts[s]| && starts[s][i] == a;
    assert b in GroupOf(sessions, s);
  }

  // ---- activity ----

  /** The latest of the start and the turns, by reduction. */
  function LatestOf(startedAt: int, line: seq<Event>): int {
    if line == [] then startedAt
    else
      var latest := LatestOf(startedAt, line[..|line| - 1]);
      if line[|line| - 1].body.at > latest then line[|line| - 1].body.at else latest
  }

  lemma {:induction false} LatestBounds(startedAt: int, line: seq<Event>)
    ensures LatestOf(startedAt, line) >= startedAt
    ensures forall i | 0 <= i < |line| :: line[i].body.at <= LatestOf(startedAt, line)
    ensures LatestOf(startedAt, line) == startedAt || exists i :: 0 <= i < |line| && line[i].body.at == LatestOf(startedAt, line)
  {
    if line != [] {
      var init := line[..|line| - 1];
      LatestBounds(startedAt, init);
      assert forall i | 0 <= i < |init| :: init[i] == line[i];
    }
  }

  lemma LatestIs(u: set<Event>, s: Id, startedAt: int, line: seq<Event>)
    requires IsTimeline(u, s, line)
    ensures IsLastActivity(u, s, startedAt, LatestOf(startedAt, line))
  {
    var last := LatestOf(startedAt, line);
    LatestBounds(startedAt, line);
    forall e | e in u && e.body.sessionId == s && e.body.fact.Turn?
      ensures e.body.at <= last
    {
      assert Represented(line, e.body);
    }
    if last != startedAt {
      var i :| 0 <= i < |line| && line[i].body.at == last;
      assert line[i] in u;
    }
  }

  function LastStateOf(line: seq<Event>): Option<string>
    requires AllTurns(line)
  {
    if line == [] then None else ExitState(line[|line| - 1].body.fact)
  }

  lemma LastStateIs(u: set<Event>, s: Id, line: seq<Event>)
    requires IsTimeline(u, s, line)
    ensures IsLastState(u, s, LastStateOf(line))
  {
    if line == [] {
      assert forall e <- u :: !(e.body.fact.Turn? && e.body.sessionId == s);
    } else {
      var e := line[|line| - 1];
      forall t | t in u && t.body.sessionId == s && t.body.fact.Turn?
        ensures t.body.fact.position <= e.body.fact.position
      {
        assert Represented(line, t.body);
      }
      assert e in u && LastTurn(u, s, e);
    }
  }

  // ---- endings ----

  /** The reasons that the session's endings state. */
  function ReasonList(endings: seq<Event>): seq<EndOutcome> {
    if endings == [] then []
    else
      var f := endings[|endings| - 1].body.fact;
      ReasonList(endings[..|endings| - 1]) + (if f.SessionEnd? && f.ended != EndUnknown then [f.ended] else [])
  }

  lemma {:induction false} ReasonListHas(endings: seq<Event>, r: EndOutcome)
    ensures r in ReasonList(endings) <==> r != EndUnknown && exists i :: 0 <= i < |endings| && endings[i].body.fact == SessionEnd(r)
  {
    if endings != [] {
      var init := endings[..|endings| - 1];
      ReasonListHas(init, r);
      assert forall i | 0 <= i < |init| :: init[i] == endings[i];
    }
  }

  lemma ReasonsListed(u: set<Event>, s: Id, endings: seq<Event>)
    requires IsGroup(u, ByEnd, s, endings)
    ensures forall r: EndOutcome :: r in ReasonList(endings) <==> r in Reasons(u, s)
  {
    forall r: EndOutcome
      ensures r in ReasonList(endings) <==> r in Reasons(u, s)
    {
      ReasonListHas(endings, r);
      if r in Reasons(u, s) {
        var e :| e in u && e.body.sessionId == s && e.body.fact == SessionEnd(r);
        assert KeyOf(ByEnd, e) == Some(s) && e in endings;
      }
    }
  }

  lemma ReasonCount(u: set<Event>, s: Id, endings: seq<Event>)
    requires IsGroup(u, ByEnd, s, endings)
    ensures var reasons := Distinct(ReasonList(endings));
      && (|reasons| > 1 <==> SeveralReasons(u, s))
      && (|reasons| == 0 <==> Reasons(u, s) == {})
      && (|reasons| == 1 ==> reasons[0] in Reasons(u, s))
  {
    var list := ReasonList(endings);
    ReasonsListed(u, s, endings);
    DistinctMany(list);
    if |Distinct(list)| > 0 { DistinctHas(list, Distinct(list)[0]); }
    if SeveralReasons(u, s) {
      var a, b :| a in Reasons(u, s) && b in Reasons(u, s) && a != b;
      assert a in list && b in list;
    }
    if |Distinct(list)| > 1 {
      var i, j :| 0 <= i < |list| && 0 <= j < |list| && list[i] != list[j];
      assert list[i] in list && list[j] in list;
    }
    if Reasons(u, s) != {} {
      var r :| r in Reasons(u, s);
      assert r in list;
    }
  }

  function StatusOf(b: Body): Option<ProviderOutcome> { if b.fact.ProviderEnd? then Some(b.fact.provider) else None }

  function TimeOf(b: Body): int { b.at }

  /** The provider's closures name two statuses, or two of them name one time. */
  predicate Disputed(provider: seq<Event>) {
    |Distinct(Values(provider, StatusOf))| > 1 || |Distinct(Values(provider, TimeOf))| != |provider|
  }

  predicate Differ(a: Event, b: Event) {
    StatusOf(a.body) != StatusOf(b.body) || a.body.at == b.body.at
  }

  lemma DisputedPair(provider: seq<Event>)
    ensures Disputed(provider) <==> exists i, j :: 0 <= i < j < |provider| && Differ(provider[i], provider[j])
  {
    var statuses, times := Values(provider, StatusOf), Values(provider, TimeOf);
    DistinctMany(statuses);
    DistinctLength(times);
    if |Distinct(statuses)| > 1 {
      var i, j :| 0 <= i < |statuses| && 0 <= j < |statuses| && statuses[i] != statuses[j];
      assert Differ(provider[if i < j then i else j], provider[if i < j then j else i]);
    } else if !AllDifferent(times) {
      var i, j :| 0 <= i < j < |times| && times[i] == times[j];
      assert Differ(provider[i], provider[j]);
    }
    if i, j :| 0 <= i < j < |provider| && Differ(provider[i], provider[j]) {
      assert statuses[i] != statuses[j] || times[i] == times[j];
    }
  }

  lemma PairDisputes(u: set<Event>, s: Id, provider: seq<Event>, i: nat, j: nat)
    requires IsGroup(u, ByProvider, s, provider) && i < j < |provider| && Differ(provider[i], provider[j])
    ensures ProviderDisputed(u, s)
  {
    assert provider[i] in u && provider[j] in u && provider[i] != provider[j];
  }

  lemma DisputePaired(u: set<Event>, s: Id, provider: seq<Event>) returns (i: nat, j: nat)
    requires IsGroup(u, ByProvider, s, provider) && ProviderDisputed(u, s)
    ensures i < j < |provider| && Differ(provider[i], provider[j])
  {
    var a, b :| a in u && b in u && a != b && a.body.sessionId == s && b.body.sessionId == s
      && a.body.fact.ProviderEnd? && b.body.fact.ProviderEnd?
      && (a.body.fact.provider != b.body.fact.provider || a.body.at == b.body.at);
    assert KeyOf(ByProvider, a) == Some(s) && KeyOf(ByProvider, b) == Some(s);
    i :| 0 <= i < |provider| && provider[i] == a;
    j :| 0 <= j < |provider| && provider[j] == b;
    if j < i { i, j := j, i; }
  }

  lemma DisputedIs(u: set<Event>, s: Id, provider: seq<Event>)
    requires IsGroup(u, ByProvider, s, provider)
    ensures Disputed(provider) <==> ProviderDisputed(u, s)
  {
    DisputedPair(provider);
    hide Disputed, IsGroup, ProviderDisputed;
    if Disputed(provider) {
      var i, j :| 0 <= i < j < |provider| && Differ(provider[i], provider[j]);
      PairDisputes(u, s, provider, i, j);
    }
    if ProviderDisputed(u, s) {
      var i, j := DisputePaired(u, s, provider);
    }
  }

  function ClosingOf(provider: seq<Event>): Closing {
    var statuses := Distinct(Values(provider, StatusOf));
    if Disputed(provider) then ProviderConflict
    else if statuses != [] && statuses[0].Some? then ProviderSays(statuses[0].value)
    else NoProvider
  }

  lemma StatusListed(u: set<Event>, s: Id, provider: seq<Event>, p: ProviderOutcome)
    requires IsGroup(u, ByProvider, s, provider)
    ensures p in Statuses(u, s) <==> Some(p) in Values(provider, StatusOf)
  {
    var values := Values(provider, StatusOf);
    if p in Statuses(u, s) {
      var e :| e in u && e.body.sessionId == s && e.body.fact.ProviderEnd? && e.body.fact.provider == p;
      assert KeyOf(ByProvider, e) == Some(s);
      var i :| 0 <= i < |provider| && provider[i] == e;
      assert values[i] == Some(p);
    }
    if Some(p) in values {
      var i :| 0 <= i < |values| && values[i] == Some(p);
      assert provider[i] in u;
    }
  }

  lemma StatusesListed(u: set<Event>, s: Id, provider: seq<Event>)
    requires IsGroup(u, ByProvider, s, provider)
    ensures var values := Values(provider, StatusOf);
      && (forall i | 0 <= i < |values| :: values[i].Some?)
      && (forall p: ProviderOutcome :: p in Statuses(u, s) <==> Some(p) in values)
  {
    forall i | 0 <= i < |provider|
      ensures StatusOf(provider[i].body).Some?
    {
      assert KeyOf(ByProvider, provider[i]) == Some(s);
    }
    forall p: ProviderOutcome
      ensures p in Statuses(u, s) <==> Some(p) in Values(provider, StatusOf)
    {
      StatusListed(u, s, provider, p);
    }
  }

  lemma ClosingIs(u: set<Event>, s: Id, provider: seq<Event>)
    requires IsGroup(u, ByProvider, s, provider)
    ensures ClosingOk(u, s, ClosingOf(provider))
  {
    hide IsGroup, ProviderDisputed;
    var values := Values(provider, StatusOf);
    DisputedIs(u, s, provider);
    StatusesListed(u, s, provider);
    DistinctMany(values);
    if provider == [] {
      assert Statuses(u, s) == {};
    } else {
      assert values[0] in values && values[0].value in Statuses(u, s);
      if !Disputed(provider) {
        assert values[0] == Distinct(values)[0];
        OnlyStatus(u, s, values);
      }
    }
  }

  lemma OnlyStatus(u: set<Event>, s: Id, values: seq<Option<ProviderOutcome>>)
    requires values != [] && values[0].Some? && forall i | 0 <= i < |values| :: values[i] == values[0]
    requires forall p: ProviderOutcome :: p in Statuses(u, s) <==> Some(p) in values
    ensures Statuses(u, s) == {values[0].value}
  {
    assert values[0] in values;
  }

  lemma EndedIs(u: set<Event>, s: Id, endings: seq<Event>, provider: seq<Event>)
    requires IsGroup(u, ByEnd, s, endings) && IsGroup(u, ByProvider, s, provider)
    ensures Ended(u, s) <==> endings != [] || provider != []
  {
    if endings != [] { assert endings[0] in u; }
    if provider != [] { assert provider[0] in u; }
    if Ended(u, s) {
      var e :| e in u && e.body.sessionId == s && (e.body.fact.SessionEnd? || e.body.fact.ProviderEnd?);
      assert KeyOf(ByEnd, e) == Some(s) || KeyOf(ByProvider, e) == Some(s);
    }
  }

  /** How the session ended, and on what evidence. */
  method Judge(ghost u: set<Event>, s: Id, asOf: int, inactivityMs: Option<int>, last: int, endings: seq<Event>, provider: seq<Event>)
      returns (outcome: SessionOutcome, basis: Basis)
    requires IsGroup(u, ByEnd, s, endings) && IsGroup(u, ByProvider, s, provider)
    ensures OutcomeOk(u, s, asOf, inactivityMs, last, outcome, basis)
  {
    hide IsGroup, ProviderDisputed, Ended, SeveralReasons, Disputed;
    var reasons := Distinct(ReasonList(endings));
    ReasonCount(u, s, endings);
    DisputedIs(u, s, provider);
    EndedIs(u, s, endings, provider);
    outcome, basis := Open, Observed;
    if |reasons| > 1 {
      outcome, basis := Unknown, ConflictingReasons;
    } else if |reasons| > 0 {
      outcome := EndedAs(reasons[0]);
    } else if endings != [] || provider != [] {
      outcome, basis := Unknown, if Disputed(provider) then ConflictingReasons else ObservedClosure;
    } else if inactivityMs.Some? && asOf - last >= inactivityMs.value {
      outcome, basis := Abandoned, Inferred;
    }
  }

  method DetailOf(ghost u: set<Event>, s: Id, asOf: int, inactivityMs: Option<int>,
                  start: Event, line: seq<Event>, endings: seq<Event>, provider: seq<Event>) returns (d: Detail)
    requires start in u && start.body.fact.SessionStart? && start.body.sessionId == s
    requires IsTimeline(u, s, line) && IsGroup(u, ByEnd, s, endings) && IsGroup(u, ByProvider, s, provider)
    ensures d.sessionId == s && DetailOk(u, asOf, inactivityMs, d)
  {
    hide IsGroup, IsLastActivity, IsLastState, ClosingOk, OutcomeOk, ClosingOf;
    assert AllTurns(line);
    var last := LatestOf(start.body.at, line);
    LatestIs(u, s, start.body.at, line);
    LastStateIs(u, s, line);
    ClosingIs(u, s, provider);
    var outcome, basis := Judge(u, s, asOf, inactivityMs, last, endings, provider);
    d := Detail(s, start.body.flowVersion, start.body.at, last, LastStateOf(line), outcome, basis, ClosingOf(provider));
    assert start.body == Body(d.startedAt, s, d.flowVersion, SessionStart);
  }
}
