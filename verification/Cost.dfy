/** internal/cost: aggregation of cost events. */
module Cost {
  import opened Json

  /** The day is the UTC date of created_at; None is the zero time. */
  datatype Event = Event(
    episodeId: string, stage: string, provider: string, modelId: string, operationType: string,
    estimatedCost: real, currency: string, day: Option<string>)

  datatype Summary = Summary(
    episodeId: string, currency: string, total: real,
    byStage: map<string, real>, byProvider: map<string, real>, byModel: map<string, real>, byDay: map<string, real>,
    eventCount: nat)

  predicate ValidEvent(e: Event) {
    e.episodeId != "" && e.stage != "" && e.operationType != "" && e.estimatedCost >= 0.0 && e.currency != ""
  }

  // ----- what the maps hold -----

  /** The ways events are grouped; an event without the key belongs to no group. */
  datatype Grouping = Stage | Provider | ModelId | Day

  function KeyOf(g: Grouping, e: Event): Option<string> {
    match g
    case Stage => Some(e.stage)
    case Provider => if e.provider != "" then Some(e.provider) else None
    case ModelId => if e.modelId != "" then Some(e.modelId) else None
    case Day => e.day
  }

  function GroupMap(g: Grouping, s: Summary): map<string, real> {
    match g
    case Stage => s.byStage
    case Provider => s.byProvider
    case ModelId => s.byModel
    case Day => s.byDay
  }

  function Add(m: map<string, real>, key: Option<string>, x: real): map<string, real> {
    match key
    case None => m
    case Some(k) => m[k := (if k in m then m[k] else 0.0) + x]
  }

  /** The sum of the costs of some events: all, those of one group, those without a key. */
  function TotalCost(events: seq<Event>): real {
    if events == [] then 0.0 else TotalCost(events[..|events| - 1]) + events[|events| - 1].estimatedCost
  }

  function CostWith(g: Grouping, key: Option<string>, events: seq<Event>): real {
    if events == [] then 0.0
    else
      var e := events[|events| - 1];
      CostWith(g, key, events[..|events| - 1]) + if KeyOf(g, e) == key then e.estimatedCost else 0.0
  }

  function KeysOf(g: Grouping, events: seq<Event>): set<string> {
    set i | 0 <= i < |events| && KeyOf(g, events[i]).Some? :: KeyOf(g, events[i]).value
  }

  /** A grouping map is right: it has an entry for each key that occurs, holding the cost
      of exactly the events with that key. */
  ghost predicate Groups(g: Grouping, m: map<string, real>, events: seq<Event>) {
    m.Keys == KeysOf(g, events) && forall k | k in m :: m[k] == CostWith(g, Some(k), events)
  }

  lemma KeysAppend(g: Grouping, events: seq<Event>, e: Event)
    ensures KeysOf(g, events + [e]) == KeysOf(g, events) + (if KeyOf(g, e).Some? then {KeyOf(g, e).value} else {})
  {
    var all := events + [e];
    assert all[|events|] == e;
    forall k | k in KeysOf(g, events)
      ensures k in KeysOf(g, all)
    {
      var i :| 0 <= i < |events| && KeyOf(g, events[i]) == Some(k);
      assert all[i] == events[i];
    }
  }

  lemma CostAppend(g: Grouping, key: Option<string>, events: seq<Event>, e: Event)
    ensures CostWith(g, key, events + [e]) == CostWith(g, key, events)
      + if KeyOf(g, e) == key then e.estimatedCost else 0.0
    ensures TotalCost(events + [e]) == TotalCost(events) + e.estimatedCost
  {
    assert (events + [e])[..|events|] == events;
  }

  lemma GroupsAppend(g: Grouping, m: map<string, real>, events: seq<Event>, e: Event)
    requires Groups(g, m, events)
    ensures Groups(g, Add(m, KeyOf(g, e), e.estimatedCost), events + [e])
  {
    KeysAppend(g, events, e);
    forall k | k in Add(m, KeyOf(g, e), e.estimatedCost)
      ensures Add(m, KeyOf(g, e), e.estimatedCost)[k] == CostWith(g, Some(k), events + [e])
    {
      CostAppend(g, Some(k), events, e);
      if k !in m {
        CostOfAbsentKey(g, k, events);
      }
    }
  }

  lemma {:induction false} CostOfAbsentKey(g: Grouping, k: string, events: seq<Event>)
    requires k !in KeysOf(g, events)
    ensures CostWith(g, Some(k), events) == 0.0
  {
    if events != [] {
      var front := events[..|events| - 1];
      forall i | 0 <= i < |front|
        ensures KeyOf(g, front[i]) != Some(k)
      {
        assert front[i] == events[i];
      }
      CostOfAbsentKey(g, k, front);
    }
  }

  /** What a successful aggregation returns. */
  ghost predicate Aggregates(events: seq<Event>, s: Summary) {
    && s.total == TotalCost(events) && s.eventCount == |events|
    && forall g: Grouping :: Groups(g, GroupMap(g, s), events)
  }

  predicate Uniform(events: seq<Event>) {
    forall i | 0 <= i < |events| ::
      ValidEvent(events[i]) && events[i].episodeId == events[0].episodeId && events[i].currency == events[0].currency
  }

  const NO_COST := Summary("", "", 0.0, map[], map[], map[], map[], 0)

  /** One event goes into the total and into each map it has a key for. */
  ghost predicate Extends(s: Summary, e: Event, next: Summary) {
    && next.total == s.total + e.estimatedCost && next.eventCount == s.eventCount + 1
    && next.episodeId == s.episodeId && next.currency == s.currency
    && forall g: Grouping :: GroupMap(g, next) == Add(GroupMap(g, s), KeyOf(g, e), e.estimatedCost)
  }

  method AddEvent(s: Summary, e: Event) returns (next: Summary)
    ensures Extends(s, e, next)
  {
    var stages, providers, models, days := s.byStage, s.byProvider, s.byModel, s.byDay;
    stages := Add(stages, Some(e.stage), e.estimatedCost);
    if e.provider != "" {
      providers := Add(providers, Some(e.provider), e.estimatedCost);
    }
    if e.modelId != "" {
      models := Add(models, Some(e.modelId), e.estimatedCost);
    }
    if e.day.Some? {
      days := Add(days, e.day, e.estimatedCost);
    }
    next := Summary(s.episodeId, s.currency, s.total + e.estimatedCost, stages, providers, models, days,
      s.eventCount + 1);
  }

  lemma AggregatesAppend(events: seq<Event>, s: Summary, e: Event, next: Summary)
    requires Aggregates(events, s) && Extends(s, e, next)
    ensures Aggregates(events + [e], next)
  {
    CostAppend(Stage, None, events, e);
    forall g: Grouping
      ensures Groups(g, GroupMap(g, next), events + [e])
    {
      GroupsAppend(g, GroupMap(g, s), events, e);
    }
  }

  method Aggregate(events: seq<Event>) returns (r: Result<Summary>)
    ensures r.Ok? <==> Uniform(events)
    ensures r.Ok? ==> Aggregates(events, r.value)
    ensures r.Ok? && events != [] ==> r.value.episodeId == events[0].episodeId && r.value.currency == events[0].currency
  {
    if events == [] {
      return Ok(NO_COST);
    }
    if !ValidEvent(events[0]) {
      return Err("invalid event");
    }
    var s := NO_COST.(episodeId := events[0].episodeId, currency := events[0].currency);
    for i := 0 to |events|
      invariant Uniform(events[..i])
      invariant s.episodeId == events[0].episodeId && s.currency == events[0].currency
      invariant Aggregates(events[..i], s)
    {
      var e := events[i];
      if !ValidEvent(e) {
        return Err("invalid event");
      }
      if e.episodeId != s.episodeId {
        return Err("cannot aggregate multiple episode IDs");
      }
      if e.currency != s.currency {
        return Err("cannot aggregate multiple currencies");
      }
      var next := AddEvent(s, e);
      AggregatesAppend(events[..i], s, e, next);
      assert events[..i + 1] == events[..i] + [e];
      s := next;
    }
    assert events[..|events|] == events;
    r := Ok(s);
  }

  // ----- conservation -----

  ghost function SumValues(m: map<string, real>): real {
    if m == map[] then 0.0
    else
      var k :| k in m;
      m[k] + SumValues(m - {k})
  }

  lemma {:induction false} SumValuesStep(m: map<string, real>, k: string)
    requires k in m
    ensures SumValues(m) == m[k] + SumValues(m - {k})
    decreases m.Keys
  {
    var j :| j in m && SumValues(m) == m[j] + SumValues(m - {j});
    if j != k {
      SumValuesStep(m - {j}, k);
      SumValuesStep(m - {k}, j);
      assert m - {j} - {k} == m - {k} - {j};
    }
  }

  lemma SumValuesAdd(m: map<string, real>, key: Option<string>, x: real)
    ensures SumValues(Add(m, key, x)) == SumValues(m) + if key.Some? then x else 0.0
  {
    if key.Some? {
      var k := key.value;
      var m' := Add(m, key, x);
      SumValuesStep(m', k);
      assert m' - {k} == m - {k};
      if k in m {
        SumValuesStep(m, k);
      } else {
        assert m - {k} == m;
      }
    }
  }

  /** A grouping map loses and invents nothing: its values sum to the total less the cost
      of the events that lack the key. */
  lemma {:induction false} Conserved(g: Grouping, m: map<string, real>, events: seq<Event>)
    requires Groups(g, m, events)
    ensures SumValues(m) == TotalCost(events) - CostWith(g, None, events)
    decreases |events|
  {
    if events == [] {
      assert m == map[];
    } else {
      var front, e := events[..|events| - 1], events[|events| - 1];
      assert front + [e] == events;
      var before := map k | k in KeysOf(g, front) :: CostWith(g, Some(k), front);
      GroupsAppend(g, before, front, e);
      GroupsUnique(g, m, Add(before, KeyOf(g, e), e.estimatedCost), events);
      SumValuesAdd(before, KeyOf(g, e), e.estimatedCost);
      Conserved(g, before, front);
    }
  }

  lemma GroupsUnique(g: Grouping, m: map<string, real>, n: map<string, real>, events: seq<Event>)
    requires Groups(g, m, events) && Groups(g, n, events)
    ensures m == n
  {}

  lemma {:induction false} NoneWithoutStage(events: seq<Event>)
    ensures CostWith(Stage, None, events) == 0.0
  {
    if events != [] {
      NoneWithoutStage(events[..|events| - 1]);
    }
  }

  /** After a successful aggregation the stages account for the whole cost, and each other
      grouping for all of it but the events without that key. */
  lemma CostIsConserved(events: seq<Event>, s: Summary)
    requires Aggregates(events, s)
    ensures SumValues(s.byStage) == s.total
    ensures SumValues(s.byProvider) == s.total - CostWith(Provider, None, events)
    ensures SumValues(s.byModel) == s.total - CostWith(ModelId, None, events)
    ensures SumValues(s.byDay) == s.total - CostWith(Day, None, events)
  {
    assert GroupMap(Stage, s) == s.byStage && GroupMap(Provider, s) == s.byProvider;
    assert GroupMap(ModelId, s) == s.byModel && GroupMap(Day, s) == s.byDay;
    Conserved(Stage, s.byStage, events);
    Conserved(Provider, s.byProvider, events);
    Conserved(ModelId, s.byModel, events);
    Conserved(Day, s.byDay, events);
    NoneWithoutStage(events);
  }

  // ----- permutations -----

  lemma {:induction false} CostWithConcat(g: Grouping, key: Option<string>, a: seq<Event>, b: seq<Event>)
    ensures CostWith(g, key, a + b) == CostWith(g, key, a) + CostWith(g, key, b)
    ensures TotalCost(a + b) == TotalCost(a) + TotalCost(b)
    decreases |b|
  {
    if b == [] {
      assert a + b == a;
    } else {
      assert (a + b)[..|a + b| - 1] == a + b[..|b| - 1];
      CostWithConcat(g, key, a, b[..|b| - 1]);
    }
  }

  /** Taking one event out of a sequence. */
  lemma CostWithout(g: Grouping, key: Option<string>, events: seq<Event>, i: nat)
    requires i < |events|
    ensures var rest := events[..i] + events[i + 1..];
      && multiset(rest) == multiset(events) - multiset{events[i]}
      && CostWith(g, key, events) == CostWith(g, key, rest) + CostWith(g, key, [events[i]])
      && TotalCost(events) == TotalCost(rest) + TotalCost([events[i]])
  {
    var x := [events[i]];
    assert events == events[..i] + x + events[i + 1..];
    CostWithConcat(g, key, events[..i] + x, events[i + 1..]);
    CostWithConcat(g, key, events[..i], x);
    CostWithConcat(g, key, events[..i], events[i + 1..]);
  }

  lemma {:induction false} CostOfPermutation(g: Grouping, key: Option<string>, a: seq<Event>, b: seq<Event>)
    requires multiset(a) == multiset(b)
    ensures CostWith(g, key, a) == CostWith(g, key, b) && TotalCost(a) == TotalCost(b)
    decreases |a|
  {
    hide *;
    assert |multiset(a)| == |a| && |multiset(b)| == |b|;
    if a != [] {
      assert a[0] in multiset(b);
      var i :| 0 <= i < |b| && b[i] == a[0];
      CostWithout(g, key, a, 0);
      CostWithout(g, key, b, i);
      CostOfPermutation(g, key, a[..0] + a[1..], b[..i] + b[i + 1..]);
    }
  }

  lemma KeysOfPermutation(g: Grouping, a: seq<Event>, b: seq<Event>)
    requires multiset(a) == multiset(b)
    ensures KeysOf(g, a) <= KeysOf(g, b)
  {
    forall k | k in KeysOf(g, a)
      ensures k in KeysOf(g, b)
    {
      var i :| 0 <= i < |a| && KeyOf(g, a[i]) == Some(k);
      assert a[i] in multiset(b);
      var j :| 0 <= j < |b| && b[j] == a[i];
    }
  }

  lemma GroupsOfPermutation(g: Grouping, a: seq<Event>, b: seq<Event>, m: map<string, real>)
    requires multiset(a) == multiset(b) && Groups(g, m, a)
    ensures Groups(g, m, b)
  {
    KeysOfPermutation(g, a, b);
    KeysOfPermutation(g, b, a);
    forall k | k in m
      ensures m[k] == CostWith(g, Some(k), b)
    {
      CostOfPermutation(g, Some(k), a, b);
    }
  }

  lemma UniformPermutation(a: seq<Event>, b: seq<Event>)
    requires multiset(a) == multiset(b) && Uniform(a)
    ensures Uniform(b) && |a| == |b|
    ensures a != [] ==> b[0].episodeId == a[0].episodeId && b[0].currency == a[0].currency
  {
    assert |multiset(a)| == |a| && |multiset(b)| == |b|;
    forall i | 0 <= i < |b|
      ensures ValidEvent(b[i]) && b[i].episodeId == a[0].episodeId && b[i].currency == a[0].currency
    {
      assert b[i] in multiset(a);
    }
  }

  /** The events can be aggregated in any order or in none, and every order gives the same
      summary. */
  lemma OrderDoesNotMatter(a: seq<Event>, b: seq<Event>, s: Summary, t: Summary)
    requires multiset(a) == multiset(b)
    requires Aggregates(a, s) && Aggregates(b, t)
    ensures Uniform(a) <==> Uniform(b)
    ensures s.(episodeId := t.episodeId, currency := t.currency) == t
    ensures Uniform(a) && a != [] ==> a[0].episodeId == b[0].episodeId && a[0].currency == b[0].currency
  {
    if Uniform(a) { UniformPermutation(a, b); }
    if Uniform(b) { UniformPermutation(b, a); }
    assert |multiset(a)| == |a| && |multiset(b)| == |b|;
    CostOfPermutation(Stage, None, a, b);
    forall g: Grouping
      ensures GroupMap(g, s) == GroupMap(g, t)
    {
      GroupsOfPermutation(g, a, b, GroupMap(g, s));
      GroupsUnique(g, GroupMap(g, s), GroupMap(g, t), b);
    }
    assert GroupMap(Stage, s) == GroupMap(Stage, t) && GroupMap(Provider, s) == GroupMap(Provider, t);
    assert GroupMap(ModelId, s) == GroupMap(ModelId, t) && GroupMap(Day, s) == GroupMap(Day, t);
  }

  // ----- budgets -----

  datatype Action = Allow | Warn | RequireApproval | BlockWork

  datatype Decision = Decision(allowed: bool, action: Action)

  datatype Policy = Policy(warnAt: real, requireApprovalAt: real, blockAt: real, currency: string)

  predicate Reaches(total: real, threshold: real) {
    threshold > 0.0 && total >= threshold
  }

  function EvaluateBudget(s: Summary, policy: Policy, critical: bool): Decision {
    if policy.currency != "" && s.currency != "" && policy.currency != s.currency then Decision(false, BlockWork)
    else if Reaches(s.total, policy.blockAt) then Decision(false, if critical then RequireApproval else BlockWork)
    else if Reaches(s.total, policy.requireApprovalAt) then Decision(false, RequireApproval)
    else if Reaches(s.total, policy.warnAt) then Decision(true, Warn)
    else Decision(true, Allow)
  }

  lemma {:induction false} TotalGrows(events: seq<Event>, more: seq<Event>)
    requires forall i | 0 <= i < |more| :: more[i].estimatedCost >= 0.0
    ensures TotalCost(events) <= TotalCost(events + more)
    decreases |more|
  {
    if more == [] {
      assert events + more == events;
    } else {
      assert (events + more)[..|events + more| - 1] == events + more[..|more| - 1];
      TotalGrows(events, more[..|more| - 1]);
    }
  }

  /** Spending more never turns a refusal into a permission. */
  lemma BudgetIsMonotone(events: seq<Event>, more: seq<Event>, s: Summary, t: Summary, policy: Policy, critical: bool)
    requires Aggregates(events, s) && Aggregates(events + more, t) && s.currency == t.currency
    requires Uniform(events + more)
    ensures EvaluateBudget(t, policy, critical).allowed ==> EvaluateBudget(s, policy, critical).allowed
  {
    forall i | 0 <= i < |more|
      ensures more[i].estimatedCost >= 0.0
    {
      assert (events + more)[|events| + i] == more[i];
    }
    TotalGrows(events, more);
  }
}
