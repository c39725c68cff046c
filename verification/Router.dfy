/** internal/models/router and the provider health policy it consults. */
module Router {
  import opened Json

  datatype Status = Active | Degraded | Disabled | OtherStatus(name: string)
  datatype Risk = Low | Medium | High | Critical | OtherRisk(name: string)
  /** Go strings; the empty string is a missing field. */
  datatype Health = NoHealth | Healthy | DegradedHealth | DisabledHealth | UnknownHealth | OtherHealth(name: string)
  datatype Tier = NoTier | Public | InternalApproved | Restricted | LocalOnly | OtherTier(name: string)

  datatype Record = Record(
    id: string, provider: string, status: Status, tier: Tier,
    modalities: seq<string>, capabilities: seq<string>, quality: real)

  datatype Request = Request(capability: string, risk: Risk, modality: string, tier: Tier)

  datatype FallbackPolicy = FallbackPolicy(allowDegraded: bool, allowUnknown: bool, requireApprovalForDegraded: bool)

  datatype Options = Options(allowDegraded: bool, providerHealth: map<string, Health>, policy: FallbackPolicy)

  datatype Rejection = Rejection(modelId: string, reason: string)

  datatype Decision = Decision(selected: seq<Record>, rejected: seq<Rejection>, policy: string,
    fallbackReasons: seq<string>)

  datatype Outcome = Routed(decision: Decision) | NoCandidate(decision: Decision) | BadRequest

  // ----- one record -----

  function ProviderHealth(provider: string, health: map<string, Health>): Health {
    if health == map[] then Healthy
    else if provider in health then health[provider] else UnknownHealth
  }

  function Evaluate(provider: string, state: Health, policy: FallbackPolicy): (bool, string) {
    var p := if provider == "" then "unknown-provider" else provider;
    match state
    case NoHealth => (true, p + " is healthy")
    case Healthy => (true, p + " is healthy")
    case DisabledHealth => (false, p + " is disabled")
    case DegradedHealth =>
      if policy.requireApprovalForDegraded then (false, p + " is degraded and requires human approval")
      else if !policy.allowDegraded then (false, p + " is degraded and fallback policy disallows degraded selection")
      else (true, p + " is degraded but fallback policy allows degraded selection")
    case UnknownHealth =>
      if !policy.allowUnknown then (false, p + " health is unknown and fallback policy disallows unknown selection")
      else (true, p + " health is unknown but fallback policy allows unknown selection")
    case OtherHealth(name) => (false, p + " has unsupported health state " + name)
  }

  function Policy(options: Options): FallbackPolicy {
    if options.allowDegraded then options.policy.(allowDegraded := true) else options.policy
  }

  function Order(tier: Tier): int {
    match tier
    case Public => 1
    case InternalApproved => 2
    case Restricted => 3
    case LocalOnly => 4
    case _ => 0
  }

  predicate PrivacyAllowed(model: Tier, task: Tier) {
    model == LocalOnly || Order(model) >= Order(task)
  }

  function HealthVerdict(options: Options, m: Record): (bool, string) {
    Evaluate(m.provider, ProviderHealth(m.provider, options.providerHealth), Policy(options))
  }

  /** Why a record is rejected, or None for a candidate. */
  function Rejects(options: Options, req: Request, m: Record): Option<string> {
    if !HealthVerdict(options, m).0 then Some(HealthVerdict(options, m).1)
    else if m.status == Disabled then Some("model disabled")
    else if m.status == Degraded && !options.allowDegraded then
      Some("model degraded and fallback policy disallows degraded selection")
    else if req.capability !in m.capabilities then Some("missing capability")
    else if req.modality !in m.modalities then Some("missing modality")
    else if !PrivacyAllowed(m.tier, req.tier) then Some("privacy tier not allowed")
    else None
  }

  predicate FallsBack(options: Options, m: Record) {
    HealthVerdict(options, m).0 && ProviderHealth(m.provider, options.providerHealth) !in {NoHealth, Healthy}
  }

  /** The screening of one request: a reason to reject, or None. */
  type Screen = Record -> Option<string>

  function ScreenFor(options: Options, req: Request): Screen {
    m => Rejects(options, req, m)
  }

  // ----- the whole registry -----

  function Candidates(screen: Screen, registry: seq<Record>): seq<Record> {
    if registry == [] then []
    else
      var m := registry[|registry| - 1];
      Candidates(screen, registry[..|registry| - 1]) + (if screen(m).None? then [m] else [])
  }

  function Rejected(screen: Screen, registry: seq<Record>): seq<Rejection> {
    if registry == [] then []
    else
      var m := registry[|registry| - 1];
      Rejected(screen, registry[..|registry| - 1])
      + (if screen(m).Some? then [Rejection(m.id, screen(m).value)] else [])
  }

  function Fallbacks(options: Options, registry: seq<Record>): seq<string> {
    if registry == [] then []
    else
      var m := registry[|registry| - 1];
      Fallbacks(options, registry[..|registry| - 1])
      + (if FallsBack(options, m) then [HealthVerdict(options, m).1] else [])
  }

  lemma OneMore(screen: Screen, options: Options, registry: seq<Record>, m: Record)
    ensures Candidates(screen, registry + [m]) == Candidates(screen, registry) + (if screen(m).None? then [m] else [])
    ensures Rejected(screen, registry + [m])
         == Rejected(screen, registry) + (if screen(m).Some? then [Rejection(m.id, screen(m).value)] else [])
    ensures Fallbacks(options, registry + [m])
         == Fallbacks(options, registry) + (if FallsBack(options, m) then [HealthVerdict(options, m).1] else [])
  {
    assert (registry + [m])[..|registry|] == registry;
  }

  // ----- stable sorting -----

  predicate Descending(s: seq<Record>) {
    forall i, j | 0 <= i < j < |s| :: s[i].quality >= s[j].quality
  }

  /** The records of one quality, in order. */
  function OfQuality(s: seq<Record>, q: real): seq<Record> {
    if s == [] then [] else (if s[0].quality == q then [s[0]] else []) + OfQuality(s[1..], q)
  }

  /** t is s sorted by descending quality, with records of equal quality left in order. */
  ghost predicate StablySorted(s: seq<Record>, t: seq<Record>) {
    multiset(t) == multiset(s) && Descending(t) && forall q :: OfQuality(t, q) == OfQuality(s, q)
  }

  function InsertStable(x: Record, s: seq<Record>): (r: seq<Record>)
    requires Descending(s)
    ensures Descending(r) && multiset(r) == multiset(s) + multiset{x}
  {
    if s == [] || x.quality >= s[0].quality then [x] + s
    else
      var rest := InsertStable(x, s[1..]);
      Prepended(x, s, rest);
      [s[0]] + rest
  }

  lemma Prepended(x: Record, s: seq<Record>, rest: seq<Record>)
    requires s != [] && Descending(s) && x.quality < s[0].quality
    requires Descending(rest) && multiset(rest) == multiset(s[1..]) + multiset{x}
    ensures Descending([s[0]] + rest) && multiset([s[0]] + rest) == multiset(s) + multiset{x}
  {
    assert s == [s[0]] + s[1..];
    forall j | 0 <= j < |rest|
      ensures s[0].quality >= rest[j].quality
    {
      assert rest[j] in multiset(rest);
      assert rest[j] == x || rest[j] in s[1..];
    }
  }

  lemma OfQualityCons(x: Record, s: seq<Record>, q: real)
    ensures OfQuality([x] + s, q) == (if x.quality == q then [x] else []) + OfQuality(s, q)
  {
    assert ([x] + s)[1..] == s;
  }

  lemma {:induction false} InsertKeepsOrder(x: Record, s: seq<Record>, q: real)
    requires Descending(s)
    ensures OfQuality(InsertStable(x, s), q) == OfQuality([x] + s, q)
  {
    if s != [] && x.quality < s[0].quality {
      InsertKeepsOrder(x, s[1..], q);
      OfQualityCons(s[0], InsertStable(x, s[1..]), q);
      OfQualityCons(x, s[1..], q);
      OfQualityCons(x, s, q);
    }
  }

  /** sort.SliceStable by descending quality */
  function SortStable(s: seq<Record>): (r: seq<Record>)
    ensures Descending(r) && multiset(r) == multiset(s) && |r| == |s|
  {
    if s == [] then []
    else
      assert s == [s[0]] + s[1..];
      var r := InsertStable(s[0], SortStable(s[1..]));
      assert |r| == |multiset(r)|;
      r
  }

  lemma {:induction false} SortKeepsOrder(s: seq<Record>, q: real)
    ensures OfQuality(SortStable(s), q) == OfQuality(s, q)
  {
    if s != [] {
      SortKeepsOrder(s[1..], q);
      InsertKeepsOrder(s[0], SortStable(s[1..]), q);
      OfQualityCons(s[0], SortStable(s[1..]), q);
    }
  }

  lemma SortIsStable(s: seq<Record>)
    ensures StablySorted(s, SortStable(s))
  {
    forall q
      ensures OfQuality(SortStable(s), q) == OfQuality(s, q)
    {
      SortKeepsOrder(s, q);
    }
  }

  lemma SameHead(s: seq<Record>, t: seq<Record>)
    requires s != [] && Descending(s) && Descending(t) && multiset(s) == multiset(t)
    requires forall q :: OfQuality(s, q) == OfQuality(t, q)
    ensures t != [] && s[0] == t[0]
  {
    assert s[0] in multiset(t);
    assert t[0] in multiset(s);
    assert s[0].quality == t[0].quality;
    var q := s[0].quality;
    assert OfQuality(s, q)[0] == s[0];
    assert OfQuality(t, q)[0] == t[0];
  }

  /** There is only one stable sorting. */
  lemma {:induction false} StableUnique(s: seq<Record>, t: seq<Record>)
    requires Descending(s) && Descending(t) && multiset(s) == multiset(t)
    requires forall q :: OfQuality(s, q) == OfQuality(t, q)
    ensures s == t
  {
    if s == [] {
      assert |multiset(t)| == |t|;
    } else {
      SameHead(s, t);
      SameTail(s, t);
      StableUnique(s[1..], t[1..]);
      assert s == [s[0]] + s[1..] && t == [t[0]] + t[1..];
    }
  }

  lemma SameTail(s: seq<Record>, t: seq<Record>)
    requires s != [] && t != [] && s[0] == t[0] && multiset(s) == multiset(t)
    requires forall q :: OfQuality(s, q) == OfQuality(t, q)
    ensures multiset(s[1..]) == multiset(t[1..])
    ensures forall q :: OfQuality(s[1..], q) == OfQuality(t[1..], q)
  {
    assert s == [s[0]] + s[1..] && t == [t[0]] + t[1..];
    assert multiset(s[1..]) == multiset(s) - multiset{s[0]};
    assert multiset(t[1..]) == multiset(t) - multiset{t[0]};
    forall q
      ensures OfQuality(s[1..], q) == OfQuality(t[1..], q)
    {
      assert OfQuality(s, q) == OfQuality(t, q);
      TailQuality(s, t, q);
    }
  }

  lemma TailQuality(s: seq<Record>, t: seq<Record>, q: real)
    requires s != [] && t != [] && s[0] == t[0] && OfQuality(s, q) == OfQuality(t, q)
    ensures OfQuality(s[1..], q) == OfQuality(t[1..], q)
  {
    var p := if s[0].quality == q then [s[0]] else [];
    var a, b := OfQuality(s[1..], q), OfQuality(t[1..], q);
    assert p + a == p + b;
    assert (p + a)[|p|..] == a && (p + b)[|p|..] == b;
  }

  function Count(risk: Risk, candidates: nat): nat {
    match risk
    case Medium => if candidates < 2 then candidates else 2
    case High => if candidates < 3 then candidates else 3
    case Critical => if candidates < 3 then candidates else 3
    case _ => 1
  }

  function PolicyName(risk: Risk): string {
    match risk
    case Medium => "primary_plus_reviewer"
    case High => "multimodel_council"
    case Critical => "multimodel_council"
    case _ => "single_model"
  }

  method Route(options: Options, registry: seq<Record>, req: Request) returns (r: Outcome)
    ensures r.BadRequest? <==> req.capability == "" || req.modality == "" || req.tier == NoTier
    ensures !r.BadRequest? ==> r.decision.rejected == Rejected(ScreenFor(options, req), registry)
    ensures !r.BadRequest? ==> (r.NoCandidate? <==> Candidates(ScreenFor(options, req), registry) == [])
    ensures r.Routed? ==> r.decision.selected == Selection(req.risk, Candidates(ScreenFor(options, req), registry))
    ensures r.Routed? ==> r.decision.policy == PolicyName(req.risk)
    ensures r.Routed? ==> r.decision.fallbackReasons == Fallbacks(options, registry)
  {
    hide Rejects, Candidates, Rejected, Fallbacks, SortStable;
    if req.capability == "" || req.modality == "" || req.tier == NoTier {
      return BadRequest;
    }
    var candidates, rejected, fallbackReasons := RouteAll(options, registry, req);
    if candidates == [] {
      return NoCandidate(Decision([], rejected, "no_candidate", []));
    }
    var sorted := SortStable(candidates);
    r := Routed(Decision(sorted[..Count(req.risk, |sorted|)], rejected, PolicyName(req.risk), fallbackReasons));
  }

  /** The first k of the candidates sorted, k being what the risk level asks for. */
  function Selection(risk: Risk, candidates: seq<Record>): seq<Record> {
    if candidates == [] then [] else SortStable(candidates)[..Count(risk, |candidates|)]
  }

  method RouteAll(options: Options, registry: seq<Record>, req: Request)
    returns (candidates: seq<Record>, rejected: seq<Rejection>, fallbackReasons: seq<string>)
    ensures candidates == Candidates(ScreenFor(options, req), registry)
    ensures rejected == Rejected(ScreenFor(options, req), registry)
    ensures fallbackReasons == Fallbacks(options, registry)
  {
    ghost var screen := ScreenFor(options, req);
    candidates, rejected, fallbackReasons := [], [], [];
    for i := 0 to |registry|
      invariant candidates == Candidates(screen, registry[..i])
      invariant rejected == Rejected(screen, registry[..i])
      invariant fallbackReasons == Fallbacks(options, registry[..i])
    {
      var rejects, fallback := RouteOne(options, registry[i], req);
      OneMore(screen, options, registry[..i], registry[i]);
      assert registry[..i + 1] == registry[..i] + [registry[i]];
      fallbackReasons := fallbackReasons + fallback;
      if rejects.Some? {
        rejected := rejected + [Rejection(registry[i].id, rejects.value)];
      } else {
        candidates := candidates + [registry[i]];
      }
    }
    assert registry[..|registry|] == registry;
  }

  /** One turn of the loop: the reason to reject the record, and what it adds to the
      fallback reasons. */
  method RouteOne(options: Options, m: Record, req: Request) returns (rejects: Option<string>, fallback: seq<string>)
    ensures rejects == ScreenFor(options, req)(m)
    ensures fallback == if FallsBack(options, m) then [HealthVerdict(options, m).1] else []
  {
    var (allowed, reason) := HealthVerdict(options, m);
    fallback := [];
    if !allowed { return Some(reason), []; }
    if ProviderHealth(m.provider, options.providerHealth) !in {NoHealth, Healthy} { fallback := [reason]; }
    if m.status == Disabled { return Some("model disabled"), fallback; }
    if m.status == Degraded && !options.allowDegraded {
      return Some("model degraded and fallback policy disallows degraded selection"), fallback;
    }
    if req.capability !in m.capabilities { return Some("missing capability"), fallback; }
    if req.modality !in m.modalities { return Some("missing modality"), fallback; }
    if !PrivacyAllowed(m.tier, req.tier) { return Some("privacy tier not allowed"), fallback; }
    rejects := None;
  }

  // ----- what routing guarantees -----

  /** The positions in the registry whose records are candidates, or are not, in order. */
  function Positions(screen: Screen, registry: seq<Record>, candidate: bool): (s: seq<nat>)
    ensures forall i | i in s :: i < |registry| && screen(registry[i]).None? == candidate
  {
    if registry == [] then []
    else
      var n := |registry| - 1;
      Positions(screen, registry[..n], candidate) + (if screen(registry[n]).None? == candidate then [n] else [])
  }

  predicate Increasing(s: seq<nat>) {
    forall i, j | 0 <= i < j < |s| :: s[i] < s[j]
  }

  lemma {:induction false} PositionsComplete(screen: Screen, registry: seq<Record>, candidate: bool)
    ensures Increasing(Positions(screen, registry, candidate))
    ensures forall i: nat | i < |registry| :: i in Positions(screen, registry, candidate) <==>
      screen(registry[i]).None? == candidate
  {
    if registry != [] {
      var n := |registry| - 1;
      PositionsComplete(screen, registry[..n], candidate);
      var s := Positions(screen, registry[..n], candidate);
      assert forall k | 0 <= k < |s| :: s[k] in s;
    }
  }

  /** Every record is a candidate or rejected and never both, and both lists keep the order
      of the registry. */
  lemma {:induction false} Partition(screen: Screen, registry: seq<Record>)
    ensures var c := Positions(screen, registry, true);
      |Candidates(screen, registry)| == |c|
      && forall k | 0 <= k < |c| :: c[k] in c && Candidates(screen, registry)[k] == registry[c[k]]
    ensures var r := Positions(screen, registry, false);
      |Rejected(screen, registry)| == |r|
      && forall k | 0 <= k < |r| :: r[k] in r && Rejected(screen, registry)[k].modelId == registry[r[k]].id
  {
    if registry != [] {
      Partition(screen, registry[..|registry| - 1]);
    }
  }

  lemma CountBounds(risk: Risk, n: nat)
    requires n > 0
    ensures 1 <= Count(risk, n) <= n && Count(risk, n) <= 3
  {}

  lemma DescendingCut(s: seq<Record>, k: nat)
    requires Descending(s) && k <= |s|
    ensures multiset(s[..k]) + multiset(s[k..]) == multiset(s)
    ensures forall x, y | x in s[..k] && y in s[k..] :: x.quality >= y.quality
  {
    assert s == s[..k] + s[k..];
  }

  /** The selection holds as many candidates as the risk level asks for, or all there are,
      and no candidate left out is strictly better than one selected. */
  lemma SelectionIsBest(risk: Risk, candidates: seq<Record>)
    requires candidates != []
    ensures var k := Count(risk, |candidates|); var rest := SortStable(candidates)[k..];
      && |Selection(risk, candidates)| == k && 1 <= k <= 3
      && multiset(Selection(risk, candidates)) + multiset(rest) == multiset(candidates)
      && forall x, y | x in Selection(risk, candidates) && y in rest :: x.quality >= y.quality
  {
    CountBounds(risk, |candidates|);
    DescendingCut(SortStable(candidates), Count(risk, |candidates|));
  }

  lemma {:induction false} OnlyAllowed(screen: Screen, registry: seq<Record>)
    ensures forall m | m in Candidates(screen, registry) :: m in registry && screen(m) == None
  {
    if registry != [] {
      OnlyAllowed(screen, registry[..|registry| - 1]);
    }
  }

  /** Restricted work goes to restricted and local models only, whatever the options say. */
  lemma RestrictedStaysInside(options: Options, req: Request, registry: seq<Record>)
    requires req.tier == Restricted
    ensures forall m | m in Selection(req.risk, Candidates(ScreenFor(options, req), registry)) ::
      m.tier == Restricted || m.tier == LocalOnly
  {
    var candidates := Candidates(ScreenFor(options, req), registry);
    OnlyAllowed(ScreenFor(options, req), registry);
    forall m | m in Selection(req.risk, candidates)
      ensures m.tier == Restricted || m.tier == LocalOnly
    {
      assert m in multiset(SortStable(candidates));
      assert m in candidates;
      AdmittedTier(options, req, m);
    }
  }

  lemma AdmittedTier(options: Options, req: Request, m: Record)
    requires ScreenFor(options, req)(m) == None && req.tier == Restricted
    ensures m.tier == Restricted || m.tier == LocalOnly
  {}
}
