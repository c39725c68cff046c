/** internal/qa/packet.go: what the human operator is told before the QA decision. */
module QaPacket {
  import opened Text
  import opened Json
  import opened Markdown
  import opened StringList
  import Claims
  import Council
  import Storyboard
  import Verification

  datatype Input = Input(
    episodeId: string, artifactId: string, claims: seq<Claims.Claim>, verification: Verification.Report,
    council: Council.Report, qualityGateStatus: string)

  datatype Issue = Issue(
    claimId: string, text: string, kind: Claims.Kind, risk: Claims.Risk, status: Claims.Status, notes: string)

  datatype Packet = Packet(
    episodeId: string, artifactId: string, unresolved: seq<Issue>, dissent: seq<Council.Review>,
    blockingIssues: seq<string>, safetyBlockers: seq<string>, recommended: Storyboard.Decision)

  // ----- unresolved claims -----

  predicate Unresolved(status: Claims.Status) {
    status in {Claims.Unsupported, Claims.Contradicted, Claims.NeedsHumanReview, Claims.PartiallySupported}
  }

  /** claimByID: of claims with one id the last. */
  function ById(claims: seq<Claims.Claim>): map<string, Claims.Claim> {
    if claims == [] then map[]
    else ById(claims[..|claims| - 1])[claims[|claims| - 1].id := claims[|claims| - 1]]
  }

  method IndexClaims(claims: seq<Claims.Claim>) returns (byId: map<string, Claims.Claim>)
    ensures byId == ById(claims)
  {
    byId := map[];
    for i := 0 to |claims|
      invariant byId == ById(claims[..i])
    {
      assert claims[..i + 1][..i] == claims[..i];
      byId := byId[claims[i].id := claims[i]];
    }
    assert claims[..|claims|] == claims;
  }

  /** The zero Claim of Go, which a lookup of an unknown id gives. */
  const NO_CLAIM := Claims.Claim("", "", Claims.OtherKind(""), Claims.OtherRisk(""), [], [], Claims.OtherStatus(""))

  function ClaimFor(byId: map<string, Claims.Claim>, id: string): Claims.Claim {
    if id in byId then byId[id] else NO_CLAIM
  }

  function IssueOf(claim: Claims.Claim, id: string, status: Claims.Status, notes: string): Issue {
    Issue(id, claim.text, claim.kind, claim.risk, status, notes)
  }

  function FromResults(results: seq<Verification.ClaimResult>, byId: map<string, Claims.Claim>): seq<Issue> {
    if results == [] then []
    else
      var last := results[|results| - 1];
      FromResults(results[..|results| - 1], byId)
      + (if Unresolved(last.status) then
           [IssueOf(ClaimFor(byId, last.claimId), last.claimId, last.status, last.notes)]
         else [])
  }

  function SeenIds(results: seq<Verification.ClaimResult>): set<string> {
    set i | 0 <= i < |results| && Unresolved(results[i].status) :: results[i].claimId
  }

  const NO_RESULT := "claim artifact is unresolved and has no overriding verification result"

  function FromClaims(claims: seq<Claims.Claim>, seen: set<string>): seq<Issue> {
    if claims == [] then []
    else
      var last := claims[|claims| - 1];
      FromClaims(claims[..|claims| - 1], seen)
      + (if last.id in seen || !Unresolved(last.status) then [] else [IssueOf(last, last.id, last.status, NO_RESULT)])
  }

  function InsertIssue(x: Issue, s: seq<Issue>): (r: seq<Issue>)
    ensures multiset(r) == multiset(s) + multiset{x}
  {
    if s == [] || StrLe(x.claimId, s[0].claimId) then [x] + s
    else
      assert s == [s[0]] + s[1..];
      [s[0]] + InsertIssue(x, s[1..])
  }

  /** sort.SliceStable by claim id */
  function SortIssues(s: seq<Issue>): (r: seq<Issue>)
    ensures multiset(r) == multiset(s)
  {
    if s == [] then []
    else
      assert s == [s[0]] + s[1..];
      InsertIssue(s[0], SortIssues(s[1..]))
  }

  function UnresolvedClaims(claims: seq<Claims.Claim>, results: seq<Verification.ClaimResult>): seq<Issue> {
    SortIssues(FromResults(results, ById(claims)) + FromClaims(claims, SeenIds(results)))
  }

  method CollectUnresolved(
    claims: seq<Claims.Claim>, results: seq<Verification.ClaimResult>, byId: map<string, Claims.Claim>)
    returns (issues: seq<Issue>)
    requires byId == ById(claims)
    ensures issues == UnresolvedClaims(claims, results)
  {
    hide Unresolved, ById, SortIssues, ClaimFor;
    var fromResults: seq<Issue> := [];
    var seen: set<string> := {};
    for i := 0 to |results|
      invariant fromResults == FromResults(results[..i], byId)
      invariant seen == SeenIds(results[..i])
    {
      assert results[..i + 1][..i] == results[..i];
      SeenStep(results, i);
      if !Unresolved(results[i].status) {
        continue;
      }
      fromResults := fromResults
        + [IssueOf(ClaimFor(byId, results[i].claimId), results[i].claimId, results[i].status, results[i].notes)];
      seen := seen + {results[i].claimId};
    }
    assert results[..|results|] == results;
    var fromClaims := CollectFromClaims(claims, seen);
    issues := SortIssues(fromResults + fromClaims);
  }

  lemma SeenStep(results: seq<Verification.ClaimResult>, i: nat)
    requires i < |results|
    ensures SeenIds(results[..i + 1])
         == SeenIds(results[..i]) + (if Unresolved(results[i].status) then {results[i].claimId} else {})
  {
    hide Unresolved;
    var front, all := results[..i], results[..i + 1];
    assert forall j | 0 <= j < i :: all[j] == front[j];
    assert all[i] == results[i];
  }

  method CollectFromClaims(claims: seq<Claims.Claim>, seen: set<string>) returns (issues: seq<Issue>)
    ensures issues == FromClaims(claims, seen)
  {
    hide Unresolved;
    issues := [];
    for i := 0 to |claims|
      invariant issues == FromClaims(claims[..i], seen)
    {
      assert claims[..i + 1][..i] == claims[..i];
      if claims[i].id in seen || !Unresolved(claims[i].status) {
        continue;
      }
      issues := issues + [IssueOf(claims[i], claims[i].id, claims[i].status, NO_RESULT)];
    }
    assert claims[..|claims|] == claims;
  }

  // ----- blockers -----

  function ReviewLabel(review: Council.Review): string {
    if review.task == "" then review.modelId else review.modelId + "/" + review.task
  }

  function Note(review: Council.Review): string {
    ReviewLabel(review) + ": " + TrimSpace(review.notes)
  }

  function Normal(lower: Lowering, status: string): string {
    ToLower(lower, TrimSpace(status))
  }

  predicate FailingQuality(lower: Lowering, status: string) {
    ContainsAny(Normal(lower, status), ["fail", "block", "rejected"])
  }

  predicate RevisionDecision(lower: Lowering, decision: string) {
    Normal(lower, decision) !in {"", "approved", "approve"}
  }

  function Objections(reviews: seq<Council.Review>): seq<string> {
    seq(|reviews|, i requires 0 <= i < |reviews| => Note(reviews[i]))
  }

  function BlockingIssues(lower: Lowering, input: Input): seq<string> {
    Tidy(TrimAll(
      input.verification.blockingIssues + Objections(input.council.objections)
      + (if input.council.consensus == Council.Blocked then ["model council consensus is blocked"] else [])
      + (if FailingQuality(lower, input.qualityGateStatus)
         then ["quality gate status is " + TrimSpace(input.qualityGateStatus)] else [])))
  }

  const SAFETY_WORDS := ["safety", "policy", "unsafe", "security", "credential", "secret", "private data"]

  predicate Unsafe(lower: Lowering, text: string) {
    ContainsAny(ToLower(lower, text), SAFETY_WORDS)
  }

  function KindName(kind: Claims.Kind): string {
    match kind
    case Technical => "technical"
    case Historical => "historical"
    case Product => "product"
    case Safety => "safety"
    case EditorialOpinion => "editorial/opinion"
    case CTACommunity => "CTA/community"
    case OtherKind(name) => name
  }

  function SafetyOfReview(lower: Lowering, review: Council.Review): seq<string> {
    if Unsafe(lower, review.task + " " + review.notes) then [Note(review)] else []
  }

  function SafetyOfIssue(lower: Lowering, issue: Issue): seq<string> {
    if Unsafe(lower, KindName(issue.kind) + " " + issue.text + " " + issue.notes)
    then [issue.claimId + ": "
          + (if Present(issue.notes) then TrimSpace(issue.notes) else "safety or policy claim remains unresolved")]
    else []
  }

  function SafetyOfText(lower: Lowering, text: string): seq<string> {
    if Unsafe(lower, text) then [text] else []
  }

  /** The blockers that a list of findings gives rise to, in order. */
  function Flags<T>(flag: T -> seq<string>, items: seq<T>): seq<string> {
    if items == [] then [] else Flags(flag, items[..|items| - 1]) + flag(items[|items| - 1])
  }

  function SafetyBlockers(
    lower: Lowering, council: Council.Report, unresolved: seq<Issue>, blocking: seq<string>): seq<string> {
    Tidy(TrimAll(
      Flags((r: Council.Review) => SafetyOfReview(lower, r), council.dissent + council.objections)
      + Flags((i: Issue) => SafetyOfIssue(lower, i), unresolved)
      + Flags((t: string) => SafetyOfText(lower, t), blocking)))
  }

  method FlagAll<T>(flag: T -> seq<string>, items: seq<T>) returns (blockers: seq<string>)
    ensures blockers == Flags(flag, items)
  {
    blockers := [];
    for i := 0 to |items|
      invariant blockers == Flags(flag, items[..i])
    {
      assert items[..i + 1][..i] == items[..i];
      blockers := blockers + flag(items[i]);
    }
    assert items[..|items|] == items;
  }

  method CollectSafetyBlockers(lower: Lowering, council: Council.Report, unresolved: seq<Issue>, blocking: seq<string>)
    returns (blockers: seq<string>)
    ensures blockers == SafetyBlockers(lower, council, unresolved, blocking)
  {
    hide Tidy, TrimAll, Flags, SafetyOfReview, SafetyOfIssue, SafetyOfText;
    var ofReviews := FlagAll((r: Council.Review) => SafetyOfReview(lower, r), council.dissent + council.objections);
    var ofIssues := FlagAll((i: Issue) => SafetyOfIssue(lower, i), unresolved);
    var ofTexts := FlagAll((t: string) => SafetyOfText(lower, t), blocking);
    blockers := SortUnique(TrimAll(ofReviews + ofIssues + ofTexts));
  }

  method CollectBlockingIssues(lower: Lowering, input: Input) returns (issues: seq<string>)
    ensures issues == BlockingIssues(lower, input)
  {
    hide Tidy, TrimAll, TrimSpace, FailingQuality, Note;
    issues := input.verification.blockingIssues;
    var reviews := input.council.objections;
    for i := 0 to |reviews|
      invariant issues == input.verification.blockingIssues + Objections(reviews)[..i]
    {
      issues := issues + [Note(reviews[i])];
    }
    assert Objections(reviews)[..|reviews|] == Objections(reviews);
    issues := issues
      + (if input.council.consensus == Council.Blocked then ["model council consensus is blocked"] else []);
    issues := issues + (if FailingQuality(lower, input.qualityGateStatus)
                        then ["quality gate status is " + TrimSpace(input.qualityGateStatus)] else []);
    issues := SortUnique(TrimAll(issues));
  }

  // ----- the recommendation -----

  predicate HardClaimBlocker(issues: seq<Issue>) {
    exists i | 0 <= i < |issues| ::
      issues[i].risk == Claims.Critical && issues[i].status in {Claims.Contradicted, Claims.Unsupported}
  }

  predicate HighRiskUnresolved(issues: seq<Issue>) {
    exists i | 0 <= i < |issues| :: Verification.HighRisk(issues[i].risk)
  }

  function Recommend(
    lower: Lowering, input: Input, unresolved: seq<Issue>, blocking: seq<string>, safety: seq<string>)
    : Storyboard.Decision
  {
    if input.council.consensus == Council.Blocked || safety != [] || HardClaimBlocker(unresolved) then Storyboard.Block
    else if input.council.consensus == Council.RevisionRequired || blocking != [] || HighRiskUnresolved(unresolved)
      || RevisionDecision(lower, input.verification.decision) || FailingQuality(lower, input.qualityGateStatus)
    then Storyboard.RequestRevision
    else if input.council.consensus == Council.ApprovedWithSuggestions || unresolved != []
      || input.council.dissent != []
    then Storyboard.ApproveWithMinorEdits
    else Storyboard.Approve
  }

  function ArtifactId(input: Input): string {
    if Present(input.artifactId) then TrimSpace(input.artifactId) else "human-qa-packet-" + input.episodeId + "-v1"
  }

  function PacketOf(lower: Lowering, input: Input): Packet {
    var unresolved, blocking := UnresolvedClaims(input.claims, input.verification.results),
      BlockingIssues(lower, input);
    var safety := SafetyBlockers(lower, input.council, unresolved, blocking);
    Packet(input.episodeId, ArtifactId(input), unresolved, input.council.dissent, blocking, safety,
           Recommend(lower, input, unresolved, blocking, safety))
  }

  method Generate(lower: Lowering, input: Input) returns (r: Result<Packet>)
    ensures r.Ok? <==> Present(input.episodeId) && input.claims != []
    ensures r.Ok? ==> r.value == PacketOf(lower, input)
  {
    hide TrimSpace, UnresolvedClaims, BlockingIssues, SafetyBlockers, Recommend, ArtifactId;
    if !Present(input.episodeId) {
      return Err("episode id is required");
    }
    if |input.claims| == 0 {
      return Err("at least one claim is required");
    }
    var byId := IndexClaims(input.claims);
    var unresolved := CollectUnresolved(input.claims, input.verification.results, byId);
    var blocking := CollectBlockingIssues(lower, input);
    var safety := CollectSafetyBlockers(lower, input.council, unresolved, blocking);
    r := Ok(Packet(input.episodeId, ArtifactId(input), unresolved, input.council.dissent, blocking, safety,
                   Recommend(lower, input, unresolved, blocking, safety)));
  }

  // ----- what an approving recommendation means -----

  lemma TrimAllKeeps(values: seq<string>, i: nat)
    requires i < |values| && Present(values[i])
    ensures Tidy(TrimAll(values)) != []
  {
    hide TrimSpace, Tidy, TrimAll;
    var x := TrimSpace(values[i]);
    TrimAllMembers(values, x);
    TidyMeans(TrimAll(values));
    var k :| 0 <= k < |TrimAll(values)| && TrimAll(values)[k] == x;
    Storyboard.TrimsTwice(values[i]);
    assert x in Tidy(TrimAll(values));
  }

  /** A readable issue that verification raised is among the packet's blocking issues. */
  lemma VerificationIssueBlocks(lower: Lowering, input: Input, i: nat)
    requires i < |input.verification.blockingIssues| && Present(input.verification.blockingIssues[i])
    ensures PacketOf(lower, input).blockingIssues != []
  {
    hide Present, Tidy, TrimAll, UnresolvedClaims, SafetyBlockers, Recommend, ArtifactId, Objections, FailingQuality;
    var own := input.verification.blockingIssues;
    var rest := Objections(input.council.objections)
      + (if input.council.consensus == Council.Blocked then ["model council consensus is blocked"] else [])
      + (if FailingQuality(lower, input.qualityGateStatus)
         then ["quality gate status is " + TrimSpace(input.qualityGateStatus)] else []);
    TrimAllKeeps(own + rest, i);
    assert own + Objections(input.council.objections)
      + (if input.council.consensus == Council.Blocked then ["model council consensus is blocked"] else [])
      + (if FailingQuality(lower, input.qualityGateStatus)
         then ["quality gate status is " + TrimSpace(input.qualityGateStatus)] else []) == own + rest;
  }

  lemma Approving(lower: Lowering, input: Input, unresolved: seq<Issue>, blocking: seq<string>, safety: seq<string>)
    requires Storyboard.AllowsStoryboarding(Recommend(lower, input, unresolved, blocking, safety))
    ensures input.council.consensus !in {Council.Blocked, Council.RevisionRequired}
    ensures blocking == [] && safety == [] && !HighRiskUnresolved(unresolved)
  {
    hide HardClaimBlocker, HighRiskUnresolved, RevisionDecision, FailingQuality;
  }

  lemma {:induction false} FromClaimsHas(claims: seq<Claims.Claim>, seen: set<string>, i: nat)
    requires i < |claims| && claims[i].id !in seen && Unresolved(claims[i].status)
    ensures IssueOf(claims[i], claims[i].id, claims[i].status, NO_RESULT) in FromClaims(claims, seen)
  {
    hide Unresolved;
    if i < |claims| - 1 {
      FromClaimsHas(claims[..|claims| - 1], seen, i);
    }
  }

  lemma {:induction false} FromResultsHas(
    results: seq<Verification.ClaimResult>, byId: map<string, Claims.Claim>, i: nat)
    requires i < |results| && Unresolved(results[i].status)
    ensures IssueOf(ClaimFor(byId, results[i].claimId), results[i].claimId, results[i].status, results[i].notes)
      in FromResults(results, byId)
  {
    hide Unresolved, ClaimFor;
    if i < |results| - 1 {
      FromResultsHas(results[..|results| - 1], byId, i);
    }
  }

  lemma {:induction false} FromClaimsIs(claims: seq<Claims.Claim>, seen: set<string>, issue: Issue)
    requires issue in FromClaims(claims, seen)
    ensures exists i | 0 <= i < |claims| && claims[i].id !in seen && Unresolved(claims[i].status) ::
      issue == IssueOf(claims[i], claims[i].id, claims[i].status, NO_RESULT)
  {
    hide Unresolved;
    var last := |claims| - 1;
    if issue in FromClaims(claims[..last], seen) {
      FromClaimsIs(claims[..last], seen, issue);
      assert forall i | 0 <= i < last :: claims[..last][i] == claims[i];
    } else {
      assert issue == IssueOf(claims[last], claims[last].id, claims[last].status, NO_RESULT);
    }
  }

  lemma {:induction false} FromResultsIs(
    results: seq<Verification.ClaimResult>, byId: map<string, Claims.Claim>, issue: Issue)
    requires issue in FromResults(results, byId)
    ensures exists i | 0 <= i < |results| && Unresolved(results[i].status) ::
      issue == IssueOf(ClaimFor(byId, results[i].claimId), results[i].claimId, results[i].status, results[i].notes)
  {
    hide Unresolved, ClaimFor;
    var last := |results| - 1;
    if issue in FromResults(results[..last], byId) {
      FromResultsIs(results[..last], byId, issue);
      assert forall i | 0 <= i < last :: results[..last][i] == results[i];
    } else {
      assert issue
        == IssueOf(ClaimFor(byId, results[last].claimId), results[last].claimId, results[last].status,
          results[last].notes);
    }
  }

  /** The packet looks up the risk of an unresolved result by its claim id, and takes no claim
      whose id has such a result: its risk is shown when there is none, or when the last claim
      with its id is of high or critical risk too. */
  predicate RiskShown(claims: seq<Claims.Claim>, results: seq<Verification.ClaimResult>, id: string) {
    id !in SeenIds(results) || Verification.HighRisk(ClaimFor(ById(claims), id).risk)
  }

  /** The packet has an issue of high or critical risk for a claim id. */
  ghost predicate Warns(claims: seq<Claims.Claim>, results: seq<Verification.ClaimResult>, id: string) {
    exists issue ::
      issue in UnresolvedClaims(claims, results) && issue.claimId == id && Verification.HighRisk(issue.risk)
  }

  /** Exactly then is an unresolved claim of high or critical risk seen in the packet. */
  lemma HighRiskSeen(claims: seq<Claims.Claim>, results: seq<Verification.ClaimResult>, i: nat)
    requires i < |claims| && Unresolved(claims[i].status) && Verification.HighRisk(claims[i].risk)
    ensures Warns(claims, results, claims[i].id) <==> RiskShown(claims, results, claims[i].id)
    ensures RiskShown(claims, results, claims[i].id) ==> HighRiskUnresolved(UnresolvedClaims(claims, results))
  {
    hide Unresolved, ById, ClaimFor, Verification.HighRisk, SortIssues;
    var id := claims[i].id;
    var found := FromResults(results, ById(claims)) + FromClaims(claims, SeenIds(results));
    if RiskShown(claims, results, id) {
      ghost var issue: Issue;
      if id in SeenIds(results) {
        var k :| 0 <= k < |results| && Unresolved(results[k].status) && results[k].claimId == id;
        FromResultsHas(results, ById(claims), k);
        issue := IssueOf(ClaimFor(ById(claims), id), id, results[k].status, results[k].notes);
      } else {
        FromClaimsHas(claims, SeenIds(results), i);
        issue := IssueOf(claims[i], id, claims[i].status, NO_RESULT);
      }
      assert issue in found && Verification.HighRisk(issue.risk);
      SortKeeps(found, issue);
    }
    if Warns(claims, results, id) && id in SeenIds(results) {
      var issue :|
        issue in UnresolvedClaims(claims, results) && issue.claimId == id && Verification.HighRisk(issue.risk);
      SortKeeps(found, issue);
      if issue in FromClaims(claims, SeenIds(results)) {
        FromClaimsIs(claims, SeenIds(results), issue);
      } else {
        FromResultsIs(results, ById(claims), issue);
      }
    }
  }

  /** All the issues of high or critical risk: those of unresolved results whose id stands for
      such a claim, and those of unresolved claims without such a result. */
  lemma HighRiskIff(claims: seq<Claims.Claim>, results: seq<Verification.ClaimResult>)
    ensures HighRiskUnresolved(UnresolvedClaims(claims, results)) <==>
      || (exists k | 0 <= k < |results| && Unresolved(results[k].status) ::
          Verification.HighRisk(ClaimFor(ById(claims), results[k].claimId).risk))
      || (exists i | 0 <= i < |claims| && Unresolved(claims[i].status) ::
          Verification.HighRisk(claims[i].risk) && claims[i].id !in SeenIds(results))
  {
    hide Unresolved, ById, ClaimFor, Verification.HighRisk, SortIssues, SeenIds;
    var all := UnresolvedClaims(claims, results);
    var found := FromResults(results, ById(claims)) + FromClaims(claims, SeenIds(results));
    if HighRiskUnresolved(all) {
      var n :| 0 <= n < |all| && Verification.HighRisk(all[n].risk);
      SortKeeps(found, all[n]);
      if all[n] in FromClaims(claims, SeenIds(results)) {
        FromClaimsIs(claims, SeenIds(results), all[n]);
      } else {
        FromResultsIs(results, ById(claims), all[n]);
      }
    }
    forall k | 0 <= k < |results| && Unresolved(results[k].status)
        && Verification.HighRisk(ClaimFor(ById(claims), results[k].claimId).risk)
      ensures HighRiskUnresolved(all)
    {
      FromResultsHas(results, ById(claims), k);
      var issue := IssueOf(
        ClaimFor(ById(claims), results[k].claimId), results[k].claimId, results[k].status, results[k].notes);
      assert issue in found;
      SortKeeps(found, issue);
    }
    forall i | 0 <= i < |claims| && Unresolved(claims[i].status) && Verification.HighRisk(claims[i].risk)
        && claims[i].id !in SeenIds(results)
      ensures HighRiskUnresolved(all)
    {
      FromClaimsHas(claims, SeenIds(results), i);
      var issue := IssueOf(claims[i], claims[i].id, claims[i].status, NO_RESULT);
      assert issue in found;
      SortKeeps(found, issue);
    }
  }

  lemma SortKeeps(found: seq<Issue>, issue: Issue)
    ensures issue in found <==> issue in SortIssues(found)
  {
    hide SortIssues;
    assert multiset(SortIssues(found)) == multiset(found);
    assert issue in found <==> issue in multiset(found);
    assert issue in SortIssues(found) <==> issue in multiset(SortIssues(found));
  }
}
