/** internal/productionqa/checks.go: the checks before publication. */
module ProductionQA {
  import opened Text
  import opened Json
  import opened Markdown
  import opened StringList
  import Claims
  import QaPacket
  import Storyboard
  import Verification

  datatype Visibility = Unset | Private | Scheduled | Public | OtherVisibility(name: string)

  /** What checkRenderManifest, checkRenderOutputs and checkAssetManifest find comes in as a
      list of blockers. */
  datatype Input = Input(
    episodeId: string, renderEpisodeId: string, renderBlockers: seq<string>, claims: seq<Claims.Claim>,
    verification: Verification.Report, humanQA: Storyboard.Decision, visibility: Visibility,
    disclosureRequired: bool, disclosureStatus: string)

  datatype Decision = Approved | RequestRevision | Block

  datatype Report = Report(episodeId: string, blockingIssues: seq<string>, decision: Decision)

  const DIRECT_PUBLISH := "direct public publish"
  const HUMAN_QA := "human QA"

  // ----- the checks -----

  function CheckPublishIntent(visibility: Visibility): seq<string> {
    if visibility == Public then [DIRECT_PUBLISH + " intent is forbidden before explicit release approval"] else []
  }

  predicate DisclosureOk(lower: Lowering, input: Input) {
    !input.disclosureRequired || ToLower(lower, TrimSpace(input.disclosureStatus)) in {"present", "declared"}
  }

  function CheckDisclosure(lower: Lowering, input: Input): seq<string> {
    if DisclosureOk(lower, input) then [] else ["synthetic disclosure status is required"]
  }

  predicate HighRiskOpen(byId: map<string, Claims.Claim>, result: Verification.ClaimResult) {
    Verification.HighRisk(QaPacket.ClaimFor(byId, result.claimId).risk) && QaPacket.Unresolved(result.status)
  }

  function OpenMessage(result: Verification.ClaimResult): string {
    result.claimId + ": unresolved high-risk claim" + " blocks production QA"
  }

  function OpenResults(byId: map<string, Claims.Claim>, results: seq<Verification.ClaimResult>): seq<string> {
    if results == [] then []
    else
      var last := results[|results| - 1];
      OpenResults(byId, results[..|results| - 1]) + (if HighRiskOpen(byId, last) then [OpenMessage(last)] else [])
  }

  function CheckDecision(decision: string): seq<string> {
    if decision != "" && decision != "approved" then ["verification decision is " + decision] else []
  }

  function CheckVerification(claims: seq<Claims.Claim>, report: Verification.Report): seq<string> {
    OpenResults(QaPacket.ById(claims), report.results) + CheckDecision(report.decision)
  }

  function DecisionName(decision: Storyboard.Decision): string {
    match decision
    case Approve => "approve"
    case ApproveWithMinorEdits => "approve_with_minor_edits"
    case RequestRevision => "request_revision"
    case Block => "block"
    case OtherDecision(name) => name
  }

  function CheckHumanQA(decision: Storyboard.Decision): seq<string> {
    if Storyboard.AllowsStoryboarding(decision) then []
    else if DecisionName(decision) == "" then [HUMAN_QA + " approval is required before production QA approval"]
    else [HUMAN_QA + " decision is " + DecisionName(decision)]
  }

  function Blockers(lower: Lowering, input: Input): seq<string> {
    input.renderBlockers + CheckPublishIntent(input.visibility) + CheckDisclosure(lower, input)
    + CheckVerification(input.claims, input.verification) + CheckHumanQA(input.humanQA)
  }

  predicate Hard(blocker: string) {
    Contains(blocker, DIRECT_PUBLISH) || Contains(blocker, HUMAN_QA)
  }

  predicate HasHardBlocker(blockers: seq<string>) {
    exists i | 0 <= i < |blockers| :: Hard(blockers[i])
  }

  function DecisionOn(blockers: seq<string>): Decision {
    if blockers == [] then Approved else if HasHardBlocker(blockers) then Block else RequestRevision
  }

  function EpisodeId(input: Input): string {
    if Present(input.episodeId) then TrimSpace(input.episodeId) else TrimSpace(input.renderEpisodeId)
  }

  function ReportOf(lower: Lowering, input: Input): Report {
    var issues := Tidy(Blockers(lower, input));
    Report(EpisodeId(input), issues, DecisionOn(issues))
  }

  method Run(lower: Lowering, input: Input) returns (r: Result<Report>)
    ensures r.Ok? <==> EpisodeId(input) != ""
    ensures r.Ok? ==> r.value == ReportOf(lower, input)
  {
    hide TrimSpace, Tidy, CheckPublishIntent, CheckDisclosure, CheckVerification, CheckHumanQA, Hard;
    var episodeId := TrimSpace(input.episodeId);
    if episodeId == "" {
      episodeId := TrimSpace(input.renderEpisodeId);
    }
    if episodeId == "" {
      return Err("episode id is required");
    }
    var blockers := input.renderBlockers;
    blockers := blockers + CheckPublishIntent(input.visibility);
    blockers := blockers + CheckDisclosure(lower, input);
    var open := CollectVerification(input.claims, input.verification);
    blockers := blockers + open + CheckHumanQA(input.humanQA);
    var issues := SortUnique(blockers);
    var decision := Approved;
    if |issues| > 0 {
      decision := RequestRevision;
      for i := 0 to |issues|
        invariant forall j | 0 <= j < i :: !Hard(issues[j])
      {
        if Hard(issues[i]) {
          return Ok(Report(episodeId, issues, Block));
        }
      }
    }
    r := Ok(Report(episodeId, issues, decision));
  }

  method CollectVerification(claims: seq<Claims.Claim>, report: Verification.Report) returns (blockers: seq<string>)
    ensures blockers == CheckVerification(claims, report)
  {
    hide HighRiskOpen, QaPacket.ById, OpenMessage, CheckDecision;
    var byId := QaPacket.IndexClaims(claims);
    var results := report.results;
    blockers := [];
    for i := 0 to |results|
      invariant blockers == OpenResults(byId, results[..i])
    {
      assert results[..i + 1][..i] == results[..i];
      if HighRiskOpen(byId, results[i]) {
        blockers := blockers + [OpenMessage(results[i])];
      }
    }
    assert results[..|results|] == results;
    blockers := blockers + CheckDecision(report.decision);
  }

  // ----- what the report decides -----

  lemma InBlockers(lower: Lowering, input: Input, x: string)
    requires x in CheckPublishIntent(input.visibility) || x in CheckHumanQA(input.humanQA)
    ensures x in Blockers(lower, input)
  {
    hide CheckPublishIntent, CheckHumanQA, CheckDisclosure, CheckVerification;
  }

  lemma HardWords()
    ensures DIRECT_PUBLISH != "" && !IsSpace(DIRECT_PUBLISH[0]) && !IsSpace(DIRECT_PUBLISH[|DIRECT_PUBLISH| - 1])
    ensures HUMAN_QA != "" && !IsSpace(HUMAN_QA[0]) && !IsSpace(HUMAN_QA[|HUMAN_QA| - 1])
  {}

  lemma HardPrefix(blockers: seq<string>, x: string, word: string)
    requires x in blockers && HasPrefix(x, word) && (word == DIRECT_PUBLISH || word == HUMAN_QA)
    ensures DecisionOn(Tidy(blockers)) == Block
  {
    hide Contains, IsSpace, Tidy, HasPrefix;
    HardWords();
    var i :| 0 <= i < |blockers| && blockers[i] == x;
    KeepsPrefix(blockers, i, word);
    var k :| 0 <= k < |Tidy(blockers)| && HasPrefix(Tidy(blockers)[k], word);
    PrefixContained(Tidy(blockers)[k], word);
    assert Hard(Tidy(blockers)[k]);
  }

  /** Without an approving human decision production QA blocks, whatever else it finds. */
  lemma HumanVeto(lower: Lowering, input: Input)
    requires !Storyboard.AllowsStoryboarding(input.humanQA)
    ensures ReportOf(lower, input).decision == Block
  {
    hide Blockers, Tidy, DecisionOn, EpisodeId, DecisionName;
    var x := CheckHumanQA(input.humanQA)[0];
    assert HasPrefix(x, HUMAN_QA);
    InBlockers(lower, input, x);
    HardPrefix(Blockers(lower, input), x, HUMAN_QA);
  }

  lemma PublicVeto(lower: Lowering, input: Input)
    requires input.visibility == Public
    ensures ReportOf(lower, input).decision == Block
  {
    hide Blockers, Tidy, DecisionOn, EpisodeId;
    var x := CheckPublishIntent(input.visibility)[0];
    assert HasPrefix(x, DIRECT_PUBLISH);
    InBlockers(lower, input, x);
    HardPrefix(Blockers(lower, input), x, DIRECT_PUBLISH);
  }

  lemma {:induction false} NoOpenResults(byId: map<string, Claims.Claim>, results: seq<Verification.ClaimResult>)
    ensures OpenResults(byId, results) == [] <==> forall i | 0 <= i < |results| :: !HighRiskOpen(byId, results[i])
    ensures forall x | x in OpenResults(byId, results) :: Present(x)
  {
    hide HighRiskOpen, OpenMessage, TrimSpace, Present;
    if results != [] {
      NoOpenResults(byId, results[..|results| - 1]);
      OpenMessagePresent(results[|results| - 1]);
    }
  }

  lemma OpenMessagePresent(result: Verification.ClaimResult)
    ensures Present(OpenMessage(result))
  {
    hide TrimSpace;
    assert OpenMessage(result)[|result.claimId|] == ':';
    PresentIff(OpenMessage(result));
  }

  lemma MessagesPresent(lower: Lowering, input: Input)
    ensures forall x | x in CheckPublishIntent(input.visibility) :: Present(x)
    ensures forall x | x in CheckDisclosure(lower, input) :: Present(x)
    ensures forall x | x in CheckDecision(input.verification.decision) :: Present(x)
    ensures forall x | x in CheckHumanQA(input.humanQA) :: Present(x)
  {
    hide TrimSpace, Present, DisclosureOk, DecisionName;
    forall x | x in CheckPublishIntent(input.visibility)
      ensures Present(x)
    {
      PresentWord(x);
    }
    forall x | x in CheckDisclosure(lower, input)
      ensures Present(x)
    {
      PresentWord(x);
    }
    forall x | x in CheckDecision(input.verification.decision)
      ensures Present(x)
    {
      PresentWord(x);
    }
    forall x | x in CheckHumanQA(input.humanQA)
      ensures Present(x)
    {
      PresentWord(x);
    }
  }

  lemma TidyEmpty(values: seq<string>)
    ensures Tidy(values) == [] <==> forall x | x in values :: !Present(x)
  {
    hide TrimSpace, TrimAll, Unique;
    TidyMeans(values);
    if x :| x in values && Present(x) {
      assert TrimSpace(x) in Tidy(values);
    }
    if Tidy(values) != [] {
      var y := Tidy(values)[0];
      assert y in Tidy(values);
      var i :| 0 <= i < |values| && TrimSpace(values[i]) == y;
      assert values[i] in values && Present(values[i]);
    }
  }

  /** Production QA approves exactly when nothing was found in the render, a human approved,
      publication is not aimed at the public, a required disclosure is declared, verification
      is not against it, and no claim of high or critical risk is open. */
  lemma ApprovedIff(lower: Lowering, input: Input)
    ensures ReportOf(lower, input).decision == Approved <==>
      && (forall x | x in input.renderBlockers :: !Present(x))
      && Storyboard.AllowsStoryboarding(input.humanQA)
      && input.visibility != Public
      && DisclosureOk(lower, input)
      && input.verification.decision in {"", "approved"}
      && forall i | 0 <= i < |input.verification.results| ::
        !HighRiskOpen(QaPacket.ById(input.claims), input.verification.results[i])
  {
    hide Present, Tidy, EpisodeId, DisclosureOk, HighRiskOpen, HasHardBlocker, OpenResults, DecisionName;
    MessagesPresent(lower, input);
    NoOpenResults(QaPacket.ById(input.claims), input.verification.results);
    TidyEmpty(Blockers(lower, input));
    BlockersBlank(lower, input);
  }

  /** The blockers are all blank exactly when those of the render are and there are no
      others, since the messages never are. */
  lemma BlockersBlank(lower: Lowering, input: Input)
    ensures (forall x | x in Blockers(lower, input) :: !Present(x)) <==>
      && (forall x | x in input.renderBlockers :: !Present(x))
      && CheckPublishIntent(input.visibility) == [] && CheckDisclosure(lower, input) == []
      && CheckVerification(input.claims, input.verification) == [] && CheckHumanQA(input.humanQA) == []
  {
    hide Present, CheckPublishIntent, CheckDisclosure, CheckHumanQA, OpenResults, CheckDecision;
    MessagesPresent(lower, input);
    NoOpenResults(QaPacket.ById(input.claims), input.verification.results);
    var publish, disclosure := CheckPublishIntent(input.visibility), CheckDisclosure(lower, input);
    var verification, human := CheckVerification(input.claims, input.verification), CheckHumanQA(input.humanQA);
    PartsBlank(input.renderBlockers, publish, disclosure, verification, human);
  }

  lemma PartsBlank(render: seq<string>, a: seq<string>, b: seq<string>, c: seq<string>, d: seq<string>)
    requires forall x | x in a :: Present(x)
    requires forall x | x in b :: Present(x)
    requires forall x | x in c :: Present(x)
    requires forall x | x in d :: Present(x)
    ensures (forall x | x in render + a + b + c + d :: !Present(x)) <==>
      (forall x | x in render :: !Present(x)) && a == [] && b == [] && c == [] && d == []
  {
    hide Present;
    if a != [] { assert a[0] in a; }
    if b != [] { assert b[0] in b; }
    if c != [] { assert c[0] in c; }
    if d != [] { assert d[0] in d; }
  }
}
