/** A veto on its way from the model council to the release pack. */
module Veto {
  import opened Text
  import opened Markdown
  import Claims
  import Council
  import ProductionQA
  import QaPacket
  import Release
  import Storyboard
  import Verification

  /** The inputs of the stages after verification, each made with the outcome of the stages
      before it and otherwise arbitrary. */
  ghost predicate Chained(
    lower: Lowering, reviews: seq<Council.Review>, claims: seq<Claims.Claim>,
    packet: QaPacket.Input, storyboard: Storyboard.Input, production: ProductionQA.Input, release: Release.Input)
  {
    && packet.claims == claims
    && packet.council == Council.ReportOf(reviews)
    && packet.verification == Verification.ReportOf(claims, packet.council.consensus)
    && storyboard.decision == QaPacket.PacketOf(lower, packet).recommended
    && production.humanQA == storyboard.decision
    && release.productionQA == ProductionQA.ReportOf(lower, production)
  }

  /** Everything after the packet refuses. */
  predicate Refused(
    lower: Lowering, style: Storyboard.Style, storyboard: Storyboard.Input, production: ProductionQA.Input,
    release: Release.Input)
  {
    && !Storyboard.Storyboardable(style, storyboard)
    && ProductionQA.ReportOf(lower, production).decision == ProductionQA.Block
    && !Release.Releasable(release)
  }

  lemma NoApprovalNoRelease(
    lower: Lowering, style: Storyboard.Style, storyboard: Storyboard.Input, production: ProductionQA.Input,
    release: Release.Input)
    requires !Storyboard.AllowsStoryboarding(storyboard.decision) && production.humanQA == storyboard.decision
    requires release.productionQA == ProductionQA.ReportOf(lower, production)
    ensures Refused(lower, style, storyboard, production, release)
  {
    hide ProductionQA.ReportOf, Present, Storyboard.ScenesOf;
    ProductionQA.HumanVeto(lower, production);
  }

  /** One blocking review is enough: verification does not approve, the packet recommends to
      block, no storyboard is made, production QA blocks, and there is no release pack. */
  lemma BlockPropagates(
    lower: Lowering, style: Storyboard.Style, reviews: seq<Council.Review>, claims: seq<Claims.Claim>,
    packet: QaPacket.Input, storyboard: Storyboard.Input, production: ProductionQA.Input, release: Release.Input)
    requires Chained(lower, reviews, claims, packet, storyboard, production, release)
    requires Council.HasVerdict(reviews, Council.Block)
    ensures packet.verification.decision != "approved"
    ensures QaPacket.PacketOf(lower, packet).recommended == Storyboard.Block
    ensures Refused(lower, style, storyboard, production, release)
  {
    hide QaPacket.UnresolvedClaims, QaPacket.BlockingIssues, QaPacket.SafetyBlockers, QaPacket.HardClaimBlocker,
      ProductionQA.ReportOf, Refused, QaPacket.ArtifactId, Verification.ReportOf;
    Verification.ApprovedIff(claims, packet.council.consensus);
    NoApprovalNoRelease(lower, style, storyboard, production, release);
  }

  lemma ClaimIssueRaised(claims: seq<Claims.Claim>, consensus: Council.Consensus, i: nat) returns (k: nat)
    requires i < |claims| && Verification.Blocks(claims[i])
    ensures k < |Verification.ReportOf(claims, consensus).blockingIssues|
    ensures Present(Verification.ReportOf(claims, consensus).blockingIssues[k])
  {
    hide Verification.Blocks, Verification.ClaimIssue, Verification.Coverages, Present;
    k := IssuePresent(claims, i);
  }

  lemma {:induction false} IssuePresent(claims: seq<Claims.Claim>, i: nat) returns (k: nat)
    requires i < |claims| && Verification.Blocks(claims[i])
    ensures k < |Verification.ClaimIssues(claims)| && Present(Verification.ClaimIssues(claims)[k])
  {
    hide Verification.Blocks, Verification.ClaimIssue, Present;
    if i < |claims| - 1 {
      k := IssuePresent(claims[..|claims| - 1], i);
    } else {
      k := |Verification.ClaimIssues(claims[..|claims| - 1])|;
      IssueText(claims[i]);
    }
  }

  lemma IssueText(claim: Claims.Claim)
    ensures Present(Verification.ClaimIssue(claim))
  {
    hide Present, Verification.Coverage;
    assert Verification.ClaimIssue(claim)[|claim.id|] == ':';
    PresentAt(Verification.ClaimIssue(claim), |claim.id|);
  }

  /** One claim of high or critical risk that is not verified (it has no evidence locator, no
      source, no text, no id, or an unresolved status) is enough: the packet does not
      recommend approval, and everything after it refuses. */
  lemma HighRiskNeedsEvidence(
    lower: Lowering, style: Storyboard.Style, reviews: seq<Council.Review>, claims: seq<Claims.Claim>,
    packet: QaPacket.Input, storyboard: Storyboard.Input, production: ProductionQA.Input, release: Release.Input,
    i: nat)
    requires Chained(lower, reviews, claims, packet, storyboard, production, release)
    requires i < |claims| && Verification.HighRisk(claims[i].risk) && !Verification.Verified(claims[i])
    ensures packet.verification.decision != "approved"
    ensures !Storyboard.AllowsStoryboarding(QaPacket.PacketOf(lower, packet).recommended)
    ensures Refused(lower, style, storyboard, production, release)
  {
    hide QaPacket.UnresolvedClaims, QaPacket.BlockingIssues, QaPacket.SafetyBlockers, QaPacket.Recommend, Present,
      ProductionQA.ReportOf, Refused, QaPacket.ArtifactId, Verification.ReportOf, Verification.Verified,
      Verification.Blocks;
    Verification.ApprovedIff(claims, packet.council.consensus);
    Verification.BlocksIff(claims[i]);
    var k := ClaimIssueRaised(claims, packet.council.consensus, i);
    QaPacket.VerificationIssueBlocks(lower, packet, k);
    NotApproving(lower, packet);
    NoApprovalNoRelease(lower, style, storyboard, production, release);
  }

  lemma NotApproving(lower: Lowering, packet: QaPacket.Input)
    requires QaPacket.PacketOf(lower, packet).blockingIssues != []
    ensures !Storyboard.AllowsStoryboarding(QaPacket.PacketOf(lower, packet).recommended)
  {
    hide QaPacket.UnresolvedClaims, QaPacket.BlockingIssues, QaPacket.SafetyBlockers, QaPacket.Recommend,
      QaPacket.ArtifactId;
    var p := QaPacket.PacketOf(lower, packet);
    if Storyboard.AllowsStoryboarding(p.recommended) {
      QaPacket.Approving(lower, packet, p.unresolved, p.blockingIssues, p.safetyBlockers);
    }
  }

  /** What an approving recommendation says about a claim of high or critical risk: it is
      verified, and fully supported unless the packet does not show its risk. */
  lemma ApprovalMeansResolved(
    lower: Lowering, reviews: seq<Council.Review>, claims: seq<Claims.Claim>,
    packet: QaPacket.Input, storyboard: Storyboard.Input, production: ProductionQA.Input, release: Release.Input,
    i: nat)
    requires Chained(lower, reviews, claims, packet, storyboard, production, release)
    requires Storyboard.AllowsStoryboarding(QaPacket.PacketOf(lower, packet).recommended)
    requires i < |claims| && Verification.HighRisk(claims[i].risk)
    ensures Verification.Verified(claims[i])
    ensures QaPacket.Unresolved(claims[i].status) ==>
      && claims[i].status == Claims.PartiallySupported
      && !QaPacket.RiskShown(claims, Verification.Coverages(claims), claims[i].id)
  {
    hide Verification.HighRisk, QaPacket.PacketOf, QaPacket.RiskShown, Storyboard.AllowsStoryboarding, Refused,
      Verification.Coverage;
    if !Verification.Verified(claims[i]) {
      HighRiskNeedsEvidence(lower, KeepStyle(lower), reviews, claims, packet, storyboard, production, release, i);
    }
    if QaPacket.Unresolved(claims[i].status) {
      QaPacket.HighRiskSeen(claims, Verification.Coverages(claims), i);
      OpenPacket(lower, packet);
    }
  }

  function KeepStyle(lower: Lowering): Storyboard.Style {
    Storyboard.KeywordStyle(lower)
  }

  lemma OpenPacket(lower: Lowering, packet: QaPacket.Input)
    requires Storyboard.AllowsStoryboarding(QaPacket.PacketOf(lower, packet).recommended)
    ensures !QaPacket.HighRiskUnresolved(QaPacket.UnresolvedClaims(packet.claims, packet.verification.results))
  {
    hide QaPacket.UnresolvedClaims, QaPacket.BlockingIssues, QaPacket.SafetyBlockers, QaPacket.Recommend,
      QaPacket.ArtifactId;
    var p := QaPacket.PacketOf(lower, packet);
    QaPacket.Approving(lower, packet, p.unresolved, p.blockingIssues, p.safetyBlockers);
  }

  lemma CoverageOf(claim: Claims.Claim)
    ensures Verification.Coverage(claim).claimId == claim.id
    ensures Verification.Verified(claim) ==> !QaPacket.Unresolved(Verification.Coverage(claim).status)
  {}

  lemma SeenClaims(claims: seq<Claims.Claim>, id: string)
    ensures id in QaPacket.SeenIds(Verification.Coverages(claims)) <==> exists k | 0 <= k < |claims| ::
      claims[k].id == id && QaPacket.Unresolved(Verification.Coverage(claims[k]).status)
  {
    hide QaPacket.Unresolved, Verification.Coverage, Verification.Verified;
    var results := Verification.Coverages(claims);
    forall k | 0 <= k < |claims|
      ensures results[k].claimId == claims[k].id && results[k] == Verification.Coverage(claims[k])
    {
      CoverageOf(claims[k]);
    }
    if k :| 0 <= k < |claims| && claims[k].id == id && QaPacket.Unresolved(Verification.Coverage(claims[k]).status) {
      assert results[k].claimId in QaPacket.SeenIds(results);
    }
  }

  /** So a claim of high or critical risk that is only partially supported slips through the
      packet exactly when some claim with its id has no coverage and the last claim with its
      id is of lower risk. */
  lemma SharedIdHidesRisk(claims: seq<Claims.Claim>, i: nat)
    requires i < |claims| && Verification.HighRisk(claims[i].risk) && QaPacket.Unresolved(claims[i].status)
    ensures !QaPacket.Warns(claims, Verification.Coverages(claims), claims[i].id) <==>
      && (exists k | 0 <= k < |claims| ::
          claims[k].id == claims[i].id && QaPacket.Unresolved(Verification.Coverage(claims[k]).status))
      && !Verification.HighRisk(QaPacket.ClaimFor(QaPacket.ById(claims), claims[i].id).risk)
  {
    hide QaPacket.Warns, QaPacket.SeenIds, QaPacket.Unresolved, Verification.Coverage, Verification.HighRisk,
      QaPacket.ClaimFor, QaPacket.UnresolvedClaims, QaPacket.ById;
    QaPacket.HighRiskSeen(claims, Verification.Coverages(claims), i);
    SeenClaims(claims, claims[i].id);
  }

  /** A verified claim before one of lower risk with its id: verification approves, and the
      packet has no issue of high or critical risk. */
  lemma HiddenBefore(hidden: Claims.Claim, shown: Claims.Claim)
    requires hidden.id == shown.id && Verification.Verified(hidden) && !Verification.HighRisk(shown.risk)
    requires QaPacket.Unresolved(Verification.Coverage(shown).status)
    ensures var report := Verification.ReportOf([hidden, shown], Council.Approved);
      report.decision == "approved"
      && !QaPacket.HighRiskUnresolved(QaPacket.UnresolvedClaims([hidden, shown], report.results))
  {
    hide QaPacket.UnresolvedClaims, QaPacket.HighRiskUnresolved, QaPacket.ById, Verification.ClaimIssues,
      QaPacket.SeenIds, Verification.Coverage, Verification.HighRisk, QaPacket.Unresolved, Verification.Verified;
    var claims := [hidden, shown];
    Verification.ApprovedIff(claims, Council.Approved);
    QaPacket.HighRiskIff(claims, Verification.Coverages(claims));
    SeenClaims(claims, shown.id);
    assert claims[1].id == shown.id;
    CoverageOf(hidden);
    CoverageOf(shown);
    LastWins(hidden, shown);
  }

  /** Two such claims. */
  lemma SharedIdExample()
    ensures var hidden := Claims.Claim("x", "t", Claims.Technical, Claims.High, ["s"], ["e"],
      Claims.PartiallySupported);
      var shown := Claims.Claim("x", "u", Claims.Technical, Claims.Low, ["s"], ["e"], Claims.NeedsHumanReview);
      var report := Verification.ReportOf([hidden, shown], Council.Approved);
      report.decision == "approved"
      && !QaPacket.HighRiskUnresolved(QaPacket.UnresolvedClaims([hidden, shown], report.results))
  {
    hide QaPacket.UnresolvedClaims, QaPacket.HighRiskUnresolved, Verification.ReportOf;
    HiddenBefore(
      Claims.Claim("x", "t", Claims.Technical, Claims.High, ["s"], ["e"], Claims.PartiallySupported),
      Claims.Claim("x", "u", Claims.Technical, Claims.Low, ["s"], ["e"], Claims.NeedsHumanReview));
  }

  lemma LastWins(first: Claims.Claim, last: Claims.Claim)
    requires first.id == last.id
    ensures QaPacket.ById([first, last]) == map[last.id := last]
  {
    assert [first, last][..1] == [first] && [first][..0] == [];
    assert QaPacket.ById([]) == map[];
    assert QaPacket.ById([first]) == map[first.id := first];
  }
}
