/** internal/verification/verification.go: the coverage of claims by sources and evidence. */
module Verification {
  import opened Json
  import Claims
  import Council

  datatype ClaimResult = ClaimResult(claimId: string, status: Claims.Status, notes: string)

  datatype Report = Report(results: seq<ClaimResult>, blockingIssues: seq<string>, decision: string)

  predicate HighRisk(risk: Claims.Risk) {
    risk == Claims.High || risk == Claims.Critical
  }

  /** verifyClaimCoverage */
  function Coverage(claim: Claims.Claim): ClaimResult {
    if claim.id == "" then ClaimResult("", Claims.Unsupported, "claim id is required")
    else if claim.text == "" then ClaimResult(claim.id, Claims.Unsupported, "claim text is required")
    else if claim.sourceIds == [] then ClaimResult(claim.id, Claims.Unsupported, "claim has no source references")
    else if HighRisk(claim.risk) && claim.evidence == [] then
      ClaimResult(claim.id, Claims.NeedsHumanReview, "high/critical risk claim lacks evidence locator")
    else if claim.status == Claims.Contradicted || claim.status == Claims.Unsupported then
      ClaimResult(claim.id, claim.status, "claim already marked as unresolved by upstream artifact")
    else if claim.status == Claims.NeedsHumanReview then
      ClaimResult(claim.id, Claims.NeedsHumanReview, "claim requires human review before production release")
    else ClaimResult(claim.id, Claims.Supported, "claim has source references and required locator coverage")
  }

  function Coverages(claims: seq<Claims.Claim>): seq<ClaimResult> {
    seq(|claims|, i requires 0 <= i < |claims| => Coverage(claims[i]))
  }

  predicate Blocks(claim: Claims.Claim) {
    Coverage(claim).status in {Claims.Unsupported, Claims.Contradicted, Claims.NeedsHumanReview} && HighRisk(claim.risk)
  }

  function ClaimIssue(claim: Claims.Claim): string {
    claim.id + ": " + Coverage(claim).notes
  }

  function ClaimIssues(claims: seq<Claims.Claim>): seq<string> {
    if claims == [] then []
    else
      var last := claims[|claims| - 1];
      ClaimIssues(claims[..|claims| - 1]) + (if Blocks(last) then [ClaimIssue(last)] else [])
  }

  function CouncilIssues(consensus: Council.Consensus): seq<string> {
    if consensus == Council.Blocked then ["model council blocked verification"]
    else if consensus == Council.RevisionRequired then ["model council requires revision"]
    else []
  }

  function ReportOf(claims: seq<Claims.Claim>, consensus: Council.Consensus): Report {
    var issues := ClaimIssues(claims) + CouncilIssues(consensus);
    Report(Coverages(claims), issues, if issues == [] then "approved" else "request_revision")
  }

  method CheckClaims(claims: seq<Claims.Claim>) returns (results: seq<ClaimResult>, issues: seq<string>)
    ensures results == Coverages(claims) && issues == ClaimIssues(claims)
  {
    hide Coverage, HighRisk;
    results, issues := [], [];
    for i := 0 to |claims|
      invariant |results| == i && forall j | 0 <= j < i :: results[j] == Coverage(claims[j])
      invariant issues == ClaimIssues(claims[..i])
    {
      assert claims[..i + 1][..i] == claims[..i];
      var result := Coverage(claims[i]);
      results := results + [result];
      if result.status == Claims.Unsupported || result.status == Claims.Contradicted
        || result.status == Claims.NeedsHumanReview {
        if HighRisk(claims[i].risk) {
          issues := issues + [claims[i].id + ": " + result.notes];
        }
      }
    }
    assert claims[..|claims|] == claims;
  }

  method VerifyClaims(claims: seq<Claims.Claim>, council: Council.Report) returns (r: Result<Report>)
    ensures r.Ok? <==> claims != []
    ensures r.Ok? ==> r.value == ReportOf(claims, council.consensus)
  {
    if |claims| == 0 {
      return Err("at least one claim is required");
    }
    hide ClaimIssues, Coverages;
    var results, issues := CheckClaims(claims);
    if council.consensus == Council.Blocked {
      issues := issues + ["model council blocked verification"];
    }
    if council.consensus == Council.RevisionRequired {
      issues := issues + ["model council requires revision"];
    }
    if |issues| > 0 {
      return Ok(Report(results, issues, "request_revision"));
    }
    r := Ok(Report(results, issues, "approved"));
  }

  /** A claim that may pass verification at high risk. */
  predicate Verified(claim: Claims.Claim) {
    && claim.id != "" && claim.text != "" && claim.sourceIds != [] && claim.evidence != []
    && claim.status !in {Claims.Contradicted, Claims.Unsupported, Claims.NeedsHumanReview}
  }

  lemma BlocksIff(claim: Claims.Claim)
    ensures Blocks(claim) <==> HighRisk(claim.risk) && !Verified(claim)
  {}

  lemma {:induction false} NoClaimIssues(claims: seq<Claims.Claim>)
    ensures ClaimIssues(claims) == [] <==> forall i | 0 <= i < |claims| :: !Blocks(claims[i])
  {
    hide Blocks, ClaimIssue;
    if claims != [] {
      NoClaimIssues(claims[..|claims| - 1]);
    }
  }

  /** Verification approves exactly when every claim of high or critical risk has an id, a
      text, a source, an evidence locator and no unresolved status, and the council neither
      blocked nor asked for a revision. */
  lemma ApprovedIff(claims: seq<Claims.Claim>, consensus: Council.Consensus)
    ensures ReportOf(claims, consensus).decision == "approved" <==>
      && (forall i | 0 <= i < |claims| :: HighRisk(claims[i].risk) ==> Verified(claims[i]))
      && consensus !in {Council.Blocked, Council.RevisionRequired}
  {
    hide Blocks, Verified, HighRisk, Coverages;
    NoClaimIssues(claims);
    forall i | 0 <= i < |claims|
      ensures Blocks(claims[i]) <==> HighRisk(claims[i].risk) && !Verified(claims[i])
    {
      BlocksIff(claims[i]);
    }
    assert "approved" != "request_revision" by {
      assert |"approved"| != |"request_revision"|;
    }
  }
}
