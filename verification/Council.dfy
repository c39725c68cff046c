/** internal/council/council.go: the consensus of the reviewer models. */
module Council {
  import opened Json

  /** The verdicts are strings in Go; Unknown stands for every other one. */
  datatype Verdict = Approve | ApproveWithSuggestions | RequestRevision | Block | Unknown(name: string)

  datatype Review = Review(modelId: string, provider: string, task: string, verdict: Verdict, notes: string)

  datatype Consensus = Approved | ApprovedWithSuggestions | RevisionRequired | Blocked | NoConsensus

  datatype Report = Report(reviews: seq<Review>, consensus: Consensus, dissent: seq<Review>, objections: seq<Review>)

  /** The reviews with one of the verdicts, in order. */
  function Select(reviews: seq<Review>, verdicts: set<Verdict>): seq<Review> {
    if reviews == [] then []
    else
      var last := reviews[|reviews| - 1];
      Select(reviews[..|reviews| - 1], verdicts) + (if last.verdict in verdicts then [last] else [])
  }

  predicate AllKnown(reviews: seq<Review>) {
    forall i | 0 <= i < |reviews| :: !reviews[i].verdict.Unknown?
  }

  predicate HasVerdict(reviews: seq<Review>, verdict: Verdict) {
    exists i | 0 <= i < |reviews| :: reviews[i].verdict == verdict
  }

  /** The most severe verdict decides. */
  function ConsensusOf(reviews: seq<Review>): Consensus {
    if HasVerdict(reviews, Block) then Blocked
    else if HasVerdict(reviews, RequestRevision) then RevisionRequired
    else if HasVerdict(reviews, ApproveWithSuggestions) then ApprovedWithSuggestions
    else Approved
  }

  function ReportOf(reviews: seq<Review>): Report {
    Report(reviews, ConsensusOf(reviews), Select(reviews, {RequestRevision, Block}), Select(reviews, {Block}))
  }

  method Aggregate(reviews: seq<Review>) returns (r: Result<Report>)
    ensures r.Ok? <==> reviews != [] && AllKnown(reviews)
    ensures r.Ok? ==> r.value == ReportOf(reviews)
  {
    if |reviews| == 0 {
      return Err("at least one model review is required");
    }
    var suggestions, revisions, blockers, dissent := [], [], [], [];
    for i := 0 to |reviews|
      invariant AllKnown(reviews[..i])
      invariant suggestions == Select(reviews[..i], {ApproveWithSuggestions})
      invariant revisions == Select(reviews[..i], {RequestRevision})
      invariant blockers == Select(reviews[..i], {Block})
      invariant dissent == Select(reviews[..i], {RequestRevision, Block})
    {
      assert reviews[..i + 1][..i] == reviews[..i];
      var review := reviews[i];
      match review.verdict {
        case Approve =>
        case ApproveWithSuggestions => suggestions := suggestions + [review];
        case RequestRevision =>
          revisions := revisions + [review];
          dissent := dissent + [review];
        case Block =>
          blockers := blockers + [review];
          dissent := dissent + [review];
        case Unknown(_) => return Err("unknown verdict");
      }
    }
    assert reviews[..|reviews|] == reviews;
    SelectEmpty(reviews, Block);
    SelectEmpty(reviews, RequestRevision);
    SelectEmpty(reviews, ApproveWithSuggestions);
    var consensus :=
      if |blockers| > 0 then Blocked
      else if |revisions| > 0 then RevisionRequired
      else if |suggestions| > 0 then ApprovedWithSuggestions
      else Approved;
    r := Ok(Report(reviews, consensus, dissent, blockers));
  }

  lemma {:induction false} SelectEmpty(reviews: seq<Review>, verdict: Verdict)
    ensures Select(reviews, {verdict}) == [] <==> !HasVerdict(reviews, verdict)
  {
    if reviews != [] {
      SelectEmpty(reviews[..|reviews| - 1], verdict);
    }
  }
}
