/** internal/claims/extractor.go: claims from a script. */
module Claims {
  import opened Text
  import opened Json
  import opened Markdown

  datatype Source = Source(id: string, title: string, uri: string)

  datatype Kind = Technical | Historical | Product | Safety | EditorialOpinion | CTACommunity | OtherKind(name: string)

  datatype Risk = Low | Medium | High | Critical | OtherRisk(name: string)

  datatype Status =
    | Supported | PartiallySupported | Unsupported | Contradicted | NeedsHumanReview | Removed
    | OtherStatus(name: string)

  datatype Claim = Claim(
    id: string, text: string, kind: Kind, risk: Risk, sourceIds: seq<string>, evidence: seq<string>, status: Status)

  /** Lower-casing, the classification of a lower-case text, and the sources it names. */
  datatype Lexicon = Lexicon(
    lower: Lowering,
    kind: string -> Kind,
    risk: string -> Risk,
    included: string -> bool,
    infer: (string, seq<Source>) -> seq<string>)

  datatype Input = Input(episodeId: string, artifactId: string, script: string, sources: seq<Source>)

  // ----- sentences -----

  function NormalizeSentence(text: string): string {
    var t := Trim(TrimSpace(text), IsMark);
    if t == "" then "" else TrimSuffix(t, ".")
  }

  /** extractSentences */
  function ScriptSentences(lower: Lowering, script: string): seq<string> {
    ScriptParts(lower, NormalizeSentence, script)
  }

  // ----- classification -----

  function ClassifyKind(lower: string): Kind {
    if ContainsAny(lower, ["if you want", "follow ", "join ", "cta", "subscribe", "comment"]) then CTACommunity
    else if ContainsAny(lower, ["i think", "we believe", "probably", "maybe", "should feel", "is better"]) then
      EditorialOpinion
    else if ContainsAny(lower, SAFETY_CUES) then Safety
    else if ContainsAny(lower, ["github", "docker", "kubernetes", "platform"]) then Product
    else if ContainsAny(lower, ["history", "historical", "first released", "created in"]) then Historical
    else Technical
  }

  const SAFETY_CUES := ["credential", "secret", "private data", "unsafe", "policy", "security"]

  function ClassifyRisk(lower: string): Risk {
    var kind := ClassifyKind(lower);
    if ContainsAny(lower, ["credential", "secret", "private data", "malware", "exploit"]) then Critical
    else if kind == Safety || ContainsAny(lower, ["security", "incident", "data exposure"]) then High
    else if kind == CTACommunity || kind == EditorialOpinion then Low
    else Medium
  }

  predicate IsViewerHook(lower: string) {
    HasPrefix(lower, "you ") || HasPrefix(lower, "your ") || Contains(lower, "your code")
  }

  const FACTUAL_CUES := [
    " is ", " are ", " has ", " have ", " uses ", " requires ", " sends ", " triggers ",
    " validates ", " produce ", " produces ", " may be ", " exists ", " tells ", " moves ",
    " can ", " leak ", " running ", " deployment", " repository", " commit", " ci", " artifact",
    " rollback", " observability", " production"]

  /** Whether a sentence becomes a claim. */
  predicate Included(lower: string) {
    var kind := ClassifyKind(lower);
    && !IsViewerHook(lower)
    && kind != CTACommunity
    && (kind == EditorialOpinion ==> ContainsAny(lower, ["is ", "are ", "has ", "have ", "uses ", "requires "]))
    && (ContainsAny(lower, FACTUAL_CUES) || kind == Safety)
  }

  /** The keyword heuristics. */
  function Keywords(lower: Lowering, infer: (string, seq<Source>) -> seq<string>): Lexicon {
    Lexicon(lower, ClassifyKind, ClassifyRisk, Included, infer)
  }

  // ----- claims -----

  function LowerText(lex: Lexicon, sentence: string): string {
    ToLower(lex.lower, TrimSpace(sentence))
  }

  function ClaimId(n: nat): string {
    "claim-" + Padded(n, 3)
  }

  function NewClaim(lex: Lexicon, sentence: string, sources: seq<Source>, n: nat): Claim {
    var lower := LowerText(lex, sentence);
    Claim(ClaimId(n), TrimSpace(sentence), lex.kind(lower), lex.risk(lower), lex.infer(lower, sources), [],
      NeedsHumanReview)
  }

  function ClaimsOf(lex: Lexicon, sentences: seq<string>, sources: seq<Source>): seq<Claim> {
    if sentences == [] then []
    else
      var front, last := ClaimsOf(lex, sentences[..|sentences| - 1], sources), sentences[|sentences| - 1];
      front + (if lex.included(LowerText(lex, last)) then [NewClaim(lex, last, sources, |front| + 1)] else [])
  }

  predicate Complete(input: Input) {
    Present(input.episodeId) && Present(input.artifactId) && Present(input.script) && input.sources != []
  }

  function Extracted(lex: Lexicon, input: Input): seq<Claim> {
    ClaimsOf(lex, ScriptSentences(lex.lower, input.script), input.sources)
  }

  method Extract(lex: Lexicon, input: Input) returns (r: Result<seq<Claim>>)
    ensures r.Ok? <==> Complete(input) && Extracted(lex, input) != []
    ensures r.Ok? ==> r.value == Extracted(lex, input)
  {
    if !Present(input.episodeId) { return Err("episode id is required"); }
    if !Present(input.artifactId) { return Err("artifact id is required"); }
    if !Present(input.script) { return Err("script markdown is required"); }
    if |input.sources| == 0 { return Err("research pack must include sources"); }
    var sentences := SplitScript(lex.lower, NormalizeSentence, input.script);
    var claims := ClassifyAll(lex, sentences, input.sources);
    if |claims| == 0 {
      return Err("no factual claims extracted");
    }
    r := Ok(claims);
  }

  method ClassifyAll(lex: Lexicon, sentences: seq<string>, sources: seq<Source>) returns (claims: seq<Claim>)
    ensures claims == ClaimsOf(lex, sentences, sources)
  {
    claims := [];
    for i := 0 to |sentences|
      invariant claims == ClaimsOf(lex, sentences[..i], sources)
    {
      assert sentences[..i + 1][..i] == sentences[..i];
      if !lex.included(LowerText(lex, sentences[i])) {
        continue;
      }
      claims := claims + [NewClaim(lex, sentences[i], sources, |claims| + 1)];
    }
    assert sentences[..|sentences|] == sentences;
  }

  // ----- what extraction guarantees -----

  lemma NoCueInNothing(needles: seq<string>)
    requires forall i | 0 <= i < |needles| :: needles[i] != ""
    ensures !ContainsAny("", needles)
  {}

  /** A heuristic that takes no empty text for a claim. */
  ghost predicate NeedsText(lex: Lexicon) {
    !lex.included("")
  }

  lemma KeywordsNeedText(lower: Lowering, infer: (string, seq<Source>) -> seq<string>)
    ensures NeedsText(Keywords(lower, infer))
  {
    NoCueInNothing(FACTUAL_CUES);
    NoCueInNothing(SAFETY_CUES);
  }

  /** Claim number i is made from a sentence: it keeps its text, which is not blank, and is
      neither marked as supported nor given evidence. */
  ghost predicate MadeFrom(lex: Lexicon, claim: Claim, i: nat, sentence: string) {
    && claim.id == ClaimId(i + 1) && claim.text == TrimSpace(sentence) != ""
    && claim.status == NeedsHumanReview && claim.evidence == []
    && lex.included(LowerText(lex, sentence))
  }

  lemma NewClaimMade(lex: Lexicon, sentence: string, sources: seq<Source>, n: nat)
    requires NeedsText(lex) && lex.included(LowerText(lex, sentence))
    ensures MadeFrom(lex, NewClaim(lex, sentence, sources, n + 1), n, sentence)
  {
    assert TrimSpace(sentence) == "" ==> LowerText(lex, sentence) == "";
  }

  lemma ClaimsStep(lex: Lexicon, sentences: seq<string>, sources: seq<Source>)
    requires sentences != []
    ensures var front, last := ClaimsOf(lex, sentences[..|sentences| - 1], sources), sentences[|sentences| - 1];
      ClaimsOf(lex, sentences, sources) ==
      front + (if lex.included(LowerText(lex, last)) then [NewClaim(lex, last, sources, |front| + 1)] else [])
  {}

  /** Every claim is made from a sentence of the script, and claims are numbered in order. */
  lemma {:induction false} ClaimsFromSentences(lex: Lexicon, sentences: seq<string>, sources: seq<Source>, i: nat)
    returns (s: string)
    requires NeedsText(lex) && i < |ClaimsOf(lex, sentences, sources)|
    ensures s in sentences && MadeFrom(lex, ClaimsOf(lex, sentences, sources)[i], i, s)
    decreases |sentences|
  {
    hide NewClaim, LowerText, MadeFrom;
    var front := sentences[..|sentences| - 1];
    ClaimsStep(lex, sentences, sources);
    if i < |ClaimsOf(lex, front, sources)| {
      s := ClaimsFromSentences(lex, front, sources, i);
    } else {
      s := sentences[|sentences| - 1];
      NewClaimMade(lex, s, sources, i);
    }
  }
}
