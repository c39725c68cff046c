/** internal/storyboard/generator.go: a storyboard from an approved script and its claims. */
module Storyboard {
  import opened Text
  import opened Json
  import opened Markdown
  import Claims

  datatype Mascot = Mascot(mode: string, emotion: string, action: string)

  datatype Visual = Visual(kind: string, content: string)

  datatype Scene = Scene(
    id: string, timeTarget: string, narration: string, mascot: Mascot, visual: Visual,
    onScreenText: string, captionPlan: string, claimIds: seq<string>, sourceIds: seq<string>)

  datatype File = File(episodeId: string, artifactId: string, scenes: seq<Scene>)

  datatype Decision = Approve | ApproveWithMinorEdits | RequestRevision | Block | OtherDecision(name: string)

  datatype Input = Input(
    episodeId: string, artifactId: string, script: string, decision: Decision, claims: seq<Claims.Claim>)

  /** Lower-casing, and the direction of a scene. */
  datatype Style = Style(lower: Lowering, mascot: (string, bool) -> Mascot, visual: string -> Visual)

  // ----- narration -----

  function NormalizeNarration(text: string): string {
    TrimSuffix(Trim(TrimSpace(text), IsMark), ".")
  }

  /** narrationSegments */
  function Segments(lower: Lowering, script: string): seq<string> {
    ScriptParts(lower, NormalizeNarration, script)
  }

  /** Storyboarding and claim extraction take the same sentences out of a script. */
  lemma SegmentsAreSentences(lower: Lowering, script: string)
    ensures Segments(lower, script) == Claims.ScriptSentences(lower, script)
  {
    forall s
      ensures NormalizeNarration(s) == Claims.NormalizeSentence(s)
    {
      SameNormalForm(s);
    }
    SameParts(NormalizeNarration, Claims.NormalizeSentence, Split(script, '\n'));
  }

  lemma SameNormalForm(text: string)
    ensures NormalizeNarration(text) == Claims.NormalizeSentence(text)
  {
    hide TrimRight, TrimLeft, IsSpace;
    assert TrimSuffix("", ".") == "";
  }

  // ----- timing -----

  function WordLength(s: string): (n: nat)
    ensures n <= |s|
    ensures s != "" && !IsSpace(s[0]) ==> n > 0
  {
    if s == "" || IsSpace(s[0]) then 0 else 1 + WordLength(s[1..])
  }

  /** strings.Fields */
  function Fields(s: string): seq<string>
    decreases |s|
  {
    var t := TrimLeft(s, IsSpace);
    if t == "" then [] else [t[..WordLength(t)]] + Fields(t[WordLength(t)..])
  }

  function EstimateDuration(text: string, first: bool): int {
    var estimate := 5 + |Fields(text)| / 3;
    var duration := if first && estimate < 8 then 8 else estimate;
    if duration < 6 then 6 else if duration > 18 then 18 else duration
  }

  function Clock(seconds: nat): string {
    Decimal(seconds / 60) + ":" + Padded(seconds % 60, 2)
  }

  function TimeTarget(start: nat, end: nat): string {
    Clock(start) + "-" + Clock(end)
  }

  /** When scene i begins. */
  function StartAt(texts: seq<string>, i: nat): (s: nat)
    requires i <= |texts|
  {
    if i == 0 then 0
    else
      DurationBounds(texts[i - 1], i == 1);
      StartAt(texts, i - 1) + EstimateDuration(texts[i - 1], i == 1)
  }

  lemma DurationBounds(text: string, first: bool)
    ensures 6 <= EstimateDuration(text, first) <= 18 && (first ==> EstimateDuration(text, first) >= 8)
  {}

  // ----- references -----

  function NormalizeReference(lower: Lowering, text: string): string {
    TrimSuffix(ToLower(lower, TrimSpace(text)), ".")
  }

  predicate Refers(lower: Lowering, text: string, claim: Claims.Claim) {
    claim.id != "" && claim.text != "" &&
    Contains(NormalizeReference(lower, text), NormalizeReference(lower, claim.text))
  }

  function ReferredIds(lower: Lowering, text: string, claims: seq<Claims.Claim>): seq<string> {
    if claims == [] then []
    else
      var last := claims[|claims| - 1];
      ReferredIds(lower, text, claims[..|claims| - 1]) + (if Refers(lower, text, last) then [last.id] else [])
  }

  function ReferredSources(lower: Lowering, text: string, claims: seq<Claims.Claim>): seq<string> {
    if claims == [] then []
    else
      var last := claims[|claims| - 1];
      ReferredSources(lower, text, claims[..|claims| - 1]) + (if Refers(lower, text, last) then last.sourceIds else [])
  }

  /** The last of the values kept so far, or "". */
  function Previous(kept: seq<string>): string {
    if kept == [] then "" else kept[|kept| - 1]
  }

  /** compact: the values trimmed, without blanks and without repetitions in a row. */
  function Compact(values: seq<string>): (kept: seq<string>)
    ensures |kept| <= |values|
  {
    if values == [] then []
    else
      var kept, v := Compact(values[..|values| - 1]), TrimSpace(values[|values| - 1]);
      if v == "" || v == Previous(kept) then kept else kept + [v]
  }

  /** compact writes the kept values over the front of the slice it reads. */
  method CompactInPlace(values: array<string>) returns (n: nat)
    modifies values
    ensures n <= values.Length && values[..n] == Compact(old(values[..]))
  {
    hide TrimSpace;
    n := 0;
    var previous := "";
    ghost var was := values[..];
    for i := 0 to values.Length
      invariant n <= i && values[..n] == Compact(was[..i]) && previous == Previous(values[..n])
      invariant values[i..] == was[i..]
    {
      assert values[i] == values[i..][0] == was[i];
      assert was[..i + 1][..i] == was[..i];
      assert forall k | i + 1 <= k < values.Length :: values[k] == values[i..][k - i] == was[k];
      var value := TrimSpace(values[i]);
      if value == "" || value == previous {
        continue;
      }
      values[n] := value;
      n := n + 1;
      previous := value;
    }
    assert was[..values.Length] == was;
  }

  lemma {:induction false} CompactMembers(values: seq<string>, x: string)
    ensures x in Compact(values) <==> x != "" && exists i | 0 <= i < |values| :: TrimSpace(values[i]) == x
  {
    hide TrimSpace;
    if values != [] {
      var front := values[..|values| - 1];
      CompactMembers(front, x);
      assert forall i | 0 <= i < |front| :: front[i] == values[i];
    }
  }

  /** Sorted values that need no trimming come out strictly sorted: every one once. */
  lemma {:induction false} CompactSorted(values: seq<string>)
    requires Sorted(values) && forall i | 0 <= i < |values| :: TrimSpace(values[i]) == values[i]
    ensures Sorted(Compact(values)) && forall i, j | 0 <= i < j < |Compact(values)| ::
      Compact(values)[i] != Compact(values)[j]
    ensures Previous(Compact(values)) != "" ==>
      Compact(values) != [] && StrLe(Previous(Compact(values)), values[|values| - 1])
  {
    hide TrimSpace, StrLe;
    if values != [] {
      var front, last := values[..|values| - 1], values[|values| - 1];
      CompactSorted(front);
      var kept := Compact(front);
      StrLeTotal(last, last);
      forall i | 0 <= i < |kept|
        ensures StrLe(kept[i], last) && (last != Previous(kept) ==> kept[i] != last)
      {
        SortedKept(front, last, kept, i);
      }
    }
  }

  lemma SortedKept(front: seq<string>, last: string, kept: seq<string>, i: nat)
    requires kept == Compact(front) && i < |kept| && Sorted(kept)
    requires Previous(kept) != "" ==> front != [] && StrLe(Previous(kept), front[|front| - 1])
    requires front != [] ==> StrLe(front[|front| - 1], last)
    ensures StrLe(kept[i], last) && (last != Previous(kept) ==> kept[i] != last)
  {
    hide StrLe, TrimSpace;
    var p := Previous(kept);
    KeptNotEmpty(front, kept);
    StrLeTotal(p, p);
    StrLeTransitive(p, front[|front| - 1], last);
    assert StrLe(kept[i], p);
    StrLeTransitive(kept[i], p, last);
    if kept[i] == last {
      StrLeAntisymmetric(kept[i], p);
    }
  }

  lemma {:induction false} KeptNotEmpty(values: seq<string>, kept: seq<string>)
    requires kept == Compact(values) && kept != []
    ensures Previous(kept) != ""
  {
    hide TrimSpace;
    CompactMembers(values, Previous(kept));
  }

  method ReferencesFor(lower: Lowering, text: string, claims: seq<Claims.Claim>)
    returns (claimIds: seq<string>, sourceIds: seq<string>)
    ensures claimIds == Compact(Sort(ReferredIds(lower, text, claims)))
    ensures sourceIds == Compact(Sort(ReferredSources(lower, text, claims)))
  {
    hide Refers, Compact, Sort;
    claimIds, sourceIds := [], [];
    for i := 0 to |claims|
      invariant claimIds == ReferredIds(lower, text, claims[..i])
      invariant sourceIds == ReferredSources(lower, text, claims[..i])
    {
      assert claims[..i + 1][..i] == claims[..i];
      if !Refers(lower, text, claims[i]) {
        continue;
      }
      claimIds := claimIds + [claims[i].id];
      sourceIds := sourceIds + claims[i].sourceIds;
    }
    assert claims[..|claims|] == claims;
    claimIds := SortAndCompact(claimIds);
    sourceIds := SortAndCompact(sourceIds);
  }

  method SortAndCompact(values: seq<string>) returns (kept: seq<string>)
    ensures kept == Compact(Sort(values))
  {
    hide Compact, Sort;
    var sorted := Sort(values);
    var slice := new string[|sorted|](i requires 0 <= i < |sorted| => sorted[i]);
    assert slice[..] == sorted;
    var n := CompactInPlace(slice);
    kept := slice[..n];
  }

  lemma {:induction false} ReferredIdsMembers(lower: Lowering, text: string, claims: seq<Claims.Claim>, x: string)
    ensures x in ReferredIds(lower, text, claims) <==>
      exists i | 0 <= i < |claims| :: claims[i].id == x && Refers(lower, text, claims[i])
  {
    hide Refers;
    if claims != [] {
      ReferredIdsMembers(lower, text, claims[..|claims| - 1], x);
    }
  }

  /** A scene lists an id exactly when it is the id, trimmed, of a claim that occurs in its
      narration. */
  lemma ReferencesMean(lower: Lowering, text: string, claims: seq<Claims.Claim>, id: string)
    ensures id in Compact(Sort(ReferredIds(lower, text, claims))) <==>
      id != "" && exists i | 0 <= i < |claims| :: TrimSpace(claims[i].id) == id && Refers(lower, text, claims[i])
  {
    hide TrimSpace, Compact, Sort, Refers, ReferredIds;
    var ids := ReferredIds(lower, text, claims);
    CompactMembers(Sort(ids), id);
    if k :| 0 <= k < |Sort(ids)| && TrimSpace(Sort(ids)[k]) == id {
      SortMembers(ids, Sort(ids)[k]);
      ReferredIdsMembers(lower, text, claims, Sort(ids)[k]);
    }
    if i :| 0 <= i < |claims| && TrimSpace(claims[i].id) == id && Refers(lower, text, claims[i]) {
      ReferredIdsMembers(lower, text, claims, claims[i].id);
      SortMembers(ids, claims[i].id);
    }
  }

  // ----- direction -----

  function MascotPlan(lower: string, first: bool): Mascot {
    if first || Contains(lower, "git push") then Mascot("Production Mode", "curious", "opens terminal")
    else if ContainsAny(lower, ["rollback", "incident", "production"]) then
      Mascot("Reliability Guide", "focused", "points at state transition")
    else Mascot("Explainer", "focused", "points at pipeline diagram")
  }

  datatype Topic = Terminal | Checks | Artifact | Deployment | Rollback | Other

  function TopicOf(lower: string): Topic {
    if ContainsAny(lower, ["git push", "commit", "repository"]) then Terminal
    else if ContainsAny(lower, ["ci", "automation", "check"]) then Checks
    else if ContainsAny(lower, ["artifact", "container", "image", "build"]) then Artifact
    else if ContainsAny(lower, ["deploy", "deployment", "production"]) then Deployment
    else if ContainsAny(lower, ["rollback"]) then Rollback
    else Other
  }

  function VisualPlan(topic: Topic, text: string): Visual {
    match topic
    case Terminal => Visual("terminal_animation", "git push origin main")
    case Checks => Visual("pipeline_diagram", "repository event -> CI checks")
    case Artifact => Visual("artifact_flow", "build -> artifact -> deployable package")
    case Deployment => Visual("deployment_diagram", "artifact -> deployment strategy" + " -> production")
    case Rollback => Visual("state_transition", "bad release -> rollback -> stable state")
    case Other => Visual("explainer_card", text)
  }

  /** The keyword heuristics. */
  function KeywordStyle(lower: Lowering): Style {
    Style(lower, (text, first) => MascotPlan(ToLower(lower, text), first),
      text => VisualPlan(TopicOf(ToLower(lower, text)), text))
  }

  function JoinWords(words: seq<string>): string {
    if words == [] then "" else if |words| == 1 then words[0] else words[0] + " " + JoinWords(words[1..])
  }

  function OnScreenText(text: string): string {
    var words := Fields(text);
    Trim(JoinWords(if |words| > 7 then words[..7] else words), c => c == ',' || c == ':' || c == ';')
  }

  // ----- the storyboard -----

  function SceneId(n: nat): string {
    "scene-" + Padded(n, 3)
  }

  function SceneAt(style: Style, texts: seq<string>, i: nat, claims: seq<Claims.Claim>): Scene
    requires i < |texts|
  {
    Scene(SceneId(i + 1), TimeTarget(StartAt(texts, i), StartAt(texts, i + 1)), texts[i],
          style.mascot(texts[i], i == 0), style.visual(texts[i]), OnScreenText(texts[i]), "captions_from_narration",
          Compact(Sort(ReferredIds(style.lower, texts[i], claims))),
          Compact(Sort(ReferredSources(style.lower, texts[i], claims))))
  }

  function Scenes(style: Style, texts: seq<string>, claims: seq<Claims.Claim>): (scenes: seq<Scene>)
    ensures |scenes| == |texts|
  {
    seq(|texts|, i requires 0 <= i < |texts| => SceneAt(style, texts, i, claims))
  }

  predicate Covered(scenes: seq<Scene>, id: string) {
    exists i | 0 <= i < |scenes| :: id in scenes[i].claimIds
  }

  /** A technical claim that no scene represents. */
  predicate Lacking(scenes: seq<Scene>, claim: Claims.Claim) {
    claim.id != "" && claim.kind == Claims.Technical && !Covered(scenes, claim.id)
  }

  /** The technical claims that no scene represents. */
  function Uncovered(claims: seq<Claims.Claim>, scenes: seq<Scene>): seq<string> {
    if claims == [] then []
    else
      var last := claims[|claims| - 1];
      Uncovered(claims[..|claims| - 1], scenes)
      + (if Lacking(scenes, last) then [last.id] else [])
  }

  predicate AllowsStoryboarding(decision: Decision) {
    decision == Approve || decision == ApproveWithMinorEdits
  }

  function ArtifactId(input: Input): string {
    if Present(input.artifactId) then TrimSpace(input.artifactId) else "storyboard-" + input.episodeId + "-generated-v1"
  }

  function ScenesOf(style: Style, input: Input): seq<Scene> {
    Scenes(style, Segments(style.lower, input.script), input.claims)
  }

  /** The inputs a storyboard is made from. */
  predicate Storyboardable(style: Style, input: Input) {
    && Present(input.episodeId) && Present(input.script) && AllowsStoryboarding(input.decision)
    && ScenesOf(style, input) != [] && Uncovered(input.claims, ScenesOf(style, input)) == []
  }

  method Generate(style: Style, input: Input) returns (r: Result<File>)
    ensures r.Ok? <==> Storyboardable(style, input)
    ensures r.Ok? ==> r.value == File(input.episodeId, ArtifactId(input), ScenesOf(style, input))
  {
    hide Segments, TrimSpace, Scenes, Uncovered;
    if !Present(input.episodeId) { return Err("episode id is required"); }
    if !Present(input.script) { return Err("script markdown is required"); }
    if !AllowsStoryboarding(input.decision) { return Err("human QA approval is required before storyboarding"); }
    var narration := NarrationSegments(style.lower, input.script);
    if |narration| == 0 {
      return Err("script contains no storyboardable narration");
    }
    var scenes := GenerateScenes(style, narration, input.claims);
    var missing := TechnicalClaimsMissing(input.claims, scenes);
    if |missing| > 0 {
      return Err("technical claims are not represented in storyboard scenes");
    }
    r := Ok(File(input.episodeId, ArtifactId(input), scenes));
  }

  method NarrationSegments(lower: Lowering, script: string) returns (segments: seq<string>)
    ensures segments == Segments(lower, script)
  {
    segments := SplitScript(lower, NormalizeNarration, script);
  }

  method GenerateScenes(style: Style, narration: seq<string>, claims: seq<Claims.Claim>) returns (scenes: seq<Scene>)
    ensures scenes == Scenes(style, narration, claims)
  {
    hide EstimateDuration, TimeTarget, OnScreenText, Compact, Sort, ReferredIds, ReferredSources, SceneId;
    scenes := [];
    var startSecond: nat := 0;
    for i := 0 to |narration|
      invariant startSecond == StartAt(narration, i)
      invariant |scenes| == i && forall j | 0 <= j < i :: scenes[j] == SceneAt(style, narration, j, claims)
    {
      var text := narration[i];
      DurationBounds(text, i == 0);
      var duration: nat := EstimateDuration(text, i == 0);
      var claimIds, sourceIds := ReferencesFor(style.lower, text, claims);
      scenes := scenes + [Scene(
        SceneId(i + 1), TimeTarget(startSecond, startSecond + duration), text, style.mascot(text, i == 0),
        style.visual(text), OnScreenText(text), "captions_from_narration", claimIds, sourceIds)];
      startSecond := startSecond + duration;
    }
  }

  /** ensureTechnicalClaimsCovered */
  method TechnicalClaimsMissing(claims: seq<Claims.Claim>, scenes: seq<Scene>) returns (missing: seq<string>)
    ensures missing == Sort(Uncovered(claims, scenes))
    ensures missing == [] <==> Uncovered(claims, scenes) == []
  {
    var covered: set<string> := {};
    for i := 0 to |scenes|
      invariant forall id :: id in covered <==> Covered(scenes[..i], id)
    {
      CoveredStep(scenes, i);
      covered := covered + set id | id in scenes[i].claimIds;
    }
    assert scenes[..|scenes|] == scenes;
    missing := [];
    for i := 0 to |claims|
      invariant missing == Uncovered(claims[..i], scenes)
    {
      assert claims[..i + 1][..i] == claims[..i];
      if claims[i].id == "" || claims[i].kind != Claims.Technical {
        continue;
      }
      if claims[i].id !in covered {
        missing := missing + [claims[i].id];
      }
    }
    assert claims[..|claims|] == claims;
    assert |multiset(Sort(missing))| == |multiset(missing)|;
    missing := Sort(missing);
  }

  lemma CoveredStep(scenes: seq<Scene>, i: nat)
    requires i < |scenes|
    ensures forall id :: Covered(scenes[..i + 1], id) <==> Covered(scenes[..i], id) || id in scenes[i].claimIds
  {
    forall id
      ensures Covered(scenes[..i + 1], id) <==> Covered(scenes[..i], id) || id in scenes[i].claimIds
    {
      if Covered(scenes[..i], id) {
        var j :| 0 <= j < i && id in scenes[..i][j].claimIds;
        assert scenes[..i + 1][j] == scenes[..i][j];
      }
      if id in scenes[i].claimIds {
        assert scenes[..i + 1][i] == scenes[i];
      }
    }
  }

  // ----- every claim finds its scene -----

  lemma {:induction false} NoneUncovered(claims: seq<Claims.Claim>, scenes: seq<Scene>)
    ensures Uncovered(claims, scenes) == [] <==>
      forall i | 0 <= i < |claims| :: !Lacking(scenes, claims[i])
  {
    hide Lacking;
    if claims != [] {
      NoneUncovered(claims[..|claims| - 1], scenes);
    }
  }

  lemma OwnReference(lower: Lowering, sentence: string, claim: Claims.Claim)
    requires claim.id != "" && claim.text == TrimSpace(sentence) != ""
    ensures Refers(lower, sentence, claim)
  {
    hide TrimSpace, Contains;
    assert TrimSpace(TrimSpace(sentence)) == TrimSpace(sentence) by {
      TrimsTwice(sentence);
    }
    ContainsSelf(NormalizeReference(lower, sentence));
  }

  lemma TrimsTwice(s: string)
    ensures TrimSpace(TrimSpace(s)) == TrimSpace(s)
  {
    TrimIdempotent(s, IsSpace);
  }

  lemma ClaimIdTrimmed(n: nat)
    ensures TrimSpace(Claims.ClaimId(n)) == Claims.ClaimId(n) != ""
  {
    var id := Claims.ClaimId(n);
    assert id[|id| - 1] == Padded(n, 3)[|Padded(n, 3)| - 1];
    TrimFixed(id, IsSpace);
  }

  /** Every claim extracted from a script is listed by the scene that speaks the sentence
      the claim was made from. */
  lemma ClaimHasScene(style: Style, lex: Claims.Lexicon, input: Claims.Input, i: nat) returns (k: nat)
    requires style.lower == lex.lower && Claims.NeedsText(lex)
    requires i < |Claims.Extracted(lex, input)|
    ensures var claims, texts := Claims.Extracted(lex, input), Segments(style.lower, input.script);
      && k < |texts| && TrimSpace(texts[k]) == claims[i].text
      && claims[i].id in SceneAt(style, texts, k, claims).claimIds
  {
    hide *;
    var claims, texts := Claims.Extracted(lex, input), Segments(style.lower, input.script);
    SegmentsAreSentences(style.lower, input.script);
    var s := ExtractedFrom(lex, input, i);
    k :| 0 <= k < |texts| && texts[k] == s;
    ListsOwnClaim(style.lower, claims, s, i);
    ClaimIdsAt(style, texts, k, claims);
  }

  lemma ClaimIdsAt(style: Style, texts: seq<string>, k: nat, claims: seq<Claims.Claim>)
    requires k < |texts|
    ensures SceneAt(style, texts, k, claims).claimIds == Compact(Sort(ReferredIds(style.lower, texts[k], claims)))
  {}

  lemma ExtractedFrom(lex: Claims.Lexicon, input: Claims.Input, i: nat) returns (s: string)
    requires Claims.NeedsText(lex) && i < |Claims.Extracted(lex, input)|
    ensures s in Claims.ScriptSentences(lex.lower, input.script)
    ensures Claims.Extracted(lex, input)[i].text == TrimSpace(s) != ""
    ensures forall j | 0 <= j < |Claims.Extracted(lex, input)| ::
      Claims.Extracted(lex, input)[j].id == Claims.ClaimId(j + 1)
  {
    hide Claims.ScriptSentences, Claims.ClaimsOf, TrimSpace, Claims.ClaimId, Claims.LowerText;
    var sentences := Claims.ScriptSentences(lex.lower, input.script);
    s := Claims.ClaimsFromSentences(lex, sentences, input.sources, i);
    forall j | 0 <= j < |Claims.Extracted(lex, input)|
      ensures Claims.Extracted(lex, input)[j].id == Claims.ClaimId(j + 1)
    {
      var t := Claims.ClaimsFromSentences(lex, sentences, input.sources, j);
    }
  }

  lemma ListsOwnClaim(lower: Lowering, claims: seq<Claims.Claim>, sentence: string, i: nat)
    requires forall j | 0 <= j < |claims| :: claims[j].id == Claims.ClaimId(j + 1)
    requires i < |claims| && claims[i].text == TrimSpace(sentence) != ""
    ensures claims[i].id in Compact(Sort(ReferredIds(lower, sentence, claims)))
  {
    hide TrimSpace, Claims.ClaimId, Refers, Compact, Sort, ReferredIds;
    ClaimIdTrimmed(i + 1);
    OwnReference(lower, sentence, claims[i]);
    ReferencesMean(lower, sentence, claims, claims[i].id);
  }

  /** Whenever claim extraction succeeds on a script, so does storyboarding the script with
      the extracted claims and an approving decision: the coverage check never fails, and
      every extracted claim, of whatever kind, is in some scene. */
  lemma ExtractedClaimsAreStoryboarded(
    style: Style, lex: Claims.Lexicon, input: Claims.Input, decision: Decision, artifactId: string)
    requires style.lower == lex.lower && Claims.NeedsText(lex)
    requires Claims.Complete(input) && Claims.Extracted(lex, input) != []
    requires AllowsStoryboarding(decision)
    ensures var claims := Claims.Extracted(lex, input);
      var file := Input(input.episodeId, artifactId, input.script, decision, claims);
      && Storyboardable(style, file)
      && forall i | 0 <= i < |claims| :: Covered(ScenesOf(style, file), claims[i].id)
  {
    hide Claims.Extracted, Segments, SceneAt, TrimSpace, Uncovered;
    var claims, texts := Claims.Extracted(lex, input), Segments(style.lower, input.script);
    var scenes := Scenes(style, texts, claims);
    forall i | 0 <= i < |claims|
      ensures Covered(scenes, claims[i].id)
    {
      var k := ClaimHasScene(style, lex, input, i);
      assert scenes[k] == SceneAt(style, texts, k, claims);
    }
    var k := ClaimHasScene(style, lex, input, 0);
    NoneUncovered(claims, scenes);
  }

  /** The same with the keyword heuristics of both packages. */
  lemma KeywordClaimsAreStoryboarded(
    lower: Lowering, infer: (string, seq<Claims.Source>) -> seq<string>, input: Claims.Input, decision: Decision,
    artifactId: string)
    requires Claims.Complete(input) && Claims.Extracted(Claims.Keywords(lower, infer), input) != []
    ensures Storyboardable(KeywordStyle(lower),
        Input(input.episodeId, artifactId, input.script, decision,
          Claims.Extracted(Claims.Keywords(lower, infer), input)))
      <==> AllowsStoryboarding(decision)
  {
    hide Claims.Extracted, ScenesOf, Uncovered, TrimSpace;
    Claims.KeywordsNeedText(lower, infer);
    if AllowsStoryboarding(decision) {
      ExtractedClaimsAreStoryboarded(KeywordStyle(lower), Claims.Keywords(lower, infer), input, decision, artifactId);
    }
  }
}
