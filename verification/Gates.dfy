/** internal/shortform/gates: the quality and release gates. */
module Gates {
  import opened Text
  import opened Json
  import opened ShortForm

  datatype Gate =
    | Provenance | SelfApproval | StoryboardImage | VisualShot | SubtitleCheck | RenderCheck | MultiVerifier
    | ReleaseCheck

  /** Why a gate blocks. */
  datatype Code =
    | ResearchPackMissing | ClaimWithoutSource
    | ApproverMissing | OwnApproval | NonHumanApproval
    | SourceNotManual | OperatorMissing | SceneImageMissing | ImagePathMissing | ImageHashMissing | ImageNotApproved
    | VisualReviewFailed
    | ProviderMissing | PromptMissing | NegativePromptMissing | OutputMissing | DurationOutOfTolerance
    | ReferenceNotApproved | SceneMappingInvalid | ShotNotApproved
    | TranscriptMissing | CaptionsMissing | WordTimestampsMissing | SafeZoneFailed | SyncFailed | CaptionsNotApproved
    | OutputsMissing | OutputHashMissing | ResolutionInvalid | AspectInvalid | FpsInvalid | AudioTrackMissing
    | SubtitlesNotReadable | QaNotApproved
    | InsufficientVerifiers
    | HumanReleaseMissing | PlatformsNotExplicit | VisibilityNotSet | ScheduledAtMissing | DisclosureTextMissing
    | DisclosureNotPresent | DryRunFailed

  datatype Outcome = Outcome(gate: Gate, reasons: seq<Code>) {
    predicate Blocked() {
      reasons != []
    }
  }

  /** The reasons after one more requirement. */
  function Note(before: seq<Code>, ok: bool, code: Code): (r: seq<Code>)
    ensures r == [] <==> before == [] && ok
  {
    if ok then before else before + [code]
  }

  /** The reasons after the requirements on every element of a list, in order. */
  function Over<T>(requirements: (seq<Code>, T) -> seq<Code>, before: seq<Code>, items: seq<T>): seq<Code> {
    if items == [] then before
    else requirements(Over(requirements, before, items[..|items| - 1]), items[|items| - 1])
  }

  lemma {:induction false} OverEmpty<T(!new)>(
    requirements: (seq<Code>, T) -> seq<Code>, ok: T -> bool, before: seq<Code>, items: seq<T>)
    requires forall b, x :: requirements(b, x) == [] <==> b == [] && ok(x)
    ensures Over(requirements, before, items) == [] <==> before == [] && forall i | 0 <= i < |items| :: ok(items[i])
  {
    if items != [] {
      OverEmpty(requirements, ok, before, items[..|items| - 1]);
    }
  }

  /** Accumulates the reasons of one gate. */
  class Evaluator {
    const gate: Gate
    var reasons: seq<Code>

    constructor (gate: Gate)
      ensures this.gate == gate && reasons == []
    {
      this.gate := gate;
      reasons := [];
    }

    method Require(ok: bool, code: Code)
      modifies this
      ensures reasons == Note(old(reasons), ok, code)
    {
      if !ok {
        reasons := reasons + [code];
      }
    }

    method Result() returns (r: Outcome)
      ensures r == Outcome(gate, reasons)
    {
      r := Outcome(gate, reasons);
    }
  }

  predicate IsSha256(s: string) {
    HasPrefix(s, "sha256:") && |s| == 71
  }

  predicate IsHuman(identity: string) {
    HasPrefix(identity, "human:")
  }

  predicate IsMachine(identity: string) {
    identity == "system" || HasPrefix(identity, "model:") || HasPrefix(identity, "system:")
  }

  // ----- provenance -----

  datatype ClaimRef = ClaimRef(id: string, sourceIds: seq<string>)

  function ClaimNotes(before: seq<Code>, claim: ClaimRef): seq<Code> {
    Note(before, claim.sourceIds != [], ClaimWithoutSource)
  }

  function ProvenanceReasons(scriptApproved: bool, researchPackRef: string, claims: seq<ClaimRef>): seq<Code> {
    Over(ClaimNotes, if scriptApproved then Note([], Present(researchPackRef), ResearchPackMissing) else [], claims)
  }

  method ProvenanceGate(scriptApproved: bool, researchPackRef: string, claims: seq<ClaimRef>) returns (r: Outcome)
    ensures r == Outcome(Provenance, ProvenanceReasons(scriptApproved, researchPackRef, claims))
  {
    hide Present, Note;
    var e := new Evaluator(Provenance);
    if scriptApproved {
      e.Require(Present(researchPackRef), ResearchPackMissing);
    }
    ghost var before := e.reasons;
    for i := 0 to |claims|
      invariant e.reasons == Over(ClaimNotes, before, claims[..i])
    {
      assert claims[..i + 1][..i] == claims[..i];
      e.Require(claims[i].sourceIds != [], ClaimWithoutSource);
    }
    assert claims[..|claims|] == claims;
    r := e.Result();
  }

  /** An approved script needs a research pack, and every claim a source. */
  lemma ProvenancePasses(scriptApproved: bool, researchPackRef: string, claims: seq<ClaimRef>)
    ensures ProvenanceReasons(scriptApproved, researchPackRef, claims) == [] <==>
      && (scriptApproved ==> Present(researchPackRef))
      && forall i | 0 <= i < |claims| :: claims[i].sourceIds != []
  {
    hide Present;
    OverEmpty(ClaimNotes, (c: ClaimRef) => c.sourceIds != [],
              if scriptApproved then Note([], Present(researchPackRef), ResearchPackMissing) else [], claims);
  }

  // ----- self approval -----

  function SelfApprovalReasons(createdBy: string, approver: string, target: Status, requireHuman: bool): seq<Code> {
    if target != Approved then []
    else
      var r := Note(Note([], Present(approver), ApproverMissing), approver != createdBy, OwnApproval);
      if requireHuman || IsMachine(createdBy) then Note(r, IsHuman(approver), NonHumanApproval) else r
  }

  method SelfApprovalGate(createdBy: string, approver: string, target: Status, requireHuman: bool) returns (r: Outcome)
    ensures r == Outcome(SelfApproval, SelfApprovalReasons(createdBy, approver, target, requireHuman))
  {
    hide Present, IsMachine, IsHuman, Note;
    var e := new Evaluator(SelfApproval);
    if target == Approved {
      e.Require(Present(approver), ApproverMissing);
      e.Require(approver != createdBy, OwnApproval);
      if requireHuman || IsMachine(createdBy) {
        e.Require(IsHuman(approver), NonHumanApproval);
      }
    }
    r := e.Result();
  }

  lemma HumanPresent(identity: string)
    requires IsHuman(identity)
    ensures Present(identity) && !IsMachine(identity)
  {
    assert identity[0] == 'h';
    PresentWord(identity);
  }

  /** What a machine made, a human approves, and no one else. */
  lemma SelfApprovalPasses(createdBy: string, approver: string)
    requires IsMachine(createdBy)
    ensures SelfApprovalReasons(createdBy, approver, Approved, false) == [] <==> IsHuman(approver)
  {
    hide Present, IsMachine;
    if IsHuman(approver) {
      HumanPresent(approver);
    }
  }

  // ----- storyboard images -----

  /** byScene: of images of one scene the last. */
  function ByScene(images: seq<Image>): map<string, Image> {
    if images == [] then map[]
    else ByScene(images[..|images| - 1])[images[|images| - 1].sceneId := images[|images| - 1]]
  }

  function ImageNotes(byScene: map<string, Image>, before: seq<Code>, scene: string): seq<Code> {
    if scene !in byScene then Note(before, false, SceneImageMissing)
    else
      var image := byScene[scene];
      var r := Note(Note(before, Present(image.path), ImagePathMissing), IsSha256(image.hash), ImageHashMissing);
      Note(Note(r, image.status == Approved, ImageNotApproved), image.reviewPassed, VisualReviewFailed)
  }

  function StoryboardReasons(source: string, operator: string, images: seq<Image>, scenes: seq<string>): seq<Code> {
    var r := Note(Note([], source == "chatgpt_manual", SourceNotManual), Present(operator), OperatorMissing);
    Over((before: seq<Code>, s: string) => ImageNotes(ByScene(images), before, s), r, scenes)
  }

  method RequireImage(e: Evaluator, byScene: map<string, Image>, scene: string)
    modifies e
    ensures e.reasons == ImageNotes(byScene, old(e.reasons), scene)
  {
    hide Present, IsSha256, Note;
    if scene !in byScene {
      e.Require(false, SceneImageMissing);
    } else {
      var image := byScene[scene];
      e.Require(Present(image.path), ImagePathMissing);
      e.Require(IsSha256(image.hash), ImageHashMissing);
      e.Require(image.status == Approved, ImageNotApproved);
      e.Require(image.reviewPassed, VisualReviewFailed);
    }
  }

  method IndexImages(images: seq<Image>) returns (byScene: map<string, Image>)
    ensures byScene == ByScene(images)
  {
    byScene := map[];
    for i := 0 to |images|
      invariant byScene == ByScene(images[..i])
    {
      assert images[..i + 1][..i] == images[..i];
      byScene := byScene[images[i].sceneId := images[i]];
    }
    assert images[..|images|] == images;
  }

  method StoryboardImageGate(m: Artifact, scenes: seq<string>) returns (r: Outcome)
    requires m.body.StoryboardImages?
    ensures r == Outcome(StoryboardImage, StoryboardReasons(m.body.source, m.body.operator, m.body.images, scenes))
  {
    hide Present, ImageNotes, ByScene, Note;
    var e := new Evaluator(StoryboardImage);
    e.Require(m.body.source == "chatgpt_manual", SourceNotManual);
    e.Require(Present(m.body.operator), OperatorMissing);
    var byScene := IndexImages(m.body.images);
    ghost var before := e.reasons;
    ghost var per := (before: seq<Code>, s: string) => ImageNotes(ByScene(m.body.images), before, s);
    for i := 0 to |scenes|
      invariant e.reasons == Over(per, before, scenes[..i])
    {
      assert scenes[..i + 1][..i] == scenes[..i];
      RequireImage(e, byScene, scenes[i]);
    }
    assert scenes[..|scenes|] == scenes;
    r := e.Result();
  }

  predicate ImageOk(image: Image) {
    Present(image.path) && IsSha256(image.hash) && image.status == Approved && image.reviewPassed
  }

  lemma {:induction false} BySceneValues(images: seq<Image>, scene: string)
    ensures scene in ByScene(images) <==> exists i | 0 <= i < |images| :: images[i].sceneId == scene
    ensures scene in ByScene(images) ==> ByScene(images)[scene] in images
  {
    if images != [] {
      BySceneValues(images[..|images| - 1], scene);
    }
  }

  lemma ImageNotesNone(byScene: map<string, Image>, before: seq<Code>, scene: string)
    ensures ImageNotes(byScene, before, scene) == [] <==> before == [] && scene in byScene && ImageOk(byScene[scene])
  {
    hide Present, IsSha256, Note;
  }

  /** When every image is in order the gate asks for a named operator and an image of every
      required scene. */
  lemma StoryboardPasses(operator: string, images: seq<Image>, scenes: seq<string>)
    requires forall i | 0 <= i < |images| :: ImageOk(images[i])
    ensures StoryboardReasons("chatgpt_manual", operator, images, scenes) == [] <==>
      && Present(operator)
      && forall i | 0 <= i < |scenes| :: exists j | 0 <= j < |images| :: images[j].sceneId == scenes[i]
  {
    hide Present, ImageNotes, ByScene, ImageOk, Note;
    var byScene := ByScene(images);
    var per := (before: seq<Code>, s: string) => ImageNotes(byScene, before, s);
    var ok := (s: string) => s in byScene && ImageOk(byScene[s]);
    forall b, s
      ensures per(b, s) == [] <==> b == [] && ok(s)
    {
      ImageNotesNone(byScene, b, s);
    }
    var r := Note(Note([], true, SourceNotManual), Present(operator), OperatorMissing);
    OverEmpty(per, ok, r, scenes);
    forall i | 0 <= i < |scenes|
      ensures ok(scenes[i]) <==> exists j | 0 <= j < |images| :: images[j].sceneId == scenes[i]
    {
      BySceneValues(images, scenes[i]);
    }
  }

  // ----- visual shots -----

  const MAX_DURATION := 60.0

  function ShotNotes(approvedHashes: set<string>, knownScenes: set<string>, before: seq<Code>, shot: Shot): seq<Code> {
    var prompts := Note(Note(before, Present(shot.prompt), PromptMissing), Present(shot.negativePrompt),
      NegativePromptMissing);
    var output := Note(prompts, Present(shot.outputPath) && IsSha256(shot.outputHash), OutputMissing);
    var duration := Note(output, 0.0 < shot.duration <= MAX_DURATION, DurationOutOfTolerance);
    var reference := Note(duration, shot.referenceHash in approvedHashes, ReferenceNotApproved);
    Note(Note(reference, shot.sceneId in knownScenes, SceneMappingInvalid), shot.operatorApproval, ShotNotApproved)
  }

  function VisualReasons(
    provider: string, shots: seq<Shot>, approvedHashes: set<string>, knownScenes: set<string>): seq<Code> {
    Over((before: seq<Code>, s: Shot) => ShotNotes(approvedHashes, knownScenes, before, s),
         Note([], Present(provider), ProviderMissing), shots)
  }

  method RequireShot(e: Evaluator, approvedHashes: set<string>, knownScenes: set<string>, shot: Shot)
    modifies e
    ensures e.reasons == ShotNotes(approvedHashes, knownScenes, old(e.reasons), shot)
  {
    hide Present, IsSha256, Note;
    e.Require(Present(shot.prompt), PromptMissing);
    e.Require(Present(shot.negativePrompt), NegativePromptMissing);
    e.Require(Present(shot.outputPath) && IsSha256(shot.outputHash), OutputMissing);
    e.Require(0.0 < shot.duration <= MAX_DURATION, DurationOutOfTolerance);
    e.Require(shot.referenceHash in approvedHashes, ReferenceNotApproved);
    e.Require(shot.sceneId in knownScenes, SceneMappingInvalid);
    e.Require(shot.operatorApproval, ShotNotApproved);
  }

  method VisualShotGate(m: Artifact, approvedHashes: set<string>, knownScenes: set<string>) returns (r: Outcome)
    requires m.body.VisualShots?
    ensures r == Outcome(VisualShot, VisualReasons(m.body.provider, m.body.shots, approvedHashes, knownScenes))
  {
    hide Present, ShotNotes, Note;
    var e := new Evaluator(VisualShot);
    e.Require(Present(m.body.provider), ProviderMissing);
    var shots := m.body.shots;
    ghost var before := e.reasons;
    ghost var per := (before: seq<Code>, s: Shot) => ShotNotes(approvedHashes, knownScenes, before, s);
    for i := 0 to |shots|
      invariant e.reasons == Over(per, before, shots[..i])
    {
      assert shots[..i + 1][..i] == shots[..i];
      RequireShot(e, approvedHashes, knownScenes, shots[i]);
    }
    assert shots[..|shots|] == shots;
    r := e.Result();
  }

  predicate ShotOk(approvedHashes: set<string>, knownScenes: set<string>, shot: Shot) {
    && Present(shot.prompt) && Present(shot.negativePrompt) && Present(shot.outputPath) && IsSha256(shot.outputHash)
    && 0.0 < shot.duration <= MAX_DURATION && shot.referenceHash in approvedHashes && shot.sceneId in knownScenes
    && shot.operatorApproval
  }

  lemma ShotNotesNone(approvedHashes: set<string>, knownScenes: set<string>, before: seq<Code>, shot: Shot)
    ensures ShotNotes(approvedHashes, knownScenes, before, shot) == []
      <==> before == [] && ShotOk(approvedHashes, knownScenes, shot)
  {
    hide Present, IsSha256, Note;
  }

  lemma VisualPasses(provider: string, shots: seq<Shot>, approvedHashes: set<string>, knownScenes: set<string>)
    ensures VisualReasons(provider, shots, approvedHashes, knownScenes) == [] <==>
      Present(provider) && forall i | 0 <= i < |shots| :: ShotOk(approvedHashes, knownScenes, shots[i])
  {
    hide Present, ShotNotes, ShotOk, Note;
    var per := (before: seq<Code>, s: Shot) => ShotNotes(approvedHashes, knownScenes, before, s);
    var ok := (s: Shot) => ShotOk(approvedHashes, knownScenes, s);
    forall b, s
      ensures per(b, s) == [] <==> b == [] && ok(s)
    {
      ShotNotesNone(approvedHashes, knownScenes, b, s);
    }
    OverEmpty(per, ok, Note([], Present(provider), ProviderMissing), shots);
  }

  // ----- subtitles -----

  function SubtitleReasons(b: Body): seq<Code>
    requires b.Subtitles?
  {
    var transcript := Note([], Present(b.transcriptPath) && IsSha256(b.transcriptHash), TranscriptMissing);
    var captions := Note(transcript, Present(b.srtPath) || Present(b.assPath), CaptionsMissing);
    var timed := Note(captions, b.checks.wordTimestamps, WordTimestampsMissing);
    Note(Note(Note(timed, b.checks.safeZone, SafeZoneFailed), b.checks.sync, SyncFailed), b.captionsApproved,
      CaptionsNotApproved)
  }

  method SubtitleGate(m: Artifact) returns (r: Outcome)
    requires m.body.Subtitles?
    ensures r == Outcome(SubtitleCheck, SubtitleReasons(m.body))
  {
    hide Present, IsSha256, Note;
    var e := new Evaluator(SubtitleCheck);
    var b := m.body;
    e.Require(Present(b.transcriptPath) && IsSha256(b.transcriptHash), TranscriptMissing);
    e.Require(Present(b.srtPath) || Present(b.assPath), CaptionsMissing);
    e.Require(b.checks.wordTimestamps, WordTimestampsMissing);
    e.Require(b.checks.safeZone, SafeZoneFailed);
    e.Require(b.checks.sync, SyncFailed);
    e.Require(b.captionsApproved, CaptionsNotApproved);
    r := e.Result();
  }

  lemma SubtitlePasses(b: Body)
    requires b.Subtitles?
    ensures SubtitleReasons(b) == [] <==>
      && Present(b.transcriptPath) && IsSha256(b.transcriptHash) && (Present(b.srtPath) || Present(b.assPath))
      && b.checks.wordTimestamps && b.checks.safeZone && b.checks.sync && b.captionsApproved
  {
    hide Present, IsSha256;
  }

  // ----- render -----

  function OutputNotes(before: seq<Code>, o: Output): seq<Code> {
    var hashed := Note(before, Present(o.path) && IsSha256(o.hash), OutputHashMissing);
    var framed := Note(Note(hashed, o.resolution == TARGET_RESOLUTION, ResolutionInvalid), o.aspect == TARGET_ASPECT,
      AspectInvalid);
    var timed := Note(framed, o.fps == TARGET_FPS, FpsInvalid);
    Note(Note(timed, o.audioTrack, AudioTrackMissing), o.subtitlesBurned, SubtitlesNotReadable)
  }

  function RenderReasons(outputs: seq<Output>, qaApproved: bool): seq<Code> {
    Note(Over(OutputNotes, Note([], outputs != [], OutputsMissing), outputs), qaApproved, QaNotApproved)
  }

  method RequireOutput(e: Evaluator, o: Output)
    modifies e
    ensures e.reasons == OutputNotes(old(e.reasons), o)
  {
    hide Present, IsSha256, Note;
    e.Require(Present(o.path) && IsSha256(o.hash), OutputHashMissing);
    e.Require(o.resolution == TARGET_RESOLUTION, ResolutionInvalid);
    e.Require(o.aspect == TARGET_ASPECT, AspectInvalid);
    e.Require(o.fps == TARGET_FPS, FpsInvalid);
    e.Require(o.audioTrack, AudioTrackMissing);
    e.Require(o.subtitlesBurned, SubtitlesNotReadable);
  }

  method RenderGate(m: Artifact, qaApproved: bool) returns (r: Outcome)
    requires m.body.ShortRender?
    ensures r == Outcome(RenderCheck, RenderReasons(m.body.outputs, qaApproved))
  {
    hide OutputNotes, Note;
    var e := new Evaluator(RenderCheck);
    var outputs := m.body.outputs;
    e.Require(|outputs| > 0, OutputsMissing);
    ghost var before := e.reasons;
    for i := 0 to |outputs|
      invariant e.reasons == Over(OutputNotes, before, outputs[..i])
    {
      assert outputs[..i + 1][..i] == outputs[..i];
      RequireOutput(e, outputs[i]);
    }
    assert outputs[..|outputs|] == outputs;
    e.Require(qaApproved, QaNotApproved);
    r := e.Result();
  }

  predicate OutputOk(o: Output) {
    && Present(o.path) && IsSha256(o.hash) && o.resolution == TARGET_RESOLUTION && o.aspect == TARGET_ASPECT
    && o.fps == TARGET_FPS && o.audioTrack && o.subtitlesBurned
  }

  lemma OutputNotesNone(before: seq<Code>, o: Output)
    ensures OutputNotes(before, o) == [] <==> before == [] && OutputOk(o)
  {
    hide Present, IsSha256, Note;
  }

  lemma RenderPasses(outputs: seq<Output>, qaApproved: bool)
    ensures RenderReasons(outputs, qaApproved) == [] <==>
      outputs != [] && qaApproved && forall i | 0 <= i < |outputs| :: OutputOk(outputs[i])
  {
    hide OutputNotes, OutputOk, Note;
    forall b, o
      ensures OutputNotes(b, o) == [] <==> b == [] && OutputOk(o)
    {
      OutputNotesNone(b, o);
    }
    OverEmpty(OutputNotes, OutputOk, Note([], outputs != [], OutputsMissing), outputs);
  }

  // ----- verifiers -----

  function Distinct(verifiers: seq<string>): set<string> {
    set i | 0 <= i < |verifiers| && Present(verifiers[i]) :: verifiers[i]
  }

  function VerifierReasons(verifiers: seq<string>, required: int): seq<Code> {
    Note([], |Distinct(verifiers)| >= (if required <= 0 then 2 else required), InsufficientVerifiers)
  }

  method MultiVerifierGate(verifiers: seq<string>, required: int) returns (r: Outcome)
    ensures r == Outcome(MultiVerifier, VerifierReasons(verifiers, required))
  {
    hide Present, Note;
    var e := new Evaluator(MultiVerifier);
    var distinct: set<string> := {};
    for i := 0 to |verifiers|
      invariant e.reasons == [] && distinct == Distinct(verifiers[..i])
    {
      DistinctStep(verifiers, i);
      if Present(verifiers[i]) {
        distinct := distinct + {verifiers[i]};
      }
    }
    assert verifiers[..|verifiers|] == verifiers;
    e.Require(|distinct| >= (if required <= 0 then 2 else required), InsufficientVerifiers);
    r := e.Result();
  }

  lemma DistinctStep(verifiers: seq<string>, i: nat)
    requires i < |verifiers|
    ensures Distinct(verifiers[..i + 1])
         == Distinct(verifiers[..i]) + (if Present(verifiers[i]) then {verifiers[i]} else {})
  {
    hide Present;
    var front, all := verifiers[..i], verifiers[..i + 1];
    assert forall j | 0 <= j < i :: all[j] == front[j];
    assert all[i] == verifiers[i];
  }

  /** Two verifiers who differ are enough. */
  lemma TwoVerifiers(verifiers: seq<string>, i: nat, j: nat)
    requires i < |verifiers| && j < |verifiers| && verifiers[i] != verifiers[j]
    requires Present(verifiers[i]) && Present(verifiers[j])
    ensures |Distinct(verifiers)| >= 2
  {
    hide Present;
    var pair := {verifiers[i], verifiers[j]};
    assert pair <= Distinct(verifiers);
    SubsetSize(pair, Distinct(verifiers));
  }

  // ----- release -----

  function DisclosureReasons(required: bool, text: string): seq<Code> {
    if required then Note(Note([], Present(text), DisclosureTextMissing), Present(text), DisclosureNotPresent) else []
  }

  function ReleaseReasons(b: Body, qaApproved: bool, dryRunOk: bool): seq<Code>
    requires b.PublishManifest?
  {
    var approved := Note(Note([], qaApproved, QaNotApproved), b.humanRelease, HumanReleaseMissing);
    var aimed := Note(Note(approved, b.platforms != [], PlatformsNotExplicit), Present(b.visibility), VisibilityNotSet);
    var dated := if b.visibility == "scheduled" then Note(aimed, Present(b.scheduledAt), ScheduledAtMissing) else aimed;
    Note(dated + DisclosureReasons(b.disclosureRequired, b.disclosure), dryRunOk, DryRunFailed)
  }

  /** AIDisclosureGate, as the release gate uses it. */
  method AIDisclosureGate(required: bool, text: string) returns (reasons: seq<Code>)
    ensures reasons == DisclosureReasons(required, text)
  {
    hide Present;
    reasons := [];
    if required {
      var present := Present(text);
      if !present {
        reasons := reasons + [DisclosureTextMissing];
      }
      if !present {
        reasons := reasons + [DisclosureNotPresent];
      }
    }
  }

  method ReleaseGate(m: Artifact, qaApproved: bool, dryRunOk: bool) returns (r: Outcome)
    requires m.body.PublishManifest?
    ensures r == Outcome(ReleaseCheck, ReleaseReasons(m.body, qaApproved, dryRunOk))
  {
    hide Present, DisclosureReasons, Note;
    var e := new Evaluator(ReleaseCheck);
    var b := m.body;
    e.Require(qaApproved, QaNotApproved);
    e.Require(b.humanRelease, HumanReleaseMissing);
    e.Require(|b.platforms| > 0, PlatformsNotExplicit);
    e.Require(Present(b.visibility), VisibilityNotSet);
    if b.visibility == "scheduled" {
      e.Require(Present(b.scheduledAt), ScheduledAtMissing);
    }
    var disclosure := AIDisclosureGate(b.disclosureRequired, b.disclosure);
    e.reasons := e.reasons + disclosure;
    e.Require(dryRunOk, DryRunFailed);
    r := e.Result();
  }

  lemma ReleasePasses(b: Body, qaApproved: bool, dryRunOk: bool)
    requires b.PublishManifest?
    ensures ReleaseReasons(b, qaApproved, dryRunOk) == [] <==>
      && qaApproved && dryRunOk && b.humanRelease && b.platforms != [] && Present(b.visibility)
      && (b.visibility == "scheduled" ==> Present(b.scheduledAt))
      && (b.disclosureRequired ==> Present(b.disclosure))
  {
    hide Present, Note;
  }
}
