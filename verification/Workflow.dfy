/** internal/workflows/shortform.go: the short-form pipeline from provenance to the guarded
    dry run. */
module Workflow {
  import opened Text
  import opened Json
  import opened ShortForm
  import opened Gates
  import opened Providers

  datatype Input = Input(
    episodeId: string, scenes: seq<SceneSpec>, scriptRef: string, researchPackRef: string, scriptApproved: bool,
    claims: seq<ClaimRef>, platforms: seq<string>, visibility: string, scheduledAt: string,
    disclosureRequired: bool, disclosure: string, language: string, operator: string)

  datatype Signal = Signal(decision: string, approver: string)

  datatype State =
    | Started | ProvenanceOk | StoryboardImported | AwaitingStoryboardApproval | StoryboardApproved
    | VisualShotsApproved | VoiceoverApproved | SubtitlesApproved | RenderApproved | CandidateLocked
    | AwaitingReleaseApproval | PublishedDryRunComplete
    | BlockedAtGate | PromptPackFailed | StoryboardImportFailed | StoryboardRejected | VisualShotsFailed
    | VoiceoverFailed | SubtitlesFailed | RenderFailed | CandidateAssemblyFailed | ReleaseDenied
    | ReleaseBuildFailed | PublishManifestFailed

  // ----- when a run succeeds -----

  predicate Sourced(input: Input) {
    && (input.scriptApproved ==> Present(input.researchPackRef))
    && forall i | 0 <= i < |input.claims| :: input.claims[i].sourceIds != []
  }

  predicate StoryboardStage(defects: Defects, input: Input, signal: Signal) {
    && Sourced(input) && input.scenes != [] && defects.storyboard != Error
    && signal.decision == "approve" && IsHuman(signal.approver) && Present(input.operator)
  }

  predicate ShotStage(defects: Defects, input: Input) {
    defects.visual != Error &&
    forall i | 0 <= i < |input.scenes| :: ShotDuration(input.scenes[i].start, input.scenes[i].end) <= MAX_DURATION
  }

  predicate SubtitleStage(defects: Defects, input: Input) {
    && defects.voice != Error && input.scriptRef != ""
    && defects.subtitle != Error && defects.subtitle != SubtitleSyncFailed
  }

  predicate RenderStage(defects: Defects) {
    defects.render != Error && defects.render != RenderNoAudio
  }

  predicate ReleaseStage(defects: Defects, input: Input, signal: Signal) {
    && signal.decision == "approve" && IsHumanIdentity(signal.approver) && defects.publishing != Error
    && input.platforms != [] && (input.visibility == "" || Present(input.visibility))
    && (input.visibility == "scheduled" ==> Present(input.scheduledAt))
    && (input.disclosureRequired ==> Present(input.disclosure) && defects.publishing != MissingDisclosure)
  }

  /** A condition on the input, the two signals and the injected defects that can be
      evaluated before the run. */
  predicate Succeeds(defects: Defects, input: Input, storyboardSignal: Signal, releaseSignal: Signal) {
    && StoryboardStage(defects, input, storyboardSignal) && ShotStage(defects, input) && SubtitleStage(defects, input)
    && RenderStage(defects) && ReleaseStage(defects, input, releaseSignal)
  }

  // ----- where a run ends -----

  /** How a run ends: its state, and how many gates it reached. */
  datatype End = End(state: State, gates: nat)

  /** Where the import of the storyboard stops, unless it passes. */
  function ImportEnd(defects: Defects, input: Input): Option<End> {
    if !Sourced(input) then Some(End(BlockedAtGate, 1))
    else if input.scenes == [] then Some(End(PromptPackFailed, 1))
    else if defects.storyboard == Error then Some(End(StoryboardImportFailed, 1))
    else None
  }

  function StoryboardEnd(defects: Defects, input: Input, signal: Signal): Option<End> {
    if ImportEnd(defects, input).Some? then ImportEnd(defects, input)
    else if signal.decision != "approve" then Some(End(StoryboardRejected, 1))
    else ApprovalEnd(input, signal)
  }

  function ApprovalEnd(input: Input, signal: Signal): Option<End> {
    if !IsHuman(signal.approver) then Some(End(BlockedAtGate, 2))
    else if !Present(input.operator) then Some(End(BlockedAtGate, 3))
    else None
  }

  function ShotEnd(defects: Defects, input: Input): Option<End> {
    if defects.visual == Error then Some(End(VisualShotsFailed, 3))
    else if !ShotStage(defects, input) then Some(End(BlockedAtGate, 4))
    else None
  }

  function VoiceEnd(defects: Defects, input: Input): Option<End> {
    if defects.voice == Error || input.scriptRef == "" then Some(End(VoiceoverFailed, 4)) else None
  }

  function SubtitleEnd(defects: Defects): Option<End> {
    if defects.subtitle == Error then Some(End(SubtitlesFailed, 4))
    else if defects.subtitle == SubtitleSyncFailed then Some(End(BlockedAtGate, 5))
    else None
  }

  function RenderEnd(defects: Defects): Option<End> {
    if defects.render == Error then Some(End(RenderFailed, 5))
    else if defects.render == RenderNoAudio then Some(End(BlockedAtGate, 6))
    else None
  }

  function ReleaseEnd(defects: Defects, input: Input, signal: Signal): Option<End> {
    if signal.decision != "approve" then Some(End(ReleaseDenied, 6))
    else if !IsHumanIdentity(signal.approver) then Some(End(ReleaseBuildFailed, 6))
    else PublishEnd(defects.publishing, input)
  }

  function PublishEnd(defect: Defect, input: Input): Option<End> {
    if defect == Error then Some(End(PublishManifestFailed, 7))
    else if !PublishOk(defect, input) then Some(End(BlockedAtGate, 8))
    else None
  }

  /** The first of two ends. */
  function First(a: Option<End>, b: Option<End>): Option<End> {
    if a.Some? then a else b
  }

  function ProduceEnd(defects: Defects, input: Input): Option<End> {
    First(VoiceEnd(defects, input), First(SubtitleEnd(defects), RenderEnd(defects)))
  }

  /** The first stage that stops the run, if one does. */
  function RunEnd(defects: Defects, input: Input, storyboardSignal: Signal, releaseSignal: Signal): Option<End> {
    First(StoryboardEnd(defects, input, storyboardSignal),
          First(ShotEnd(defects, input), First(ProduceEnd(defects, input), ReleaseEnd(defects, input, releaseSignal))))
  }

  /** No stage stops a run exactly when the condition holds that can be evaluated before it. */
  lemma NoEndIff(defects: Defects, input: Input, storyboardSignal: Signal, releaseSignal: Signal)
    ensures RunEnd(defects, input, storyboardSignal, releaseSignal) == None <==>
      Succeeds(defects, input, storyboardSignal, releaseSignal)
  {
    hide Present, Sourced, IsHuman, IsHumanIdentity, ShotDuration;
  }

  // ----- the trace of gates -----

  const SEQUENCE := [
    Provenance, SelfApproval, StoryboardImage, VisualShot, SubtitleCheck, RenderCheck, MultiVerifier, ReleaseCheck]

  /** The gates of a run: a prefix of the sequence, where only the last may have blocked. */
  predicate TraceOk(trace: seq<Outcome>) {
    && |trace| <= |SEQUENCE|
    && (forall i | 0 <= i < |trace| :: trace[i].gate == SEQUENCE[i])
    && (forall i | 0 <= i < |trace| - 1 :: !trace[i].Blocked())
  }

  /** The first n gates have passed, and no other was reached. */
  predicate Passed(trace: seq<Outcome>, n: nat) {
    TraceOk(trace) && |trace| == n && (n > 0 ==> !trace[n - 1].Blocked())
  }

  lemma PassedStep(trace: seq<Outcome>, n: nat, r: Outcome)
    requires Passed(trace, n) && n < |SEQUENCE| && r.gate == SEQUENCE[n]
    ensures TraceOk(trace + [r]) && (!r.Blocked() ==> Passed(trace + [r], n + 1))
  {
    forall i | 0 <= i < n
      ensures !trace[i].Blocked()
    {
      if i == n - 1 {
        assert !trace[n - 1].Blocked();
      }
    }
  }

  // ----- the artifacts of a run -----

  /** A final artifact of a stage: approved, stamped last, and verifying. */
  ghost predicate Final(lib: Library, a: Artifact, kind: Kind) {
    a.Kind() == kind && a.env.status == Approved && Verifies(lib, a) && |a.env.contentHash| == 71
  }

  /** What a stage makes of a draft: stamped, approved with the given body, and stamped again. */
  ghost function ApprovalOf(lib: Library, draft: Artifact, body: Body): Artifact {
    Stamped(lib, Stamped(lib, draft).As(Approved, body))
  }

  lemma ApprovalBody(lib: Library, draft: Artifact, body: Body)
    ensures ApprovalOf(lib, draft, body).body == body
  {
    hide Hash;
  }

  lemma StampedFinal(lib: Library, a: Artifact)
    requires Marshals(lib) && a.env.status == Approved
    ensures Final(lib, Stamped(lib, a), a.Kind())
  {
    hide ContentHash.HashOf;
    StampVerifies(lib, a);
  }

  datatype Bundle = Bundle(
    storyboard: Artifact, shots: Artifact, voiceover: Artifact, subtitles: Artifact, render: Artifact,
    candidate: Artifact)

  function Components(b: Bundle): seq<Component> {
    [ComponentRefOf(b.storyboard), ComponentRefOf(b.shots), ComponentRefOf(b.voiceover), ComponentRefOf(b.subtitles),
     ComponentRefOf(b.render)]
  }

  /** The five artifacts are final, and the locked candidate pins each by its hash. */
  ghost predicate Pinned(lib: Library, b: Bundle) {
    && Final(lib, b.storyboard, StoryboardKind) && Final(lib, b.shots, ShotKind)
    && Final(lib, b.voiceover, VoiceoverKind)
    && Final(lib, b.subtitles, SubtitleKind) && Final(lib, b.render, RenderKind)
    && Verifies(lib, b.candidate) && b.candidate.env.status == Locked
    && b.candidate.body.ProductionCandidate? && b.candidate.body.immutable
    && b.candidate.body.components == Pins(Components(b))
  }

  /** The hashes a run reports are those of the artifacts. */
  predicate Reported(artifacts: map<Kind, string>, b: Bundle) {
    && StoryboardKind in artifacts && artifacts[StoryboardKind] == b.storyboard.env.contentHash
    && ShotKind in artifacts && artifacts[ShotKind] == b.shots.env.contentHash
    && VoiceoverKind in artifacts && artifacts[VoiceoverKind] == b.voiceover.env.contentHash
    && SubtitleKind in artifacts && artifacts[SubtitleKind] == b.subtitles.env.contentHash
    && RenderKind in artifacts && artifacts[RenderKind] == b.render.env.contentHash
    && CandidateKind in artifacts && artifacts[CandidateKind] == b.candidate.env.contentHash
  }

  /** In a pinned bundle every component of the candidate holds the id and the kind of its
      artifact, and the hash recomputed from it. */
  lemma PinsRecomputed(lib: Library, b: Bundle, a: Artifact, i: nat)
    requires Pinned(lib, b) && i < 5 && a == [b.storyboard, b.shots, b.voiceover, b.subtitles, b.render][i]
    ensures |b.candidate.body.components| == 5
    ensures b.candidate.body.components[i] == Pin(a.env.artifactId, a.Kind(), Hash(lib, a))
  {
    hide Hash, ContentHash.HashOf;
    assert Components(b)[i] == ComponentRefOf(a);
  }

  // ----- small loops -----

  function SceneIds(scenes: seq<SceneSpec>): seq<string> {
    seq(|scenes|, i requires 0 <= i < |scenes| => scenes[i].sceneId)
  }

  function SceneSet(scenes: seq<SceneSpec>): set<string> {
    set i | 0 <= i < |scenes| :: scenes[i].sceneId
  }

  function ApprovedHashes(images: seq<Image>): set<string> {
    set i | 0 <= i < |images| && images[i].status == Approved :: images[i].hash
  }

  method ApprovedImageHashes(images: seq<Image>) returns (hashes: set<string>)
    ensures hashes == ApprovedHashes(images)
  {
    hashes := {};
    for i := 0 to |images|
      invariant hashes == set j | 0 <= j < i && images[j].status == Approved :: images[j].hash
    {
      if images[i].status == Approved {
        hashes := hashes + {images[i].hash};
      }
    }
  }

  // ----- what the stages make -----

  function FinalImages(lib: Library, input: Input, approver: string, now: int): seq<Image> {
    ApprovedImages(ImportedImages(lib, input.episodeId, input.scenes), approver, now)
  }

  lemma FinalImagesOk(lib: Library, input: Input, approver: string, now: int)
    requires Marshals(lib)
    ensures forall i | 0 <= i < |input.scenes| :: ImageOk(FinalImages(lib, input, approver, now)[i])
  {
    hide ImageOk, ImportedImage, ApprovedImage;
    forall i | 0 <= i < |input.scenes|
      ensures ImageOk(FinalImages(lib, input, approver, now)[i])
    {
      ImportedImageOk(lib, input.episodeId, input.scenes[i], approver, now);
    }
  }

  /** The storyboard gate finds an image for every scene, so only the operator matters. */
  lemma StoryboardGateOnFinal(lib: Library, input: Input, approver: string, now: int)
    requires Marshals(lib)
    ensures
      StoryboardReasons("chatgpt_manual", input.operator, FinalImages(lib, input, approver, now),
        SceneIds(input.scenes)) == []
      <==> Present(input.operator)
  {
    hide ImageOk, Present, StoryboardReasons, FakeHash;
    var images, scenes := FinalImages(lib, input, approver, now), SceneIds(input.scenes);
    FinalImagesOk(lib, input, approver, now);
    assert forall i | 0 <= i < |images| :: ImageOk(images[i]);
    StoryboardPasses(input.operator, images, scenes);
    forall i | 0 <= i < |scenes|
      ensures exists j | 0 <= j < |images| :: images[j].sceneId == scenes[i]
    {
      assert images[i].sceneId == input.scenes[i].sceneId == scenes[i];
    }
    assert Present(input.operator) ==> StoryboardReasons("chatgpt_manual", input.operator, images, scenes) == [];
  }

  function FinalShots(lib: Library, episodeId: string, images: seq<Image>): seq<Shot> {
    ApprovedShots(ShotsOf(lib, episodeId, images))
  }

  /** The shot gate looks at durations alone. */
  lemma ShotGateOnFinal(lib: Library, input: Input, approver: string, now: int)
    requires Marshals(lib)
    ensures var images := FinalImages(lib, input, approver, now);
      VisualReasons("mock", FinalShots(lib, input.episodeId, images), ApprovedHashes(images),
        SceneSet(input.scenes)) == []
      <==> forall i | 0 <= i < |input.scenes| ::
        ShotDuration(input.scenes[i].start, input.scenes[i].end) <= MAX_DURATION
  {
    hide ShotOk, Present, VisualReasons, ShotOf, FakeHash, ShotDuration;
    var images := FinalImages(lib, input, approver, now);
    var shots := FinalShots(lib, input.episodeId, images);
    VisualPasses("mock", shots, ApprovedHashes(images), SceneSet(input.scenes));
    PresentWord("mock");
    forall i | 0 <= i < |input.scenes|
      ensures ShotOk(ApprovedHashes(images), SceneSet(input.scenes), shots[i])
        <==> ShotDuration(input.scenes[i].start, input.scenes[i].end) <= MAX_DURATION
    {
      assert images[i].sceneId == input.scenes[i].sceneId && images[i].status == Approved;
      assert images[i].hash in ApprovedHashes(images) && images[i].sceneId in SceneSet(input.scenes);
      ShotOfOk(lib, input.episodeId, images[i], ApprovedHashes(images), SceneSet(input.scenes));
    }
  }

  lemma RenderOnFinal(lib: Library, defect: Defect, episodeId: string, duration: real, platforms: seq<string>)
    requires Marshals(lib) && platforms != []
    ensures var drafts := RenderedOutputs(lib, defect, episodeId, duration, platforms);
      && ((forall i | 0 <= i < |drafts| :: MeetsTarget(drafts[i])) <==> defect != RenderNoAudio)
      && forall qa :: RenderReasons(ApprovedOutputs(drafts), qa) == [] <==> qa && defect != RenderNoAudio
  {
    hide OutputOk, RenderedOutput, MeetsTarget, RenderReasons;
    var drafts := RenderedOutputs(lib, defect, episodeId, duration, platforms);
    var outputs := ApprovedOutputs(drafts);
    forall i | 0 <= i < |platforms|
      ensures MeetsTarget(drafts[i]) <==> defect != RenderNoAudio
      ensures OutputOk(outputs[i]) <==> defect != RenderNoAudio
    {
      RenderedOutputOk(lib, defect, episodeId, duration, platforms[i]);
    }
    assert MeetsTarget(drafts[0]) <==> defect != RenderNoAudio;
    assert OutputOk(outputs[0]) <==> defect != RenderNoAudio;
    forall qa
      ensures RenderReasons(outputs, qa) == [] <==> qa && defect != RenderNoAudio
    {
      RenderPasses(outputs, qa);
    }
  }

  lemma VerifiersOnFinal(first: string, second: string)
    requires IsHuman(first)
    ensures VerifierReasons([first, second, "system:production-qa"], 0) == []
  {
    hide Present, Distinct;
    var verifiers := [first, second, "system:production-qa"];
    HumanPresent(first);
    assert "system:production-qa"[0] == 's' && first[0] == 'h';
    PresentWord("system:production-qa");
    TwoVerifiers(verifiers, 0, 2);
  }

  // ----- the run -----

  class ShortFormRun {
    const lib: Library
    const defects: Defects
    const input: Input
    const now: int
    var state: State
    var trace: seq<Outcome>
    var artifacts: map<Kind, string>

    constructor (lib: Library, defects: Defects, input: Input, now: int)
      ensures this.lib == lib && this.defects == defects && this.input == input && this.now == now
      ensures state == Started && trace == [] && artifacts == map[]
    {
      this.lib, this.defects, this.input, this.now := lib, defects, input, now;
      state, trace, artifacts := Started, [], map[];
    }

    /** The run stopped before its end, in the given way. */
    predicate Stopped(end: Option<End>)
      reads this
    {
      && end.Some? && state == end.value.state != PublishedDryRunComplete
      && |trace| == end.value.gates && TraceOk(trace) && !Passed(trace, 8)
      && (state == BlockedAtGate <==> trace != [] && trace[|trace| - 1].Blocked())
    }

    method Record(next: State)
      modifies this`state
      ensures state == next
    {
      state := next;
    }

    /** The gate closure: notes the result, and stops the run when the gate blocks. */
    method Gate(r: Outcome, ghost n: nat) returns (blocked: bool)
      requires Passed(trace, n) && n < |SEQUENCE| && r.gate == SEQUENCE[n]
      modifies this`state, this`trace
      ensures blocked <==> r.Blocked()
      ensures !blocked ==> state == old(state) && Passed(trace, n + 1)
      ensures blocked ==> Stopped(Some(End(BlockedAtGate, n + 1)))
    {
      PassedStep(trace, n, r);
      trace := trace + [r];
      if r.Blocked() {
        state := BlockedAtGate;
      }
      blocked := r.Blocked();
    }

    /** block and blockErr */
    method Fail(failure: State, ghost n: nat)
      requires Passed(trace, n) && n < 8 && failure != PublishedDryRunComplete && failure != BlockedAtGate
      modifies this`state
      ensures Stopped(Some(End(failure, n)))
    {
      state := failure;
    }

    method StampOf(a: Artifact)
      modifies this`artifacts
      ensures artifacts == old(artifacts)[a.Kind() := a.env.contentHash]
    {
      artifacts := artifacts[a.Kind() := a.env.contentHash];
    }

    /** Provenance, the import of the storyboard images, and their human approval. */
    method Storyboarding(signal: Signal) returns (r: Option<Artifact>)
      requires Marshals(lib) && Passed(trace, 0)
      modifies this
      ensures r.Some? <==> StoryboardEnd(defects, input, signal) == None
      ensures r.None? ==> Stopped(StoryboardEnd(defects, input, signal))
      ensures r.Some? ==> Passed(trace, 3) && Final(lib, r.value, StoryboardKind)
      ensures r.Some? ==> artifacts == old(artifacts)[StoryboardKind := r.value.env.contentHash]
      ensures r.Some? ==> r.value == ApprovalOf(
        lib, ImportedStoryboard(lib, input.episodeId, now, input.operator, input.scenes),
        StoryboardImages("chatgpt_manual", input.operator, FinalImages(lib, input, signal.approver, now)))
    {
      hide *;
      EndOfStoryboard(defects, input, signal);
      var imported := Importing();
      if imported.None? { return None; }
      Record(AwaitingStoryboardApproval);
      if signal.decision != "approve" {
        Fail(StoryboardRejected, 1);
        return None;
      }
      r := ApproveStoryboard(imported.value, signal);
      OverwrittenKey(old(artifacts), StoryboardKind, imported.value.env.contentHash, r);
    }

    /** The provenance gate, the prompt pack and the import. */
    method Importing() returns (r: Option<Artifact>)
      requires Passed(trace, 0)
      modifies this
      ensures r.Some? <==> ImportEnd(defects, input) == None
      ensures r.None? ==> Stopped(ImportEnd(defects, input))
      ensures r.Some? ==>
        && Passed(trace, 1) && artifacts == old(artifacts)[StoryboardKind := r.value.env.contentHash]
        && r.value == Stamped(lib, ImportedStoryboard(lib, input.episodeId, now, input.operator, input.scenes))
    {
      hide Present, ProvenanceReasons, Hash, Passed, TraceOk, ImportedImages;
      ProvenancePasses(input.scriptApproved, input.researchPackRef, input.claims);
      var provenance := ProvenanceGate(input.scriptApproved, input.researchPackRef, input.claims);
      var blocked := Gate(provenance, 0);
      if blocked { return None; }
      Record(ProvenanceOk);
      var pack := BuildStoryboardPromptPack(input.scenes);
      if pack.Err? {
        Fail(PromptPackFailed, 1);
        return None;
      }
      var imported := ImportStoryboardImages(lib, defects.storyboard, input.episodeId, now, input.operator,
        input.scenes);
      if imported.Err? {
        Fail(StoryboardImportFailed, 1);
        return None;
      }
      StampOf(imported.value);
      Record(StoryboardImported);
      r := Some(imported.value);
    }

    method ApproveImported(imported: Artifact, approver: string) returns (r: Artifact)
      requires Marshals(lib)
      requires imported == Stamped(lib, ImportedStoryboard(lib, input.episodeId, now, input.operator, input.scenes))
      ensures Final(lib, r, StoryboardKind) && r.Kind() == StoryboardKind && r.env.createdBy == "system"
      ensures r.body == StoryboardImages("chatgpt_manual", input.operator, FinalImages(lib, input, approver, now))
      ensures r == ApprovalOf(
        lib, ImportedStoryboard(lib, input.episodeId, now, input.operator, input.scenes),
        StoryboardImages("chatgpt_manual", input.operator, FinalImages(lib, input, approver, now)))
    {
      hide Verifies, Hash, Marshals;
      r := ApproveStoryboardImages(lib, imported, approver, now);
      var images := ApprovedImages(imported.body.images, approver, now);
      StampedFinal(lib, imported.As(Approved, imported.body.(images := images)));
    }

    /** The approval of the imported images, and the two gates on it. */
    method ApproveStoryboard(imported: Artifact, signal: Signal) returns (r: Option<Artifact>)
      requires Marshals(lib) && Passed(trace, 1)
      requires imported == Stamped(lib, ImportedStoryboard(lib, input.episodeId, now, input.operator, input.scenes))
      modifies this
      ensures r.Some? <==> ApprovalEnd(input, signal) == None
      ensures r.None? ==> Stopped(ApprovalEnd(input, signal))
      ensures r.Some? ==> Passed(trace, 3) && Final(lib, r.value, StoryboardKind)
      ensures r.Some? ==> artifacts == old(artifacts)[StoryboardKind := r.value.env.contentHash]
      ensures r.Some? ==> r.value == ApprovalOf(
        lib, ImportedStoryboard(lib, input.episodeId, now, input.operator, input.scenes),
        StoryboardImages("chatgpt_manual", input.operator, FinalImages(lib, input, signal.approver, now)))
    {
      hide *;
      var storyboard := ApproveImported(imported, signal.approver);
      StampOf(storyboard);
      var ok := GateStoryboard(storyboard, signal);
      r := if ok then Some(storyboard) else None;
    }

    method GateStoryboard(storyboard: Artifact, signal: Signal) returns (ok: bool)
      requires Marshals(lib) && Passed(trace, 1) && storyboard.env.createdBy == "system"
      requires storyboard.body ==
        StoryboardImages("chatgpt_manual", input.operator, FinalImages(lib, input, signal.approver, now))
      modifies this`state, this`trace
      ensures ok <==> ApprovalEnd(input, signal) == None
      ensures !ok ==> Stopped(ApprovalEnd(input, signal))
      ensures ok ==> Passed(trace, 3)
    {
      hide Present, SelfApprovalReasons, StoryboardReasons, Passed, TraceOk, IsHuman, FinalImages;
      SelfApprovalPasses("system", signal.approver);
      var self := SelfApprovalGate(storyboard.env.createdBy, signal.approver, Approved, false);
      var blocked := Gate(self, 1);
      if blocked { return false; }
      StoryboardGateOnFinal(lib, input, signal.approver, now);
      var images := StoryboardImageGate(storyboard, SceneIds(input.scenes));
      blocked := Gate(images, 2);
      if blocked { return false; }
      Record(StoryboardApproved);
      ok := true;
    }

    method Shooting(storyboard: Artifact, ghost approver: string) returns (r: Option<Artifact>)
      requires Marshals(lib) && Passed(trace, 3) && input.scenes != []
      requires storyboard.body == StoryboardImages("chatgpt_manual", input.operator,
        FinalImages(lib, input, approver, now))
      modifies this
      ensures r.Some? <==> ShotEnd(defects, input) == None
      ensures r.None? ==> Stopped(ShotEnd(defects, input))
      ensures r.Some? ==> Passed(trace, 4) && Final(lib, r.value, ShotKind)
      ensures r.Some? ==> artifacts == old(artifacts)[ShotKind := r.value.env.contentHash]
      ensures r.Some? ==> r.value == ApprovalOf(
        lib, DraftShots(lib, input.episodeId, now, storyboard),
        VisualShots("mock", FinalShots(lib, input.episodeId, storyboard.body.images)))
    {
      hide VisualReasons, Passed, TraceOk, Verifies, Hash, Marshals, ApprovedHashes, SceneSet, ShotDuration,
        ImportedImage;
      var drafted := GenerateShots(lib, defects.visual, input.episodeId, now, storyboard);
      if drafted.Err? {
        Fail(VisualShotsFailed, 3);
        return None;
      }
      var shots := ApproveVisualShots(lib, drafted.value);
      var draft := drafted.value;
      StampedFinal(lib, draft.As(Approved, draft.body.(shots := ApprovedShots(draft.body.shots))));
      StampOf(shots);
      ShotGateOnFinal(lib, input, approver, now);
      var hashes := ApprovedImageHashes(storyboard.body.images);
      var gate := VisualShotGate(shots, hashes, SceneSet(input.scenes));
      var blocked := Gate(gate, 3);
      if blocked { return None; }
      Record(VisualShotsApproved);
      r := Some(shots);
    }

    method Voicing() returns (r: Option<Artifact>)
      requires Marshals(lib) && Passed(trace, 4)
      modifies this
      ensures r.Some? <==> VoiceEnd(defects, input) == None
      ensures r.None? ==> Stopped(VoiceEnd(defects, input))
      ensures r.Some? ==> Passed(trace, 4) && Final(lib, r.value, VoiceoverKind)
      ensures r.Some? ==> artifacts == old(artifacts)[VoiceoverKind := r.value.env.contentHash]
      ensures r.Some? ==>
        var draft := DraftVoiceover(lib, input.episodeId, now, input.scriptRef, input.language);
        r.value == ApprovalOf(lib, draft, draft.body.(voiceApproved := true)) && r.value.body.Voiceover?
    {
      hide Passed, TraceOk, Verifies, Hash, Marshals;
      var drafted := SynthesizeVoiceover(lib, defects.voice, input.episodeId, now, input.scriptRef, input.language);
      if drafted.Err? {
        Fail(VoiceoverFailed, 4);
        return None;
      }
      var voiceover := ApproveVoiceover(lib, drafted.value);
      StampedFinal(lib, drafted.value.As(Approved, drafted.value.body.(voiceApproved := true)));
      StampOf(voiceover);
      Record(VoiceoverApproved);
      r := Some(voiceover);
    }

    method Subtitling(voiceover: Artifact) returns (r: Option<Artifact>)
      requires Marshals(lib) && Passed(trace, 4) && voiceover.body.Voiceover?
      modifies this
      ensures r.Some? <==> SubtitleEnd(defects) == None
      ensures r.None? ==> Stopped(SubtitleEnd(defects))
      ensures r.Some? ==> Passed(trace, 5) && Final(lib, r.value, SubtitleKind)
      ensures r.Some? ==> artifacts == old(artifacts)[SubtitleKind := r.value.env.contentHash]
      ensures r.Some? ==>
        var draft := DraftSubtitles(lib, defects.subtitle, input.episodeId, now, voiceover, input.language);
        r.value == ApprovalOf(lib, draft, draft.body.(captionsApproved := true))
    {
      hide SubtitleReasons, Passed, TraceOk, Verifies, Hash, Marshals, FakeHash;
      var drafted := GenerateSubtitles(lib, defects.subtitle, input.episodeId, now, voiceover, input.language);
      if drafted.Err? {
        Fail(SubtitlesFailed, 4);
        return None;
      }
      var subtitles := ApproveSubtitles(lib, drafted.value);
      StampedFinal(lib, drafted.value.As(Approved, drafted.value.body.(captionsApproved := true)));
      StampOf(subtitles);
      SubtitlesOk(lib, defects.subtitle, input.episodeId, now, voiceover, input.language);
      var gate := SubtitleGate(subtitles);
      var blocked := Gate(gate, 4);
      if blocked { return None; }
      Record(SubtitlesApproved);
      r := Some(subtitles);
    }

    /** The render, and the verdict of production QA on it. */
    method Rendering(shots: Artifact, voiceover: Artifact, subtitles: Artifact, platforms: seq<string>)
      returns (r: Option<Artifact>, qaApproved: bool)
      requires Marshals(lib) && Passed(trace, 5) && voiceover.body.Voiceover?
      modifies this
      ensures r.Some? <==> RenderEnd(defects) == None
      ensures r.None? ==> Stopped(RenderEnd(defects))
      ensures r.Some? ==> qaApproved && Passed(trace, 6) && Final(lib, r.value, RenderKind)
      ensures r.Some? ==> artifacts == old(artifacts)[RenderKind := r.value.env.contentHash]
      ensures r.Some? ==>
        var draft := DraftRender(lib, defects.render, input.episodeId, now, shots, voiceover, subtitles, platforms);
        r.value == ApprovalOf(lib, draft, ShortRender(ApprovedOutputs(draft.body.outputs)))
    {
      hide RenderReasons, Passed, TraceOk, Verifies, Hash, Marshals, RenderedOutputs, MeetsTarget, ApprovedOutputs,
        RenderPlatforms;
      qaApproved := false;
      var drafted := RenderShort(lib, defects.render, input.episodeId, now, shots, voiceover, subtitles, platforms);
      if drafted.Err? {
        Fail(RenderFailed, 5);
        return None, false;
      }
      qaApproved := RunProductionQA(drafted.value);
      var render := ApproveRenderOutputs(lib, drafted.value);
      var draft := drafted.value;
      StampedFinal(lib, draft.As(Approved, draft.body.(outputs := ApprovedOutputs(draft.body.outputs))));
      StampOf(render);
      RenderOnFinal(lib, defects.render, input.episodeId, voiceover.body.media.duration, RenderPlatforms(platforms));
      var gate := RenderGate(render, qaApproved);
      var blocked := Gate(gate, 5);
      if blocked { return None, qaApproved; }
      Record(RenderApproved);
      r := Some(render);
    }

    method Bundling(storyboard: Artifact, shots: Artifact, voiceover: Artifact, subtitles: Artifact, render: Artifact)
      returns (bundle: Bundle)
      requires Marshals(lib) && Passed(trace, 6)
      requires Final(lib, storyboard, StoryboardKind) && Final(lib, shots, ShotKind)
      requires Final(lib, voiceover, VoiceoverKind)
      requires Final(lib, subtitles, SubtitleKind) && Final(lib, render, RenderKind)
      modifies this`state, this`artifacts
      ensures Pinned(lib, bundle) && bundle == Bundle(storyboard, shots, voiceover, subtitles, render, bundle.candidate)
      ensures artifacts == old(artifacts)[CandidateKind := bundle.candidate.env.contentHash]
      ensures state == CandidateLocked
    {
      hide Hash, ContentHash.HashOf, Passed, TraceOk;
      var components := [ComponentRefOf(storyboard), ComponentRefOf(shots), ComponentRefOf(voiceover),
                         ComponentRefOf(subtitles), ComponentRefOf(render)];
      var candidate := AssembleProductionCandidate(lib, input.episodeId, input.episodeId + "-cand-001", now,
        components);
      assert candidate.Ok?;
      StampVerifies(lib, Candidate(input.episodeId, input.episodeId + "-cand-001", now, components));
      StampOf(candidate.value);
      Record(CandidateLocked);
      bundle := Bundle(storyboard, shots, voiceover, subtitles, render, candidate.value);
    }

    /** The release approval, the verifiers, and the guarded dry run. */
    method Releasing(bundle: Bundle, approver: string, signal: Signal, qaApproved: bool) returns (done: bool)
      requires Marshals(lib) && Passed(trace, 6) && IsHuman(approver) && qaApproved
      requires bundle.candidate.body.ProductionCandidate?
      requires Reported(artifacts, bundle)
      modifies this
      ensures done <==> ReleaseEnd(defects, input, signal) == None
      ensures !done ==> Stopped(ReleaseEnd(defects, input, signal))
      ensures done ==> state == PublishedDryRunComplete && Passed(trace, 8) && Reported(artifacts, bundle)
    {
      hide Present, ReleaseReasons, VerifierReasons, Passed, TraceOk, IsHuman, IsHumanIdentity, Hash, Marshals,
        DisclosureReasons;
      Record(AwaitingReleaseApproval);
      if signal.decision != "approve" {
        Fail(ReleaseDenied, 6);
        return false;
      }
      var candidateId := bundle.candidate.body.candidateId;
      var built := BuildReleaseApproval(lib, ReleaseInput(
        input.episodeId, candidateId, signal.approver, now, input.platforms, input.visibility, input.scheduledAt,
        input.disclosureRequired, input.disclosure, "production_qa_report.json"));
      if built.Err? {
        Fail(ReleaseBuildFailed, 6);
        return false;
      }
      StampOf(built.value);
      VerifiersOnFinal(approver, signal.approver);
      var verifiers := MultiVerifierGate([approver, signal.approver, "system:production-qa"], 0);
      var blocked := Gate(verifiers, 6);
      if blocked { return false; }
      done := Publishing(bundle, built.value, qaApproved);
    }

    method Publishing(ghost bundle: Bundle, release: Artifact, qaApproved: bool) returns (done: bool)
      requires Passed(trace, 7) && qaApproved && release.body.ReleaseApproval? && Reported(artifacts, bundle)
      requires release.body.platforms == input.platforms && release.body.scheduledAt == input.scheduledAt
      requires release.body.visibility == (if input.visibility == "" then "private" else input.visibility)
      requires release.body.disclosureRequired == input.disclosureRequired
      requires release.body.disclosure == input.disclosure
      requires release.body.humanRelease
      modifies this
      ensures done <==> PublishEnd(defects.publishing, input) == None
      ensures !done ==> Stopped(PublishEnd(defects.publishing, input))
      ensures done ==> state == PublishedDryRunComplete && Passed(trace, 8) && Reported(artifacts, bundle)
    {
      hide Present, ReleaseReasons, Passed, TraceOk, Hash, PublishOk, DraftPublish, DryRunOk;
      var drafted := UploadPostDryRun(lib, defects.publishing, input.episodeId, now, release,
        "production_qa_report.json");
      if drafted.Err? {
        Fail(PublishManifestFailed, 7);
        return false;
      }
      StampOf(drafted.value);
      PublishGateOnDraft(lib, defects.publishing, input, now, release);
      var gate := ReleaseGate(drafted.value, qaApproved, DryRunOk(drafted.value));
      var blocked := Gate(gate, 7);
      if blocked { return false; }
      Record(PublishedDryRunComplete);
      done := true;
    }

    /** Voiceover, subtitles, render and bundle. */
    method Producing(storyboard: Artifact, shots: Artifact, platforms: seq<string>)
      returns (bundle: Option<Bundle>, qaApproved: bool)
      requires Marshals(lib) && Passed(trace, 4)
      requires Final(lib, storyboard, StoryboardKind) && Final(lib, shots, ShotKind)
      requires artifacts == map[StoryboardKind := storyboard.env.contentHash][ShotKind := shots.env.contentHash]
      modifies this
      ensures bundle.Some? <==> ProduceEnd(defects, input) == None
      ensures bundle.None? ==> Stopped(ProduceEnd(defects, input))
      ensures bundle.Some? ==>
        qaApproved && Passed(trace, 6) && Pinned(lib, bundle.value) && Reported(artifacts, bundle.value)
    {
      hide VoiceEnd, SubtitleEnd, RenderEnd, Passed, TraceOk, Final, Marshals, Pinned, Reported, ApprovalOf,
        DraftVoiceover,
        DraftSubtitles, DraftRender, ApprovedOutputs;
      qaApproved := false;
      var voiceover := Voicing();
      if voiceover.None? { return None, false; }
      var subtitles := Subtitling(voiceover.value);
      if subtitles.None? { return None, false; }
      var render;
      render, qaApproved := Rendering(shots, voiceover.value, subtitles.value, platforms);
      if render.None? { return None, qaApproved; }
      var b := Bundling(storyboard, shots, voiceover.value, subtitles.value, render.value);
      AllReported(b);
      PinnedKind(lib, b);
      bundle := Some(b);
    }

    /** A whole run ends published exactly when the condition on its input, its signals and
        the injected defects holds, and otherwise where the first stage stops it. Its gates are
        a prefix of the sequence with only the last possibly blocked, and a completed run pins
        what it reports. */
    method Execute(storyboardSignal: Signal, releaseSignal: Signal) returns (bundle: Option<Bundle>)
      requires Marshals(lib) && state == Started && trace == [] && artifacts == map[]
      modifies this
      ensures state == PublishedDryRunComplete <==> Succeeds(defects, input, storyboardSignal, releaseSignal)
      ensures RunEnd(defects, input, storyboardSignal, releaseSignal) != None ==>
        Stopped(RunEnd(defects, input, storyboardSignal, releaseSignal))
      ensures TraceOk(trace) && (state == BlockedAtGate <==> trace != [] && trace[|trace| - 1].Blocked())
      ensures state == PublishedDryRunComplete <==> Passed(trace, 8)
      ensures bundle.Some? <==> state == PublishedDryRunComplete
      ensures bundle.Some? ==> Pinned(lib, bundle.value) && Reported(artifacts, bundle.value)
    {
      hide StoryboardEnd, ShotEnd, ProduceEnd, ReleaseEnd, Succeeds, Passed, TraceOk, Final, Marshals, IsHuman,
        FinalImages, FinalShots, Pinned, Reported, ApprovalOf, ImportedStoryboard, DraftShots;
      NoEndIff(defects, input, storyboardSignal, releaseSignal);
      NothingPassed();
      var storyboard := Storyboarding(storyboardSignal);
      if storyboard.None? { return None; }
      StoryboardNeeds(defects, input, storyboardSignal);
      ApprovalBody(lib, ImportedStoryboard(lib, input.episodeId, now, input.operator, input.scenes), StoryboardImages(
        "chatgpt_manual", input.operator, FinalImages(lib, input, storyboardSignal.approver, now)));
      var shots := Shooting(storyboard.value, storyboardSignal.approver);
      if shots.None? { return None; }
      var produced, qaApproved := Producing(storyboard.value, shots.value, input.platforms);
      if produced.None? { return None; }
      PinnedKind(lib, produced.value);
      var done := Releasing(produced.value, storyboardSignal.approver, releaseSignal, qaApproved);
      if !done { return None; }
      AllPassed(trace);
      bundle := produced;
    }
  }

  /** The hashes recorded on the way to the bundle. */
  lemma AllReported(b: Bundle)
    ensures var artifacts := map[StoryboardKind := b.storyboard.env.contentHash][ShotKind := b.shots.env.contentHash]
        [VoiceoverKind := b.voiceover.env.contentHash][SubtitleKind := b.subtitles.env.contentHash]
        [RenderKind := b.render.env.contentHash][CandidateKind := b.candidate.env.contentHash];
      Reported(artifacts, b)
  {}

  lemma PinnedKind(lib: Library, b: Bundle)
    requires Pinned(lib, b)
    ensures b.candidate.body.ProductionCandidate?
  {
    hide Final, Verifies;
  }

  lemma EndOfStoryboard(defects: Defects, input: Input, signal: Signal)
    ensures ImportEnd(defects, input).Some? ==> StoryboardEnd(defects, input, signal) == ImportEnd(defects, input)
    ensures ImportEnd(defects, input).None? ==>
      StoryboardEnd(defects, input, signal)
      == if signal.decision != "approve" then Some(End(StoryboardRejected, 1)) else ApprovalEnd(input, signal)
  {}

  lemma OverwrittenKey(m: map<Kind, string>, k: Kind, h: string, r: Option<Artifact>)
    ensures r.Some? ==> m[k := h][k := r.value.env.contentHash] == m[k := r.value.env.contentHash]
  {}

  lemma NothingPassed()
    ensures Passed([], 0)
  {}

  lemma AllPassed(trace: seq<Outcome>)
    requires Passed(trace, 8)
    ensures TraceOk(trace) && trace != [] && !trace[|trace| - 1].Blocked()
  {}

  lemma StoryboardNeeds(defects: Defects, input: Input, signal: Signal)
    requires StoryboardEnd(defects, input, signal) == None
    ensures input.scenes != [] && IsHuman(signal.approver)
  {
    hide Present, IsHuman, Sourced;
  }

  predicate PublishOk(defect: Defect, input: Input) {
    && input.platforms != [] && (input.visibility == "" || Present(input.visibility))
    && (input.visibility == "scheduled" ==> Present(input.scheduledAt))
    && (input.disclosureRequired ==> Present(input.disclosure) && defect != MissingDisclosure)
  }

  lemma PresentNotEmpty(s: string)
    ensures Present(s) ==> s != ""
  {}

  lemma PublishGateOnDraft(lib: Library, defect: Defect, input: Input, now: int, release: Artifact)
    requires release.body.ReleaseApproval?
    requires release.body.platforms == input.platforms && release.body.scheduledAt == input.scheduledAt
    requires release.body.visibility == (if input.visibility == "" then "private" else input.visibility)
    requires release.body.disclosureRequired == input.disclosureRequired && release.body.disclosure == input.disclosure
    requires release.body.humanRelease
    ensures var m := Stamped(lib, DraftPublish(defect, input.episodeId, now, release, "production_qa_report.json"));
      m.body.PublishManifest? && m.Kind() == PublishKind
      && (ReleaseReasons(m.body, true, DryRunOk(m)) == [] <==> PublishOk(defect, input))
  {
    hide Present, ReleaseReasons, Hash;
    var m := Stamped(lib, DraftPublish(defect, input.episodeId, now, release, "production_qa_report.json"));
    ReleasePasses(m.body, true, DryRunOk(m));
    PresentWord("private");
    PresentNotEmpty(input.disclosure);
    PresentNotEmpty("");
    PresentNotEmpty(input.visibility);
  }
}
