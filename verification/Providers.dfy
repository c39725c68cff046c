/** internal/shortform/providers/mocks.go and internal/shortform/activities: the mock
    providers, with their injected defects, and the activities built on them. */
module Providers {
  import opened Text
  import opened Json
  import opened ShortForm
  import opened Gates

  datatype Defect = Healthy | Error | SubtitleSyncFailed | RenderNoAudio | MissingDisclosure | OtherDefect(name: string)

  datatype Defects = Defects(
    storyboard: Defect, visual: Defect, voice: Defect, subtitle: Defect, render: Defect, publishing: Defect)

  const HEALTHY := Defects(Healthy, Healthy, Healthy, Healthy, Healthy, Healthy)

  datatype SceneSpec = SceneSpec(sceneId: string, start: real, end: real, prompt: string)

  function Terminated(parts: seq<string>): string {
    if parts == [] then "" else Terminated(parts[..|parts| - 1]) + parts[|parts| - 1] + ['\0']
  }

  /** The hash of the parts, each followed by a zero byte. */
  function FakeHash(lib: Library, parts: seq<string>): string {
    "sha256:" + lib.sha(Terminated(parts))
  }

  lemma FakeHashOk(lib: Library, parts: seq<string>)
    requires Marshals(lib)
    ensures IsSha256(FakeHash(lib, parts))
  {
    hide Terminated;
    assert FakeHash(lib, parts)[..|"sha256:"|] == "sha256:";
  }

  function DraftEnvelope(kind: Kind, episodeId: string, createdBy: string, now: int, sources: seq<string>): Envelope {
    Envelope(episodeId, ArtifactId(kind, episodeId), now, createdBy, sources, "", Draft)
  }

  // ----- prompt pack -----

  function PromptOf(scene: SceneSpec): string {
    if scene.prompt == "" then "vertical 9:16 reference image for scene " + scene.sceneId else scene.prompt
  }

  method BuildStoryboardPromptPack(scenes: seq<SceneSpec>) returns (r: Result<seq<string>>)
    ensures r.Ok? <==> scenes != []
    ensures r.Ok? ==> |r.value| == |scenes| && forall i | 0 <= i < |scenes| :: r.value[i] == PromptOf(scenes[i])
  {
    if |scenes| == 0 {
      return Err("prompt pack requires at least one scene");
    }
    var prompts := [];
    for i := 0 to |scenes|
      invariant |prompts| == i && forall j | 0 <= j < i :: prompts[j] == PromptOf(scenes[j])
    {
      prompts := prompts + [PromptOf(scenes[i])];
    }
    r := Ok(prompts);
  }

  // ----- storyboard images -----

  function ImportedImage(lib: Library, episodeId: string, scene: SceneSpec): Image {
    Image(scene.sceneId, "storyboards/" + scene.sceneId + "/v001.png",
          FakeHash(lib, [episodeId, scene.sceneId, "storyboard-image"]), Draft, scene.start, scene.end, false, "", None)
  }

  function ImportedImages(lib: Library, episodeId: string, scenes: seq<SceneSpec>): (images: seq<Image>)
    ensures |images| == |scenes|
  {
    seq(|scenes|, i requires 0 <= i < |scenes| => ImportedImage(lib, episodeId, scenes[i]))
  }

  function ImportedStoryboard(
    lib: Library, episodeId: string, now: int, operator: string, scenes: seq<SceneSpec>): Artifact {
    Artifact(DraftEnvelope(StoryboardKind, episodeId, "system", now, []),
             StoryboardImages("chatgpt_manual", operator, ImportedImages(lib, episodeId, scenes)))
  }

  method ImportStoryboardImages(
    lib: Library, defect: Defect, episodeId: string, now: int, operator: string, scenes: seq<SceneSpec>)
    returns (r: Result<Artifact>)
    ensures r.Ok? <==> defect != Error && scenes != []
    ensures r.Ok? ==> r.value == Stamped(lib, ImportedStoryboard(lib, episodeId, now, operator, scenes))
  {
    hide ImportedImage, Stamped;
    if defect == Error {
      return Err("mock storyboard image provider: injected error");
    }
    if |scenes| == 0 {
      return Err("storyboard import requires at least one scene");
    }
    var images := [];
    for i := 0 to |scenes|
      invariant |images| == i && forall j | 0 <= j < i :: images[j] == ImportedImage(lib, episodeId, scenes[j])
    {
      images := images + [ImportedImage(lib, episodeId, scenes[i])];
    }
    assert images == ImportedImages(lib, episodeId, scenes);
    var manifest := Stamp(lib, Artifact(DraftEnvelope(StoryboardKind, episodeId, "system", now, []),
                                        StoryboardImages("chatgpt_manual", operator, images)));
    r := Ok(manifest);
  }

  // ----- visual shots -----

  function ShotDuration(start: real, end: real): real {
    if end - start <= 0.0 then 5.0 else end - start
  }

  function ShotOf(lib: Library, episodeId: string, image: Image): Shot {
    Shot(image.sceneId, "animate scene " + image.sceneId + " with subtle parallax motion",
         "no on-screen text, no watermark," + " no distortion", image.hash, "shots/" + image.sceneId + "/v001.mp4",
         FakeHash(lib, [episodeId, image.sceneId, "visual-shot"]), ShotDuration(image.start, image.end), false)
  }

  function ShotsOf(lib: Library, episodeId: string, images: seq<Image>): (shots: seq<Shot>)
    ensures |shots| == |images|
  {
    seq(|images|, i requires 0 <= i < |images| => ShotOf(lib, episodeId, images[i]))
  }

  function DraftShots(lib: Library, episodeId: string, now: int, storyboard: Artifact): Artifact
    requires storyboard.body.StoryboardImages?
  {
    Artifact(DraftEnvelope(ShotKind, episodeId, "model:seedance-mock", now, [storyboard.env.artifactId]),
             VisualShots("mock", ShotsOf(lib, episodeId, storyboard.body.images)))
  }

  method GenerateShots(lib: Library, defect: Defect, episodeId: string, now: int, storyboard: Artifact)
    returns (r: Result<Artifact>)
    requires storyboard.body.StoryboardImages?
    ensures r.Ok? <==> defect != Error && storyboard.body.images != []
    ensures r.Ok? ==> r.value == Stamped(lib, DraftShots(lib, episodeId, now, storyboard))
  {
    hide ShotOf, Stamped;
    if defect == Error {
      return Err("mock visual video provider: injected error");
    }
    var images := storyboard.body.images;
    if |images| == 0 {
      return Err("visual shot generation requires storyboard images");
    }
    var shots := [];
    for i := 0 to |images|
      invariant |shots| == i && forall j | 0 <= j < i :: shots[j] == ShotOf(lib, episodeId, images[j])
    {
      shots := shots + [ShotOf(lib, episodeId, images[i])];
    }
    assert shots == ShotsOf(lib, episodeId, images);
    var manifest := Stamp(lib, Artifact(
      DraftEnvelope(ShotKind, episodeId, "model:seedance-mock", now, [storyboard.env.artifactId]),
        VisualShots("mock", shots)));
    r := Ok(manifest);
  }

  // ----- voice -----

  function DraftVoiceover(lib: Library, episodeId: string, now: int, scriptRef: string, language: string): Artifact {
    Artifact(DraftEnvelope(VoiceoverKind, episodeId, "model:elevenlabs-mock", now, [scriptRef]),
             Voiceover(scriptRef, if language == "" then "en" else language,
                       Media("voice/voiceover.mp3", FakeHash(lib, [episodeId, "voiceover"]), 42.0), false))
  }

  method SynthesizeVoiceover(
    lib: Library, defect: Defect, episodeId: string, now: int, scriptRef: string, language: string)
    returns (r: Result<Artifact>)
    ensures r.Ok? <==> defect != Error && scriptRef != ""
    ensures r.Ok? ==> r.value == Stamped(lib, DraftVoiceover(lib, episodeId, now, scriptRef, language))
  {
    hide Stamped, DraftVoiceover;
    if defect == Error {
      return Err("mock voice provider: injected error");
    }
    if scriptRef == "" {
      return Err("voiceover requires a source script reference");
    }
    var manifest := Stamp(lib, DraftVoiceover(lib, episodeId, now, scriptRef, language));
    r := Ok(manifest);
  }

  // ----- subtitles -----

  function DraftSubtitles(
    lib: Library, defect: Defect, episodeId: string, now: int, voiceover: Artifact, language: string): (r: Artifact)
    requires voiceover.body.Voiceover?
    ensures r.body.Subtitles?
  {
    Artifact(DraftEnvelope(SubtitleKind, episodeId, "model:faster-whisper-mock", now, [voiceover.env.artifactId]),
             Subtitles(if language == "" then voiceover.body.language else language,
                       "subtitles/transcript.json", FakeHash(lib, [episodeId, "transcript"]),
                       "subtitles/captions.srt", "subtitles/captions.ass",
                       Checks(true, true, defect != SubtitleSyncFailed), false))
  }

  method GenerateSubtitles(
    lib: Library, defect: Defect, episodeId: string, now: int, voiceover: Artifact, language: string)
    returns (r: Result<Artifact>)
    requires voiceover.body.Voiceover?
    ensures r.Ok? <==> defect != Error
    ensures r.Ok? ==> r.value == Stamped(lib, DraftSubtitles(lib, defect, episodeId, now, voiceover, language))
  {
    hide Stamped, DraftSubtitles;
    if defect == Error {
      return Err("mock subtitle provider: injected error");
    }
    var manifest := Stamp(lib, DraftSubtitles(lib, defect, episodeId, now, voiceover, language));
    r := Ok(manifest);
  }

  // ----- render -----

  function RenderedOutput(lib: Library, defect: Defect, episodeId: string, duration: real, platform: string): Output {
    Output(platform, "renders/" + platform + ".mp4", FakeHash(lib, [episodeId, platform, "render"]),
           TARGET_RESOLUTION, TARGET_ASPECT, TARGET_FPS, defect != RenderNoAudio, true, duration, Draft)
  }

  function RenderedOutputs(
    lib: Library, defect: Defect, episodeId: string, duration: real, platforms: seq<string>): (outputs: seq<Output>)
    ensures |outputs| == |platforms|
  {
    seq(|platforms|, i requires 0 <= i < |platforms| => RenderedOutput(lib, defect, episodeId, duration, platforms[i]))
  }

  function RenderPlatforms(platforms: seq<string>): (p: seq<string>)
    ensures p != []
  {
    if platforms == [] then ["master"] else platforms
  }

  function DraftRender(
    lib: Library, defect: Defect, episodeId: string, now: int, shots: Artifact, voiceover: Artifact,
    subtitles: Artifact,
    platforms: seq<string>): Artifact
    requires voiceover.body.Voiceover?
  {
    Artifact(DraftEnvelope(RenderKind, episodeId, "system", now,
                           [shots.env.artifactId, voiceover.env.artifactId, subtitles.env.artifactId]),
             ShortRender(RenderedOutputs(
               lib, defect, episodeId, voiceover.body.media.duration, RenderPlatforms(platforms))))
  }

  method RenderShort(
    lib: Library, defect: Defect, episodeId: string, now: int, shots: Artifact, voiceover: Artifact,
    subtitles: Artifact,
    platforms: seq<string>) returns (r: Result<Artifact>)
    requires voiceover.body.Voiceover?
    ensures r.Ok? <==> defect != Error
    ensures r.Ok? ==>
      r.value == Stamped(lib, DraftRender(lib, defect, episodeId, now, shots, voiceover, subtitles, platforms))
  {
    hide RenderedOutput, Stamped;
    if defect == Error {
      return Err("mock render provider: injected error");
    }
    var duration := voiceover.body.media.duration;
    var all := RenderPlatforms(platforms);
    var outputs := [];
    for i := 0 to |all|
      invariant |outputs| == i && forall j | 0 <= j < i ::
        outputs[j] == RenderedOutput(lib, defect, episodeId, duration, all[j])
    {
      outputs := outputs + [RenderedOutput(lib, defect, episodeId, duration, all[i])];
    }
    assert outputs == RenderedOutputs(lib, defect, episodeId, duration, all);
    var manifest := Stamp(lib, Artifact(
      DraftEnvelope(RenderKind, episodeId, "system", now,
                    [shots.env.artifactId, voiceover.env.artifactId, subtitles.env.artifactId]),
      ShortRender(outputs)));
    r := Ok(manifest);
  }

  predicate MeetsTarget(o: Output) {
    && o.audioTrack && o.subtitlesBurned
    && o.resolution == TARGET_RESOLUTION && o.aspect == TARGET_ASPECT && o.fps == TARGET_FPS
  }

  /** Whether production QA approves a render: every output meets the vertical target. */
  method RunProductionQA(m: Artifact) returns (approved: bool)
    requires m.body.ShortRender?
    ensures approved <==> m.body.outputs != [] && forall i | 0 <= i < |m.body.outputs| :: MeetsTarget(m.body.outputs[i])
  {
    var outputs := m.body.outputs;
    if |outputs| == 0 {
      return false;
    }
    var issues: nat := 0;
    for i := 0 to |outputs|
      invariant issues == 0 <==> forall j | 0 <= j < i :: MeetsTarget(outputs[j])
    {
      var o := outputs[i];
      if !o.audioTrack { issues := issues + 1; }
      if !o.subtitlesBurned { issues := issues + 1; }
      if o.resolution != TARGET_RESOLUTION || o.aspect != TARGET_ASPECT || o.fps != TARGET_FPS { issues := issues + 1; }
    }
    approved := issues == 0;
  }

  // ----- publishing -----

  function DraftPublish(defect: Defect, episodeId: string, now: int, release: Artifact, qaRef: string): Artifact
    requires release.body.ReleaseApproval?
  {
    var b := release.body;
    Artifact(DraftEnvelope(PublishKind, episodeId, "system", now, [release.env.artifactId]),
             PublishManifest("dry_run", true, b.platforms, b.visibility, b.scheduledAt, b.disclosureRequired,
                             if defect == MissingDisclosure then "" else b.disclosure, b.humanRelease, qaRef,
                             release.env.artifactId))
  }

  method UploadPostDryRun(lib: Library, defect: Defect, episodeId: string, now: int, release: Artifact, qaRef: string)
    returns (r: Result<Artifact>)
    requires release.body.ReleaseApproval?
    ensures r.Ok? <==> defect != Error
    ensures r.Ok? ==> r.value == Stamped(lib, DraftPublish(defect, episodeId, now, release, qaRef))
  {
    hide Stamped, DraftPublish;
    if defect == Error {
      return Err("mock publishing provider: injected error");
    }
    var manifest := Stamp(lib, DraftPublish(defect, episodeId, now, release, qaRef));
    r := Ok(manifest);
  }

  /** PublishDryRun */
  predicate DryRunOk(m: Artifact)
    requires m.body.PublishManifest?
  {
    var b := m.body;
    && b.mode == "dry_run" && b.dryRun && b.humanRelease && b.qaRef != "" && b.platforms != [] && b.visibility != ""
    && (b.disclosureRequired ==> b.disclosure != "")
  }

  // ----- what the gates find in what the providers make -----

  lemma ImportedImageOk(lib: Library, episodeId: string, scene: SceneSpec, approver: string, now: int)
    requires Marshals(lib)
    ensures ImageOk(ApprovedImage(ImportedImage(lib, episodeId, scene), approver, now))
  {
    hide Present, FakeHash, IsSha256;
    PresentWord("storyboards/" + scene.sceneId + "/v001.png");
    FakeHashOk(lib, [episodeId, scene.sceneId, "storyboard-image"]);
  }

  lemma ShotOfOk(lib: Library, episodeId: string, image: Image, approvedHashes: set<string>, knownScenes: set<string>)
    requires Marshals(lib) && image.hash in approvedHashes && image.sceneId in knownScenes
    ensures ShotOk(approvedHashes, knownScenes, ShotOf(lib, episodeId, image).(operatorApproval := true))
      <==> ShotDuration(image.start, image.end) <= MAX_DURATION
  {
    hide Present, FakeHash, IsSha256;
    PresentWord("animate scene " + image.sceneId + " with subtle parallax motion");
    PresentWord("no on-screen text, no watermark," + " no distortion");
    PresentWord("shots/" + image.sceneId + "/v001.mp4");
    FakeHashOk(lib, [episodeId, image.sceneId, "visual-shot"]);
  }

  lemma SubtitlesOk(lib: Library, defect: Defect, episodeId: string, now: int, voiceover: Artifact, language: string)
    requires Marshals(lib) && voiceover.body.Voiceover?
    ensures var b := DraftSubtitles(lib, defect, episodeId, now, voiceover, language).body;
      b.Subtitles? && (SubtitleReasons(b.(captionsApproved := true)) == [] <==> defect != SubtitleSyncFailed)
  {
    hide Present, FakeHash, IsSha256, Note;
    PresentWord("subtitles/transcript.json");
    PresentWord("subtitles/captions.srt");
    FakeHashOk(lib, [episodeId, "transcript"]);
  }

  lemma RenderedOutputOk(lib: Library, defect: Defect, episodeId: string, duration: real, platform: string)
    requires Marshals(lib)
    ensures var o := RenderedOutput(lib, defect, episodeId, duration, platform);
      && (MeetsTarget(o) <==> defect != RenderNoAudio)
      && (OutputOk(o.(status := Approved)) <==> defect != RenderNoAudio)
  {
    hide Present, FakeHash, IsSha256;
    PresentWord("renders/" + platform + ".mp4");
    FakeHashOk(lib, [episodeId, platform, "render"]);
  }
}
