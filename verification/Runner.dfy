/** internal/shortform/runner/runner.go: the demo run of the pipeline in one process. */
module Runner {
  import opened Text
  import opened Json
  import opened ShortForm
  import opened Gates
  import opened Providers
  import opened Workflow

  datatype Injection = NoInjection | UnapprovedStoryboard | NoAudio | DeniedRelease | OtherInjection(name: string)

  datatype Config = Config(
    episodeId: string, inject: Injection, storyboardApprover: string, releaseApprover: string, scenes: seq<SceneSpec>)

  const DEFAULT_SCENES := [
    SceneSpec("scene-001", 0.0, 5.0, "hook: what happens after git push"),
    SceneSpec("scene-002", 5.0, 12.0, "explainer: CI pipeline kicks off"),
    SceneSpec("scene-003", 12.0, 20.0, "payoff: deploy and rollback safety")]

  function Scenes(cfg: Config): seq<SceneSpec> {
    if cfg.scenes == [] then DEFAULT_SCENES else cfg.scenes
  }

  function StoryboardApprover(cfg: Config): string {
    if cfg.storyboardApprover == "" then "human:editor" else cfg.storyboardApprover
  }

  function ReleaseApprover(cfg: Config): string {
    if cfg.releaseApprover == "" then "human:reviewer" else cfg.releaseApprover
  }

  function InjectedDefects(inject: Injection): Defects {
    if inject == NoAudio then HEALTHY.(render := RenderNoAudio) else HEALTHY
  }

  const CLAIMS := [ClaimRef("claim-001", ["source-001"])]
  const DISCLOSURE := "AI-generated visuals and synthetic voice."

  /** The fixed inputs of the demo. */
  function DemoInput(cfg: Config): Input {
    Input(if cfg.episodeId == "" then "episode-0001" else cfg.episodeId, Scenes(cfg), "script.md", "research_pack.json",
          true, CLAIMS, ["youtube"], "private", "", true, DISCLOSURE, "en", "operator:ci")
  }

  /** The demo runs to its end exactly in these configurations. */
  predicate Completes(cfg: Config) {
    && cfg.inject != UnapprovedStoryboard && cfg.inject != NoAudio && cfg.inject != DeniedRelease
    && IsHuman(StoryboardApprover(cfg)) && IsHumanIdentity(ReleaseApprover(cfg))
    && forall i | 0 <= i < |Scenes(cfg)| :: ShotDuration(Scenes(cfg)[i].start, Scenes(cfg)[i].end) <= MAX_DURATION
  }

  /** With the approval withheld the run gets past provenance and no further than the
      storyboard image gate. */
  predicate HeldAtStoryboard(trace: seq<Outcome>) {
    |trace| == 2 && trace[0] == Outcome(Provenance, []) && trace[1].gate == StoryboardImage && trace[1].Blocked()
  }

  method RunDemo(
    lib: Library, cfg: Config, now: int) returns (state: State, trace: seq<Outcome>, bundle: Option<Bundle>)
    requires Marshals(lib)
    ensures state == PublishedDryRunComplete <==> Completes(cfg)
    ensures bundle.Some? <==> Completes(cfg)
    ensures bundle.Some? ==> Pinned(lib, bundle.value)
    ensures cfg.inject == UnapprovedStoryboard ==> HeldAtStoryboard(trace)
    ensures cfg.inject != UnapprovedStoryboard ==> TraceOk(trace) && (Completes(cfg) <==> Passed(trace, 8))
  {
    hide *;
    CompletesWhen(cfg);
    var input := DemoInput(cfg);
    if cfg.inject == UnapprovedStoryboard {
      trace := Withheld(lib, cfg, input, now);
      return BlockedAtGate, trace, None;
    }
    var release := Signal(if cfg.inject == DeniedRelease then "deny" else "approve", ReleaseApprover(cfg));
    state, trace, bundle := Drive(lib, InjectedDefects(cfg.inject), input, now, StoryboardApprover(cfg), release);
  }

  /** The stages of the workflow in order; the render goes to two platforms, the release to
      one. */
  method Drive(lib: Library, defects: Defects, input: Input, now: int, approver: string, release: Signal)
    returns (state: State, trace: seq<Outcome>, bundle: Option<Bundle>)
    requires Marshals(lib)
    ensures state == PublishedDryRunComplete <==> Succeeds(defects, input, Signal("approve", approver), release)
    ensures var end := RunEnd(defects, input, Signal("approve", approver), release);
      end.Some? ==> state == end.value.state && |trace| == end.value.gates
    ensures bundle.Some? <==> state == PublishedDryRunComplete
    ensures bundle.Some? ==> Pinned(lib, bundle.value)
    ensures TraceOk(trace) && (state == PublishedDryRunComplete <==> Passed(trace, 8))
  {
    hide StoryboardEnd, ShotEnd, ProduceEnd, ReleaseEnd, Succeeds, Passed, TraceOk, Final, Marshals, IsHuman,
      FinalImages, FinalShots, Pinned, Reported, ApprovalOf, ImportedStoryboard, DraftShots;
    var run := new ShortFormRun(lib, defects, input, now);
    NoEndIff(defects, input, Signal("approve", approver), release);
    NothingPassed();
    var storyboard := run.Storyboarding(Signal("approve", approver));
    if storyboard.None? { return run.state, run.trace, None; }
    StoryboardNeeds(defects, input, Signal("approve", approver));
    ApprovalBody(lib, ImportedStoryboard(lib, input.episodeId, now, input.operator, input.scenes), StoryboardImages(
      "chatgpt_manual", input.operator, FinalImages(lib, input, approver, now)));
    var shots := run.Shooting(storyboard.value, approver);
    if shots.None? { return run.state, run.trace, None; }
    var produced, qaApproved := run.Producing(storyboard.value, shots.value, ["master", "youtube"]);
    if produced.None? { return run.state, run.trace, None; }
    PinnedKind(lib, produced.value);
    var done := run.Releasing(produced.value, approver, release, qaApproved);
    if !done { return run.state, run.trace, None; }
    AllPassed(run.trace);
    return run.state, run.trace, produced;
  }

  method Withheld(lib: Library, cfg: Config, input: Input, now: int) returns (trace: seq<Outcome>)
    requires Marshals(lib) && input == DemoInput(cfg)
    ensures HeldAtStoryboard(trace)
  {
    hide Present, ProvenanceReasons, StoryboardReasons, Marshals, Hash, ImportedImages;
    ProvenancePasses(true, "research_pack.json", CLAIMS);
    PresentWord("research_pack.json");
    var provenance := ProvenanceGate(input.scriptApproved, input.researchPackRef, input.claims);
    var imported := ImportStoryboardImages(lib, Healthy, input.episodeId, now, input.operator, input.scenes);
    var images := StoryboardImageGate(imported.value, SceneIds(input.scenes));
    DraftBlocked(imported.value.body.images, input.operator, SceneIds(input.scenes), lib, input.episodeId,
      input.scenes);
    trace := [provenance, images];
  }

  /** A draft image blocks the storyboard gate. */
  lemma DraftBlocked(
    images: seq<Image>, operator: string, scenes: seq<string>, lib: Library, episodeId: string, specs: seq<SceneSpec>)
    requires images == ImportedImages(lib, episodeId, specs) && specs != [] && scenes == SceneIds(specs)
    ensures StoryboardReasons("chatgpt_manual", operator, images, scenes) != []
  {
    hide Present, FakeHash, ByScene, ImageNotes, ImageOk, Note;
    var byScene := ByScene(images);
    var per := (before: seq<Code>, s: string) => ImageNotes(byScene, before, s);
    var ok := (s: string) => s in byScene && ImageOk(byScene[s]);
    forall b, s
      ensures per(b, s) == [] <==> b == [] && ok(s)
    {
      ImageNotesNone(byScene, b, s);
    }
    OverEmpty(per, ok, Note(Note([], true, SourceNotManual), Present(operator), OperatorMissing), scenes);
    BySceneValues(images, scenes[0]);
    if ok(scenes[0]) {
      DraftNotOk(byScene[scenes[0]]);
    }
  }

  lemma DraftNotOk(image: Image)
    requires image.status == Draft
    ensures !ImageOk(image)
  {}

  lemma CompletesWhen(cfg: Config)
    ensures cfg.inject == UnapprovedStoryboard ==> !Completes(cfg)
    ensures var release := Signal(if cfg.inject == DeniedRelease then "deny" else "approve", ReleaseApprover(cfg));
      cfg.inject != UnapprovedStoryboard ==> (Completes(cfg) <==>
        Succeeds(InjectedDefects(cfg.inject), DemoInput(cfg), Signal("approve", StoryboardApprover(cfg)), release))
  {
    hide Present, IsHuman, IsHumanIdentity, ShotDuration, StoryboardApprover, ReleaseApprover;
    PresentWord("research_pack.json");
    PresentWord("operator:ci");
    PresentWord("private");
    DisclosurePresent();
    assert "deny" != "approve";
  }

  lemma DisclosurePresent()
    ensures Present(DISCLOSURE)
  {
    hide TrimSpace;
    assert DISCLOSURE[0] == 'A';
    PresentAt(DISCLOSURE, 0);
  }
}
