/** internal/shortform/pilot: what a restart cannot undo, and what Status does not see. */
module PilotFate {
  import opened Text
  import opened Json
  import opened Pilot
  import opened PilotCourse
  import opened PilotRuns
  import opened PilotStages
  import opened PilotHealth

  // ----- a new workspace -----

  /** A workspace that has just been made is recoverable. */
  lemma FreshRecovers(lib: Library, m: Manifest, out: Outside)
    requires Healthy(lib, m, out)
    ensures Recoverable(lib, m, out, Created(lib, map[], m)) && Releases(lib, Created(lib, map[], m), out)
  {
    hide Healthy, Releases, Output, Grown;
    OutputInDist(m.episodeId);
    RecoversIff(lib, m, out, Created(lib, map[], m));
  }

  const HASH: string := "sha256:" + seq(64, i => '0')

  /** Working commands, with the schema checks as they are. */
  lemma HealthyExample() returns (lib: Library, m: Manifest, out: Outside)
    ensures Healthy(lib, m, out) && !lib.valid(VisualDoc([]))
    ensures m.status == Generated && m.updatedAt == out.now
  {
    lib := Library(s => HASH, (p, m, s) => s, d => "", p => "wav", s => true, d => SchemaFine(d));
    m := Manifest(
      "e", Generated, 0, "", 45.0, "external-command", "external-command", "script-timing", "ffmpeg", Api);
    var passing := Review(SCHEMA_VERSION, "e", "pass", [], "", true, true, false, "");
    var shots := seq(3, i requires 0 <= i < 3 =>
      VisualOutput(ShotRequests(m)[i].shotId, "generated", Some(In(VisualDir, "a")), "", 1.0, 1080, 1920, 30));
    out := Outside(
      0, Some(passing), Some(passing), Command(true, map["a" := ""], {}, Some(VisualAnswer(true, shots))),
      Command(true, map["a" := ""], {}, Some(VoiceAnswer(true, Some(In(AudioDir, "a")), "", 1.0, 0))),
      Command(false, map[], {}, None), true, true, Some(""), Some(Probe(1080, 1920, true, 1.0)));
    hide ShotRequests;
    assert IsContentHash(HASH);
  }

  // ----- workspaces that are lost -----

  /** A rendered output without its manifest. */
  predicate Stray(files: Files, episodeId: string) {
    RenderManifestFile !in files && Output(episodeId) in files
  }

  /** Half of the script pair. */
  predicate HalfPair(files: Files) {
    ScriptFile in files <==> ScriptManifestFile !in files
  }

  predicate Dead(files: Files) {
    && EpisodeFile in files && files[EpisodeFile].EpisodeDoc?
    && (HalfPair(files) || Stray(files, EpisodeId(files)))
  }

  lemma StrayAlike(a: Files, b: Files, episodeId: string)
    requires Alike(a, b, RenderManifestFile) && Alike(a, b, Output(episodeId))
    ensures Stray(a, episodeId) <==> Stray(b, episodeId)
  {
    hide Output;
  }

  /** No stage but the render makes an output or a render manifest. */
  lemma StrayFrame(lib: Library, m: Manifest, out: Outside, own: Path, files: Files)
    requires own != RenderManifestFile && !own.In?
    ensures Stray(Final(After(lib, m, out, own, files)), m.episodeId) <==> Stray(files, m.episodeId)
    ensures Stray(Prepared(lib, m, out, own, files), m.episodeId) <==> Stray(files, m.episodeId)
  {
    hide Output, After, Prepared, Stray;
    OutputInDist(m.episodeId);
    AfterFrame(lib, m, out, own, files, RenderManifestFile);
    AfterFrame(lib, m, out, own, files, Output(m.episodeId));
    PreparedFrame(lib, m, out, own, files, RenderManifestFile);
    PreparedFrame(lib, m, out, own, files, Output(m.episodeId));
    StrayAlike(files, Final(After(lib, m, out, own, files)), m.episodeId);
    StrayAlike(files, Prepared(lib, m, out, own, files), m.episodeId);
  }

  predicate Stages(stages: seq<Path>) {
    forall i | 0 <= i < |stages| :: !stages[i].In? && stages[i] != EpisodeFile && stages[i] != AuditFile
  }

  /** A stray output is never rendered over: no phase gets past the render, and the output
      stays. */
  lemma {:induction false} StrayRun(
    lib: Library, m: Manifest, out: Outside, stages: seq<Path>, n: nat, start: Files)
    requires n <= |stages| && Stages(stages) && Stray(start, m.episodeId)
    ensures var course := Run(lib, m, out, stages, n, start);
      && Stray(Final(course), m.episodeId)
      && (course.Reached? ==> forall i | 0 <= i < n :: stages[i] != RenderManifestFile)
  {
    hide After, Output;
    if n > 0 {
      StrayRun(lib, m, out, stages, n - 1, start);
      var course := Run(lib, m, out, stages, n - 1, start);
      if course.Reached? {
        if stages[n - 1] == RenderManifestFile {
          StrayRender(lib, m, out, course.files);
        } else {
          StrayFrame(lib, m, out, stages[n - 1], course.files);
        }
      }
    }
  }

  lemma StrayRender(lib: Library, m: Manifest, out: Outside, files: Files)
    requires Stray(files, m.episodeId)
    ensures After(lib, m, out, RenderManifestFile, files) == StuckAt(RenderManifestFile, files, files)
  {
    hide Output, RenderInputs, Rendered;
  }

  lemma EpisodeStays(lib: Library, m: Manifest, out: Outside, stages: seq<Path>, start: Files)
    requires Stages(stages)
    ensures Alike(start, Final(Phase(lib, m, out, stages, start)), EpisodeFile)
  {
    hide Run;
    RunFrame(lib, m, out, stages, |stages|, start, EpisodeFile);
  }

  lemma PhaseLists()
    ensures Stages(SCRIPT_STAGES) && Stages(PRODUCE_STAGES) && Stages(RELEASE_STAGES)
    ensures RenderManifestFile in PRODUCE_STAGES && |PRODUCE_STAGES| == 7 && PRODUCE_STAGES[4] == RenderManifestFile
    ensures |SCRIPT_STAGES| == 3 && SCRIPT_STAGES[0] == ScriptManifestFile
    ensures RenderManifestFile !in SCRIPT_STAGES && RenderManifestFile !in PRODUCE_STAGES[..4]
  {}

  lemma MarkedStray(files: Files, status: Status, now: int, episodeId: string)
    ensures Stray(Marked(files, status, now), episodeId) <==> Stray(files, episodeId)
  {
    OutputInDist(episodeId);
    hide Output;
  }

  /** A restart of a workspace with a stray output leaves it there and does not release. */
  lemma StrayRestart(lib: Library, files: Files, out: Outside)
    requires EpisodeFile in files && files[EpisodeFile].EpisodeDoc? && Stray(files, EpisodeId(files))
    ensures var ending := EndingOf(lib, files, out);
      && (ending.Failed? || (ending.Ended? && ending.status == NeedsReview))
      && var after := Resumed(lib, files, out).0;
      && EpisodeFile in after && after[EpisodeFile].EpisodeDoc? && EpisodeId(after) == EpisodeId(files)
      && Stray(after, EpisodeId(after))
  {
    hide Phase, Stray, ScriptIssue, FinalIssue, Stages, Marked, Report, SCRIPT_STAGES, PRODUCE_STAGES, RELEASE_STAGES;
    var m := files[EpisodeFile].manifest;
    PhaseLists();
    StrayPhase(lib, m, out, SCRIPT_STAGES, files);
    var script := Phase(lib, m, out, SCRIPT_STAGES, files);
    if script.Reached? {
      MarkedStray(script.files, NeedsReview, out.now, m.episodeId);
      MarkedEpisode(script.files, NeedsReview, out.now);
      StrayPhase(lib, m, out, PRODUCE_STAGES, script.files);
    }
  }

  lemma MarkedEpisode(files: Files, status: Status, now: int)
    requires EpisodeFile in files && files[EpisodeFile].EpisodeDoc?
    ensures var after := Marked(files, status, now);
      EpisodeFile in after && after[EpisodeFile].EpisodeDoc? && EpisodeId(after) == EpisodeId(files)
  {}

  lemma StrayPhase(lib: Library, m: Manifest, out: Outside, stages: seq<Path>, start: Files)
    requires Stages(stages) && Stray(start, m.episodeId)
    ensures var course := Phase(lib, m, out, stages, start);
      && Stray(Final(course), m.episodeId) && Alike(start, Final(course), EpisodeFile)
      && (course.Reached? ==> RenderManifestFile !in stages)
  {
    hide Run, Stray, Stages;
    StrayRun(lib, m, out, stages, |stages|, start);
    EpisodeStays(lib, m, out, stages, start);
  }

  lemma HalfRestart(lib: Library, files: Files, out: Outside)
    requires EpisodeFile in files && files[EpisodeFile].EpisodeDoc? && HalfPair(files)
    ensures EndingOf(lib, files, out) == Failed(ScriptManifestFile, files, files)
  {
    hide After, Run, ScriptIssue, FinalIssue;
    var m := files[EpisodeFile].manifest;
    PhaseLists();
    RunStart(lib, m, out, SCRIPT_STAGES, files);
    ScriptPair(lib, m, out, files);
    HalfStuck(lib, m, out, files);
  }

  lemma HalfStuck(lib: Library, m: Manifest, out: Outside, files: Files)
    requires After(lib, m, out, ScriptManifestFile, files) == StuckAt(ScriptManifestFile, files, files)
    ensures Phase(lib, m, out, SCRIPT_STAGES, files) == StuckAt(ScriptManifestFile, files, files)
  {
    hide After;
    assert Run(lib, m, out, SCRIPT_STAGES, 0, files) == Reached(files);
    assert Run(lib, m, out, SCRIPT_STAGES, 1, files) == StuckAt(ScriptManifestFile, files, files);
    StaysStuck(lib, m, out, SCRIPT_STAGES, 1, |SCRIPT_STAGES|, files);
  }

  /** A restart of a lost workspace leaves it lost, and is never ready. */
  lemma DeadRestart(lib: Library, files: Files, out: Outside)
    requires Dead(files)
    ensures var (after, r) := Resumed(lib, files, out);
      Dead(after) && !(r.Some? && r.value.ready) && !Releases(lib, files, out)
  {
    hide EndingOf, Stray, Report, ScriptIssue, FinalIssue;
    if HalfPair(files) {
      HalfRestart(lib, files, out);
    } else {
      StrayRestart(lib, files, out);
      NotReleased(lib, files, out);
    }
  }

  lemma NotReleased(lib: Library, files: Files, out: Outside)
    requires var ending := EndingOf(lib, files, out);
      ending.Failed? || (ending.Ended? && ending.status == NeedsReview)
    ensures var (_, r) := Resumed(lib, files, out); !(r.Some? && r.value.ready)
  {
    hide Phase, ScriptIssue, FinalIssue, Report, SCRIPT_STAGES, PRODUCE_STAGES, RELEASE_STAGES;
    var ending := EndingOf(lib, files, out);
    if ending.Ended? && EpisodeFile in ending.files && ending.files[EpisodeFile].EpisodeDoc? {
      BlockedNotReady(lib, ending.files);
    }
  }

  lemma DeadAlike(a: Files, b: Files)
    requires Dead(a) && Alike(a, b, EpisodeFile) && Alike(a, b, ScriptFile) && Alike(a, b, ScriptManifestFile)
    requires Alike(a, b, RenderManifestFile) && Alike(a, b, Output(EpisodeId(a)))
    ensures Dead(b)
  {
    hide Output;
  }

  /** No step brings a lost workspace back. */
  lemma DeadStep(lib: Library, files: Files, step: Step)
    requires Dead(files)
    ensures Dead(StepOf(lib, files, step).0) && !SaysReady(StepOf(lib, files, step).1)
  {
    hide Resumed, Dead, ScriptIssue, FinalIssue, Output, RequestIds, VoicePath, Events, EnvelopeOk;
    DeadEpisode(files);
    var after := StepOf(lib, files, step).0;
    match step {
      case Generate(m, valid, out) => DeadRestart(lib, files, out);
      case Restart(out) => DeadRestart(lib, files, out);
      case _ =>
        OutputInDist(EpisodeId(files));
        VoiceInAudio(step);
        DeadAlike(files, after);
    }
  }

  lemma VoiceInAudio(step: Step)
    ensures step.GiveVoice? ==> VoicePath(step.ext).In? && VoicePath(step.ext).dir == AudioDir
  {}

  lemma DeadEpisode(files: Files)
    requires Dead(files)
    ensures EpisodeFile in files && files[EpisodeFile].EpisodeDoc?
  {}

  /** A lost workspace is never released again, whatever is run or imported, and whatever the
      commands answer. */
  lemma {:induction false} NeverReleased(lib: Library, files: Files, steps: seq<Step>, next: Step)
    requires Dead(files)
    ensures Dead(Played(lib, files, steps))
    ensures !SaysReady(StepOf(lib, Played(lib, files, steps), next).1)
  {
    hide StepOf, Dead, SaysReady;
    if steps != [] {
      NeverReleased(lib, files, steps[..|steps| - 1], steps[|steps| - 1]);
      DeadStep(lib, Played(lib, files, steps[..|steps| - 1]), steps[|steps| - 1]);
    }
    DeadStep(lib, Played(lib, files, steps), next);
  }

  // ----- how a workspace is lost -----

  /** Where no output is stray, none is after a stage that came to its end; one that fails
      leaves a stray output exactly when it is a render whose encoder ran and wrote one. */
  lemma {:induction false} StrayMade(
    lib: Library, m: Manifest, out: Outside, stages: seq<Path>, n: nat, start: Files)
    requires n <= |stages| && Stages(stages) && !Stray(start, m.episodeId)
    ensures match Run(lib, m, out, stages, n, start)
      case Reached(files) => !Stray(files, m.episodeId)
      case StuckAt(own, before, left) => Stray(left, m.episodeId) <==> LeavesOutput(m, out, own, before)
  {
    hide After, Stray, LeavesOutput;
    if n > 0 {
      StrayMade(lib, m, out, stages, n - 1, start);
      var course := Run(lib, m, out, stages, n - 1, start);
      if course.Reached? {
        StageStray(lib, m, out, stages[n - 1], course.files);
      }
    }
  }

  /** The render runs the encoder, which writes an output. */
  predicate LeavesOutput(m: Manifest, out: Outside, own: Path, before: Files) {
    own == RenderManifestFile && RenderStarts(before, m, out) && out.output.Some?
  }

  lemma StageStray(lib: Library, m: Manifest, out: Outside, own: Path, files: Files)
    requires !own.In? && !Stray(files, m.episodeId)
    ensures match After(lib, m, out, own, files)
      case Reached(after) => !Stray(after, m.episodeId)
      case StuckAt(own', before, left) => Stray(left, m.episodeId) <==> LeavesOutput(m, out, own', before)
  {
    hide Output, RenderInputs, Rendered;
    if own == RenderManifestFile {
      RenderStray(lib, m, out, files);
    } else {
      hide After, Prepared;
      StrayFrame(lib, m, out, own, files);
      StuckOwn(lib, m, out, own, files);
    }
  }

  lemma StuckOwn(lib: Library, m: Manifest, out: Outside, own: Path, files: Files)
    ensures After(lib, m, out, own, files).StuckAt? ==>
      After(lib, m, out, own, files) == StuckAt(own, files, Prepared(lib, m, out, own, files))
  {
    hide StageReady, Prepared, Document;
  }

  lemma RenderStray(lib: Library, m: Manifest, out: Outside, files: Files)
    requires !Stray(files, m.episodeId)
    ensures match After(lib, m, out, RenderManifestFile, files)
      case Reached(after) => !Stray(after, m.episodeId)
      case StuckAt(own, before, left) => Stray(left, m.episodeId) <==> LeavesOutput(m, out, own, before)
  {
    hide Output, RenderInputs, Rendered, After, Document, Events;
    OutputInDist(m.episodeId);
    CommandStages(lib, m, out, RenderManifestFile, files);
  }

  /** A restart leaves a stray output behind exactly when it fails at a render whose encoder
      wrote one. */
  lemma StrayIff(lib: Library, files: Files, out: Outside)
    requires EpisodeFile in files && files[EpisodeFile].EpisodeDoc? && !Stray(files, EpisodeId(files))
    ensures var m, ending := files[EpisodeFile].manifest, EndingOf(lib, files, out);
      Stray(Resumed(lib, files, out).0, m.episodeId)
      <==> ending.Failed? && LeavesOutput(m, out, ending.own, ending.before)
  {
    hide Run, Stray, ScriptIssue, FinalIssue, Stages, Marked, Report, SCRIPT_STAGES, PRODUCE_STAGES, RELEASE_STAGES,
      LeavesOutput;
    var m := files[EpisodeFile].manifest;
    PhaseLists();
    StrayMade(lib, m, out, SCRIPT_STAGES, |SCRIPT_STAGES|, files);
    var script := Phase(lib, m, out, SCRIPT_STAGES, files);
    if script.Reached? {
      MarkedStray(script.files, NeedsReview, out.now, m.episodeId);
      StrayMade(lib, m, out, PRODUCE_STAGES, |PRODUCE_STAGES|, script.files);
      var produce := Phase(lib, m, out, PRODUCE_STAGES, script.files);
      if produce.Reached? {
        MarkedStray(produce.files, ReleaseBlocked, out.now, m.episodeId);
        StrayMade(lib, m, out, RELEASE_STAGES, |RELEASE_STAGES|, produce.files);
        var release := Phase(lib, m, out, RELEASE_STAGES, produce.files);
        NotRender(lib, m, out, RELEASE_STAGES, produce.files);
        MarkedStray(Final(release), ReleaseCandidate, out.now, m.episodeId);
      }
    }
  }

  lemma NotRender(lib: Library, m: Manifest, out: Outside, stages: seq<Path>, start: Files)
    ensures Phase(lib, m, out, stages, start).StuckAt? ==> Phase(lib, m, out, stages, start).own in stages
  {
    if Phase(lib, m, out, stages, start).StuckAt? {
      var k := StuckMeans(lib, m, out, stages, |stages|, start);
    }
  }

  /** No stage before the render looks at the encoder's exit or at the probe. */
  lemma {:induction false} SameBefore(
    lib: Library, m: Manifest, out: Outside, renderOk: bool, probe: Option<Probe>, stages: seq<Path>, n: nat,
    start: Files)
    requires n <= |stages| && RenderManifestFile !in stages[..n]
    ensures Run(lib, m, out.(renderOk := renderOk, probe := probe), stages, n, start)
      == Run(lib, m, out, stages, n, start)
  {
    hide After;
    if n > 0 {
      assert forall i | 0 <= i < n :: stages[i] in stages[..n];
      assert forall p | p in stages[..n - 1] :: p in stages[..n];
      SameBefore(lib, m, out, renderOk, probe, stages, n - 1, start);
      var course := Run(lib, m, out, stages, n - 1, start);
      if course.Reached? {
        SameStage(lib, m, out, renderOk, probe, stages[n - 1], course.files);
      }
    }
  }

  lemma SameStage(
    lib: Library, m: Manifest, out: Outside, renderOk: bool, probe: Option<Probe>, own: Path, files: Files)
    requires own != RenderManifestFile
    ensures After(lib, m, out.(renderOk := renderOk, probe := probe), own, files) == After(lib, m, out, own, files)
  {
    hide Audited, Records, VisualAccepted, Into, SubtitleRecord, Timed, RenderReady;
  }

  /** A recoverable workspace that a restart would have released is lost when, with the same
      commands otherwise, the encoder writes an output and then fails or its output does not
      pass. */
  lemma FailedRender(
    lib: Library, m: Manifest, out: Outside, renderOk: bool, probe: Option<Probe>, files: Files)
    requires Inv(files) && EpisodeFile in files && files[EpisodeFile] == EpisodeDoc(m) && Healthy(lib, m, out)
    requires Recoverable(lib, m, out, files) && RenderManifestFile !in files
    requires !Rendered(lib, Output(m.episodeId), out.(renderOk := renderOk, probe := probe))
    ensures Releases(lib, files, out)
    ensures var (after, r) := Resumed(lib, files, out.(renderOk := renderOk, probe := probe)); r.None? && Dead(after)
  {
    hide Inv, Recoverable, Healthy, Run, Rendered, ScriptIssue, FinalIssue, Marked, Report, Output;
    hide SCRIPT_STAGES, PRODUCE_STAGES, RELEASE_STAGES;
    var bad := out.(renderOk := renderOk, probe := probe);
    PhaseLists();
    NotStrayYet(lib, m, out, files);
    RecoversIff(lib, m, out, files);
    var script := Phase(lib, m, out, SCRIPT_STAGES, files);
    var scripted := script.files;
    assert SCRIPT_STAGES[..3] == SCRIPT_STAGES;
    SameBefore(lib, m, out, renderOk, probe, SCRIPT_STAGES, 3, files);
    SameBefore(lib, m, out, renderOk, probe, PRODUCE_STAGES, 4, scripted);
    RenderKept(lib, m, out, files, scripted);
    RenderBreaks(lib, m, out, bad, scripted);
    EpisodeStays(lib, m, bad, SCRIPT_STAGES, files);
    EpisodeStays(lib, m, bad, PRODUCE_STAGES, scripted);
    StrayIff(lib, files, bad);
    DeadMade(Resumed(lib, files, bad).0, m);
  }

  lemma NotStrayYet(lib: Library, m: Manifest, out: Outside, files: Files)
    requires Recoverable(lib, m, out, files) && RenderManifestFile !in files && Healthy(lib, m, out)
    ensures !Stray(files, m.episodeId) && out.output.Some?
  {
    hide Output, Grown, TextViable, AsksFor, VisualIn, VoiceIn, VisualHealthy, VoiceHealthy, SubtitleHealthy, Checks;
  }

  lemma DeadMade(files: Files, m: Manifest)
    requires EpisodeFile in files && files[EpisodeFile] == EpisodeDoc(m) && Stray(files, m.episodeId)
    ensures Dead(files)
  {
    hide Output;
  }

  lemma RenderKept(lib: Library, m: Manifest, out: Outside, files: Files, scripted: Files)
    requires Phase(lib, m, out, SCRIPT_STAGES, files) == Reached(scripted) && RenderManifestFile !in files
    ensures RenderManifestFile !in scripted
  {
    hide Run;
    RunFrame(lib, m, out, SCRIPT_STAGES, |SCRIPT_STAGES|, files, RenderManifestFile);
  }

  /** Where a healthy render comes to its end, one that is not passed leaves its output. */
  lemma RenderBreaks(lib: Library, m: Manifest, out: Outside, bad: Outside, start: Files)
    requires bad == out.(renderOk := bad.renderOk, probe := bad.probe) && out.output.Some?
    requires RenderManifestFile !in start && !Rendered(lib, Output(m.episodeId), bad)
    requires Phase(lib, m, out, PRODUCE_STAGES, start).Reached?
    requires |PRODUCE_STAGES| == 7
    requires Run(lib, m, bad, PRODUCE_STAGES, 4, start) == Run(lib, m, out, PRODUCE_STAGES, 4, start)
    ensures var course := Phase(lib, m, bad, PRODUCE_STAGES, start);
      course.StuckAt? && LeavesOutput(m, bad, course.own, course.before)
  {
    hide After, Rendered, Output, RenderStarts, PRODUCE_STAGES;
    StageLists();
    var produced := Phase(lib, m, out, PRODUCE_STAGES, start).files;
    if Run(lib, m, out, PRODUCE_STAGES, 5, start).StuckAt? {
      StaysStuck(lib, m, out, PRODUCE_STAGES, 5, 7, start);
    }
    var before := Run(lib, m, out, PRODUCE_STAGES, 4, start).files;
    RunFrame(lib, m, out, PRODUCE_STAGES, 4, start, RenderManifestFile);
    RenderFails(lib, m, out, bad, before);
    StaysStuck(lib, m, bad, PRODUCE_STAGES, 5, 7, start);
  }

  lemma RenderFails(lib: Library, m: Manifest, out: Outside, bad: Outside, files: Files)
    requires bad == out.(renderOk := bad.renderOk, probe := bad.probe)
    requires RenderManifestFile !in files && !Rendered(lib, Output(m.episodeId), bad)
    requires After(lib, m, out, RenderManifestFile, files).Reached?
    ensures RenderStarts(files, m, bad)
    ensures After(lib, m, bad, RenderManifestFile, files)
      == StuckAt(RenderManifestFile, files, Prepared(lib, m, bad, RenderManifestFile, files))
  {
    hide Rendered, Output, Audited, RenderInputs;
  }

  /** From an empty workspace: a run whose render leaves an output that does not pass, after
      which no restart is ready, with whatever commands. */
  method LoseWorkspace(
    lib: Library, m: Manifest, out: Outside, renderOk: bool, probe: Option<Probe>, later: seq<Outside>)
    returns (w: Workspace, first: Option<RunResult>, results: seq<Option<RunResult>>)
    requires Healthy(lib, m.(status := Generated, updatedAt := out.now), out)
    requires !Rendered(lib, Output(m.episodeId), out.(renderOk := renderOk, probe := probe))
    ensures fresh(w) && first.None? && |results| == |later| && Dead(w.files)
    ensures forall i | 0 <= i < |later| :: !(results[i].Some? && results[i].value.ready)
  {
    hide *;
    w := new Workspace(lib);
    EmptyInv();
    var made := m.(status := Generated, updatedAt := out.now);
    var bad := out.(renderOk := renderOk, probe := probe);
    FreshLost(lib, made, out, renderOk, probe);
    BegunFresh(lib, m, bad);
    GenerationFresh(lib, m, bad);
    first := GenerateReal(w, m, true, bad);
    results := [];
    for i := 0 to |later|
      invariant |results| == i && Dead(w.files) && Inv(w.files) && w.lib == lib && fresh(w)
      invariant forall j | 0 <= j < i :: !(results[j].Some? && results[j].value.ready)
    {
      DeadRestart(lib, w.files, later[i]);
      var r := Resume(w, later[i]);
      results := results + [r];
    }
  }

  lemma GenerationFresh(lib: Library, m: Manifest, out: Outside)
    ensures Generation(lib, map[], m, true, out)
      == Resumed(lib, Created(lib, map[], m.(status := Generated, updatedAt := out.now)), out)
  {
    hide Resumed, Created;
  }

  lemma FreshLost(lib: Library, m: Manifest, out: Outside, renderOk: bool, probe: Option<Probe>)
    requires Healthy(lib, m, out) && !Rendered(lib, Output(m.episodeId), out.(renderOk := renderOk, probe := probe))
    ensures var (after, r) := Resumed(lib, Created(lib, map[], m), out.(renderOk := renderOk, probe := probe));
      r.None? && Dead(after)
  {
    hide Healthy, Releases, Output, Grown, Rendered, Recoverable, Dead, Resumed;
    OutputInDist(m.episodeId);
    FreshRecovers(lib, m, out);
    FailedRender(lib, m, out, renderOk, probe, Created(lib, map[], m));
  }

  // ----- a review that comes too late -----

  /** A final review that does not let the episode be released. */
  predicate Rejecting(review: Review, episodeId: string) {
    FinalIssue(map[FinalResponseFile := ReviewDoc(review)], episodeId).Some?
  }

  lemma RejectedMeans(lib: Library, files: Files, review: Review, episodeId: string)
    requires FinalResponseFile in files && files[FinalResponseFile] == ReviewDoc(review) && Rejecting(review, episodeId)
    ensures FinalIssue(files, episodeId).Some?
  {
    hide Present;
  }

  /** What stands behind a settled workspace that Status calls ready. */
  lemma ReadySettled(lib: Library, files: Files, m: Manifest)
    requires EpisodeFile in files && files[EpisodeFile] == EpisodeDoc(m)
    requires Settled(lib, files) && StatusOf(files, m).ready
    ensures ScriptSettled(files, m.reviewMode) && ProduceSettled(files, m.reviewMode)
    ensures ScriptResponseFile in files && FinalResponseFile in files
    ensures ScriptIssue(lib, files, m.episodeId).None? && FinalIssue(files, m.episodeId).None?
  {
    hide StatusOf, ScriptIssue, FinalIssue, ScriptSettled, ProduceSettled;
    StatusReadyIff(files, m);
  }

  /** With everything there, whatever the commands would answer, a restart only looks at the
      reviews. */
  lemma RestartLooks(lib: Library, files: Files, m: Manifest, later: Outside)
    requires EpisodeFile in files && files[EpisodeFile] == EpisodeDoc(m)
    requires ScriptSettled(files, m.reviewMode) && ProduceSettled(files, m.reviewMode)
    requires ScriptIssue(lib, files, m.episodeId).None? && FinalIssue(files, m.episodeId).Some?
    ensures EndingOf(lib, files, later) == Ended(ReleaseBlocked, Marked(files, ReleaseBlocked, later.now))
  {
    hide ScriptIssue, FinalIssue, Marked;
    RunQuiet(lib, m, later, SCRIPT_STAGES, |SCRIPT_STAGES|, files);
    RunQuiet(lib, m, later, PRODUCE_STAGES, |PRODUCE_STAGES|, files);
  }

  /** The files of a release with a rejecting final review in the place of the passing one:
      Status goes on saying ready, and every restart from there blocks the release. */
  lemma AfterRejection(lib: Library, files: Files, m: Manifest, rejected: Review)
    requires Inv(files) && EpisodeFile in files && files[EpisodeFile] == EpisodeDoc(m)
    requires Settled(lib, files) && StatusOf(files, m).ready
    requires EnvelopeOk(rejected, m) && Rejecting(rejected, m.episodeId)
    ensures var after := files[FinalResponseFile := ReviewDoc(rejected)];
      && Reviewed(lib, files, FinalKind, Some(rejected)) == (after, false)
      && StatusOf(after, m).ready && !Approved(lib, after)
      && forall later :: EndingOf(lib, after, later) == Ended(ReleaseBlocked, Marked(after, ReleaseBlocked, later.now))
  {
    hide *;
    ReadySettled(lib, files, m);
    StatusReadyIff(files, m);
    var after := files[FinalResponseFile := ReviewDoc(rejected)];
    RejectedMeans(lib, after, rejected, m.episodeId);
    RejectedStored(lib, files, m, rejected);
    StatusReadyIff(after, m);
    ReadyStatusIff(lib, after, m);
    SettledStays(lib, files, after, m, ReviewDoc(rejected));
    forall later
      ensures EndingOf(lib, after, later) == Ended(ReleaseBlocked, Marked(after, ReleaseBlocked, later.now))
    {
      RestartLooks(lib, after, m, later);
    }
  }

  lemma RejectedStored(lib: Library, files: Files, m: Manifest, rejected: Review)
    requires Inv(files) && EpisodeFile in files && files[EpisodeFile] == EpisodeDoc(m) && EnvelopeOk(rejected, m)
    requires var after := files[FinalResponseFile := ReviewDoc(rejected)]; FinalIssue(after, m.episodeId).Some?
    ensures var after := files[FinalResponseFile := ReviewDoc(rejected)];
      Inv(after) && Reviewed(lib, files, FinalKind, Some(rejected)) == (after, false)
  {
    hide Inv, FinalIssue;
    WriteKeepsInv(files, FinalResponseFile, ReviewDoc(rejected));
  }

  lemma SettledStays(lib: Library, files: Files, after: Files, m: Manifest, d: Doc)
    requires after == files[FinalResponseFile := d]
    requires ScriptSettled(files, m.reviewMode) && ProduceSettled(files, m.reviewMode)
    ensures ScriptSettled(after, m.reviewMode) && ProduceSettled(after, m.reviewMode)
    ensures ScriptIssue(lib, after, m.episodeId) == ScriptIssue(lib, files, m.episodeId)
  {
    hide ScriptIssue;
    IssuesFrame(lib, files, after, {FinalResponseFile}, {}, m.episodeId);
  }

  /** The same, from a result that says ready. */
  lemma LateRejection(lib: Library, files: Files, episodeId: string, rejected: Review, later: Outside)
    requires Inv(files) && Settled(lib, files) && EpisodeFile in files && files[EpisodeFile].EpisodeDoc?
    requires files[EpisodeFile].manifest.episodeId == episodeId && Report(lib, files).ready
    requires rejected.schemaVersion == SCHEMA_VERSION && rejected.episodeId == episodeId
    requires Rejecting(rejected, episodeId)
    ensures var m, after := files[EpisodeFile].manifest, files[FinalResponseFile := ReviewDoc(rejected)];
      && Reviewed(lib, files, FinalKind, Some(rejected)) == (after, false)
      && EpisodeFile in after && after[EpisodeFile] == EpisodeDoc(m)
      && StatusOf(after, m).ready && !Approved(lib, after) && !Releases(lib, after, later)
      && EndingOf(lib, after, later).Ended?
      && Resumed(lib, after, later).0 == Marked(after, ReleaseBlocked, later.now)
  {
    hide Rejecting, Approved, Settled, Reviewed, StatusOf, ScriptIssue, FinalIssue, EndingOf, Inv, Marked;
    AfterRejection(lib, files, files[EpisodeFile].manifest, rejected);
    assert EndingOf(lib, files[FinalResponseFile := ReviewDoc(rejected)], later).Ended?;
  }

  /** With working commands the first run ends ready; a rejecting final review imported
      after it is refused but stored; Status then still says ready though the release is not
      approved, and the next restart, with whatever commands, blocks it. */
  method RejectAfterRelease(lib: Library, m: Manifest, out: Outside, rejected: Review, later: Outside)
    returns (w: Workspace, first: Option<RunResult>, accepted: bool, status: Option<RunResult>,
      blocked: Option<RunResult>, ghost released: Files, ghost late: Files)
    requires Healthy(lib, m.(status := Generated, updatedAt := out.now), out)
    requires rejected.schemaVersion == SCHEMA_VERSION && rejected.episodeId == m.episodeId
    requires Rejecting(rejected, m.episodeId)
    ensures fresh(w)
    ensures first.Some? && first.value.ready && Approved(lib, released)
    ensures !accepted && late == released[FinalResponseFile := ReviewDoc(rejected)]
    ensures status.Some? && status.value.ready && !Approved(lib, late)
    ensures blocked.Some? && !blocked.value.ready && w.files == Marked(late, ReleaseBlocked, later.now)
  {
    hide *;
    w := new Workspace(lib);
    EmptyInv();
    FreshRecovers(lib, m.(status := Generated, updatedAt := out.now), out);
    BegunFresh(lib, m, out);
    first := GenerateReal(w, m, true, out);
    released := w.files;
    SettledEpisode(lib, released);
    LateRejection(lib, released, m.episodeId, rejected, later);
    accepted := ImportReview(w, FinalKind, Some(rejected));
    late := w.files;
    status := ShowStatus(w);
    blocked := Resume(w, later);
  }

  lemma BegunFresh(lib: Library, m: Manifest, out: Outside)
    ensures Begun(lib, map[], m, out) == Created(lib, map[], m.(status := Generated, updatedAt := out.now))
    ensures !Foreign(map[], m)
  {}
}
