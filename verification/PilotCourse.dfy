/** internal/shortform/pilot: what each stage leaves in the workspace, and where a restart
    ends, as functions of the files and of what the commands answer. */
module PilotCourse {
  import opened Text
  import opened Json
  import opened Pilot

  /** The stages of the three phases, by the files they make. */
  const SCRIPT_STAGES: seq<Path> := [ScriptManifestFile, ScriptRequestFile, ScriptResponseFile]

  const PRODUCE_STAGES: seq<Path> := [
    RequestsFile, VisualManifestFile, VoiceManifestFile, SubtitleManifestFile, RenderManifestFile, FinalRequestFile,
    FinalResponseFile]

  const RELEASE_STAGES: seq<Path> := [QaFile, PublishFile]

  // ----- one stage -----

  /** A phase reaches its end, or some stage, begun with certain files, fails and leaves
      others. */
  datatype Course = Reached(files: Files) | StuckAt(own: Path, before: Files, left: Files)

  /** The stage that makes a file can succeed. */
  predicate StageReady(lib: Library, m: Manifest, out: Outside, own: Path, files: Files) {
    match own
    case ScriptManifestFile => ScriptFile in files <==> own in files
    case ScriptResponseFile => m.reviewMode == Manual || own in files || ApiAnswered(m, out.scriptReview)
    case VisualManifestFile => own in files || VisualReady(lib, files, m, out)
    case VoiceManifestFile => own in files || VoiceReady(lib, files, m, out)
    case SubtitleManifestFile => own in files || SubtitleReady(lib, files, m, out)
    case RenderManifestFile => own in files || RenderReady(lib, files, m, out)
    case FinalResponseFile => m.reviewMode == Manual || own in files || ApiAnswered(m, out.finalReview)
    case _ => true
  }

  /** What the command of a stage leaves, before the stage looks at the answer. */
  function Prepared(lib: Library, m: Manifest, out: Outside, own: Path, files: Files): Files {
    match own
    case VisualManifestFile =>
      if VisualStarts(files, m, out) then Into(files, VisualDir, out.visual.writes, out.visual.deletes) else files
    case VoiceManifestFile =>
      if VoiceStarts(m, out) then Into(files, AudioDir, out.voice.writes, out.voice.deletes) else files
    case SubtitleManifestFile =>
      if m.subtitleProvider == "script-timing" then Timed(lib, files, m)
      else if m.subtitleProvider == "faster-whisper" && WhisperStarts(files, out) then
        Into(files, SubtitleDir, out.subtitles.writes, out.subtitles.deletes)
      else files
    case RenderManifestFile =>
      if RenderStarts(files, m, out) && out.output.Some? then files[Output(m.episodeId) := Blob(out.output.value)]
      else files
    case _ => files
  }

  /** The commands and API calls a stage makes. */
  function StageCalls(m: Manifest, out: Outside, own: Path, files: Files): nat {
    if Done(m, own, files) then 0
    else
      match own
      case ScriptResponseFile => 1
      case FinalResponseFile => 1
      case VisualManifestFile => if VisualStarts(files, m, out) then 1 else 0
      case VoiceManifestFile => if VoiceStarts(m, out) then 1 else 0
      case SubtitleManifestFile =>
        if m.subtitleProvider == "faster-whisper" && WhisperStarts(files, out) then 1 else 0
      case RenderManifestFile => if RenderStarts(files, m, out) then (if out.renderOk then 2 else 1) else 0
      case _ => 0
  }

  lemma NoCalls(m: Manifest, out: Outside, own: Path, files: Files)
    requires own in {ScriptManifestFile, ScriptRequestFile, RequestsFile, FinalRequestFile, QaFile, PublishFile}
    ensures StageCalls(m, out, own, files) == 0
  {}

  /** The document a stage makes of the prepared files. */
  function Document(lib: Library, m: Manifest, out: Outside, own: Path, files: Files): Doc
    requires StageReady(lib, m, out, own, files) && own !in files
    requires own == ScriptResponseFile || own == FinalResponseFile ==> m.reviewMode == Api
  {
    var script := Bytes(files, ScriptFile);
    var prepared := Prepared(lib, m, out, own, files);
    match own
    case ScriptManifestFile => ScriptDoc(lib.sha(lib.text(ScriptFile, m, "")))
    case ScriptResponseFile => ReviewDoc(out.scriptReview.value.(approvedScriptHash := lib.sha(script)))
    case RequestsFile => RequestsDoc(lib.sha(script), ShotRequests(m))
    case VisualManifestFile => VisualDoc(Records(
        lib, prepared, files[RequestsFile].sourceHash, files[RequestsFile].requests, out.visual.answer.value))
    case VoiceManifestFile => VoiceRecord(lib, prepared, out.voice.answer.value).value
    case SubtitleManifestFile => SubtitleRecord(lib, prepared).value
    case RenderManifestFile =>
      RenderRecordOf(lib, Output(m.episodeId), out.output.value, out.probe.value.duration)
    case FinalResponseFile => ReviewDoc(out.finalReview.value)
    case QaFile => QaDoc(true)
    case PublishFile => PublishDoc(false, "private", "release_candidate_only")
    case _ => Blob(lib.text(own, m, script))
  }

  /** A stage has nothing to do: its file is there, or is to be given by hand. */
  predicate Done(m: Manifest, own: Path, files: Files) {
    || own in files
    || (m.reviewMode == Manual && (own == ScriptResponseFile || own == FinalResponseFile))
  }

  /** A stage. The script is written together with its manifest. */
  function After(lib: Library, m: Manifest, out: Outside, own: Path, files: Files): Course {
    if !StageReady(lib, m, out, own, files) then StuckAt(own, files, Prepared(lib, m, out, own, files))
    else if Done(m, own, files) then Reached(files)
    else
      var doc := Document(lib, m, out, own, files);
      var prepared :=
        if own == ScriptManifestFile then files[ScriptFile := Blob(lib.text(ScriptFile, m, ""))]
        else Prepared(lib, m, out, own, files);
      Reached(Audited(prepared[own := doc], own))
  }

  /** A file written once, with its audit entry. */
  function Written(files: Files, own: Path, d: Doc): Files {
    if own in files then files else Audited(files[own := d], own)
  }

  /** The two requests for a review. */
  lemma RequestStages(lib: Library, m: Manifest, out: Outside, own: Path, files: Files)
    requires own == ScriptRequestFile || own == FinalRequestFile
    ensures After(lib, m, out, own, files)
      == Reached(Written(files, own, Blob(lib.text(own, m, Bytes(files, ScriptFile)))))
  {
    hide Audited;
  }

  /** The stages that write a fixed document. */
  lemma PlainStages(lib: Library, m: Manifest, out: Outside, files: Files)
    ensures After(lib, m, out, RequestsFile, files)
      == Reached(Written(files, RequestsFile, RequestsDoc(lib.sha(Bytes(files, ScriptFile)), ShotRequests(m))))
    ensures After(lib, m, out, QaFile, files) == Reached(Written(files, QaFile, QaDoc(true)))
    ensures After(lib, m, out, PublishFile, files)
      == Reached(Written(files, PublishFile, PublishDoc(false, "private", "release_candidate_only")))
  {
    hide Audited, ShotRequests;
  }

  /** The stages that run a command fail with what the command left. */
  lemma CommandStages(lib: Library, m: Manifest, out: Outside, own: Path, files: Files)
    requires own in {VisualManifestFile, VoiceManifestFile, SubtitleManifestFile, RenderManifestFile}
    ensures own in files ==> After(lib, m, out, own, files) == Reached(files)
    ensures own !in files && !StageReady(lib, m, out, own, files) ==>
      After(lib, m, out, own, files) == StuckAt(own, files, Prepared(lib, m, out, own, files))
    ensures own !in files && StageReady(lib, m, out, own, files) ==>
      After(lib, m, out, own, files) == Reached(Audited(
          Prepared(lib, m, out, own, files)[own := Document(lib, m, out, own, files)], own))
  {
    hide Audited, Document, Prepared, VisualReady, VoiceReady, SubtitleReady, RenderReady;
  }

  /** The script and its manifest are written together or not at all. */
  lemma ScriptPair(lib: Library, m: Manifest, out: Outside, files: Files)
    ensures After(lib, m, out, ScriptManifestFile, files) ==
      if (ScriptFile in files) != (ScriptManifestFile in files) then StuckAt(ScriptManifestFile, files, files)
      else if ScriptFile in files then Reached(files)
      else
        var body := lib.text(ScriptFile, m, "");
        Reached(Audited(
            files[ScriptFile := Blob(body)][ScriptManifestFile := ScriptDoc(lib.sha(body))], ScriptManifestFile))
  {
    hide Audited;
  }

  /** A method that runs what the course describes. */
  predicate Leaves(course: Course, ok: bool, files: Files) {
    match course
    case Reached(after) => ok && files == after
    case StuckAt(_, _, left) => !ok && files == left
  }

  // ----- a phase -----

  /** The first stages of a phase. */
  function Run(lib: Library, m: Manifest, out: Outside, stages: seq<Path>, n: nat, start: Files): Course
    requires n <= |stages|
  {
    if n == 0 then Reached(start)
    else
      match Run(lib, m, out, stages, n - 1, start)
      case StuckAt(own, before, left) => StuckAt(own, before, left)
      case Reached(files) => After(lib, m, out, stages[n - 1], files)
  }

  /** The commands and API calls of these stages. */
  function RunCalls(lib: Library, m: Manifest, out: Outside, stages: seq<Path>, n: nat, start: Files): nat
    requires n <= |stages|
  {
    if n == 0 then 0
    else
      RunCalls(lib, m, out, stages, n - 1, start)
      + match Run(lib, m, out, stages, n - 1, start)
        case StuckAt(_, _, _) => 0
        case Reached(files) => StageCalls(m, out, stages[n - 1], files)
  }

  /** A phase comes to its end exactly when every stage is ready where the stages before it
      have come. */
  lemma {:induction false} ReachedIff(lib: Library, m: Manifest, out: Outside, stages: seq<Path>, n: nat, start: Files)
    requires n <= |stages|
    ensures Run(lib, m, out, stages, n, start).Reached? <==> forall k | 0 <= k < n ::
      && Run(lib, m, out, stages, k, start).Reached?
      && StageReady(lib, m, out, stages[k], Run(lib, m, out, stages, k, start).files)
  {
    hide StageReady, Prepared, Document, Done, Audited;
    if n > 0 {
      ReachedIff(lib, m, out, stages, n - 1, start);
    }
  }

  /** Otherwise the first stage that is not ready fails, begun with what the stages before it
      left. */
  lemma {:induction false} StuckMeans(lib: Library, m: Manifest, out: Outside, stages: seq<Path>, n: nat, start: Files)
    returns (k: nat)
    requires n <= |stages| && Run(lib, m, out, stages, n, start).StuckAt?
    ensures var course := Run(lib, m, out, stages, n, start);
      && k < n && course.own == stages[k] && Run(lib, m, out, stages, k, start) == Reached(course.before)
      && !StageReady(lib, m, out, course.own, course.before)
      && course.left == Prepared(lib, m, out, course.own, course.before)
  {
    hide StageReady, Prepared, Document, Done, Audited;
    if Run(lib, m, out, stages, n - 1, start).StuckAt? {
      k := StuckMeans(lib, m, out, stages, n - 1, start);
    } else {
      k := n - 1;
    }
  }

  lemma {:induction false} StaysStuck(
    lib: Library, m: Manifest, out: Outside, stages: seq<Path>, k: nat, n: nat, start: Files)
    requires k <= n <= |stages| && Run(lib, m, out, stages, k, start).StuckAt?
    ensures Run(lib, m, out, stages, n, start) == Run(lib, m, out, stages, k, start)
    ensures RunCalls(lib, m, out, stages, n, start) == RunCalls(lib, m, out, stages, k, start)
  {
    hide After, StageCalls;
    if k < n {
      StaysStuck(lib, m, out, stages, k, n - 1, start);
    }
  }

  /** One stage of a phase that a method has run. */
  lemma RunStage(
    lib: Library, m: Manifest, out: Outside, stages: seq<Path>, k: nat, own: Path, start: Files, before: Files,
    after: Files, ok: bool)
    requires k < |stages| && stages[k] == own && Run(lib, m, out, stages, k, start) == Reached(before)
    requires Leaves(After(lib, m, out, own, before), ok, after)
    ensures ok ==> Run(lib, m, out, stages, k + 1, start) == Reached(after)
    ensures !ok || k + 1 == |stages| ==>
      && Leaves(Phase(lib, m, out, stages, start), ok, after)
      && PhaseCalls(lib, m, out, stages, start)
         == RunCalls(lib, m, out, stages, k, start) + StageCalls(m, out, own, before)
    ensures RunCalls(lib, m, out, stages, k + 1, start)
      == RunCalls(lib, m, out, stages, k, start) + StageCalls(m, out, own, before)
  {
    hide After, StageCalls;
    if !ok {
      StaysStuck(lib, m, out, stages, k + 1, |stages|, start);
    }
  }

  function Phase(lib: Library, m: Manifest, out: Outside, stages: seq<Path>, start: Files): Course {
    Run(lib, m, out, stages, |stages|, start)
  }

  function PhaseCalls(lib: Library, m: Manifest, out: Outside, stages: seq<Path>, start: Files): nat {
    RunCalls(lib, m, out, stages, |stages|, start)
  }

  /** A phase with all its files there does nothing, whatever the commands would answer. */
  lemma {:induction false} RunQuiet(lib: Library, m: Manifest, out: Outside, stages: seq<Path>, n: nat, start: Files)
    requires n <= |stages| && ScriptFile in start
    requires forall k | 0 <= k < n :: Done(m, stages[k], start)
    ensures Run(lib, m, out, stages, n, start) == Reached(start) && RunCalls(lib, m, out, stages, n, start) == 0
  {
    if n > 0 {
      hide Run, Document, Prepared, Audited, Done;
      RunQuiet(lib, m, out, stages, n - 1, start);
      DoneStays(lib, m, out, stages[n - 1], start);
      RunStage(lib, m, out, stages, n - 1, stages[n - 1], start, start, start, true);
    } else {
      assert Run(lib, m, out, stages, 0, start) == Reached(start);
    }
  }

  lemma DoneStays(lib: Library, m: Manifest, out: Outside, own: Path, files: Files)
    requires ScriptFile in files && Done(m, own, files)
    ensures After(lib, m, out, own, files) == Reached(files) && StageCalls(m, out, own, files) == 0
  {
    hide Document, Prepared, Audited, VisualReady, VoiceReady, SubtitleReady, RenderReady;
  }

  // ----- what the stages do not touch -----

  /** The files a course ends with. */
  function Final(course: Course): Files {
    match course
    case Reached(files) => files
    case StuckAt(_, _, left) => left
  }

  /** Files outside the reach of a stage and its command. */
  predicate Untouched(own: Path, p: Path) {
    && p != own && p != AuditFile && !(own == ScriptManifestFile && p == ScriptFile)
    && (p.In? ==> p.dir == DistDir && own != RenderManifestFile)
  }

  predicate Alike(a: Files, b: Files, p: Path) {
    (p in a <==> p in b) && (p in a ==> a[p] == b[p])
  }

  lemma PreparedFrame(lib: Library, m: Manifest, out: Outside, own: Path, files: Files, p: Path)
    requires Untouched(own, p)
    ensures Alike(files, Prepared(lib, m, out, own, files), p)
  {
    hide Into;
    IntoTouches(files, VisualDir, out.visual.writes, out.visual.deletes);
    IntoTouches(files, AudioDir, out.voice.writes, out.voice.deletes);
    IntoTouches(files, SubtitleDir, out.subtitles.writes, out.subtitles.deletes);
    OutputInDist(m.episodeId);
  }

  lemma AfterFrame(lib: Library, m: Manifest, out: Outside, own: Path, files: Files, p: Path)
    requires Untouched(own, p)
    ensures Alike(files, Final(After(lib, m, out, own, files)), p)
  {
    hide Prepared, Document, StageReady, Done, Events;
    PreparedFrame(lib, m, out, own, files, p);
  }

  lemma {:induction false} RunFrame(
    lib: Library, m: Manifest, out: Outside, stages: seq<Path>, n: nat, start: Files, p: Path)
    requires n <= |stages| && forall i | 0 <= i < n :: Untouched(stages[i], p)
    ensures Alike(start, Final(Run(lib, m, out, stages, n, start)), p)
  {
    hide After, Untouched;
    if n > 0 {
      RunFrame(lib, m, out, stages, n - 1, start, p);
      var course := Run(lib, m, out, stages, n - 1, start);
      if course.Reached? {
        AfterFrame(lib, m, out, stages[n - 1], course.files, p);
      }
    }
  }

  // ----- a restart -----

  /** The manifest with another mark and time. */
  function Marked(files: Files, status: Status, now: int): Files {
    if EpisodeFile in files && files[EpisodeFile].EpisodeDoc? then
      files[EpisodeFile := EpisodeDoc(files[EpisodeFile].manifest.(status := status, updatedAt := now))]
    else files
  }

  /** How a restart ends: with an error, for want of a manifest or at some stage, or at a
      gate or the release, which it marks in the manifest. */
  datatype Ending = NoManifest | Failed(own: Path, before: Files, left: Files) | Ended(status: Status, files: Files)

  function EndingOf(lib: Library, files: Files, out: Outside): Ending {
    if EpisodeFile !in files || !files[EpisodeFile].EpisodeDoc? then NoManifest
    else
      var m := files[EpisodeFile].manifest;
      match Phase(lib, m, out, SCRIPT_STAGES, files)
      case StuckAt(own, before, left) => Failed(own, before, left)
      case Reached(scripted) =>
        if ScriptIssue(lib, scripted, m.episodeId).Some? then Ended(NeedsReview, Marked(scripted, NeedsReview, out.now))
        else
          match Phase(lib, m, out, PRODUCE_STAGES, scripted)
          case StuckAt(own, before, left) => Failed(own, before, left)
          case Reached(produced) =>
            if FinalIssue(produced, m.episodeId).Some? then
              Ended(ReleaseBlocked, Marked(produced, ReleaseBlocked, out.now))
            else
              match Phase(lib, m, out, RELEASE_STAGES, produced)
              case StuckAt(own, before, left) => Failed(own, before, left)
              case Reached(released) => Ended(ReleaseCandidate, Marked(released, ReleaseCandidate, out.now))
  }

  /** The commands and API calls of a restart. */
  function CallsOf(lib: Library, files: Files, out: Outside): nat {
    if EpisodeFile !in files || !files[EpisodeFile].EpisodeDoc? then 0
    else
      var m := files[EpisodeFile].manifest;
      var script := Phase(lib, m, out, SCRIPT_STAGES, files);
      PhaseCalls(lib, m, out, SCRIPT_STAGES, files)
      + if script.Reached? && ScriptIssue(lib, script.files, m.episodeId).None?
        then PhaseCalls(lib, m, out, PRODUCE_STAGES, script.files)
        else 0
  }

  /** A restart fails only at a stage that cannot succeed with the files it was begun with,
      and leaves what the command of that stage left. */
  lemma FailedMeans(lib: Library, files: Files, out: Outside)
    requires EndingOf(lib, files, out).Failed?
    ensures var ending := EndingOf(lib, files, out);
      && EpisodeFile in files && files[EpisodeFile].EpisodeDoc?
      && var m := files[EpisodeFile].manifest;
      && ending.own in SCRIPT_STAGES + PRODUCE_STAGES
      && !StageReady(lib, m, out, ending.own, ending.before)
      && ending.left == Prepared(lib, m, out, ending.own, ending.before)
  {
    hide StageReady, Prepared, Run, ScriptIssue, FinalIssue, Marked;
    var m := files[EpisodeFile].manifest;
    if Phase(lib, m, out, SCRIPT_STAGES, files).StuckAt? {
      var k := StuckMeans(lib, m, out, SCRIPT_STAGES, |SCRIPT_STAGES|, files);
    } else {
      var scripted := Phase(lib, m, out, SCRIPT_STAGES, files).files;
      if Phase(lib, m, out, PRODUCE_STAGES, scripted).StuckAt? {
        var k := StuckMeans(lib, m, out, PRODUCE_STAGES, |PRODUCE_STAGES|, scripted);
      } else {
        var produced := Phase(lib, m, out, PRODUCE_STAGES, scripted).files;
        var k := StuckMeans(lib, m, out, RELEASE_STAGES, |RELEASE_STAGES|, produced);
        ReleaseReady(lib, m, out, RELEASE_STAGES[k], Run(lib, m, out, RELEASE_STAGES, k, produced).files);
      }
    }
  }

  lemma ReleaseReady(lib: Library, m: Manifest, out: Outside, own: Path, files: Files)
    requires own in RELEASE_STAGES
    ensures StageReady(lib, m, out, own, files)
  {}

  /** What Resume reports on files where it has ended. */
  function Report(lib: Library, files: Files): RunResult
    requires EpisodeFile in files && files[EpisodeFile].EpisodeDoc?
  {
    var m := files[EpisodeFile].manifest;
    var status := StatusOf(files, m);
    var script := ScriptIssue(lib, files, m.episodeId);
    if script.Some? then status.(gate := Some(ScriptReviewStage), issue := script)
    else
      var final := FinalIssue(files, m.episodeId);
      if final.Some? then status.(gate := Some(FinalReviewStage), issue := final) else status
  }

  /** The files after a restart, and its result; None stands for an error. */
  function Resumed(lib: Library, files: Files, out: Outside): (Files, Option<RunResult>) {
    match EndingOf(lib, files, out)
    case NoManifest => (files, None)
    case Failed(_, _, left) => (left, None)
    case Ended(_, after) =>
      (after, if EpisodeFile in after && after[EpisodeFile].EpisodeDoc? then Some(Report(lib, after)) else None)
  }
}
