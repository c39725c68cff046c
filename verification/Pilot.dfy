/** internal/shortform/pilot: the restartable pilot over a workspace of files. The commands
    it runs are answers from outside; each may do as it likes inside its own directory. */
module Pilot {
  import opened Text
  import opened Json
  import Shots

  // ----- the workspace -----

  datatype Dir = VisualDir | AudioDir | SubtitleDir | DistDir

  datatype Path =
    | EpisodeFile | TopicFile | ResearchFile | ScriptFile | ScriptManifestFile | ScriptRequestFile | ScriptResponseFile
    | RequestsFile | VisualManifestFile | VoiceManifestFile | SubtitleManifestFile | RenderManifestFile
    | FinalRequestFile | FinalResponseFile | QaFile | PublishFile | AuditFile
    | In(dir: Dir, name: string)

  datatype Status = Generated | NeedsReview | ReleaseBlocked | ReleaseCandidate

  datatype ReviewMode = Manual | Api

  datatype Manifest = Manifest(
    episodeId: string, status: Status, updatedAt: int, prompt: string, duration: real, visualProvider: string,
    voiceProvider: string, subtitleProvider: string, renderProvider: string, reviewMode: ReviewMode)

  datatype Review = Review(
    schemaVersion: string, episodeId: string, verdict: string, blockingIssues: seq<string>, approvedScriptHash: string,
    canContinue: bool, canRelease: bool, override: bool, overrideReason: string)

  datatype ShotRequest = ShotRequest(shotId: string, sceneId: string, duration: real)

  datatype ShotRecord = ShotRecord(
    sceneId: string, reference: string, path: Path, hash: string, duration: real)

  datatype RenderRecord = RenderRecord(
    path: Path, hash: string, duration: real, audioTrack: bool, subtitlesBurned: bool)

  datatype Doc =
    | Blob(bytes: string)
    | EpisodeDoc(manifest: Manifest)
    | ScriptDoc(scriptHash: string)
    | ReviewDoc(review: Review)
    | RequestsDoc(sourceHash: string, requests: seq<ShotRequest>)
    | VisualDoc(shots: seq<ShotRecord>)
    | VoiceDoc(path: Path, hash: string, duration: real, format: string, sampleRate: int)
    | SubtitleDoc(transcriptHash: string, srtHash: string, assHash: string)
    | RenderDoc(outputs: seq<RenderRecord>)
    | QaDoc(approved: bool)
    | PublishDoc(live: bool, visibility: string, mode: string)
    | LogDoc(events: seq<Path>)

  type Files = map<Path, Doc>

  /** The kind of document each file holds. */
  predicate Fits(p: Path, d: Doc) {
    match p
    case EpisodeFile => d.EpisodeDoc?
    case ScriptManifestFile => d.ScriptDoc?
    case ScriptResponseFile => d.ReviewDoc?
    case FinalResponseFile => d.ReviewDoc?
    case RequestsFile => d.RequestsDoc?
    case VisualManifestFile => d.VisualDoc?
    case VoiceManifestFile => d.VoiceDoc?
    case SubtitleManifestFile => d.SubtitleDoc?
    case RenderManifestFile => d.RenderDoc?
    case QaFile => d.QaDoc?
    case PublishFile => d.PublishDoc?
    case AuditFile => d.LogDoc?
    case _ => d.Blob?
  }

  const SRT := In(SubtitleDir, "captions.srt")
  const ASS := In(SubtitleDir, "captions.ass")
  const TRANSCRIPT := In(SubtitleDir, "transcript.json")

  function Output(episodeId: string): Path {
    In(DistDir, episodeId + "-release-candidate.mp4")
  }

  /** SHA-256, the text the pilot writes into a file (from the manifest and the script), the
      JSON of a document, the format that the name of a file ends with, JSON well-formedness and
      the schema checks. */
  datatype Library = Library(
    sha: string -> string, text: (Path, Manifest, string) -> string, encode: Doc -> string, format: Path -> string,
    isJson: string -> bool, valid: Doc -> bool)

  /** What the files always satisfy in a workspace that only the pilot and its commands have
      written: a render manifest records sound and captions and lies beside its output, a QA
      report approves, and a publish manifest publishes nothing. */
  ghost predicate Inv(files: Files) {
    && AllFit(files)
    && (RenderManifestFile in files ==>
        EpisodeFile in files && Sound(files[RenderManifestFile].outputs) && Output(EpisodeId(files)) in files)
    && (QaFile in files ==> files[QaFile].approved)
    && (PublishFile in files ==> files[PublishFile] == PublishDoc(false, "private", "release_candidate_only"))
  }

  function EpisodeDuration(files: Files): real {
    if EpisodeFile in files && files[EpisodeFile].EpisodeDoc? then files[EpisodeFile].manifest.duration else 0.0
  }

  function EpisodeId(files: Files): string {
    if EpisodeFile in files && files[EpisodeFile].EpisodeDoc? then files[EpisodeFile].manifest.episodeId else ""
  }

  predicate AllFit(files: Files) {
    forall p | p in files :: Fits(p, files[p])
  }

  predicate Sound(outputs: seq<RenderRecord>) {
    outputs != [] && outputs[0].audioTrack && outputs[0].subtitlesBurned
  }

  /** The files that are never written twice. */
  const WRITE_ONCE: set<Path> := {
    ScriptFile, ScriptManifestFile, RequestsFile, VisualManifestFile, SubtitleManifestFile, RenderManifestFile,
    QaFile, PublishFile}

  ghost predicate Keeps(before: Files, after: Files) {
    forall p | p in WRITE_ONCE && p in before :: p in after && after[p] == before[p]
  }

  /** Nothing else changed. */
  ghost predicate OnlyTouches(before: Files, after: Files, named: set<Path>, dirs: set<Dir>) {
    forall p: Path | p !in named && !(p.In? && p.dir in dirs) ::
      (p in before <==> p in after) && (p in before ==> after[p] == before[p])
  }

  lemma TouchesBoth(a: Files, b: Files, c: Files, named: set<Path>, dirs: set<Dir>, named': set<Path>, dirs': set<Dir>)
    requires OnlyTouches(a, b, named, dirs) && OnlyTouches(b, c, named', dirs')
    ensures OnlyTouches(a, c, named + named', dirs + dirs')
  {}

  /** A stage that makes one file: it does nothing when the file is there, and otherwise
      makes it or fails without it. */
  ghost predicate Makes(own: Path, dirs: set<Dir>, before: Files, after: Files, calls: int, calls': int, ok: bool) {
    && OnlyTouches(before, after, {own, AuditFile}, dirs)
    && (own in before ==> ok && after == before && calls' == calls)
    && (ok <==> own in after)
  }

  // ----- gates -----

  datatype Issue =
    | MissingResponse | BadEnvelope | NotPass | NotAllowed | HasBlockingIssues | HashMismatch | NoOverrideReason

  const SCHEMA_VERSION := "1.0"

  /** What is on the disk of a document. */
  function Content(lib: Library, d: Doc): string {
    if d.Blob? then d.bytes else lib.encode(d)
  }

  function FileHash(lib: Library, files: Files, p: Path): Option<string> {
    if p in files then Some(lib.sha(Content(lib, files[p]))) else None
  }

  /** Why the script review does not let the run continue. */
  function ScriptIssue(lib: Library, files: Files, episodeId: string): Option<Issue> {
    if ScriptResponseFile !in files || !files[ScriptResponseFile].ReviewDoc? then Some(MissingResponse)
    else
      var r := files[ScriptResponseFile].review;
      if r.schemaVersion != SCHEMA_VERSION || r.episodeId != episodeId then Some(BadEnvelope)
      else if r.verdict != "pass" then Some(NotPass)
      else if !r.canContinue then Some(NotAllowed)
      else if r.blockingIssues != [] then Some(HasBlockingIssues)
      else if FileHash(lib, files, ScriptFile) != Some(r.approvedScriptHash) then Some(HashMismatch)
      else None
  }

  function FinalIssue(files: Files, episodeId: string): Option<Issue> {
    if FinalResponseFile !in files || !files[FinalResponseFile].ReviewDoc? then Some(MissingResponse)
    else
      var r := files[FinalResponseFile].review;
      if r.schemaVersion != SCHEMA_VERSION || r.episodeId != episodeId then Some(BadEnvelope)
      else if r.override then (if Present(r.overrideReason) then None else Some(NoOverrideReason))
      else if r.verdict != "pass" then Some(NotPass)
      else if !r.canRelease then Some(NotAllowed)
      else if r.blockingIssues != [] then Some(HasBlockingIssues)
      else None
  }

  // ----- status -----

  datatype Stage =
    | ScriptStage | ScriptReviewStage | RequestsStage | VisualStage | VoiceStage | SubtitleStage | RenderStage
    | FinalReviewStage | QaStage | ReleaseStage

  datatype RunResult = RunResult(
    episodeId: string, stage: Stage, gate: Option<Stage>, issue: Option<Issue>, ready: bool,
    existing: seq<Path>, missing: seq<Path>)

  function Required(episodeId: string): seq<Path> {
    [TopicFile, ResearchFile, EpisodeFile, ScriptFile, ScriptManifestFile, ScriptRequestFile, ScriptResponseFile,
     RequestsFile, VisualManifestFile, In(VisualDir, "shot-001.mp4"), In(VisualDir, "shot-002.mp4"),
     In(VisualDir, "shot-003.mp4"), In(AudioDir, "voiceover.wav"), VoiceManifestFile, TRANSCRIPT, SRT, ASS,
     SubtitleManifestFile, Output(episodeId), RenderManifestFile, FinalRequestFile, FinalResponseFile, QaFile,
     PublishFile, AuditFile]
  }

  function Select(files: Files, paths: seq<Path>, present: bool): seq<Path> {
    if paths == [] then []
    else
      var last := paths[|paths| - 1];
      Select(files, paths[..|paths| - 1], present) + (if (last in files) == present then [last] else [])
  }

  /** The first stage whose file is missing, and the gate it waits at. */
  function DeriveStage(files: Files, status: Status): (Stage, Option<Stage>) {
    if ScriptManifestFile !in files then (ScriptStage, None)
    else if ScriptResponseFile !in files then (ScriptReviewStage, Some(ScriptReviewStage))
    else if RequestsFile !in files then (RequestsStage, None)
    else if VisualManifestFile !in files then (VisualStage, Some(VisualStage))
    else if VoiceManifestFile !in files then (VoiceStage, Some(VoiceStage))
    else if SubtitleManifestFile !in files then (SubtitleStage, Some(SubtitleStage))
    else if RenderManifestFile !in files then (RenderStage, Some(RenderStage))
    else if FinalResponseFile !in files then (FinalReviewStage, Some(FinalReviewStage))
    else if QaFile !in files then (QaStage, None)
    else if PublishFile !in files then (ReleaseStage, None)
    else if status == ReleaseCandidate then (ReleaseStage, None)
    else (QaStage, None)
  }

  function StatusOf(files: Files, m: Manifest): RunResult {
    var (stage, gate) := DeriveStage(files, m.status);
    var required := Required(m.episodeId);
    RunResult(m.episodeId, stage, gate, None, stage == ReleaseStage && PublishFile in files,
           Select(files, required, true), Select(files, required, false))
  }

  /** Status alone says ready exactly when every stage file is there and the manifest carries
      the release mark. */
  lemma StatusReadyIff(files: Files, m: Manifest)
    ensures StatusOf(files, m).ready <==>
      && m.status == ReleaseCandidate
      && (forall p | p in {ScriptManifestFile, ScriptResponseFile, RequestsFile, VisualManifestFile, VoiceManifestFile,
          SubtitleManifestFile, RenderManifestFile, FinalResponseFile, QaFile, PublishFile} :: p in files)
  {
    hide Select, Required;
    var named := {ScriptManifestFile, ScriptResponseFile, RequestsFile, VisualManifestFile, VoiceManifestFile,
        SubtitleManifestFile, RenderManifestFile, FinalResponseFile, QaFile, PublishFile};
    if forall p | p in named :: p in files {
      assert ScriptManifestFile in named && ScriptResponseFile in named;
      assert RequestsFile in named && VisualManifestFile in named;
      assert VoiceManifestFile in named && SubtitleManifestFile in named && RenderManifestFile in named;
      assert FinalResponseFile in named && QaFile in named && PublishFile in named;
    }
  }

  // ----- what the commands answer -----

  datatype VisualOutput = VisualOutput(
    shotId: string, status: string, path: Option<Path>, hash: string, duration: real, width: int, height: int, fps: int)

  datatype VisualAnswer = VisualAnswer(envelopeOk: bool, shots: seq<VisualOutput>)

  datatype VoiceAnswer = VoiceAnswer(
    envelopeOk: bool, path: Option<Path>, hash: string, duration: real, sampleRate: int)

  datatype SubtitleAnswer = SubtitleAnswer(envelopeOk: bool, hasPaths: bool)

  /** A command that is configured writes and deletes in its directory and then answers, or
      fails. */
  datatype Command<T> = Command(configured: bool, writes: map<string, string>, deletes: set<string>, answer: Option<T>)

  datatype Probe = Probe(width: int, height: int, hasAudio: bool, duration: real)

  datatype Outside = Outside(
    now: int, scriptReview: Option<Review>, finalReview: Option<Review>, visual: Command<VisualAnswer>,
    voice: Command<VoiceAnswer>, subtitles: Command<SubtitleAnswer>, toolsFound: bool, renderOk: bool,
    output: Option<string>, probe: Option<Probe>)

  function Into(files: Files, dir: Dir, writes: map<string, string>, deletes: set<string>): Files {
    (files - (set n | n in deletes :: In(dir, n)))
    + (map p: Path | p in (set n | n in writes :: In(dir, n)) :: Blob(writes[p.name]))
  }

  lemma IntoTouches(files: Files, dir: Dir, writes: map<string, string>, deletes: set<string>)
    ensures OnlyTouches(files, Into(files, dir, writes, deletes), {}, {dir})
    ensures forall p | p in Into(files, dir, writes, deletes) ::
      (p in files && Into(files, dir, writes, deletes)[p] == files[p])
      || (p.In? && p.dir == dir && Into(files, dir, writes, deletes)[p].Blob?)
  {}

  lemma FitsStep(p: Path, d: Doc)
    requires p.In? && d.Blob?
    ensures Fits(p, d)
  {}

  /** What a command does in its directory does not touch the invariant. */
  lemma IntoKeepsInv(files: Files, dir: Dir, writes: map<string, string>, deletes: set<string>)
    requires Inv(files) && dir != DistDir
    ensures Inv(Into(files, dir, writes, deletes))
  {
    hide Sound, Fits, Into, Output;
    IntoTouches(files, dir, writes, deletes);
    var after := Into(files, dir, writes, deletes);
    forall p | p in after
      ensures Fits(p, after[p])
    {
      if p.In? && after[p].Blob? {
        FitsStep(p, after[p]);
      }
    }
    if RenderManifestFile in after {
      OutputInDist(EpisodeId(files));
    }
  }

  lemma OutputInDist(episodeId: string)
    ensures Output(episodeId).In? && Output(episodeId).dir == DistDir
  {}

  /** One more named file, of its kind. */
  lemma WriteKeepsInv(files: Files, p: Path, d: Doc)
    requires Inv(files) && Fits(p, d)
    requires p == EpisodeFile ==> d.manifest.episodeId == EpisodeId(files)
    requires p == RenderManifestFile ==> EpisodeFile in files && Sound(d.outputs) && Output(EpisodeId(files)) in files
    requires p == QaFile ==> d.approved
    requires p == PublishFile ==> d == PublishDoc(false, "private", "release_candidate_only")
    ensures Inv(files[p := d])
  {
    hide Sound, Fits, Output;
    var after := files[p := d];
    FitsKinds(d);
    assert EpisodeId(after) == EpisodeId(files);
  }

  lemma FitsKinds(d: Doc)
    ensures Fits(EpisodeFile, d) ==> d.EpisodeDoc?
  {}

  // ----- small pieces -----

  function Events(files: Files): seq<Path> {
    if AuditFile in files && files[AuditFile].LogDoc? then files[AuditFile].events else []
  }

  /** The files with one more audit entry. */
  function Audited(files: Files, event: Path): Files {
    files[AuditFile := LogDoc(Events(files) + [event])]
  }

  lemma AuditKeepsInv(files: Files, event: Path)
    requires Inv(files)
    ensures Inv(Audited(files, event))
  {
    hide Events;
    WriteKeepsInv(files, AuditFile, LogDoc(Events(files) + [event]));
  }

  function ShotRequests(m: Manifest): seq<ShotRequest> {
    var d := Shots.ShotDurations(m.duration);
    [ShotRequest("shot-001", "scene-001", d[0]), ShotRequest("shot-002", "scene-002", d[1]),
     ShotRequest("shot-003", "scene-003", d[2])]
  }

  function Bytes(files: Files, p: Path): string {
    if p in files && files[p].Blob? then files[p].bytes else ""
  }

  predicate EnvelopeOk(r: Review, m: Manifest) {
    r.schemaVersion == SCHEMA_VERSION && r.episodeId == m.episodeId
  }

  // ----- the answer of the visual command -----

  /** Of outputs with one id the last. */
  function OutputsById(shots: seq<VisualOutput>): map<string, VisualOutput> {
    if shots == [] then map[]
    else OutputsById(shots[..|shots| - 1])[shots[|shots| - 1].shotId := shots[|shots| - 1]]
  }

  function RequestIds(requests: seq<ShotRequest>): set<string> {
    set i | 0 <= i < |requests| :: requests[i].shotId
  }

  predicate OutputAccepted(lib: Library, files: Files, o: VisualOutput) {
    && o.status == "generated" && o.path.Some? && FileHash(lib, files, o.path.value).Some?
    && (o.hash == "" || Some(o.hash) == FileHash(lib, files, o.path.value))
    && o.width == 1080 && o.height == 1920 && o.fps == 30
  }

  /** The answer covers the requests, and no others, with acceptable outputs. */
  predicate VisualAccepted(lib: Library, files: Files, requests: seq<ShotRequest>, answer: VisualAnswer) {
    && answer.envelopeOk
    && (forall i | 0 <= i < |answer.shots| :: answer.shots[i].shotId in RequestIds(requests))
    && (forall i | 0 <= i < |requests| ::
        requests[i].shotId in OutputsById(answer.shots)
        && OutputAccepted(lib, files, OutputsById(answer.shots)[requests[i].shotId]))
  }

  function RecordOf(
    lib: Library, files: Files, source: string, request: ShotRequest, o: VisualOutput): ShotRecord
  {
    var path := o.path.GetOr(ScriptFile);
    ShotRecord(request.sceneId, source, path, FileHash(lib, files, path).GetOr(""), o.duration)
  }

  /** The shots of the manifest, for the requests made of the script with the source hash. */
  function Records(
    lib: Library, files: Files, source: string, requests: seq<ShotRequest>, answer: VisualAnswer): seq<ShotRecord>
    requires VisualAccepted(lib, files, requests, answer)
  {
    seq(|requests|, i requires 0 <= i < |requests| =>
      RecordOf(lib, files, source, requests[i], OutputsById(answer.shots)[requests[i].shotId]))
  }

  method IndexOutputs(shots: seq<VisualOutput>, ids: set<string>) returns (byId: Option<map<string, VisualOutput>>)
    ensures byId.Some? <==> forall i | 0 <= i < |shots| :: shots[i].shotId in ids
    ensures byId.Some? ==> byId.value == OutputsById(shots) && byId.value.Keys <= ids
  {
    var m: map<string, VisualOutput> := map[];
    for i := 0 to |shots|
      invariant m == OutputsById(shots[..i]) && m.Keys <= ids
      invariant forall j | 0 <= j < i :: shots[j].shotId in ids
    {
      assert shots[..i + 1][..i] == shots[..i];
      if shots[i].shotId !in ids {
        return None;
      }
      m := m[shots[i].shotId := shots[i]];
    }
    assert shots[..|shots|] == shots;
    byId := Some(m);
  }

  lemma {:induction false} SameSize(a: set<string>, b: set<string>)
    requires a <= b && |a| == |b|
    ensures a == b
  {
    if a != b {
      var x :| x in b && x !in a;
      SubsetSize(a, b - {x});
    }
  }

  method NormalizeVisual(
    lib: Library, files: Files, source: string, requests: seq<ShotRequest>, answer: VisualAnswer)
    returns (r: Option<seq<ShotRecord>>)
    ensures r.Some? <==> VisualAccepted(lib, files, requests, answer)
    ensures r.Some? ==> r.value == Records(lib, files, source, requests, answer)
  {
    hide FileHash, OutputsById;
    if !answer.envelopeOk {
      return None;
    }
    var ids := RequestIds(requests);
    var indexed := IndexOutputs(answer.shots, ids);
    if indexed.None? {
      return None;
    }
    var byId := indexed.value;
    if |byId.Keys| != |ids| {
      if VisualAccepted(lib, files, requests, answer) {
        AllAnswered(lib, files, requests, answer, byId);
      }
      return None;
    }
    SameSize(byId.Keys, ids);
    var out := [];
    for i := 0 to |requests|
      invariant |out| == i
      invariant forall j | 0 <= j < i ::
        requests[j].shotId in byId && OutputAccepted(lib, files, byId[requests[j].shotId])
      invariant forall j | 0 <= j < i :: out[j] == RecordOf(lib, files, source, requests[j], byId[requests[j].shotId])
    {
      assert requests[i].shotId in ids;
      var got := byId[requests[i].shotId];
      if !OutputAccepted(lib, files, got) {
        return None;
      }
      out := out + [RecordOf(lib, files, source, requests[i], got)];
    }
    assert out == Records(lib, files, source, requests, answer);
    r := Some(out);
  }

  lemma AllAnswered(
    lib: Library, files: Files, requests: seq<ShotRequest>, answer: VisualAnswer, byId: map<string, VisualOutput>)
    requires byId == OutputsById(answer.shots) && byId.Keys <= RequestIds(requests)
    requires VisualAccepted(lib, files, requests, answer)
    ensures byId.Keys == RequestIds(requests)
  {
    hide OutputAccepted, OutputsById;
  }

  // ----- when a stage succeeds -----

  predicate ApiAnswered(m: Manifest, answer: Option<Review>) {
    answer.Some? && EnvelopeOk(answer.value, m)
  }

  /** The visual command is run. */
  predicate VisualStarts(files: Files, m: Manifest, out: Outside) {
    && m.visualProvider == "external-command" && out.visual.configured
    && RequestsFile in files && files[RequestsFile].RequestsDoc?
  }

  /** It is run, and what it answers covers the requests. */
  predicate VisualReady(lib: Library, files: Files, m: Manifest, out: Outside) {
    && VisualStarts(files, m, out) && out.visual.answer.Some?
    && var after := Into(files, VisualDir, out.visual.writes, out.visual.deletes);
    && VisualAccepted(lib, after, files[RequestsFile].requests, out.visual.answer.value)
    && lib.valid(VisualDoc(Records(
        lib, after, files[RequestsFile].sourceHash, files[RequestsFile].requests, out.visual.answer.value)))
  }

  /** The manifest of a voiceover at the path the command names, if its hash is right. */
  function VoiceRecord(lib: Library, files: Files, answer: VoiceAnswer): Option<Doc> {
    if !answer.envelopeOk || answer.path.None? then None
    else
      match FileHash(lib, files, answer.path.value)
      case None => None
      case Some(hash) =>
        if answer.hash != "" && answer.hash != hash then None
        else
          var path := answer.path.value;
          Some(VoiceDoc(path, hash, answer.duration, lib.format(path), answer.sampleRate))
  }

  predicate VoiceStarts(m: Manifest, out: Outside) {
    m.voiceProvider == "external-command" && out.voice.configured
  }

  predicate VoiceReady(lib: Library, files: Files, m: Manifest, out: Outside) {
    && VoiceStarts(m, out) && out.voice.answer.Some?
    && var record := VoiceRecord(
        lib, Into(files, AudioDir, out.voice.writes, out.voice.deletes), out.voice.answer.value);
    record.Some? && lib.valid(record.value)
  }

  /** The manifest of the three subtitle files, if they are there and the transcript is JSON. */
  function SubtitleRecord(lib: Library, files: Files): Option<Doc> {
    match (FileHash(lib, files, TRANSCRIPT), FileHash(lib, files, SRT), FileHash(lib, files, ASS))
    case (Some(transcript), Some(srt), Some(ass)) =>
      if lib.isJson(Bytes(files, TRANSCRIPT)) then Some(SubtitleDoc(transcript, srt, ass)) else None
    case _ => None
  }

  predicate SubtitleRecorded(lib: Library, files: Files) {
    SubtitleRecord(lib, files).Some? && lib.valid(SubtitleRecord(lib, files).value)
  }

  /** The three subtitle files timed from the script. */
  function Timed(lib: Library, files: Files, m: Manifest): Files {
    var text := Bytes(files, ScriptFile);
    files[TRANSCRIPT := Blob(lib.text(TRANSCRIPT, m, text))][SRT := Blob(lib.text(SRT, m, text))]
         [ASS := Blob(lib.text(ASS, m, text))]
  }

  /** The sidecar is run. */
  predicate WhisperStarts(files: Files, out: Outside) {
    && out.subtitles.configured && VoiceManifestFile in files && files[VoiceManifestFile].VoiceDoc?
    && files[VoiceManifestFile].path in files
  }

  predicate Transcribed(files: Files, out: Outside) {
    && WhisperStarts(files, out)
    && out.subtitles.answer.Some? && out.subtitles.answer.value.envelopeOk && out.subtitles.answer.value.hasPaths
  }

  predicate SubtitleReady(lib: Library, files: Files, m: Manifest, out: Outside) {
    if m.subtitleProvider == "script-timing" then SubtitleRecorded(lib, Timed(lib, files, m))
    else
      && m.subtitleProvider == "faster-whisper" && Transcribed(files, out)
      && SubtitleRecorded(lib, Into(files, SubtitleDir, out.subtitles.writes, out.subtitles.deletes))
  }

  /** The files a render reads. */
  predicate RenderInputs(files: Files) {
    && VisualManifestFile in files && files[VisualManifestFile].VisualDoc?
    && VoiceManifestFile in files && files[VoiceManifestFile].VoiceDoc?
    && SubtitleManifestFile in files && SRT in files && files[VoiceManifestFile].path in files
    && files[VisualManifestFile].shots != []
    && forall i | 0 <= i < |files[VisualManifestFile].shots| :: files[VisualManifestFile].shots[i].path in files
  }

  function RenderRecordOf(lib: Library, output: Path, bytes: string, duration: real): Doc {
    RenderDoc([RenderRecord(output, lib.sha(bytes), duration, true, true)])
  }

  /** The tools are there and made an upright output with sound. */
  predicate Rendered(lib: Library, output: Path, out: Outside) {
    && out.renderOk && out.output.Some? && out.probe.Some?
    && out.probe.value.width == 1080 && out.probe.value.height == 1920 && out.probe.value.hasAudio
    && lib.valid(RenderRecordOf(lib, output, out.output.value, out.probe.value.duration))
  }

  /** ffmpeg is run. */
  predicate RenderStarts(files: Files, m: Manifest, out: Outside) {
    m.renderProvider == "ffmpeg" && out.toolsFound && RenderInputs(files) && Output(m.episodeId) !in files
  }

  predicate RenderReady(lib: Library, files: Files, m: Manifest, out: Outside) {
    RenderStarts(files, m, out) && Rendered(lib, Output(m.episodeId), out)
  }
}
