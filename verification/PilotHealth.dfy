/** internal/shortform/pilot: from which workspaces a restart with working commands reaches
    the release. */
module PilotHealth {
  import opened Text
  import opened Json
  import opened Pilot
  import opened PilotCourse
  import opened PilotRuns
  import opened PilotStages

  // ----- the schema checks -----

  /** The pattern of hashes in the schemas. */
  predicate IsContentHash(s: string) {
    && |s| == 71 && s[..7] == "sha256:"
    && forall i | 7 <= i < 71 :: '0' <= s[i] <= '9' || 'a' <= s[i] <= 'f'
  }

  predicate ShotFine(s: ShotRecord) {
    s.sceneId != "" && IsContentHash(s.reference) && IsContentHash(s.hash) && s.duration >= 0.0
  }

  /** What the four media schemas and the checks beside them ask of the modelled fields. */
  predicate SchemaFine(d: Doc) {
    match d
    case VisualDoc(shots) =>
      && shots != [] && (forall i | 0 <= i < |shots| :: ShotFine(shots[i]))
      && (forall i, j | 0 <= i < j < |shots| :: shots[i].sceneId != shots[j].sceneId)
    case VoiceDoc(_, hash, duration, format, sampleRate) =>
      IsContentHash(hash) && duration >= 0.0 && format != "" && sampleRate >= 0
    case SubtitleDoc(transcript, srt, ass) => IsContentHash(transcript) && IsContentHash(srt) && IsContentHash(ass)
    case RenderDoc(outputs) =>
      outputs != [] && forall i | 0 <= i < |outputs| :: IsContentHash(outputs[i].hash) && outputs[i].duration >= 0.0
    case _ => true
  }

  ghost predicate Checks(lib: Library) {
    && (forall d :: lib.valid(d) <==> SchemaFine(d))
    && forall s :: IsContentHash(lib.sha(s))
  }

  // ----- commands that work -----

  /** An answered shot lies in its directory, among the files the command writes. */
  predicate GoodShot(lib: Library, out: Outside, o: VisualOutput) {
    && o.status == "generated" && o.width == 1080 && o.height == 1920 && o.fps == 30 && o.duration >= 0.0
    && o.path.Some? && o.path.value.In? && o.path.value.dir == VisualDir && o.path.value.name in out.visual.writes
    && (o.hash == "" || o.hash == lib.sha(out.visual.writes[o.path.value.name]))
  }

  /** The visual command writes the three shots that are asked for. */
  predicate VisualHealthy(lib: Library, m: Manifest, out: Outside) {
    && m.visualProvider == "external-command" && out.visual.configured && out.visual.deletes == {}
    && out.visual.answer.Some?
    && var answer := out.visual.answer.value;
    && answer.envelopeOk && |answer.shots| == 3
    && forall i | 0 <= i < 3 ::
      answer.shots[i].shotId == ShotRequests(m)[i].shotId && GoodShot(lib, out, answer.shots[i])
  }

  predicate VoiceHealthy(lib: Library, m: Manifest, out: Outside) {
    && m.voiceProvider == "external-command" && out.voice.configured && out.voice.deletes == {}
    && out.voice.answer.Some?
    && var answer := out.voice.answer.value;
    && answer.envelopeOk && answer.path.Some? && answer.path.value.In? && answer.path.value.dir == AudioDir
    && answer.path.value.name in out.voice.writes && answer.duration >= 0.0 && answer.sampleRate >= 0
    && lib.format(answer.path.value) != ""
    && (answer.hash == "" || answer.hash == lib.sha(out.voice.writes[answer.path.value.name]))
  }

  /** The reviews that come by API pass. */
  predicate ReviewsHealthy(m: Manifest, out: Outside) {
    && m.reviewMode == Api && ApiAnswered(m, out.scriptReview) && ApiAnswered(m, out.finalReview)
    && var script, final := out.scriptReview.value, out.finalReview.value;
    && script.verdict == "pass" && script.canContinue && script.blockingIssues == []
    && !final.override && final.verdict == "pass" && final.canRelease && final.blockingIssues == []
  }

  predicate RenderHealthy(m: Manifest, out: Outside) {
    && m.renderProvider == "ffmpeg" && out.toolsFound && out.renderOk && out.output.Some? && out.probe.Some?
    && out.probe.value.width == 1080 && out.probe.value.height == 1920 && out.probe.value.hasAudio
    && out.probe.value.duration >= 0.0
  }

  /** The subtitles are timed from the script, or the sidecar writes all three files. */
  ghost predicate SubtitleHealthy(lib: Library, m: Manifest, out: Outside) {
    if m.subtitleProvider == "script-timing" then forall text :: lib.isJson(lib.text(TRANSCRIPT, m, text))
    else
      && m.subtitleProvider == "faster-whisper" && out.subtitles.configured && out.subtitles.deletes == {}
      && out.subtitles.answer.Some? && out.subtitles.answer.value.envelopeOk && out.subtitles.answer.value.hasPaths
      && {TRANSCRIPT.name, SRT.name, ASS.name} <= out.subtitles.writes.Keys
      && lib.isJson(out.subtitles.writes[TRANSCRIPT.name])
  }

  /** Every command works, and the schema checks are those of the repository. */
  ghost predicate Healthy(lib: Library, m: Manifest, out: Outside) {
    && Checks(lib) && ReviewsHealthy(m, out) && VisualHealthy(lib, m, out) && VoiceHealthy(lib, m, out)
    && SubtitleHealthy(lib, m, out) && RenderHealthy(m, out)
  }

  // ----- which files are there when -----

  /** The stages before the render. */
  const EARLY: seq<Path> := [
    ScriptManifestFile, ScriptRequestFile, ScriptResponseFile, RequestsFile, VisualManifestFile, VoiceManifestFile,
    SubtitleManifestFile]

  function Named(dir: Dir, writes: map<string, string>): set<Path> {
    set n | n in writes :: In(dir, n)
  }

  /** The files that a stage and its command make besides the file of the stage. */
  function Beside(m: Manifest, out: Outside, own: Path): set<Path> {
    match own
    case ScriptManifestFile => {ScriptFile}
    case VisualManifestFile => Named(VisualDir, out.visual.writes)
    case VoiceManifestFile => Named(AudioDir, out.voice.writes)
    case SubtitleManifestFile =>
      if m.subtitleProvider == "script-timing" then {TRANSCRIPT, SRT, ASS}
      else Named(SubtitleDir, out.subtitles.writes)
    case _ => {}
  }

  /** What is there after a stage that works, if `keys` is there before it. */
  function Joined(m: Manifest, out: Outside, own: Path, keys: set<Path>): set<Path> {
    if own in keys then keys else keys + {own, AuditFile} + Beside(m, out, own)
  }

  /** The same for the early stages from k up to n. */
  function Grown(m: Manifest, out: Outside, k: nat, n: nat, keys: set<Path>): set<Path>
    requires k <= n <= |EARLY|
    decreases n - k
  {
    if k == n then keys else Grown(m, out, k + 1, n, Joined(m, out, EARLY[k], keys))
  }

  lemma {:induction false} GrownMore(m: Manifest, out: Outside, k: nat, n: nat, keys: set<Path>)
    requires k <= n <= |EARLY|
    ensures keys <= Grown(m, out, k, n, keys)
    decreases n - k
  {
    hide Beside, EARLY;
    if k < n {
      GrownMore(m, out, k + 1, n, Joined(m, out, EARLY[k], keys));
    }
  }

  // ----- workspaces that can go on -----

  /** The shots that are asked for, in scenes that a manifest can name. */
  predicate AsksFor(m: Manifest, d: Doc) {
    && d.RequestsDoc? && RequestIds(d.requests) == RequestIds(ShotRequests(m)) && IsContentHash(d.sourceHash)
    && (forall i | 0 <= i < |d.requests| :: d.requests[i].sceneId != "")
    && (forall i, j | 0 <= i < j < |d.requests| :: d.requests[i].sceneId != d.requests[j].sceneId)
  }

  /** The files with the script, which is written when it is not there. */
  function Scripted(lib: Library, m: Manifest, files: Files): Files {
    if ScriptFile in files then files else files[ScriptFile := Blob(lib.text(ScriptFile, m, ""))]
  }

  /** No half of the script pair, and no review that rejects. */
  predicate TextViable(lib: Library, m: Manifest, files: Files) {
    && (ScriptFile in files <==> ScriptManifestFile in files)
    && (ScriptResponseFile in files ==> ScriptIssue(lib, Scripted(lib, m, files), m.episodeId).None?)
    && (FinalResponseFile in files ==> FinalIssue(files, m.episodeId).None?)
  }

  predicate VisualIn(files: Files, keys: set<Path>) {
    VisualManifestFile in files && files[VisualManifestFile].VisualDoc? ==>
      var shots := files[VisualManifestFile].shots;
      shots != [] && forall i | 0 <= i < |shots| :: shots[i].path in keys
  }

  predicate VoiceIn(files: Files, keys: set<Path>) {
    VoiceManifestFile in files && files[VoiceManifestFile].VoiceDoc? ==> files[VoiceManifestFile].path in keys
  }

  predicate SubtitlesIn(files: Files, keys: set<Path>) {
    SubtitleManifestFile in files ==> SRT in keys
  }

  /** Shots still to be made are the ones asked for, subtitles still to be transcribed have
      their voiceover, and a render still to be made has no output in its way and all that
      it reads, where `voiced` is there when the subtitles begin and `captioned` when the
      render does. */
  predicate MediaViable(m: Manifest, files: Files, voiced: set<Path>, captioned: set<Path>) {
    && (VisualManifestFile in files || (RequestsFile in files ==> AsksFor(m, files[RequestsFile])))
    && (SubtitleManifestFile in files || m.subtitleProvider == "script-timing" || VoiceIn(files, voiced))
    && (RenderManifestFile in files
        || (Output(m.episodeId) !in files && VisualIn(files, captioned) && VoiceIn(files, captioned)
            && SubtitlesIn(files, captioned)))
  }

  predicate Viable(lib: Library, m: Manifest, files: Files, voiced: set<Path>, captioned: set<Path>) {
    TextViable(lib, m, files) && MediaViable(m, files, voiced, captioned)
  }

  /** The workspaces that working commands can bring to the release in one restart. */
  predicate Recoverable(lib: Library, m: Manifest, out: Outside, files: Files) {
    Viable(lib, m, files, Grown(m, out, 0, 6, files.Keys), Grown(m, out, 0, 7, files.Keys))
  }

  // ----- one stage -----

  /** The files of the episode, with documents of their kinds. */
  predicate Base(m: Manifest, files: Files) {
    && EpisodeFile in files && files[EpisodeFile] == EpisodeDoc(m)
    && (ScriptFile in files ==> files[ScriptFile].Blob?)
    && (RequestsFile in files ==> files[RequestsFile].RequestsDoc?)
    && (VisualManifestFile in files ==> files[VisualManifestFile].VisualDoc?)
    && (VoiceManifestFile in files ==> files[VoiceManifestFile].VoiceDoc?)
  }

  /** A stage decides: it comes to its end and leaves the workspace as viable as it was, or it
      is stuck and the workspace was not viable. */
  predicate Decides(
    lib: Library, m: Manifest, own: Path, files: Files, course: Course, voiced: set<Path>, captioned: set<Path>)
  {
    match course
    case StuckAt(_, _, _) => !Viable(lib, m, files, voiced, captioned)
    case Reached(after) =>
      && Base(m, after) && own in after && files.Keys <= after.Keys
      && (Viable(lib, m, after, voiced, captioned) <==> Viable(lib, m, files, voiced, captioned))
  }

  lemma DecidesDone(
    lib: Library, m: Manifest, own: Path, files: Files, course: Course, voiced: set<Path>, captioned: set<Path>)
    requires course == Reached(files) && Base(m, files) && own in files
    ensures Decides(lib, m, own, files, course, voiced, captioned)
  {
    hide Viable;
  }

  /** A command that deletes nothing adds files to its directory and rewrites none elsewhere. */
  predicate Fills(before: Files, prepared: Files) {
    && before.Keys <= prepared.Keys
    && (forall p | p in before && !p.In? :: prepared[p] == before[p])
    && (forall p | p in prepared && p !in before :: p.In? && p.dir != DistDir)
  }

  /** The document that a stage makes keeps a viable workspace viable. */
  predicate Suits(
    m: Manifest, own: Path, d: Doc, files: Files, prepared: Files, voiced: set<Path>, captioned: set<Path>)
  {
    match own
    case RequestsFile => AsksFor(m, d)
    case VisualManifestFile =>
      && d.VisualDoc? && d.shots != [] && (forall i | 0 <= i < |d.shots| :: d.shots[i].path in captioned)
      && RequestsFile in files && AsksFor(m, files[RequestsFile])
    case VoiceManifestFile => d.VoiceDoc? && d.path in voiced && d.path in captioned
    case SubtitleManifestFile =>
      SRT in captioned && (m.subtitleProvider == "script-timing" || VoiceIn(files, voiced))
    case _ => true
  }

  /** The files after a stage, name by name. */
  lemma OneMore(before: Files, prepared: Files, own: Path, d: Doc)
    requires Fills(before, prepared) && own !in before && !own.In? && own != AuditFile
    ensures var after := Audited(prepared[own := d], own);
      && after.Keys == prepared.Keys + {own, AuditFile} && before.Keys <= after.Keys && after[own] == d
      && (forall p | p in before && !p.In? && p != AuditFile :: p in after && after[p] == before[p])
      && (forall p | p in after && p !in before && p != own && p != AuditFile :: p.In? && p.dir != DistDir)
  {
    hide Events;
  }

  lemma SameGates(lib: Library, before: Files, after: Files, episodeId: string)
    requires forall p | p in {ScriptFile, ScriptResponseFile, FinalResponseFile} && p in before ::
      p in after && after[p] == before[p]
    requires ScriptFile in after ==> ScriptFile in before
    requires ScriptResponseFile in after ==> ScriptResponseFile in before
    requires FinalResponseFile in after ==> FinalResponseFile in before
    ensures ScriptIssue(lib, after, episodeId) == ScriptIssue(lib, before, episodeId)
    ensures FinalIssue(after, episodeId) == FinalIssue(before, episodeId)
  {
    hide Present, Content;
  }

  /** A stage whose file is of no concern to the gates. */
  lemma Decided(
    lib: Library, m: Manifest, files: Files, prepared: Files, own: Path, d: Doc, course: Course,
    voiced: set<Path>, captioned: set<Path>)
    requires Base(m, files) && own !in files && Fills(files, prepared)
    requires Suits(m, own, d, files, prepared, voiced, captioned)
    requires own in {ScriptRequestFile, RequestsFile, VisualManifestFile, VoiceManifestFile, SubtitleManifestFile,
      FinalRequestFile, QaFile, PublishFile}
    requires course == Reached(Audited(prepared[own := d], own))
    ensures Decides(lib, m, own, files, course, voiced, captioned)
  {
    hide *;
    SuitsBase(m, files, prepared, own, d, voiced, captioned);
    SuitsText(lib, m, files, prepared, own, d);
    SuitsMedia(m, files, prepared, own, d, voiced, captioned);
    OneMore(files, prepared, own, d);
    DecidedBy(lib, m, own, files, course, voiced, captioned);
  }

  lemma DecidedBy(
    lib: Library, m: Manifest, own: Path, files: Files, course: Course, voiced: set<Path>, captioned: set<Path>)
    requires course.Reached? && Base(m, course.files) && own in course.files && files.Keys <= course.files.Keys
    requires TextViable(lib, m, course.files) <==> TextViable(lib, m, files)
    requires MediaViable(m, course.files, voiced, captioned) <==> MediaViable(m, files, voiced, captioned)
    ensures Decides(lib, m, own, files, course, voiced, captioned)
  {
    hide Base, TextViable, MediaViable;
  }

  lemma SuitsBase(
    m: Manifest, files: Files, prepared: Files, own: Path, d: Doc, voiced: set<Path>, captioned: set<Path>)
    requires Base(m, files) && own !in files && Fills(files, prepared)
    requires Suits(m, own, d, files, prepared, voiced, captioned)
    requires !own.In? && own != AuditFile && own != EpisodeFile && own != ScriptFile
    ensures Base(m, Audited(prepared[own := d], own))
  {
    hide Events, Audited, Fills, VoiceIn, IsContentHash, ShotRequests, RequestIds;
    OneMore(files, prepared, own, d);
  }

  lemma SuitsText(lib: Library, m: Manifest, files: Files, prepared: Files, own: Path, d: Doc)
    requires own !in files && Fills(files, prepared) && !own.In?
    requires own !in {AuditFile, ScriptFile, ScriptManifestFile, ScriptResponseFile, FinalResponseFile}
    ensures TextViable(lib, m, Audited(prepared[own := d], own)) <==> TextViable(lib, m, files)
  {
    hide Events, Audited, Fills, ScriptIssue, FinalIssue;
    var after := Audited(prepared[own := d], own);
    OneMore(files, prepared, own, d);
    SameGates(lib, Scripted(lib, m, files), Scripted(lib, m, after), m.episodeId);
    SameGates(lib, files, after, m.episodeId);
  }

  lemma SuitsMedia(
    m: Manifest, files: Files, prepared: Files, own: Path, d: Doc, voiced: set<Path>, captioned: set<Path>)
    requires own !in files && Fills(files, prepared) && Suits(m, own, d, files, prepared, voiced, captioned)
    requires !own.In? && own != AuditFile && own != RenderManifestFile
    ensures MediaViable(m, Audited(prepared[own := d], own), voiced, captioned)
      <==> MediaViable(m, files, voiced, captioned)
  {
    hide Events, Audited, Fills, AsksFor, Output;
    OneMore(files, prepared, own, d);
    OutputInDist(m.episodeId);
  }

  // ----- the stages of the text -----

  lemma ScriptDecides(
    lib: Library, m: Manifest, out: Outside, files: Files, voiced: set<Path>, captioned: set<Path>)
    requires Base(m, files)
    ensures var course := After(lib, m, out, ScriptManifestFile, files);
      && Decides(lib, m, ScriptManifestFile, files, course, voiced, captioned)
      && (course.Reached? ==>
        ScriptFile in course.files && course.files.Keys == Joined(m, out, ScriptManifestFile, files.Keys))
  {
    hide After, Audited, MediaViable, ScriptIssue, FinalIssue;
    ScriptPair(lib, m, out, files);
    if ScriptFile !in files && ScriptManifestFile !in files {
      ScriptWrites(lib, m, files, voiced, captioned);
    }
  }

  lemma ScriptWrites(lib: Library, m: Manifest, files: Files, voiced: set<Path>, captioned: set<Path>)
    requires Base(m, files) && ScriptFile !in files && ScriptManifestFile !in files
    ensures var body := lib.text(ScriptFile, m, "");
      var after := Audited(
        files[ScriptFile := Blob(body)][ScriptManifestFile := ScriptDoc(lib.sha(body))], ScriptManifestFile);
      && Base(m, after) && after.Keys == files.Keys + {ScriptFile, ScriptManifestFile, AuditFile}
      && (TextViable(lib, m, after) <==> TextViable(lib, m, files))
      && (MediaViable(m, after, voiced, captioned) <==> MediaViable(m, files, voiced, captioned))
  {
    hide Events, ScriptIssue, FinalIssue, AsksFor, Output;
    var body := lib.text(ScriptFile, m, "");
    var after := Audited(
      files[ScriptFile := Blob(body)][ScriptManifestFile := ScriptDoc(lib.sha(body))], ScriptManifestFile);
    OutputInDist(m.episodeId);
    SameGates(lib, Scripted(lib, m, files), after, m.episodeId);
    assert FinalIssue(Scripted(lib, m, files), m.episodeId) == FinalIssue(files, m.episodeId) by {
      IssuesFrame(lib, files, Scripted(lib, m, files), {ScriptFile}, {}, m.episodeId);
    }
  }

  lemma FillsSelf(files: Files)
    ensures Fills(files, files)
  {}

  lemma RequestDecides(
    lib: Library, m: Manifest, out: Outside, own: Path, files: Files, voiced: set<Path>, captioned: set<Path>)
    requires Base(m, files) && (own == ScriptRequestFile || own == FinalRequestFile)
    ensures var course := After(lib, m, out, own, files);
      && course.Reached? && Decides(lib, m, own, files, course, voiced, captioned)
      && course.files.Keys == Joined(m, out, own, files.Keys)
  {
    hide After, Base, Viable, Events;
    RequestStages(lib, m, out, own, files);
    FillsSelf(files);
    if own !in files {
      var d := Blob(lib.text(own, m, Bytes(files, ScriptFile)));
      Decided(lib, m, files, files, own, d, After(lib, m, out, own, files), voiced, captioned);
    }
  }

  lemma PlainDecides(
    lib: Library, m: Manifest, out: Outside, own: Path, files: Files, voiced: set<Path>, captioned: set<Path>)
    requires Base(m, files) && own in {RequestsFile, QaFile, PublishFile} && Checks(lib)
    ensures var course := After(lib, m, out, own, files);
      && course.Reached? && Decides(lib, m, own, files, course, voiced, captioned)
      && course.files.Keys == Joined(m, out, own, files.Keys)
  {
    hide After, Base, Viable, Events, AsksFor, ShotRequests, IsContentHash, SchemaFine;
    PlainStages(lib, m, out, files);
    FillsSelf(files);
    if own !in files {
      var course := After(lib, m, out, own, files);
      RequestsSuit(lib, m, Bytes(files, ScriptFile));
      Decided(lib, m, files, files, own, course.files[own], course, voiced, captioned);
    }
  }

  lemma RequestsSuit(lib: Library, m: Manifest, script: string)
    requires Checks(lib)
    ensures AsksFor(m, RequestsDoc(lib.sha(script), ShotRequests(m)))
  {
    hide SchemaFine, IsContentHash, Shots.ShotDurations;
  }

  /** A review by API that passes. */
  lemma ReviewDecides(
    lib: Library, m: Manifest, out: Outside, own: Path, files: Files, voiced: set<Path>, captioned: set<Path>)
    requires Base(m, files) && ScriptFile in files && ReviewsHealthy(m, out)
    requires own == ScriptResponseFile || own == FinalResponseFile
    ensures var course := After(lib, m, out, own, files);
      && course.Reached? && Decides(lib, m, own, files, course, voiced, captioned)
      && course.files.Keys == Joined(m, out, own, files.Keys)
  {
    hide Viable, Events, Audited;
    var course := After(lib, m, out, own, files);
    if own !in files {
      var review := if own == ScriptResponseFile then
          out.scriptReview.value.(approvedScriptHash := lib.sha(Bytes(files, ScriptFile)))
        else out.finalReview.value;
      assert course == Reached(Audited(files[own := ReviewDoc(review)], own));
      ReviewMade(lib, m, files, own, review, voiced, captioned);
    }
  }

  lemma ReviewMade(
    lib: Library, m: Manifest, files: Files, own: Path, review: Review, voiced: set<Path>, captioned: set<Path>)
    requires Base(m, files) && own !in files && ScriptFile in files
    requires own == ScriptResponseFile || own == FinalResponseFile
    requires own == ScriptResponseFile ==>
      && review.verdict == "pass" && review.canContinue && review.blockingIssues == []
      && FileHash(lib, files, ScriptFile) == Some(review.approvedScriptHash)
    requires own == FinalResponseFile ==>
      !review.override && review.verdict == "pass" && review.canRelease && review.blockingIssues == []
    requires EnvelopeOk(review, m)
    ensures var after := Audited(files[own := ReviewDoc(review)], own);
      && Base(m, after) && own in after && files.Keys <= after.Keys
      && after.Keys == files.Keys + {own, AuditFile}
      && (Viable(lib, m, after, voiced, captioned) <==> Viable(lib, m, files, voiced, captioned))
  {
    hide Events, EnvelopeOk, Audited, Base, TextViable, MediaViable, Fills;
    FillsSelf(files);
    OneMore(files, files, own, ReviewDoc(review));
    SuitsBase(m, files, files, own, ReviewDoc(review), voiced, captioned);
    SuitsMedia(m, files, files, own, ReviewDoc(review), voiced, captioned);
    ReviewText(lib, m, files, own, review);
  }

  lemma ReviewText(lib: Library, m: Manifest, files: Files, own: Path, review: Review)
    requires own !in files && ScriptFile in files
    requires own == ScriptResponseFile || own == FinalResponseFile
    requires own == ScriptResponseFile ==>
      && review.verdict == "pass" && review.canContinue && review.blockingIssues == []
      && FileHash(lib, files, ScriptFile) == Some(review.approvedScriptHash)
    requires own == FinalResponseFile ==>
      !review.override && review.verdict == "pass" && review.canRelease && review.blockingIssues == []
    requires EnvelopeOk(review, m)
    ensures TextViable(lib, m, Audited(files[own := ReviewDoc(review)], own)) <==> TextViable(lib, m, files)
  {
    hide Events, ScriptIssue, FinalIssue, EnvelopeOk, Audited, FileHash;
    var after := Audited(files[own := ReviewDoc(review)], own);
    FillsSelf(files);
    OneMore(files, files, own, ReviewDoc(review));
    ReviewFrame(files, own, ReviewDoc(review));
    IssuesFrame(lib, files, after, {own, AuditFile}, {}, m.episodeId);
    GatePasses(lib, m, files, after, own, review);
  }

  lemma ReviewFrame(files: Files, own: Path, d: Doc)
    ensures OnlyTouches(files, Audited(files[own := d], own), {own, AuditFile}, {})
  {
    hide Events;
  }

  lemma GatePasses(lib: Library, m: Manifest, files: Files, after: Files, own: Path, review: Review)
    requires own in after && after[own] == ReviewDoc(review) && EnvelopeOk(review, m)
    requires ScriptFile in files <==> ScriptFile in after
    requires ScriptFile in files ==> after[ScriptFile] == files[ScriptFile]
    ensures
      && own == ScriptResponseFile && review.verdict == "pass" && review.canContinue && review.blockingIssues == []
      && FileHash(lib, files, ScriptFile) == Some(review.approvedScriptHash) ==>
        ScriptIssue(lib, after, m.episodeId).None?
    ensures
      && own == FinalResponseFile && !review.override && review.verdict == "pass" && review.canRelease
      && review.blockingIssues == [] ==>
        FinalIssue(after, m.episodeId).None?
  {
    hide Content, Present;
  }

  // ----- the stages of the media -----

  /** A command that deletes nothing fills its directory with what it writes. */
  lemma IntoFills(lib: Library, files: Files, dir: Dir, writes: map<string, string>)
    requires dir != DistDir
    ensures var after := Into(files, dir, writes, {});
      && Fills(files, after) && after.Keys == files.Keys + Named(dir, writes)
      && forall n | n in writes :: In(dir, n) in after && FileHash(lib, after, In(dir, n)) == Some(lib.sha(writes[n]))
  {
    hide Into, Fills;
    IntoKeys(files, dir, writes);
    forall n | n in writes
      ensures var after := Into(files, dir, writes, {});
        In(dir, n) in after && FileHash(lib, after, In(dir, n)) == Some(lib.sha(writes[n]))
    {
      IntoAt(files, dir, writes, n);
    }
  }

  lemma IntoKeys(files: Files, dir: Dir, writes: map<string, string>)
    requires dir != DistDir
    ensures var after := Into(files, dir, writes, {});
      Fills(files, after) && after.Keys == files.Keys + Named(dir, writes)
  {}

  lemma IntoAt(files: Files, dir: Dir, writes: map<string, string>, n: string)
    requires n in writes
    ensures var after := Into(files, dir, writes, {}); In(dir, n) in after && after[In(dir, n)] == Blob(writes[n])
  {
    assert In(dir, n).name == n;
  }

  lemma {:induction false} ByIdGood(lib: Library, out: Outside, shots: seq<VisualOutput>)
    requires forall i | 0 <= i < |shots| :: GoodShot(lib, out, shots[i])
    ensures forall id | id in OutputsById(shots) :: GoodShot(lib, out, OutputsById(shots)[id])
    ensures forall i | 0 <= i < |shots| :: shots[i].shotId in OutputsById(shots)
    ensures forall id | id in OutputsById(shots) :: exists i :: 0 <= i < |shots| && shots[i].shotId == id
  {
    hide GoodShot;
    if shots != [] {
      var last := shots[|shots| - 1];
      ByIdGood(lib, out, shots[..|shots| - 1]);
      forall i | 0 <= i < |shots| - 1
        ensures shots[i].shotId in OutputsById(shots)
      {
        assert shots[..|shots| - 1][i] == shots[i];
      }
      forall id | id in OutputsById(shots)
        ensures exists i :: 0 <= i < |shots| && shots[i].shotId == id
      {
        if id == last.shotId {
          assert shots[|shots| - 1].shotId == id;
        } else {
          var i :| 0 <= i < |shots| - 1 && shots[..|shots| - 1][i].shotId == id;
          assert shots[i].shotId == id;
        }
      }
    }
  }

  /** A good shot is accepted where the command has run. */
  lemma GoodAccepted(lib: Library, files: Files, out: Outside, o: VisualOutput)
    requires GoodShot(lib, out, o)
    ensures var after := Into(files, VisualDir, out.visual.writes, {});
      && OutputAccepted(lib, after, o) && o.path.Some? && o.path.value in after
      && FileHash(lib, after, o.path.value) == Some(lib.sha(out.visual.writes[o.path.value.name]))
  {
    hide Into, FileHash;
    IntoFills(lib, files, VisualDir, out.visual.writes);
    assert o.path.value == In(VisualDir, o.path.value.name);
  }

  lemma ThreeIds(m: Manifest)
    ensures |ShotRequests(m)| == 3
    ensures RequestIds(ShotRequests(m)) == {"shot-001", "shot-002", "shot-003"}
    ensures forall i | 0 <= i < 3 :: ShotRequests(m)[i].shotId == ["shot-001", "shot-002", "shot-003"][i]
  {
    assert ShotRequests(m)[0].shotId in RequestIds(ShotRequests(m));
    assert ShotRequests(m)[1].shotId in RequestIds(ShotRequests(m));
    assert ShotRequests(m)[2].shotId in RequestIds(ShotRequests(m));
  }

  /** The outputs of a healthy command, by the ids of the three shots. */
  lemma HealthyOutputs(lib: Library, m: Manifest, out: Outside)
    requires VisualHealthy(lib, m, out)
    ensures var byId := OutputsById(out.visual.answer.value.shots);
      && byId.Keys == RequestIds(ShotRequests(m)) && forall id | id in byId :: GoodShot(lib, out, byId[id])
  {
    hide GoodShot, OutputsById, ShotRequests;
    var shots := out.visual.answer.value.shots;
    ThreeIds(m);
    ByIdGood(lib, out, shots);
    assert shots[0].shotId == "shot-001" && shots[1].shotId == "shot-002" && shots[2].shotId == "shot-003";
  }

  /** What a healthy command answers covers exactly the requests with the three ids. */
  lemma HealthyCovers(lib: Library, m: Manifest, out: Outside, files: Files, requests: seq<ShotRequest>)
    requires VisualHealthy(lib, m, out)
    ensures VisualAccepted(lib, Into(files, VisualDir, out.visual.writes, {}), requests, out.visual.answer.value)
      <==> RequestIds(requests) == RequestIds(ShotRequests(m))
  {
    hide Into, GoodShot, OutputAccepted, OutputsById, ShotRequests, FileHash;
    var after := Into(files, VisualDir, out.visual.writes, {});
    var answer := out.visual.answer.value;
    var byId := OutputsById(answer.shots);
    HealthyOutputs(lib, m, out);
    ThreeIds(m);
    assert answer.shots[0].shotId == "shot-001" && answer.shots[1].shotId == "shot-002";
    assert answer.shots[2].shotId == "shot-003";
    if RequestIds(requests) == RequestIds(ShotRequests(m)) {
      forall i | 0 <= i < |requests|
        ensures requests[i].shotId in byId && OutputAccepted(lib, after, byId[requests[i].shotId])
      {
        assert requests[i].shotId in RequestIds(requests);
        GoodAccepted(lib, files, out, byId[requests[i].shotId]);
      }
    }
    if VisualAccepted(lib, after, requests, answer) {
      forall i | 0 <= i < |requests|
        ensures requests[i].shotId in RequestIds(ShotRequests(m))
      {
      }
    }
  }

  /** The shots it makes: they are there, and they pass the checks exactly when the requests
      name a source and different scenes. */
  lemma HealthyShots(lib: Library, m: Manifest, out: Outside, files: Files, source: string, requests: seq<ShotRequest>)
    requires Checks(lib) && VisualHealthy(lib, m, out) && RequestIds(requests) == RequestIds(ShotRequests(m))
    ensures var after := Into(files, VisualDir, out.visual.writes, {});
      && VisualAccepted(lib, after, requests, out.visual.answer.value)
      && var shots := Records(lib, after, source, requests, out.visual.answer.value);
      && shots != [] && (forall i | 0 <= i < |shots| :: shots[i].path in after)
      && (lib.valid(VisualDoc(shots)) <==> AsksFor(m, RequestsDoc(source, requests)))
  {
    hide Into, OutputAccepted, OutputsById, ShotRequests, FileHash, IsContentHash, VisualAccepted;
    var after := Into(files, VisualDir, out.visual.writes, {});
    var answer := out.visual.answer.value;
    var byId := OutputsById(answer.shots);
    HealthyOutputs(lib, m, out);
    HealthyCovers(lib, m, out, files, requests);
    ThreeIds(m);
    assert "shot-001" in RequestIds(requests);
    var shots := Records(lib, after, source, requests, answer);
    forall i | 0 <= i < |requests|
      ensures shots[i].sceneId == requests[i].sceneId && shots[i].reference == source && shots[i].path in after
      ensures IsContentHash(shots[i].hash) && shots[i].duration >= 0.0
    {
      assert requests[i].shotId in RequestIds(requests);
      GoodAccepted(lib, files, out, byId[requests[i].shotId]);
    }
    assert |shots| == |requests|;
    assert lib.valid(VisualDoc(shots)) <==> SchemaFine(VisualDoc(shots));
    assert ShotFine(shots[0]) ==> IsContentHash(source);
    assert SchemaFine(VisualDoc(shots)) ==> ShotFine(shots[0]);
    if SchemaFine(VisualDoc(shots)) {
      forall i | 0 <= i < |requests|
        ensures requests[i].sceneId != ""
      {
        assert ShotFine(shots[i]);
      }
    }
  }

  /** A stage that runs a command, ready with a document that suits. */
  lemma CommandDecides(
    lib: Library, m: Manifest, out: Outside, own: Path, files: Files, voiced: set<Path>, captioned: set<Path>)
    requires Base(m, files) && own !in files
    requires own in {VisualManifestFile, VoiceManifestFile, SubtitleManifestFile}
    requires StageReady(lib, m, out, own, files)
    requires var prepared := Prepared(lib, m, out, own, files);
      && Fills(files, prepared) && prepared.Keys == files.Keys + Beside(m, out, own)
      && Suits(m, own, Document(lib, m, out, own, files), files, prepared, voiced, captioned)
    ensures var course := After(lib, m, out, own, files);
      && course.Reached? && Decides(lib, m, own, files, course, voiced, captioned)
      && course.files.Keys == Joined(m, out, own, files.Keys)
  {
    hide After, Base, Decides, Audited, Fills, Suits, StageReady, Prepared, Document, Beside;
    CommandStages(lib, m, out, own, files);
    var prepared, d := Prepared(lib, m, out, own, files), Document(lib, m, out, own, files);
    OneMore(files, prepared, own, d);
    Decided(lib, m, files, prepared, own, d, After(lib, m, out, own, files), voiced, captioned);
  }

  /** Without its file, and not ready, it is stuck. */
  lemma CommandStuck(lib: Library, m: Manifest, out: Outside, own: Path, files: Files)
    requires own in {VisualManifestFile, VoiceManifestFile, SubtitleManifestFile}
    requires own !in files && !StageReady(lib, m, out, own, files)
    ensures After(lib, m, out, own, files).StuckAt?
  {
    hide After, StageReady, Prepared, Document;
    CommandStages(lib, m, out, own, files);
  }

  lemma VisualDecides(
    lib: Library, m: Manifest, out: Outside, files: Files, voiced: set<Path>, captioned: set<Path>)
    requires Base(m, files) && RequestsFile in files && Healthy(lib, m, out)
    requires Joined(m, out, VisualManifestFile, files.Keys) <= captioned
    ensures var course := After(lib, m, out, VisualManifestFile, files);
      && Decides(lib, m, VisualManifestFile, files, course, voiced, captioned)
      && (course.Reached? ==> course.files.Keys == Joined(m, out, VisualManifestFile, files.Keys))
  {
    hide After, VisualReady, AsksFor, TextViable, Checks, Prepared, Document, Fills, Suits, Beside, Decides;
    hide Output, ReviewsHealthy, VoiceHealthy, SubtitleHealthy, RenderHealthy, VisualHealthy;
    if VisualManifestFile in files {
      DoneStill(lib, m, out, VisualManifestFile, files, voiced, captioned);
    } else {
      VisualReadyIff(lib, m, out, files);
      if AsksFor(m, files[RequestsFile]) {
        VisualSuits(lib, m, out, files, voiced, captioned);
        CommandDecides(lib, m, out, VisualManifestFile, files, voiced, captioned);
      } else {
        CommandStuck(lib, m, out, VisualManifestFile, files);
        StuckDecides(lib, m, VisualManifestFile, files, After(lib, m, out, VisualManifestFile, files),
                     voiced, captioned);
      }
    }
  }

  lemma StuckDecides(
    lib: Library, m: Manifest, own: Path, files: Files, course: Course, voiced: set<Path>, captioned: set<Path>)
    requires course.StuckAt? && !Viable(lib, m, files, voiced, captioned)
    ensures Decides(lib, m, own, files, course, voiced, captioned)
  {}

  /** A stage whose file is there. */
  lemma DoneStill(
    lib: Library, m: Manifest, out: Outside, own: Path, files: Files, voiced: set<Path>, captioned: set<Path>)
    requires Base(m, files) && own in files
    requires own in {VisualManifestFile, VoiceManifestFile, SubtitleManifestFile, RenderManifestFile}
    ensures After(lib, m, out, own, files) == Reached(files)
    ensures Decides(lib, m, own, files, Reached(files), voiced, captioned)
    ensures files.Keys == Joined(m, out, own, files.Keys)
  {
    hide After, Base, Decides, StageReady, Prepared, Document, Beside;
    CommandStages(lib, m, out, own, files);
    DecidesDone(lib, m, own, files, Reached(files), voiced, captioned);
  }

  lemma VisualSuits(
    lib: Library, m: Manifest, out: Outside, files: Files, voiced: set<Path>, captioned: set<Path>)
    requires Base(m, files) && RequestsFile in files && Healthy(lib, m, out) && AsksFor(m, files[RequestsFile])
    requires VisualManifestFile !in files && VisualReady(lib, files, m, out)
    requires Joined(m, out, VisualManifestFile, files.Keys) <= captioned
    ensures var prepared := Prepared(lib, m, out, VisualManifestFile, files);
      && Fills(files, prepared) && prepared.Keys == files.Keys + Beside(m, out, VisualManifestFile)
      && Suits(m, VisualManifestFile, Document(lib, m, out, VisualManifestFile, files), files, prepared,
               voiced, captioned)
  {
    hide VisualReady, AsksFor, Checks, Fills, Into, Records, VisualAccepted, Named, ShotRequests, RequestIds, GoodShot;
    hide ReviewsHealthy, VoiceHealthy, SubtitleHealthy, RenderHealthy;
    var d := files[RequestsFile];
    AsksIds(m, d);
    VisualStarted(lib, m, out, files);
    IntoFills(lib, files, VisualDir, out.visual.writes);
    HealthyShots(lib, m, out, files, d.sourceHash, d.requests);
  }

  lemma VisualStarted(lib: Library, m: Manifest, out: Outside, files: Files)
    requires VisualReady(lib, files, m, out)
    ensures VisualStarts(files, m, out)
  {}

  lemma AsksIds(m: Manifest, d: Doc)
    ensures AsksFor(m, d) ==> d.RequestsDoc? && RequestIds(d.requests) == RequestIds(ShotRequests(m))
  {}

  /** The visual stage succeeds exactly for the requests that are asked for. */
  lemma VisualReadyIff(lib: Library, m: Manifest, out: Outside, files: Files)
    requires RequestsFile in files && files[RequestsFile].RequestsDoc? && Checks(lib) && VisualHealthy(lib, m, out)
    ensures VisualReady(lib, files, m, out) <==> AsksFor(m, files[RequestsFile])
  {
    hide Into, VisualAccepted, Records, AsksFor, ShotRequests, RequestIds, Checks, GoodShot;
    var d := files[RequestsFile];
    AsksIds(m, d);
    HealthyCovers(lib, m, out, files, d.requests);
    if RequestIds(d.requests) == RequestIds(ShotRequests(m)) {
      HealthyShots(lib, m, out, files, d.sourceHash, d.requests);
    }
  }

  lemma VoiceDecides(
    lib: Library, m: Manifest, out: Outside, files: Files, voiced: set<Path>, captioned: set<Path>)
    requires Base(m, files) && Healthy(lib, m, out)
    requires Joined(m, out, VoiceManifestFile, files.Keys) <= voiced
    requires Joined(m, out, VoiceManifestFile, files.Keys) <= captioned
    ensures var course := After(lib, m, out, VoiceManifestFile, files);
      && course.Reached? && Decides(lib, m, VoiceManifestFile, files, course, voiced, captioned)
      && course.files.Keys == Joined(m, out, VoiceManifestFile, files.Keys)
  {
    hide After, Base, Decides, Healthy, Prepared, Document, Fills, Suits, Beside, VoiceReady;
    if VoiceManifestFile in files {
      DoneStill(lib, m, out, VoiceManifestFile, files, voiced, captioned);
    } else {
      VoiceSuits(lib, m, out, files, voiced, captioned);
      CommandDecides(lib, m, out, VoiceManifestFile, files, voiced, captioned);
    }
  }

  lemma VoiceSuits(
    lib: Library, m: Manifest, out: Outside, files: Files, voiced: set<Path>, captioned: set<Path>)
    requires Healthy(lib, m, out) && VoiceManifestFile !in files
    requires Joined(m, out, VoiceManifestFile, files.Keys) <= voiced
    requires Joined(m, out, VoiceManifestFile, files.Keys) <= captioned
    ensures VoiceReady(lib, files, m, out)
    ensures var prepared := Prepared(lib, m, out, VoiceManifestFile, files);
      && Fills(files, prepared) && prepared.Keys == files.Keys + Beside(m, out, VoiceManifestFile)
      && Suits(m, VoiceManifestFile, Document(lib, m, out, VoiceManifestFile, files), files, prepared,
               voiced, captioned)
  {
    hide Into, Fills, FileHash, Named, IsContentHash, ReviewsHealthy, VisualHealthy, SubtitleHealthy, RenderHealthy;
    IntoFills(lib, files, AudioDir, out.voice.writes);
    var answer := out.voice.answer.value;
    var path := answer.path.value;
    assert path == In(AudioDir, path.name);
    var d := VoiceDoc(
      path, lib.sha(out.voice.writes[path.name]), answer.duration, lib.format(path), answer.sampleRate);
    assert VoiceRecord(lib, Into(files, AudioDir, out.voice.writes, {}), answer) == Some(d) && lib.valid(d);
  }

  /** The subtitles are recorded, unless the sidecar lacks the voiceover. */
  lemma SubtitleDecides(
    lib: Library, m: Manifest, out: Outside, files: Files, voiced: set<Path>, captioned: set<Path>)
    requires Base(m, files) && Healthy(lib, m, out) && VoiceManifestFile in files && voiced == files.Keys
    requires Joined(m, out, SubtitleManifestFile, files.Keys) <= captioned
    ensures var course := After(lib, m, out, SubtitleManifestFile, files);
      && Decides(lib, m, SubtitleManifestFile, files, course, voiced, captioned)
      && (course.Reached? ==> course.files.Keys == Joined(m, out, SubtitleManifestFile, files.Keys))
  {
    hide After, Decides, Fills, AsksFor, TextViable, Prepared, SubtitleReady, SubtitleRecord, Beside, SRT;
    hide Output, ReviewsHealthy, VisualHealthy, VoiceHealthy, RenderHealthy, SubtitleHealthy, Checks;
    if SubtitleManifestFile in files {
      DoneStill(lib, m, out, SubtitleManifestFile, files, voiced, captioned);
    } else if m.subtitleProvider == "script-timing" || VoiceIn(files, voiced) {
      HealthySubtitles(lib, m, out, files);
      CommandDecides(lib, m, out, SubtitleManifestFile, files, voiced, captioned);
    } else {
      NoVoiceover(lib, m, out, files);
      CommandStuck(lib, m, out, SubtitleManifestFile, files);
      StuckDecides(lib, m, SubtitleManifestFile, files, After(lib, m, out, SubtitleManifestFile, files),
                   voiced, captioned);
    }
  }

  lemma NoVoiceover(lib: Library, m: Manifest, out: Outside, files: Files)
    requires m.subtitleProvider != "script-timing" && VoiceManifestFile in files
    requires files[VoiceManifestFile].VoiceDoc? && files[VoiceManifestFile].path !in files
    ensures !SubtitleReady(lib, files, m, out)
  {}

  lemma HealthySubtitles(lib: Library, m: Manifest, out: Outside, files: Files)
    requires Checks(lib) && SubtitleHealthy(lib, m, out) && VoiceManifestFile in files
    requires files[VoiceManifestFile].VoiceDoc?
    requires m.subtitleProvider == "script-timing" || files[VoiceManifestFile].path in files
    ensures SubtitleReady(lib, files, m, out)
    ensures var after := Prepared(lib, m, out, SubtitleManifestFile, files);
      && SubtitleRecord(lib, after).Some? && Fills(files, after)
      && after.Keys == files.Keys + Beside(m, out, SubtitleManifestFile) && SRT in after
  {
    hide Into, Timed, SubtitleRecord, Fills, IsContentHash, Named, SRT, ASS, TRANSCRIPT;
    var after := Prepared(lib, m, out, SubtitleManifestFile, files);
    if m.subtitleProvider == "script-timing" {
      TimedRecord(lib, m, files);
    } else {
      WrittenRecord(lib, files, out.subtitles.writes);
    }
    RecordFine(lib, after);
  }

  lemma RecordFine(lib: Library, files: Files)
    requires Checks(lib)
    ensures SubtitleRecord(lib, files).Some? ==> lib.valid(SubtitleRecord(lib, files).value)
  {
    hide IsContentHash, SRT, ASS, TRANSCRIPT, Content;
  }

  lemma TimedRecord(lib: Library, m: Manifest, files: Files)
    requires forall text :: lib.isJson(lib.text(TRANSCRIPT, m, text))
    ensures var after := Timed(lib, files, m);
      && SubtitleRecord(lib, after).Some? && SRT in after && Fills(files, after)
      && after.Keys == files.Keys + {TRANSCRIPT, SRT, ASS}
  {
    var text := Bytes(files, ScriptFile);
    var after := Timed(lib, files, m);
    assert after[TRANSCRIPT] == Blob(lib.text(TRANSCRIPT, m, text));
    assert Bytes(after, TRANSCRIPT) == lib.text(TRANSCRIPT, m, text);
  }

  lemma WrittenRecord(lib: Library, files: Files, writes: map<string, string>)
    requires {TRANSCRIPT.name, SRT.name, ASS.name} <= writes.Keys && lib.isJson(writes[TRANSCRIPT.name])
    ensures var after := Into(files, SubtitleDir, writes, {});
      && SubtitleRecord(lib, after).Some? && SRT in after && Fills(files, after)
      && after.Keys == files.Keys + Named(SubtitleDir, writes)
  {
    hide Fills, FileHash, SRT, ASS, TRANSCRIPT, Named;
    InSubtitles();
    IntoFills(lib, files, SubtitleDir, writes);
    assert TRANSCRIPT.name in writes && SRT.name in writes && ASS.name in writes;
    var after := Into(files, SubtitleDir, writes, {});
    assert In(SubtitleDir, TRANSCRIPT.name) in after && In(SubtitleDir, SRT.name) in after;
    assert Bytes(after, TRANSCRIPT) == writes[TRANSCRIPT.name];
  }

  lemma InSubtitles()
    ensures forall p | p in {TRANSCRIPT, SRT, ASS} :: p.In? && p == In(SubtitleDir, p.name)
  {}

  /** The render succeeds exactly when nothing is in its way and all that it reads is there. */
  lemma RenderDecides(
    lib: Library, m: Manifest, out: Outside, files: Files, voiced: set<Path>, captioned: set<Path>)
    requires Base(m, files) && Healthy(lib, m, out) && captioned == files.Keys
    requires VisualManifestFile in files && VoiceManifestFile in files && SubtitleManifestFile in files
    ensures var course := After(lib, m, out, RenderManifestFile, files);
      Decides(lib, m, RenderManifestFile, files, course, voiced, captioned)
  {
    hide After, Events, AsksFor, Output, Audited, TextViable, RenderRecordOf, Rendered, RenderInputs, SRT;
    hide ReviewsHealthy, VisualHealthy, VoiceHealthy, SubtitleHealthy, Base, VisualIn, VoiceIn, SubtitlesIn;
    CommandStages(lib, m, out, RenderManifestFile, files);
    if RenderManifestFile in files {
      DecidesDone(lib, m, RenderManifestFile, files, Reached(files), voiced, captioned);
    } else {
      var output := Output(m.episodeId);
      var d := RenderRecordOf(lib, output, out.output.value, out.probe.value.duration);
      HealthyRender(lib, m, out, output);
      InputsIff(m, files);
      OutputInDist(m.episodeId);
      RenderMade(lib, m, files, output, Blob(out.output.value), d);
    }
  }

  lemma HealthyRender(lib: Library, m: Manifest, out: Outside, output: Path)
    requires Checks(lib) && RenderHealthy(m, out)
    ensures Rendered(lib, output, out)
  {
    hide IsContentHash;
  }

  lemma InputsIff(m: Manifest, files: Files)
    requires Base(m, files)
    requires VisualManifestFile in files && VoiceManifestFile in files && SubtitleManifestFile in files
    ensures RenderInputs(files)
      <==> VisualIn(files, files.Keys) && VoiceIn(files, files.Keys) && SubtitlesIn(files, files.Keys)
  {
    hide SRT;
  }

  lemma RenderMade(lib: Library, m: Manifest, files: Files, output: Path, video: Doc, d: Doc)
    requires Base(m, files) && RenderManifestFile !in files && output.In?
    requires VisualManifestFile in files && SubtitleManifestFile in files
    ensures var after := Audited(files[output := video][RenderManifestFile := d], RenderManifestFile);
      && Base(m, after) && RenderManifestFile in after && files.Keys <= after.Keys
      && (TextViable(lib, m, after) <==> TextViable(lib, m, files))
      && forall voiced, captioned :: MediaViable(m, after, voiced, captioned)
  {
    hide Events, ScriptIssue, FinalIssue, AsksFor, Output, VisualIn, VoiceIn;
    var after := Audited(files[output := video][RenderManifestFile := d], RenderManifestFile);
    SameGates(lib, files, after, m.episodeId);
    SameGates(lib, Scripted(lib, m, files), Scripted(lib, m, after), m.episodeId);
  }

  // ----- the phases -----

  /** One early stage: what will be there later does not change. */
  lemma GrownStep(m: Manifest, out: Outside, k: nat, keys: set<Path>, after: set<Path>)
    requires k < |EARLY| && after == Joined(m, out, EARLY[k], keys)
    ensures Grown(m, out, k, 7, keys) == Grown(m, out, k + 1, 7, after) && after <= Grown(m, out, k, 7, keys)
    ensures k < 6 ==> Grown(m, out, k, 6, keys) == Grown(m, out, k + 1, 6, after) && after <= Grown(m, out, k, 6, keys)
  {
    hide Joined;
    GrownMore(m, out, k + 1, 7, after);
    if k < 6 {
      GrownMore(m, out, k + 1, 6, after);
    }
  }

  lemma EarlyStages()
    ensures EARLY == [
      ScriptManifestFile, ScriptRequestFile, ScriptResponseFile, RequestsFile, VisualManifestFile, VoiceManifestFile,
      SubtitleManifestFile]
  {}

  /** A phase has come to its stage k, the early stage e, with the workspace as viable as the
      phase found it. */
  ghost predicate Onward(
    lib: Library, m: Manifest, out: Outside, stages: seq<Path>, k: nat, e: nat, start: Files, files: Files,
    voiced: set<Path>, captioned: set<Path>)
    requires k <= |stages| && e <= |EARLY|
  {
    && Run(lib, m, out, stages, k, start) == Reached(files) && Base(m, files)
    && (Viable(lib, m, files, voiced, captioned) <==> Viable(lib, m, start, voiced, captioned))
    && (e <= 6 ==> voiced == Grown(m, out, e, 6, files.Keys))
    && captioned == Grown(m, out, e, 7, files.Keys)
  }

  /** A phase has come to an end. */
  ghost predicate Over(
    lib: Library, m: Manifest, out: Outside, stages: seq<Path>, start: Files, voiced: set<Path>, captioned: set<Path>)
  {
    Phase(lib, m, out, stages, start).StuckAt? && !Viable(lib, m, start, voiced, captioned)
  }

  /** One more early stage. */
  lemma Advances(
    lib: Library, m: Manifest, out: Outside, stages: seq<Path>, k: nat, e: nat, own: Path, start: Files,
    before: Files, voiced: set<Path>, captioned: set<Path>) returns (after: Files)
    requires k < |stages| && stages[k] == own && e < |EARLY| && EARLY[e] == own
    requires Onward(lib, m, out, stages, k, e, start, before, voiced, captioned)
    requires var course := After(lib, m, out, own, before);
      && Decides(lib, m, own, before, course, voiced, captioned)
      && (course.Reached? ==> course.files.Keys == Joined(m, out, own, before.Keys))
    ensures var course := After(lib, m, out, own, before);
      if course.Reached? then
        && after == course.files && own in after && before.Keys <= after.Keys
        && Onward(lib, m, out, stages, k + 1, e + 1, start, after, voiced, captioned)
      else
        && Run(lib, m, out, stages, k + 1, start).StuckAt?
        && Over(lib, m, out, stages, start, voiced, captioned)
  {
    hide After, Base, Viable, Joined, EARLY;
    EarlyStages();
    var course := After(lib, m, out, own, before);
    if course.Reached? {
      after := course.files;
      GrownStep(m, out, e, before.Keys, after.Keys);
    } else {
      after := before;
      StaysStuck(lib, m, out, stages, k + 1, |stages|, start);
    }
  }

  /** The sets of the early stages from here on have room for what the next stage adds. */
  lemma Room(
    lib: Library, m: Manifest, out: Outside, stages: seq<Path>, k: nat, e: nat, start: Files, before: Files,
    voiced: set<Path>, captioned: set<Path>)
    requires k <= |stages| && e < |EARLY| && Onward(lib, m, out, stages, k, e, start, before, voiced, captioned)
    ensures Joined(m, out, EARLY[e], before.Keys) <= captioned && Base(m, before)
    ensures e < 6 ==> Joined(m, out, EARLY[e], before.Keys) <= voiced
    ensures e == 6 ==> voiced == before.Keys
  {
    hide Base, Viable, Joined, EARLY;
    EarlyStages();
    GrownStep(m, out, e, before.Keys, Joined(m, out, EARLY[e], before.Keys));
  }

  /** The parts of being healthy. */
  lemma HealthyParts(lib: Library, m: Manifest, out: Outside)
    requires Healthy(lib, m, out)
    ensures Checks(lib) && ReviewsHealthy(m, out)
  {}

  lemma Begins(
    lib: Library, m: Manifest, out: Outside, stages: seq<Path>, e: nat, start: Files, voiced: set<Path>,
    captioned: set<Path>)
    requires e <= 6 && Base(m, start)
    requires e <= |EARLY| && voiced == Grown(m, out, e, 6, start.Keys) && captioned == Grown(m, out, e, 7, start.Keys)
    ensures Onward(lib, m, out, stages, 0, e, start, start, voiced, captioned)
  {
    hide Base, Viable, Grown, EARLY;
  }

  lemma OverMeans(
    lib: Library, m: Manifest, out: Outside, stages: seq<Path>, start: Files, voiced: set<Path>, captioned: set<Path>)
    requires Over(lib, m, out, stages, start, voiced, captioned)
    ensures Phase(lib, m, out, stages, start).StuckAt? && !Viable(lib, m, start, voiced, captioned)
  {}

  /** The first phase. */
  lemma ScriptRuns(lib: Library, m: Manifest, out: Outside, start: Files, voiced: set<Path>, captioned: set<Path>)
    returns (files: Files)
    requires Base(m, start) && Healthy(lib, m, out) && |EARLY| == 7 && |SCRIPT_STAGES| == 3
    requires voiced == Grown(m, out, 0, 6, start.Keys) && captioned == Grown(m, out, 0, 7, start.Keys)
    ensures if Phase(lib, m, out, SCRIPT_STAGES, start).Reached? then
        && Onward(lib, m, out, SCRIPT_STAGES, 3, 3, start, files, voiced, captioned)
        && ScriptFile in files && ScriptManifestFile in files && ScriptResponseFile in files
      else Over(lib, m, out, SCRIPT_STAGES, start, voiced, captioned)
  {
    hide *;
    StageLists();
    EarlyStages();
    HealthyParts(lib, m, out);
    files := start;
    Begins(lib, m, out, SCRIPT_STAGES, 0, start, voiced, captioned);
    ScriptDecides(lib, m, out, files, voiced, captioned);
    files := Advances(lib, m, out, SCRIPT_STAGES, 0, 0, ScriptManifestFile, start, files, voiced, captioned);
    if After(lib, m, out, ScriptManifestFile, start).StuckAt? {
      OverMeans(lib, m, out, SCRIPT_STAGES, start, voiced, captioned);
      return;
    }
    Room(lib, m, out, SCRIPT_STAGES, 1, 1, start, files, voiced, captioned);
    RequestDecides(lib, m, out, ScriptRequestFile, files, voiced, captioned);
    files := Advances(lib, m, out, SCRIPT_STAGES, 1, 1, ScriptRequestFile, start, files, voiced, captioned);
    Room(lib, m, out, SCRIPT_STAGES, 2, 2, start, files, voiced, captioned);
    ReviewDecides(lib, m, out, ScriptResponseFile, files, voiced, captioned);
    files := Advances(lib, m, out, SCRIPT_STAGES, 2, 2, ScriptResponseFile, start, files, voiced, captioned);
    OnwardReached(lib, m, out, SCRIPT_STAGES, 3, start, files, voiced, captioned);
  }

  lemma OnwardReached(
    lib: Library, m: Manifest, out: Outside, stages: seq<Path>, e: nat, start: Files, files: Files,
    voiced: set<Path>, captioned: set<Path>)
    requires e <= |EARLY| && Onward(lib, m, out, stages, |stages|, e, start, files, voiced, captioned)
    ensures Phase(lib, m, out, stages, start) == Reached(files)
  {}

  /** The second phase up to the render. */
  lemma MediaRuns(lib: Library, m: Manifest, out: Outside, start: Files, voiced: set<Path>, captioned: set<Path>)
    returns (files: Files)
    requires Base(m, start) && Healthy(lib, m, out) && |EARLY| == 7 && |PRODUCE_STAGES| == 7
    requires voiced == Grown(m, out, 3, 6, start.Keys) && captioned == Grown(m, out, 3, 7, start.Keys)
    ensures if Run(lib, m, out, PRODUCE_STAGES, 4, start).Reached? then
        && Onward(lib, m, out, PRODUCE_STAGES, 4, 7, start, files, voiced, captioned) && start.Keys <= files.Keys
        && VisualManifestFile in files && VoiceManifestFile in files && SubtitleManifestFile in files
      else Over(lib, m, out, PRODUCE_STAGES, start, voiced, captioned)
  {
    hide *;
    StageLists();
    EarlyStages();
    HealthyParts(lib, m, out);
    files := start;
    Begins(lib, m, out, PRODUCE_STAGES, 3, start, voiced, captioned);
    PlainDecides(lib, m, out, RequestsFile, files, voiced, captioned);
    files := Advances(lib, m, out, PRODUCE_STAGES, 0, 3, RequestsFile, start, files, voiced, captioned);
    Room(lib, m, out, PRODUCE_STAGES, 1, 4, start, files, voiced, captioned);
    VisualDecides(lib, m, out, files, voiced, captioned);
    var stuck := After(lib, m, out, VisualManifestFile, files).StuckAt?;
    files := Advances(lib, m, out, PRODUCE_STAGES, 1, 4, VisualManifestFile, start, files, voiced, captioned);
    if stuck {
      StaysStuck(lib, m, out, PRODUCE_STAGES, 2, 4, start);
      return;
    }
    Room(lib, m, out, PRODUCE_STAGES, 2, 5, start, files, voiced, captioned);
    VoiceDecides(lib, m, out, files, voiced, captioned);
    files := Advances(lib, m, out, PRODUCE_STAGES, 2, 5, VoiceManifestFile, start, files, voiced, captioned);
    Room(lib, m, out, PRODUCE_STAGES, 3, 6, start, files, voiced, captioned);
    SubtitleDecides(lib, m, out, files, voiced, captioned);
    stuck := After(lib, m, out, SubtitleManifestFile, files).StuckAt?;
    files := Advances(lib, m, out, PRODUCE_STAGES, 3, 6, SubtitleManifestFile, start, files, voiced, captioned);
    if !stuck {
      OnwardRun(lib, m, out, PRODUCE_STAGES, 4, 7, start, files, voiced, captioned);
    }
  }

  lemma OnwardRun(
    lib: Library, m: Manifest, out: Outside, stages: seq<Path>, k: nat, e: nat, start: Files, files: Files,
    voiced: set<Path>, captioned: set<Path>)
    requires k <= |stages| && e <= |EARLY| && Onward(lib, m, out, stages, k, e, start, files, voiced, captioned)
    ensures Run(lib, m, out, stages, k, start) == Reached(files) && Base(m, files)
    ensures Viable(lib, m, files, voiced, captioned) <==> Viable(lib, m, start, voiced, captioned)
    ensures e == |EARLY| ==> captioned == files.Keys
  {
    hide Base, Viable, EARLY;
    EarlyStages();
  }

  /** One more stage after the early ones. */
  lemma Later(
    lib: Library, m: Manifest, out: Outside, stages: seq<Path>, k: nat, own: Path, start: Files, before: Files,
    voiced: set<Path>, captioned: set<Path>) returns (after: Files)
    requires k < |stages| && stages[k] == own && Run(lib, m, out, stages, k, start) == Reached(before)
    requires Viable(lib, m, before, voiced, captioned) <==> Viable(lib, m, start, voiced, captioned)
    requires Decides(lib, m, own, before, After(lib, m, out, own, before), voiced, captioned)
    ensures if After(lib, m, out, own, before).Reached? then
        && Run(lib, m, out, stages, k + 1, start) == Reached(after) && Base(m, after) && own in after
        && before.Keys <= after.Keys
        && (Viable(lib, m, after, voiced, captioned) <==> Viable(lib, m, start, voiced, captioned))
      else Over(lib, m, out, stages, start, voiced, captioned)
  {
    hide After, Base, Viable;
    var course := After(lib, m, out, own, before);
    if course.Reached? {
      after := course.files;
    } else {
      after := before;
      StaysStuck(lib, m, out, stages, k + 1, |stages|, start);
    }
  }

  /** The second phase. */
  lemma ProduceRuns(lib: Library, m: Manifest, out: Outside, start: Files, voiced: set<Path>, captioned: set<Path>)
    returns (files: Files)
    requires Base(m, start) && Healthy(lib, m, out) && ScriptFile in start && |EARLY| == 7 && |PRODUCE_STAGES| == 7
    requires voiced == Grown(m, out, 3, 6, start.Keys) && captioned == Grown(m, out, 3, 7, start.Keys)
    ensures if Phase(lib, m, out, PRODUCE_STAGES, start).Reached? then
        && Phase(lib, m, out, PRODUCE_STAGES, start) == Reached(files) && Base(m, files) && start.Keys <= files.Keys
        && (Viable(lib, m, files, voiced, captioned) <==> Viable(lib, m, start, voiced, captioned))
        && VisualManifestFile in files && SubtitleManifestFile in files && RenderManifestFile in files
        && FinalResponseFile in files
      else Over(lib, m, out, PRODUCE_STAGES, start, voiced, captioned)
  {
    hide *;
    StageLists();
    EarlyStages();
    HealthyParts(lib, m, out);
    files := MediaRuns(lib, m, out, start, voiced, captioned);
    if Run(lib, m, out, PRODUCE_STAGES, 4, start).StuckAt? {
      OverMeans(lib, m, out, PRODUCE_STAGES, start, voiced, captioned);
      return;
    }
    OnwardRun(lib, m, out, PRODUCE_STAGES, 4, 7, start, files, voiced, captioned);
    RenderDecides(lib, m, out, files, voiced, captioned);
    var stuck := After(lib, m, out, RenderManifestFile, files).StuckAt?;
    files := Later(lib, m, out, PRODUCE_STAGES, 4, RenderManifestFile, start, files, voiced, captioned);
    if stuck {
      OverMeans(lib, m, out, PRODUCE_STAGES, start, voiced, captioned);
      return;
    }
    RequestDecides(lib, m, out, FinalRequestFile, files, voiced, captioned);
    files := Later(lib, m, out, PRODUCE_STAGES, 5, FinalRequestFile, start, files, voiced, captioned);
    ReviewDecides(lib, m, out, FinalResponseFile, files, voiced, captioned);
    files := Later(lib, m, out, PRODUCE_STAGES, 6, FinalResponseFile, start, files, voiced, captioned);
    PhaseIs(lib, m, out, PRODUCE_STAGES, start);
  }

  lemma PhaseIs(lib: Library, m: Manifest, out: Outside, stages: seq<Path>, start: Files)
    ensures Phase(lib, m, out, stages, start) == Run(lib, m, out, stages, |stages|, start)
  {}

  lemma ReleaseRuns(lib: Library, m: Manifest, out: Outside, start: Files)
    ensures Phase(lib, m, out, RELEASE_STAGES, start).Reached?
  {
    hide After;
    PlainStages(lib, m, out, start);
    var checked := Written(start, QaFile, QaDoc(true));
    PlainStages(lib, m, out, checked);
    assert Run(lib, m, out, RELEASE_STAGES, 0, start) == Reached(start);
    assert Run(lib, m, out, RELEASE_STAGES, 1, start) == Reached(checked);
  }

  // ----- the release -----

  /** With everything made, a workspace is viable exactly when its reviews pass. */
  lemma ViableMade(lib: Library, m: Manifest, files: Files, voiced: set<Path>, captioned: set<Path>)
    requires ScriptFile in files && ScriptManifestFile in files && ScriptResponseFile in files
    requires VisualManifestFile in files && SubtitleManifestFile in files && RenderManifestFile in files
    requires FinalResponseFile in files
    ensures Viable(lib, m, files, voiced, captioned)
      <==> ScriptIssue(lib, files, m.episodeId).None? && FinalIssue(files, m.episodeId).None?
  {
    hide ScriptIssue, FinalIssue, AsksFor, VoiceIn, VisualIn;
  }

  /** A rejecting script review alone makes a workspace not viable. */
  lemma ViableScript(lib: Library, m: Manifest, files: Files, voiced: set<Path>, captioned: set<Path>)
    requires ScriptFile in files && ScriptResponseFile in files && Viable(lib, m, files, voiced, captioned)
    ensures ScriptIssue(lib, files, m.episodeId).None?
  {
    hide ScriptIssue, FinalIssue, MediaViable;
  }

  /** Convergence: however far a workspace has come, a restart with working commands reaches
      the release exactly when the workspace is recoverable. */
  lemma RecoversIff(lib: Library, m: Manifest, out: Outside, files: Files)
    requires Inv(files) && EpisodeFile in files && files[EpisodeFile] == EpisodeDoc(m) && Healthy(lib, m, out)
    ensures Releases(lib, files, out) <==> Recoverable(lib, m, out, files)
  {
    hide Inv, Viable, Grown, Healthy, Base, Phase, Marked, ScriptIssue, FinalIssue, Onward, Over;
    hide EARLY, SCRIPT_STAGES, PRODUCE_STAGES, RELEASE_STAGES;
    StageLists();
    EarlyStages();
    InvBase(m, files);
    var voiced, captioned := Grown(m, out, 0, 6, files.Keys), Grown(m, out, 0, 7, files.Keys);
    var scripted := ScriptRuns(lib, m, out, files, voiced, captioned);
    if Phase(lib, m, out, SCRIPT_STAGES, files).StuckAt? {
      OverMeans(lib, m, out, SCRIPT_STAGES, files, voiced, captioned);
    } else {
      OnwardReached(lib, m, out, SCRIPT_STAGES, 3, files, scripted, voiced, captioned);
      AfterScripted(lib, m, out, files, scripted, voiced, captioned);
      if ScriptIssue(lib, scripted, m.episodeId).Some? {
        if Viable(lib, m, scripted, voiced, captioned) {
          ViableScript(lib, m, scripted, voiced, captioned);
        }
      } else {
        ProducedIff(lib, m, out, scripted, voiced, captioned);
      }
    }
  }

  lemma AfterScripted(
    lib: Library, m: Manifest, out: Outside, start: Files, files: Files, voiced: set<Path>, captioned: set<Path>)
    requires 3 <= |SCRIPT_STAGES| && 3 <= |EARLY|
    requires Onward(lib, m, out, SCRIPT_STAGES, 3, 3, start, files, voiced, captioned)
    ensures |EARLY| == 7 && Base(m, files)
    ensures Viable(lib, m, files, voiced, captioned) <==> Viable(lib, m, start, voiced, captioned)
    ensures voiced == Grown(m, out, 3, 6, files.Keys) && captioned == Grown(m, out, 3, 7, files.Keys)
  {
    hide Base, Viable, Grown;
  }

  lemma InvBase(m: Manifest, files: Files)
    requires Inv(files) && EpisodeFile in files && files[EpisodeFile] == EpisodeDoc(m)
    ensures Base(m, files)
  {
    hide Sound, Output;
    assert forall p | p in files :: Fits(p, files[p]);
  }

  /** The restart from where the script review passes. */
  lemma ProducedIff(
    lib: Library, m: Manifest, out: Outside, scripted: Files, voiced: set<Path>, captioned: set<Path>)
    requires |EARLY| == 7 && Base(m, scripted) && Healthy(lib, m, out)
    requires ScriptFile in scripted && ScriptManifestFile in scripted && ScriptResponseFile in scripted
    requires voiced == Grown(m, out, 3, 6, scripted.Keys) && captioned == Grown(m, out, 3, 7, scripted.Keys)
    requires ScriptIssue(lib, scripted, m.episodeId).None?
    ensures var course := Phase(lib, m, out, PRODUCE_STAGES, scripted);
      Viable(lib, m, scripted, voiced, captioned) <==>
        && course.Reached? && FinalIssue(course.files, m.episodeId).None?
        && Phase(lib, m, out, RELEASE_STAGES, course.files).Reached?
  {
    hide Viable, Grown, Healthy, Base, Phase, ScriptIssue, FinalIssue, Over, EARLY, PRODUCE_STAGES, RELEASE_STAGES;
    StageLists();
    var produced := ProduceRuns(lib, m, out, scripted, voiced, captioned);
    if Phase(lib, m, out, PRODUCE_STAGES, scripted).StuckAt? {
      OverMeans(lib, m, out, PRODUCE_STAGES, scripted, voiced, captioned);
    } else {
      ViableMade(lib, m, produced, voiced, captioned);
      ProduceKeepsScript(lib, m, out, scripted, produced);
      ReleaseRuns(lib, m, out, produced);
    }
  }

  lemma ProduceKeepsScript(lib: Library, m: Manifest, out: Outside, scripted: Files, produced: Files)
    requires Phase(lib, m, out, PRODUCE_STAGES, scripted) == Reached(produced)
    requires ScriptFile in scripted && ScriptManifestFile in scripted && ScriptResponseFile in scripted
    ensures ScriptFile in produced && ScriptManifestFile in produced && ScriptResponseFile in produced
    ensures ScriptIssue(lib, produced, m.episodeId) == ScriptIssue(lib, scripted, m.episodeId)
  {
    hide Run, ScriptIssue;
    forall p | p in {ScriptFile, ScriptManifestFile, ScriptResponseFile}
      ensures Alike(scripted, produced, p)
    {
      RunFrame(lib, m, out, PRODUCE_STAGES, |PRODUCE_STAGES|, scripted, p);
    }
    assert Alike(scripted, produced, ScriptFile) && Alike(scripted, produced, ScriptManifestFile);
    assert Alike(scripted, produced, ScriptResponseFile);
    ScriptAlike(lib, scripted, produced, m.episodeId);
  }

  lemma ScriptAlike(lib: Library, a: Files, b: Files, episodeId: string)
    requires Alike(a, b, ScriptFile) && Alike(a, b, ScriptResponseFile)
    ensures ScriptIssue(lib, a, episodeId) == ScriptIssue(lib, b, episodeId)
  {
    hide Content;
  }
}
