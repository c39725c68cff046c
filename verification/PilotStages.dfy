/** internal/shortform/pilot: the stages of the pilot, as methods of a workspace. */
module PilotStages {
  import opened Text
  import opened Json
  import opened Pilot
  import opened PilotCourse

  lemma MakesKeeps(own: Path, dirs: set<Dir>, before: Files, after: Files, calls: int, calls': int, ok: bool)
    requires Makes(own, dirs, before, after, calls, calls', ok)
    ensures Keeps(before, after)
  {
    forall p | p in WRITE_ONCE && p in before
      ensures p in after && after[p] == before[p]
    {
      assert p != AuditFile && !p.In?;
    }
  }

  class Workspace {
    const lib: Library
    var files: Files
    var calls: int

    constructor (lib: Library)
      ensures this.lib == lib && files == map[] && calls == 0
    {
      this.lib, files, calls := lib, map[], 0;
    }

    /** writeText and writeJSON */
    method Write(p: Path, d: Doc)
      requires Inv(files) && Inv(files[p := d])
      modifies this`files
      ensures files == old(files)[p := d] && Inv(files)
    {
      files := files[p := d];
    }

    method AppendAudit(event: Path)
      requires Inv(files)
      modifies this`files
      ensures files == Audited(old(files), event) && Inv(files)
    {
      AuditKeepsInv(files, event);
      files := Audited(files, event);
    }

    /** Writes the file of a stage and its audit entry. */
    method Complete(own: Path, d: Doc)
      requires Inv(files) && Inv(files[own := d]) && own != AuditFile
      modifies this`files
      ensures files == Audited(old(files)[own := d], own) && Inv(files)
      ensures own in files && files[own] == d
      ensures OnlyTouches(old(files), files, {own, AuditFile}, {})
    {
      hide Inv, Events;
      Write(own, d);
      AppendAudit(own);
    }

    method EnsureScript(m: Manifest) returns (ok: bool)
      requires Inv(files)
      modifies this`files
      ensures Inv(files) && OnlyTouches(old(files), files, {ScriptFile, ScriptManifestFile, AuditFile}, {})
      ensures ScriptFile in old(files) || ScriptManifestFile in old(files) ==> files == old(files)
      ensures ok <==> ScriptFile in files && ScriptManifestFile in files
      ensures ScriptFile !in old(files) && ScriptManifestFile !in old(files) ==>
        var body := lib.text(ScriptFile, m, "");
        && ok
        && files == Audited(
            old(files)[ScriptFile := Blob(body)][ScriptManifestFile := ScriptDoc(lib.sha(body))], ScriptManifestFile)
    {
      hide Inv, Events;
      if ScriptFile in files && ScriptManifestFile in files {
        return true;
      }
      if ScriptFile in files || ScriptManifestFile in files {
        return false;
      }
      var body := lib.text(ScriptFile, m, "");
      WriteKeepsInv(files, ScriptFile, Blob(body));
      Write(ScriptFile, Blob(body));
      WriteKeepsInv(files, ScriptManifestFile, ScriptDoc(lib.sha(body)));
      Complete(ScriptManifestFile, ScriptDoc(lib.sha(body)));
      ok := true;
    }

    method EnsureScriptRequest(m: Manifest) returns (ok: bool)
      requires Inv(files) && ScriptFile in files
      modifies this`files
      ensures Inv(files) && ok && Makes(ScriptRequestFile, {}, old(files), files, calls, calls, ok)
      ensures files ==
        Written(old(files), ScriptRequestFile, Blob(lib.text(ScriptRequestFile, m, Bytes(old(files), ScriptFile))))
    {
      hide Inv, Events;
      if ScriptRequestFile in files {
        return true;
      }
      var body := lib.text(ScriptRequestFile, m, Bytes(files, ScriptFile));
      WriteKeepsInv(files, ScriptRequestFile, Blob(body));
      Complete(ScriptRequestFile, Blob(body));
      ok := true;
    }

    /** The review by API: the model owns the verdict, the pilot the script hash. */
    method EnsureApiScriptReview(m: Manifest, out: Outside) returns (ok: bool)
      requires Inv(files) && ScriptFile in files
      modifies this
      ensures Inv(files) && OnlyTouches(old(files), files, {ScriptResponseFile, AuditFile}, {})
      ensures m.reviewMode == Manual || ScriptResponseFile in old(files) ==>
        ok && files == old(files) && calls == old(calls)
      ensures ok && m.reviewMode == Api ==> ScriptResponseFile in files
      ensures !ok ==> files == old(files)
      ensures Leaves(After(lib, m, out, ScriptResponseFile, old(files)), ok, files)
      ensures calls == old(calls) + StageCalls(m, out, ScriptResponseFile, old(files))
      ensures ok <==> m.reviewMode == Manual || ScriptResponseFile in old(files) || ApiAnswered(m, out.scriptReview)
      ensures ok && m.reviewMode == Api && ScriptResponseFile !in old(files) ==>
        && out.scriptReview.Some? && EnvelopeOk(out.scriptReview.value, m)
        && files[ScriptResponseFile]
           == ReviewDoc(out.scriptReview.value.(approvedScriptHash := lib.sha(Bytes(files, ScriptFile))))
    {
      hide Inv, Events;
      if m.reviewMode != Api || ScriptResponseFile in files {
        return true;
      }
      calls := calls + 1;
      if out.scriptReview.None? || !EnvelopeOk(out.scriptReview.value, m) {
        return false;
      }
      var review := out.scriptReview.value.(approvedScriptHash := lib.sha(Bytes(files, ScriptFile)));
      WriteKeepsInv(files, ScriptResponseFile, ReviewDoc(review));
      Complete(ScriptResponseFile, ReviewDoc(review));
      ok := true;
    }

    method EnsureVisualRequests(m: Manifest) returns (ok: bool)
      requires Inv(files) && ScriptFile in files
      modifies this`files
      ensures Inv(files) && ok && Makes(RequestsFile, {}, old(files), files, calls, calls, ok)
      ensures files ==
        Written(old(files), RequestsFile, RequestsDoc(lib.sha(Bytes(old(files), ScriptFile)), ShotRequests(m)))
    {
      hide Inv, Events, ShotRequests;
      if RequestsFile in files {
        return true;
      }
      var d := RequestsDoc(lib.sha(Bytes(files, ScriptFile)), ShotRequests(m));
      WriteKeepsInv(files, RequestsFile, d);
      Complete(RequestsFile, d);
      ok := true;
    }

    /** Runs a command: it is counted, and changes its own directory. */
    method RunIn<T>(dir: Dir, command: Command<T>)
      requires Inv(files) && dir != DistDir
      modifies this
      ensures calls == old(calls) + 1 && Inv(files)
      ensures files == Into(old(files), dir, command.writes, command.deletes)
      ensures OnlyTouches(old(files), files, {}, {dir})
    {
      hide Inv, Into;
      IntoKeepsInv(files, dir, command.writes, command.deletes);
      IntoTouches(files, dir, command.writes, command.deletes);
      calls := calls + 1;
      files := Into(files, dir, command.writes, command.deletes);
    }

    /** The files a successful answer leaves are those the manifest records. */
    method EnsureVisuals(m: Manifest, out: Outside) returns (ok: bool)
      requires Inv(files) && RequestsFile in files
      modifies this
      ensures Inv(files) && Makes(VisualManifestFile, {VisualDir}, old(files), files, old(calls), calls, ok)
      ensures Leaves(After(lib, m, out, VisualManifestFile, old(files)), ok, files)
      ensures calls == old(calls) + StageCalls(m, out, VisualManifestFile, old(files))
      ensures ok <==> VisualManifestFile in old(files) || VisualReady(lib, old(files), m, out)
      ensures ok && VisualManifestFile !in old(files) ==>
        var after := Into(old(files), VisualDir, out.visual.writes, out.visual.deletes);
        && out.visual.answer.Some? && old(files)[RequestsFile].RequestsDoc?
        && VisualAccepted(lib, after, old(files)[RequestsFile].requests, out.visual.answer.value)
        && files[VisualManifestFile]
           == VisualDoc(Records(
             lib, after, old(files)[RequestsFile].sourceHash, old(files)[RequestsFile].requests,
             out.visual.answer.value))
    {
      hide Inv, Events, Into, VisualAccepted, Records, After;
      CommandStages(lib, m, out, VisualManifestFile, files);
      if VisualManifestFile in files {
        return true;
      }
      if m.visualProvider != "external-command" || !files[RequestsFile].RequestsDoc? || !out.visual.configured {
        return false;
      }
      var source, requests := files[RequestsFile].sourceHash, files[RequestsFile].requests;
      RunIn(VisualDir, out.visual);
      if out.visual.answer.None? {
        return false;
      }
      var shots := NormalizeVisual(lib, files, source, requests, out.visual.answer.value);
      if shots.None? || !lib.valid(VisualDoc(shots.value)) {
        return false;
      }
      WriteKeepsInv(files, VisualManifestFile, VisualDoc(shots.value));
      Complete(VisualManifestFile, VisualDoc(shots.value));
      ok := true;
    }

    method EnsureVoice(m: Manifest, out: Outside) returns (ok: bool)
      requires Inv(files)
      modifies this
      ensures Inv(files) && Makes(VoiceManifestFile, {AudioDir}, old(files), files, old(calls), calls, ok)
      ensures Leaves(After(lib, m, out, VoiceManifestFile, old(files)), ok, files)
      ensures calls == old(calls) + StageCalls(m, out, VoiceManifestFile, old(files))
      ensures ok <==> VoiceManifestFile in old(files) || VoiceReady(lib, old(files), m, out)
      ensures ok && VoiceManifestFile !in old(files) ==>
        && out.voice.answer.Some?
        && Some(files[VoiceManifestFile])
           == VoiceRecord(lib, Into(old(files), AudioDir, out.voice.writes, out.voice.deletes), out.voice.answer.value)
    {
      hide Inv, Events, Into, FileHash, After;
      CommandStages(lib, m, out, VoiceManifestFile, files);
      if VoiceManifestFile in files {
        return true;
      }
      if m.voiceProvider != "external-command" || !out.voice.configured {
        return false;
      }
      RunIn(AudioDir, out.voice);
      if out.voice.answer.None? {
        return false;
      }
      var answer := out.voice.answer.value;
      if !answer.envelopeOk || answer.path.None? {
        return false;
      }
      var hash := FileHash(lib, files, answer.path.value);
      if hash.None? || (answer.hash != "" && answer.hash != hash.value) {
        return false;
      }
      var d := VoiceDoc(
        answer.path.value, hash.value, answer.duration, lib.format(answer.path.value), answer.sampleRate);
      if !lib.valid(d) {
        return false;
      }
      WriteKeepsInv(files, VoiceManifestFile, d);
      Complete(VoiceManifestFile, d);
      ok := true;
    }

    method EnsureSubtitles(m: Manifest, out: Outside) returns (ok: bool)
      requires Inv(files)
      modifies this
      ensures Inv(files) && Makes(SubtitleManifestFile, {SubtitleDir}, old(files), files, old(calls), calls, ok)
      ensures Leaves(After(lib, m, out, SubtitleManifestFile, old(files)), ok, files)
      ensures calls == old(calls) + StageCalls(m, out, SubtitleManifestFile, old(files))
      ensures ok <==> SubtitleManifestFile in old(files) || SubtitleReady(lib, old(files), m, out)
      ensures ok && SubtitleManifestFile !in old(files) ==>
        Some(files[SubtitleManifestFile]) == SubtitleRecord(lib, files)
    {
      hide Inv, Events, Into, Timed, SubtitleRecord, SubtitleRecorded, WhisperStarts, After;
      CommandStages(lib, m, out, SubtitleManifestFile, files);
      if SubtitleManifestFile in files {
        return true;
      }
      if m.subtitleProvider == "script-timing" {
        TimeScript(m);
      } else if m.subtitleProvider == "faster-whisper" {
        var answered := Transcribe(out);
        if !answered {
          return false;
        }
      } else {
        return false;
      }
      ghost var prepared := files;
      ok := RecordSubtitles();
      assert prepared == Prepared(lib, m, out, SubtitleManifestFile, old(files));
    }

    /** The three subtitle files timed from the script. */
    method TimeScript(m: Manifest)
      requires Inv(files)
      modifies this`files
      ensures Inv(files) && files == Timed(lib, old(files), m)
      ensures OnlyTouches(old(files), files, {}, {SubtitleDir})
    {
      hide Inv;
      var text := Bytes(files, ScriptFile);
      WriteKeepsInv(files, TRANSCRIPT, Blob(lib.text(TRANSCRIPT, m, text)));
      Write(TRANSCRIPT, Blob(lib.text(TRANSCRIPT, m, text)));
      WriteKeepsInv(files, SRT, Blob(lib.text(SRT, m, text)));
      Write(SRT, Blob(lib.text(SRT, m, text)));
      WriteKeepsInv(files, ASS, Blob(lib.text(ASS, m, text)));
      Write(ASS, Blob(lib.text(ASS, m, text)));
    }

    /** The faster-whisper sidecar, which needs the voiceover. */
    method Transcribe(out: Outside) returns (ok: bool)
      requires Inv(files)
      modifies this
      ensures Inv(files) && OnlyTouches(old(files), files, {}, {SubtitleDir})
      ensures ok <==> Transcribed(old(files), out)
      ensures calls == old(calls) + if WhisperStarts(old(files), out) then 1 else 0
      ensures files ==
        if WhisperStarts(old(files), out) then
          Into(old(files), SubtitleDir, out.subtitles.writes, out.subtitles.deletes)
        else old(files)
    {
      hide Inv, Into;
      if !out.subtitles.configured || VoiceManifestFile !in files || !files[VoiceManifestFile].VoiceDoc? {
        return false;
      }
      if files[VoiceManifestFile].path !in files {
        return false;
      }
      RunIn(SubtitleDir, out.subtitles);
      ok := out.subtitles.answer.Some? && out.subtitles.answer.value.envelopeOk && out.subtitles.answer.value.hasPaths;
    }

    /** manifestForSubtitleFiles, and the manifest it is written to. */
    method RecordSubtitles() returns (ok: bool)
      requires Inv(files) && SubtitleManifestFile !in files
      modifies this`files
      ensures Inv(files) && OnlyTouches(old(files), files, {SubtitleManifestFile, AuditFile}, {})
      ensures ok <==> SubtitleManifestFile in files
      ensures ok <==> SubtitleRecorded(lib, old(files))
      ensures ok ==>
        && Some(files[SubtitleManifestFile]) == SubtitleRecord(lib, files) == SubtitleRecord(lib, old(files))
        && files == Audited(old(files)[SubtitleManifestFile := files[SubtitleManifestFile]], SubtitleManifestFile)
      ensures !ok ==> files == old(files)
    {
      hide Inv, Events, FileHash;
      var transcript, srt, ass := FileHash(lib, files, TRANSCRIPT), FileHash(lib, files, SRT),
        FileHash(lib, files, ASS);
      if transcript.None? || srt.None? || ass.None? || !lib.isJson(Bytes(files, TRANSCRIPT)) {
        return false;
      }
      var d := SubtitleDoc(transcript.value, srt.value, ass.value);
      if !lib.valid(d) {
        return false;
      }
      WriteKeepsInv(files, SubtitleManifestFile, d);
      ghost var before := files;
      Complete(SubtitleManifestFile, d);
      SameHash(lib, before, files, SRT);
      SameHash(lib, before, files, TRANSCRIPT);
      SameHash(lib, before, files, ASS);
      ok := true;
    }

    /** A finished render is left alone, and an output without its manifest is never
        overwritten. */
    method EnsureRender(m: Manifest, out: Outside) returns (ok: bool)
      requires Inv(files) && EpisodeFile in files && m.episodeId == EpisodeId(files)
      modifies this
      ensures Inv(files) && Makes(RenderManifestFile, {DistDir}, old(files), files, old(calls), calls, ok)
      ensures Output(m.episodeId) in old(files) ==> files == old(files)
      ensures ok ==> Output(m.episodeId) in files
      ensures Leaves(After(lib, m, out, RenderManifestFile, old(files)), ok, files)
      ensures calls == old(calls) + StageCalls(m, out, RenderManifestFile, old(files))
      ensures ok <==> RenderManifestFile in old(files) || RenderReady(lib, old(files), m, out)
    {
      hide Inv, Events, FileHash, Output, RenderInputs, Rendered, After;
      CommandStages(lib, m, out, RenderManifestFile, files);
      RenderBesideOutput(files);
      OutputInDist(m.episodeId);
      var output := Output(m.episodeId);
      if RenderManifestFile in files && output in files {
        return true;
      }
      if output in files && RenderManifestFile !in files {
        return false;
      }
      if m.renderProvider != "ffmpeg" || !out.toolsFound {
        return false;
      }
      var inputs := CheckRenderInputs();
      if !inputs {
        return false;
      }
      ok := RenderTo(output, out);
    }

    /** The manifests the render reads, and the files they name. */
    method CheckRenderInputs() returns (ok: bool)
      requires Inv(files)
      ensures ok <==> RenderInputs(files)
    {
      if VisualManifestFile !in files || VoiceManifestFile !in files || SubtitleManifestFile !in files {
        return false;
      }
      assert Fits(VisualManifestFile, files[VisualManifestFile]) && Fits(VoiceManifestFile, files[VoiceManifestFile]);
      var shots := files[VisualManifestFile].shots;
      if |shots| == 0 {
        return false;
      }
      for i := 0 to |shots|
        invariant forall j | 0 <= j < i :: shots[j].path in files
      {
        if shots[i].path !in files {
          return false;
        }
      }
      ok := files[VoiceManifestFile].path in files && SRT in files;
    }

    /** ffmpeg, which may leave an output behind even when it fails. */
    method Encode(output: Path, out: Outside)
      requires Inv(files) && EpisodeFile in files && output == Output(EpisodeId(files))
      modifies this
      ensures Inv(files) && calls == old(calls) + 1 && EpisodeId(files) == old(EpisodeId(files)) && EpisodeFile in files
      ensures OnlyTouches(old(files), files, {}, {DistDir})
      ensures files == if out.output.Some? then old(files)[output := Blob(out.output.value)] else old(files)
      ensures output.In? && output.dir == DistDir
    {
      hide Inv, Fits, Output;
      OutputInDist(EpisodeId(files));
      calls := calls + 1;
      if out.output.Some? {
        FitsStep(output, Blob(out.output.value));
        WriteKeepsInv(files, output, Blob(out.output.value));
        Write(output, Blob(out.output.value));
      }
    }

    /** ffmpeg, ffprobe, and the render manifest. */
    method RenderTo(output: Path, out: Outside) returns (ok: bool)
      requires Inv(files) && EpisodeFile in files && output == Output(EpisodeId(files))
      requires RenderManifestFile !in files && output !in files
      modifies this
      ensures Inv(files) && OnlyTouches(old(files), files, {RenderManifestFile, AuditFile}, {DistDir})
      ensures ok <==> RenderManifestFile in files
      ensures ok <==> Rendered(lib, output, out)
      ensures calls == old(calls) + if out.renderOk then 2 else 1
      ensures ok ==>
        && output in files
        && files[RenderManifestFile] == RenderRecordOf(lib, output, out.output.value, out.probe.value.duration)
      ensures var encoded := if out.output.Some? then old(files)[output := Blob(out.output.value)] else old(files);
        files == if ok then
            Audited(
              encoded[
                RenderManifestFile := RenderRecordOf(lib, output, out.output.value, out.probe.value.duration)],
              RenderManifestFile)
          else encoded
    {
      hide Inv, Events, Output, Fits;
      Encode(output, out);
      if !out.renderOk {
        return false;
      }
      calls := calls + 1;
      if out.probe.None? || out.probe.value.width != 1080 || out.probe.value.height != 1920
        || !out.probe.value.hasAudio {
        return false;
      }
      ok := RecordRender(output, out.probe.value.duration);
    }

    method RecordRender(output: Path, duration: real) returns (ok: bool)
      requires Inv(files) && EpisodeFile in files && output == Output(EpisodeId(files)) && output.In?
      requires RenderManifestFile !in files
      modifies this`files
      ensures Inv(files) && OnlyTouches(old(files), files, {RenderManifestFile, AuditFile}, {})
      ensures ok <==> RenderManifestFile in files
      ensures ok <==>
        && output in old(files) && old(files)[output].Blob?
        && lib.valid(RenderRecordOf(lib, output, old(files)[output].bytes, duration))
      ensures ok ==>
        && output in files
        && files == Audited(
            old(files)[RenderManifestFile := RenderRecordOf(lib, output, old(files)[output].bytes, duration)],
            RenderManifestFile)
        && files[RenderManifestFile] == RenderRecordOf(lib, output, old(files)[output].bytes, duration)
      ensures !ok ==> files == old(files)
    {
      hide Inv, Events, Output;
      if output in files {
        InBlob(files, output);
      }
      var hash := FileHash(lib, files, output);
      if hash.None? {
        return false;
      }
      var d := RenderDoc([RenderRecord(output, hash.value, duration, true, true)]);
      if !lib.valid(d) {
        return false;
      }
      WriteKeepsInv(files, RenderManifestFile, d);
      Complete(RenderManifestFile, d);
      ok := true;
    }

    method EnsureFinalRequest(m: Manifest) returns (ok: bool)
      requires Inv(files) && ScriptFile in files
      modifies this`files
      ensures Inv(files) && ok && Makes(FinalRequestFile, {}, old(files), files, calls, calls, ok)
      ensures files ==
        Written(old(files), FinalRequestFile, Blob(lib.text(FinalRequestFile, m, Bytes(old(files), ScriptFile))))
    {
      hide Inv, Events;
      if FinalRequestFile in files {
        return true;
      }
      var body := lib.text(FinalRequestFile, m, Bytes(files, ScriptFile));
      WriteKeepsInv(files, FinalRequestFile, Blob(body));
      Complete(FinalRequestFile, Blob(body));
      ok := true;
    }

    method EnsureApiFinalReview(m: Manifest, out: Outside) returns (ok: bool)
      requires Inv(files)
      modifies this
      ensures Inv(files) && OnlyTouches(old(files), files, {FinalResponseFile, AuditFile}, {})
      ensures m.reviewMode == Manual || FinalResponseFile in old(files) ==>
        ok && files == old(files) && calls == old(calls)
      ensures ok && m.reviewMode == Api ==> FinalResponseFile in files
      ensures !ok ==> files == old(files)
      ensures Leaves(After(lib, m, out, FinalResponseFile, old(files)), ok, files)
      ensures calls == old(calls) + StageCalls(m, out, FinalResponseFile, old(files))
      ensures ok <==> m.reviewMode == Manual || FinalResponseFile in old(files) || ApiAnswered(m, out.finalReview)
      ensures ok && m.reviewMode == Api && FinalResponseFile !in old(files) ==>
        out.finalReview.Some? && files[FinalResponseFile] == ReviewDoc(out.finalReview.value)
    {
      hide Inv, Events;
      if m.reviewMode != Api || FinalResponseFile in files {
        return true;
      }
      calls := calls + 1;
      if out.finalReview.None? || !EnvelopeOk(out.finalReview.value, m) {
        return false;
      }
      WriteKeepsInv(files, FinalResponseFile, ReviewDoc(out.finalReview.value));
      Complete(FinalResponseFile, ReviewDoc(out.finalReview.value));
      ok := true;
    }

    /** The report approves exactly the renders with sound and captions. */
    method EnsureProductionQA() returns (ok: bool)
      requires Inv(files) && RenderManifestFile in files
      modifies this`files
      ensures Inv(files) && ok && Makes(QaFile, {}, old(files), files, calls, calls, ok)
      ensures files == Written(old(files), QaFile, QaDoc(true)) && files[QaFile] == QaDoc(true)
    {
      hide Inv, Events;
      QaApproves(files);
      if QaFile in files {
        return true;
      }
      var d := QaDoc(Sound(files[RenderManifestFile].outputs));
      WriteKeepsInv(files, QaFile, d);
      Complete(QaFile, d);
      ok := true;
    }

    method EnsurePublishManifest() returns (ok: bool)
      requires Inv(files)
      modifies this`files
      ensures Inv(files) && ok && Makes(PublishFile, {}, old(files), files, calls, calls, ok)
      ensures files == Written(old(files), PublishFile, PublishDoc(false, "private", "release_candidate_only"))
    {
      hide Inv, Events;
      if PublishFile in files {
        return true;
      }
      var d := PublishDoc(false, "private", "release_candidate_only");
      WriteKeepsInv(files, PublishFile, d);
      Complete(PublishFile, d);
      ok := true;
    }

    method UpdateStatus(status: Status, now: int)
      requires Inv(files) && EpisodeFile in files && files[EpisodeFile].EpisodeDoc?
      modifies this`files
      ensures Inv(files)
      ensures files ==
        old(files)[EpisodeFile := EpisodeDoc(old(files)[EpisodeFile].manifest.(status := status, updatedAt := now))]
    {
      hide Inv;
      var d := EpisodeDoc(files[EpisodeFile].manifest.(status := status, updatedAt := now));
      WriteKeepsInv(files, EpisodeFile, d);
      Write(EpisodeFile, d);
    }
  }

  lemma InBlob(files: Files, p: Path)
    requires Inv(files) && p in files && p.In?
    ensures files[p].Blob?
  {
    assert Fits(p, files[p]);
  }

  lemma RenderBesideOutput(files: Files)
    requires Inv(files)
    ensures RenderManifestFile in files ==> Output(EpisodeId(files)) in files
  {
    hide Fits, Output;
  }

  lemma SameHash(lib: Library, before: Files, after: Files, p: Path)
    requires p in before <==> p in after
    requires p in before ==> after[p] == before[p]
    ensures FileHash(lib, before, p) == FileHash(lib, after, p)
  {}

  lemma QaApproves(files: Files)
    requires Inv(files)
    ensures RenderManifestFile in files ==>
      files[RenderManifestFile].RenderDoc? && Sound(files[RenderManifestFile].outputs)
    ensures QaFile in files ==> files[QaFile] == QaDoc(true)
  {
    if RenderManifestFile in files {
      assert Fits(RenderManifestFile, files[RenderManifestFile]);
    }
    if QaFile in files {
      assert Fits(QaFile, files[QaFile]);
    }
  }
}
