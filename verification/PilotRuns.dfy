/** internal/shortform/pilot: Resume, the imports, and whole runs. */
module PilotRuns {
  import opened Text
  import opened Json
  import opened Pilot
  import opened PilotCourse
  import opened PilotStages

  const DIRS := {VisualDir, AudioDir, SubtitleDir, DistDir}

  const SCRIPTED: set<Path> := {ScriptFile, ScriptManifestFile, ScriptRequestFile}

  const PRODUCED: set<Path> := {
    RequestsFile, VisualManifestFile, VoiceManifestFile, SubtitleManifestFile, RenderManifestFile, FinalRequestFile}

  const RELEASED: set<Path> := {QaFile, PublishFile}

  predicate Has(files: Files, paths: set<Path>) {
    forall p | p in paths :: p in files
  }

  // ----- progress through the stages of a phase -----

  /** From `start` on, the stages so far made the files `have`, and changed nothing beyond
      the files of the phase; where all of these were there already they did nothing. */
  ghost predicate Progress(start: Files, mid: Files, have: set<Path>, goal: set<Path>, calls0: int, calls: int) {
    && OnlyTouches(start, mid, goal + {AuditFile}, DIRS) && Keeps(start, mid) && Inv(mid)
    && Has(mid, have) && have <= goal
    && (Has(start, goal) ==> mid == start && calls == calls0)
  }

  /** The files a stage names, apart from the directories and the audit log. */
  predicate Plain(paths: set<Path>) {
    AuditFile !in paths && forall p | p in paths :: !p.In?
  }

  lemma KeepsBoth(a: Files, b: Files, c: Files)
    requires Keeps(a, b) && Keeps(b, c)
    ensures Keeps(a, c)
  {}

  lemma KeepsSelf(a: Files)
    ensures Keeps(a, a)
  {}

  lemma ProgressStep(
    start: Files, mid: Files, after: Files, have: set<Path>, goal: set<Path>, own: Path, dirs: set<Dir>,
    calls0: int, calls: int, calls': int, ok: bool)
    requires Progress(start, mid, have, goal, calls0, calls) && Plain(goal) && own in goal && dirs <= DIRS
    requires Makes(own, dirs, mid, after, calls, calls', ok) && Inv(after)
    ensures Progress(start, after, if ok then have + {own} else have, goal, calls0, calls')
    ensures Has(start, goal) ==> ok
  {
    hide Inv, Keeps;
    MakesKeeps(own, dirs, mid, after, calls, calls', ok);
    KeepsBoth(start, mid, after);
    TouchesBoth(start, mid, after, goal + {AuditFile}, DIRS, {own, AuditFile}, dirs);
    assert goal + {AuditFile} + {own, AuditFile} == goal + {AuditFile} && DIRS + dirs == DIRS;
    forall p | p in have
      ensures p in after
    {
      assert p in mid && p != AuditFile && !p.In?;
      if p == own {
        assert after == mid;
      }
    }
  }

  lemma ProgressStart(files: Files, goal: set<Path>, calls: int)
    requires Inv(files)
    ensures Progress(files, files, {}, goal, calls, calls)
  {
    hide Inv;
  }

  /** What a phase does not name it leaves as it was. */
  lemma Unnamed(start: Files, after: Files, named: set<Path>, dirs: set<Dir>, p: Path)
    requires OnlyTouches(start, after, named, dirs) && p !in named && !p.In?
    ensures p in start <==> p in after
    ensures p in start ==> after[p] == start[p]
  {}

  // ----- the three phases -----

  predicate ScriptSettled(files: Files, mode: ReviewMode) {
    Has(files, SCRIPTED) && (mode == Api ==> ScriptResponseFile in files)
  }

  predicate ProduceSettled(files: Files, mode: ReviewMode) {
    Has(files, PRODUCED) && (mode == Api ==> FinalResponseFile in files)
  }

  lemma StageLists()
    ensures SCRIPT_STAGES == [ScriptManifestFile, ScriptRequestFile, ScriptResponseFile]
    ensures PRODUCE_STAGES == [
      RequestsFile, VisualManifestFile, VoiceManifestFile, SubtitleManifestFile, RenderManifestFile, FinalRequestFile,
      FinalResponseFile]
    ensures RELEASE_STAGES == [QaFile, PublishFile]
    ensures DIRS == {VisualDir, AudioDir, SubtitleDir, DistDir}
  {}

  lemma RunStart(lib: Library, m: Manifest, out: Outside, stages: seq<Path>, start: Files)
    ensures Run(lib, m, out, stages, 0, start) == Reached(start) && RunCalls(lib, m, out, stages, 0, start) == 0
  {}

  method ScriptPhase(w: Workspace, m: Manifest, out: Outside) returns (ok: bool)
    requires Inv(w.files)
    modifies w
    ensures Inv(w.files) && Keeps(old(w.files), w.files)
    ensures OnlyTouches(old(w.files), w.files, SCRIPTED + {ScriptResponseFile, AuditFile}, {})
    ensures ok ==> ScriptSettled(w.files, m.reviewMode)
    ensures old(ScriptSettled(w.files, m.reviewMode)) ==> ok && w.files == old(w.files) && w.calls == old(w.calls)
    ensures Leaves(Phase(w.lib, m, out, SCRIPT_STAGES, old(w.files)), ok, w.files)
    ensures w.calls == old(w.calls) + PhaseCalls(w.lib, m, out, SCRIPT_STAGES, old(w.files))
  {
    hide *;
    ghost var lib, start := w.lib, w.files;
    StageLists();
    RunStart(lib, m, out, SCRIPT_STAGES, start);
    KeepsSelf(start);
    ok := w.EnsureScript(m);
    ghost var scripted := w.files;
    PairLeaves(lib, m, out, start, scripted, ok);
    NoCalls(m, out, ScriptManifestFile, start);
    NoCalls(m, out, ScriptRequestFile, scripted);
    RunStage(lib, m, out, SCRIPT_STAGES, 0, ScriptManifestFile, start, start, scripted, ok);
    ScriptWritten(start, scripted);
    if !ok {
      ScriptReviewed(start, scripted, scripted, m.reviewMode);
      return false;
    }
    RequestStages(lib, m, out, ScriptRequestFile, scripted);
    ok := w.EnsureScriptRequest(m);
    ghost var requested := w.files;
    LeavesReached(lib, m, out, ScriptRequestFile, scripted, requested);
    RunStage(lib, m, out, SCRIPT_STAGES, 1, ScriptRequestFile, start, scripted, requested, ok);
    MakesTouches(ScriptRequestFile, {}, scripted, requested, w.calls, w.calls, ok);
    ScriptRequested(start, scripted, requested);
    ok := w.EnsureApiScriptReview(m, out);
    RunStage(lib, m, out, SCRIPT_STAGES, 2, ScriptResponseFile, start, requested, w.files, ok);
    ScriptReviewed(start, requested, w.files, m.reviewMode);
  }

  /** What EnsureScript promises is its stage of the course. */
  lemma PairLeaves(lib: Library, m: Manifest, out: Outside, before: Files, after: Files, ok: bool)
    requires ScriptFile in before || ScriptManifestFile in before ==> after == before
    requires ok <==> ScriptFile in after && ScriptManifestFile in after
    requires ScriptFile !in before && ScriptManifestFile !in before ==>
      var body := lib.text(ScriptFile, m, "");
      after == Audited(
          before[ScriptFile := Blob(body)][ScriptManifestFile := ScriptDoc(lib.sha(body))], ScriptManifestFile)
    ensures Leaves(After(lib, m, out, ScriptManifestFile, before), ok, after)
    ensures before == after || (ScriptFile !in before && ScriptManifestFile !in before)
  {
    hide After, Events;
    ScriptPair(lib, m, out, before);
  }

  lemma ScriptWritten(start: Files, after: Files)
    requires OnlyTouches(start, after, {ScriptFile, ScriptManifestFile, AuditFile}, {})
    requires ScriptFile in start || ScriptManifestFile in start ==> after == start
    ensures OnlyTouches(start, after, SCRIPTED + {AuditFile}, {}) && Keeps(start, after)
  {
    TouchesMore(start, after, {ScriptFile, ScriptManifestFile, AuditFile}, {}, SCRIPTED + {AuditFile}, {});
    forall p | p in WRITE_ONCE && p in start
      ensures p in after && after[p] == start[p]
    {
      if p != ScriptFile && p != ScriptManifestFile {
        Unnamed(start, after, {ScriptFile, ScriptManifestFile, AuditFile}, {}, p);
      }
    }
  }

  lemma ScriptRequested(start: Files, mid: Files, after: Files)
    requires OnlyTouches(start, mid, SCRIPTED + {AuditFile}, {}) && Keeps(start, mid)
    requires OnlyTouches(mid, after, {ScriptRequestFile, AuditFile}, {})
    ensures OnlyTouches(start, after, SCRIPTED + {AuditFile}, {}) && Keeps(start, after)
    ensures ScriptFile in mid && ScriptManifestFile in mid ==> ScriptFile in after && ScriptManifestFile in after
  {
    TouchesBoth(start, mid, after, SCRIPTED + {AuditFile}, {}, {ScriptRequestFile, AuditFile}, {});
    assert SCRIPTED + {AuditFile} + {ScriptRequestFile, AuditFile} == SCRIPTED + {AuditFile};
    OthersKept(mid, after, {ScriptRequestFile, AuditFile});
    KeepsBoth(start, mid, after);
  }

  lemma ScriptReviewed(start: Files, mid: Files, after: Files, mode: ReviewMode)
    requires OnlyTouches(start, mid, SCRIPTED + {AuditFile}, {}) && Keeps(start, mid)
    requires after == mid || OnlyTouches(mid, after, {ScriptResponseFile, AuditFile}, {})
    ensures OnlyTouches(start, after, SCRIPTED + {ScriptResponseFile, AuditFile}, {}) && Keeps(start, after)
    ensures Has(mid, SCRIPTED) ==> Has(after, SCRIPTED)
    ensures ScriptFile in mid && ScriptManifestFile in mid && ScriptRequestFile in mid ==>
      (mode == Api ==> ScriptResponseFile in after) ==> ScriptSettled(after, mode)
    ensures ScriptSettled(start, mode) ==>
      && ScriptFile in start && ScriptManifestFile in start && ScriptRequestFile in start
      && (mode == Api ==> ScriptResponseFile in start)
  {
    assert OnlyTouches(mid, after, {ScriptResponseFile, AuditFile}, {});
    TouchesBoth(start, mid, after, SCRIPTED + {AuditFile}, {}, {ScriptResponseFile, AuditFile}, {});
    assert SCRIPTED + {AuditFile} + {ScriptResponseFile, AuditFile} == SCRIPTED + {ScriptResponseFile, AuditFile};
    OthersKept(mid, after, {ScriptResponseFile, AuditFile});
    KeepsBoth(start, mid, after);
    forall p | p in SCRIPTED && p in mid
      ensures p in after
    {
      Unnamed(mid, after, {ScriptResponseFile, AuditFile}, {}, p);
    }
  }

  /** A step that names none of the files written once keeps them all. */
  lemma OthersKept(mid: Files, after: Files, named: set<Path>)
    requires OnlyTouches(mid, after, named, {}) && named !! WRITE_ONCE
    ensures Keeps(mid, after)
    ensures ScriptFile in mid ==> ScriptFile in after
    ensures ScriptManifestFile in mid ==> ScriptManifestFile in after
  {
    forall p | p in WRITE_ONCE && p in mid
      ensures p in after && after[p] == mid[p]
    {
      Unnamed(mid, after, named, {}, p);
    }
  }

  lemma MakesTouches(own: Path, dirs: set<Dir>, before: Files, after: Files, calls: int, calls': int, ok: bool)
    requires Makes(own, dirs, before, after, calls, calls', ok)
    ensures OnlyTouches(before, after, {own, AuditFile}, dirs)
    ensures own in before ==> after == before && calls' == calls
    ensures ok <==> own in after
  {}

  method ProducePhase(w: Workspace, m: Manifest, out: Outside) returns (ok: bool)
    requires Inv(w.files) && ScriptFile in w.files && EpisodeFile in w.files && m.episodeId == EpisodeId(w.files)
    modifies w
    ensures Inv(w.files) && Keeps(old(w.files), w.files)
    ensures OnlyTouches(old(w.files), w.files, PRODUCED + {FinalResponseFile, AuditFile}, DIRS)
    ensures ok ==> ProduceSettled(w.files, m.reviewMode)
    ensures old(ProduceSettled(w.files, m.reviewMode)) ==> ok && w.files == old(w.files) && w.calls == old(w.calls)
    ensures Leaves(Phase(w.lib, m, out, PRODUCE_STAGES, old(w.files)), ok, w.files)
    ensures w.calls == old(w.calls) + PhaseCalls(w.lib, m, out, PRODUCE_STAGES, old(w.files))
  {
    hide Inv, Makes, Keeps, OnlyTouches, ApiAnswered, After, Run, PRODUCE_STAGES;
    ghost var start := w.files;
    StageLists();
    ok := Produce(w, m, out);
    ghost var mid := w.files;
    TouchesMore(start, mid, PRODUCED + {AuditFile}, DIRS, PRODUCED + {FinalResponseFile, AuditFile}, DIRS);
    if !ok {
      return false;
    }
    ok := w.EnsureApiFinalReview(m, out);
    RunStage(w.lib, m, out, PRODUCE_STAGES, 6, FinalResponseFile, start, mid, w.files, ok);
    FinalReviewStep(start, mid, w.files);
  }

  lemma TouchesMore(a: Files, b: Files, named: set<Path>, dirs: set<Dir>, named': set<Path>, dirs': set<Dir>)
    requires OnlyTouches(a, b, named, dirs) && named <= named' && dirs <= dirs'
    ensures OnlyTouches(a, b, named', dirs')
  {}

  lemma FinalReviewStep(start: Files, mid: Files, after: Files)
    requires OnlyTouches(start, mid, PRODUCED + {AuditFile}, DIRS) && Keeps(start, mid)
    requires OnlyTouches(mid, after, {FinalResponseFile, AuditFile}, {})
    ensures OnlyTouches(start, after, PRODUCED + {FinalResponseFile, AuditFile}, DIRS) && Keeps(start, after)
    ensures Has(mid, PRODUCED) ==> Has(after, PRODUCED)
  {
    TouchesBoth(start, mid, after, PRODUCED + {AuditFile}, DIRS, {FinalResponseFile, AuditFile}, {});
    assert PRODUCED + {AuditFile} + {FinalResponseFile, AuditFile} == PRODUCED + {FinalResponseFile, AuditFile};
    assert DIRS + {} == DIRS;
    forall p | p in PRODUCED && p in mid
      ensures p in after
    {
      Unnamed(mid, after, {FinalResponseFile, AuditFile}, {}, p);
    }
    assert Keeps(mid, after) by {
      forall p | p in WRITE_ONCE && p in mid
        ensures p in after && after[p] == mid[p]
      {
        Unnamed(mid, after, {FinalResponseFile, AuditFile}, {}, p);
      }
    }
    KeepsBoth(start, mid, after);
  }

  /** The files of the first stages of the production. */
  function Firsts(k: nat): set<Path>
    requires k <= |PRODUCE_STAGES|
  {
    set i | 0 <= i < k :: PRODUCE_STAGES[i]
  }

  /** The production has come to its stage k. */
  ghost predicate At(
    lib: Library, m: Manifest, out: Outside, k: nat, start: Files, files: Files, calls0: int, calls: int)
    requires k <= |PRODUCE_STAGES|
  {
    && Progress(start, files, Firsts(k), PRODUCED, calls0, calls)
    && Run(lib, m, out, PRODUCE_STAGES, k, start) == Reached(files)
    && calls == calls0 + RunCalls(lib, m, out, PRODUCE_STAGES, k, start)
  }

  lemma AtStart(lib: Library, m: Manifest, out: Outside, start: Files, calls: int)
    requires Inv(start)
    ensures At(lib, m, out, 0, start, start, calls, calls)
  {
    hide Inv;
    ProgressStart(start, PRODUCED, calls);
    assert Firsts(0) == {};
  }

  /** The requests, the shots and the voiceover. */
  method Gather(w: Workspace, m: Manifest, out: Outside) returns (ok: bool)
    requires Inv(w.files) && ScriptFile in w.files && EpisodeFile in w.files && m.episodeId == EpisodeId(w.files)
    modifies w
    ensures Inv(w.files) && ScriptFile in w.files && EpisodeFile in w.files && m.episodeId == EpisodeId(w.files)
    ensures 6 < |PRODUCE_STAGES|
    ensures ok ==> At(w.lib, m, out, 3, old(w.files), w.files, old(w.calls), w.calls)
    ensures !ok ==>
      && Leaves(Phase(w.lib, m, out, PRODUCE_STAGES, old(w.files)), ok, w.files) && !Has(old(w.files), PRODUCED)
      && w.calls == old(w.calls) + PhaseCalls(w.lib, m, out, PRODUCE_STAGES, old(w.files))
      && OnlyTouches(old(w.files), w.files, PRODUCED + {AuditFile}, DIRS) && Keeps(old(w.files), w.files)
  {
    hide *;
    StageLists();
    ghost var lib, start, calls := w.lib, w.files, w.calls;
    ghost var before, called := w.files, w.calls;
    AtStart(lib, m, out, start, calls);
    PlainStages(lib, m, out, before);
    NoCalls(m, out, RequestsFile, before);
    ok := w.EnsureVisualRequests(m);
    LeavesReached(lib, m, out, RequestsFile, before, w.files);
    Advance(lib, m, out, 0, start, before, w.files, RequestsFile, {}, calls, called, w.calls, ok);
    before, called := w.files, w.calls;
    ok := w.EnsureVisuals(m, out);
    Advance(lib, m, out, 1, start, before, w.files, VisualManifestFile, {VisualDir}, calls, called, w.calls, ok);
    if !ok {
      return false;
    }
    before, called := w.files, w.calls;
    ok := w.EnsureVoice(m, out);
    Advance(lib, m, out, 2, start, before, w.files, VoiceManifestFile, {AudioDir}, calls, called, w.calls, ok);
  }

  /** The six stages between the two reviews. */
  method Produce(w: Workspace, m: Manifest, out: Outside) returns (ok: bool)
    requires Inv(w.files) && ScriptFile in w.files && EpisodeFile in w.files && m.episodeId == EpisodeId(w.files)
    modifies w
    ensures Inv(w.files) && Keeps(old(w.files), w.files)
    ensures OnlyTouches(old(w.files), w.files, PRODUCED + {AuditFile}, DIRS)
    ensures ok ==> Has(w.files, PRODUCED)
    ensures old(Has(w.files, PRODUCED)) ==> ok && w.files == old(w.files) && w.calls == old(w.calls)
    ensures 6 <= |PRODUCE_STAGES|
    ensures ok ==>
      && Run(w.lib, m, out, PRODUCE_STAGES, 6, old(w.files)) == Reached(w.files)
      && w.calls == old(w.calls) + RunCalls(w.lib, m, out, PRODUCE_STAGES, 6, old(w.files))
    ensures !ok ==>
      && Leaves(Phase(w.lib, m, out, PRODUCE_STAGES, old(w.files)), ok, w.files)
      && w.calls == old(w.calls) + PhaseCalls(w.lib, m, out, PRODUCE_STAGES, old(w.files))
  {
    hide *;
    StageLists();
    ghost var lib, start, calls := w.lib, w.files, w.calls;
    ok := Gather(w, m, out);
    if !ok {
      return false;
    }
    ghost var before, called;
    before, called := w.files, w.calls;
    ok := w.EnsureSubtitles(m, out);
    Advance(lib, m, out, 3, start, before, w.files, SubtitleManifestFile, {SubtitleDir}, calls, called, w.calls, ok);
    if !ok {
      return false;
    }
    before, called := w.files, w.calls;
    ok := w.EnsureRender(m, out);
    Advance(lib, m, out, 4, start, before, w.files, RenderManifestFile, {DistDir}, calls, called, w.calls, ok);
    if !ok {
      return false;
    }
    before, called := w.files, w.calls;
    RequestStages(lib, m, out, FinalRequestFile, before);
    NoCalls(m, out, FinalRequestFile, before);
    ok := w.EnsureFinalRequest(m);
    LeavesReached(lib, m, out, FinalRequestFile, before, w.files);
    Advance(lib, m, out, 5, start, before, w.files, FinalRequestFile, {}, calls, called, w.calls, ok);
    AtEnd(lib, m, out, start, w.files, calls, w.calls);
  }

  lemma AtEnd(lib: Library, m: Manifest, out: Outside, start: Files, after: Files, calls0: int, calls: int)
    requires 6 <= |PRODUCE_STAGES| && At(lib, m, out, 6, start, after, calls0, calls)
    ensures Run(lib, m, out, PRODUCE_STAGES, 6, start) == Reached(after)
    ensures calls == calls0 + RunCalls(lib, m, out, PRODUCE_STAGES, 6, start)
    ensures Has(start, PRODUCED) ==> after == start && calls == calls0
    ensures Has(after, PRODUCED)
    ensures OnlyTouches(start, after, PRODUCED + {AuditFile}, DIRS) && Keeps(start, after)
  {
    hide Inv, Keeps, Run, OnlyTouches;
    FirstSix();
  }

  lemma LeavesReached(lib: Library, m: Manifest, out: Outside, own: Path, before: Files, after: Files)
    requires After(lib, m, out, own, before) == Reached(after)
    ensures Leaves(After(lib, m, out, own, before), true, after)
  {}

  /** One stage of the production, with what it leaves known. */
  lemma Advance(
    lib: Library, m: Manifest, out: Outside, k: nat, start: Files, mid: Files, after: Files, own: Path, dirs: set<Dir>,
    calls0: int, calls: int, calls': int, ok: bool)
    requires k < 6 < |PRODUCE_STAGES| && PRODUCE_STAGES[k] == own && dirs <= DIRS
    requires At(lib, m, out, k, start, mid, calls0, calls)
    requires Makes(own, dirs, mid, after, calls, calls', ok) && Inv(after)
    requires Leaves(After(lib, m, out, own, mid), ok, after) && calls' == calls + StageCalls(m, out, own, mid)
    ensures ok ==> At(lib, m, out, k + 1, start, after, calls0, calls') && own in after
    ensures !ok ==>
      && Leaves(Phase(lib, m, out, PRODUCE_STAGES, start), ok, after) && !Has(start, PRODUCED)
      && calls' == calls0 + PhaseCalls(lib, m, out, PRODUCE_STAGES, start)
      && OnlyTouches(start, after, PRODUCED + {AuditFile}, DIRS) && Keeps(start, after)
    ensures ScriptFile in mid ==> ScriptFile in after
    ensures EpisodeFile in mid ==> EpisodeFile in after && EpisodeId(after) == EpisodeId(mid)
  {
    hide Inv, Makes, Keeps, Run, After, OnlyTouches, PRODUCE_STAGES, PRODUCED, Progress, Firsts, Has;
    StageLists();
    ProducedNames();
    MakesTouches(own, dirs, mid, after, calls, calls', ok);
    ProgressStep(start, mid, after, Firsts(k), PRODUCED, own, dirs, calls0, calls, calls', ok);
    RunStage(lib, m, out, PRODUCE_STAGES, k, own, start, mid, after, ok);
    FirstsStep(k);
    if !ok {
      ProgressMeans(start, after, Firsts(k), PRODUCED, calls0, calls');
    }
    Unnamed(mid, after, {own, AuditFile}, dirs, ScriptFile);
    Unnamed(mid, after, {own, AuditFile}, dirs, EpisodeFile);
  }

  lemma ProgressMeans(start: Files, mid: Files, have: set<Path>, goal: set<Path>, calls0: int, calls: int)
    requires Progress(start, mid, have, goal, calls0, calls)
    ensures OnlyTouches(start, mid, goal + {AuditFile}, DIRS) && Keeps(start, mid)
  {}

  lemma ProducedNames()
    ensures PRODUCED == {
      RequestsFile, VisualManifestFile, VoiceManifestFile, SubtitleManifestFile, RenderManifestFile, FinalRequestFile}
  {}

  lemma FirstsStep(k: nat)
    requires k < |PRODUCE_STAGES|
    ensures Firsts(k + 1) == Firsts(k) + {PRODUCE_STAGES[k]}
  {}

  lemma FirstSix()
    ensures Firsts(6) == PRODUCED
  {
    forall p | p in PRODUCED
      ensures p in Firsts(6)
    {
      assert PRODUCE_STAGES[0] in Firsts(6) && PRODUCE_STAGES[1] in Firsts(6) && PRODUCE_STAGES[2] in Firsts(6);
      assert PRODUCE_STAGES[3] in Firsts(6) && PRODUCE_STAGES[4] in Firsts(6) && PRODUCE_STAGES[5] in Firsts(6);
    }
  }

  method ReleasePhase(w: Workspace, m: Manifest, out: Outside) returns (ok: bool)
    requires Inv(w.files) && RenderManifestFile in w.files
    modifies w`files
    ensures Inv(w.files) && Keeps(old(w.files), w.files) && ok
    ensures OnlyTouches(old(w.files), w.files, RELEASED + {AuditFile}, {})
    ensures Has(w.files, RELEASED) && w.files[QaFile] == QaDoc(true)
    ensures old(Has(w.files, RELEASED)) ==> w.files == old(w.files)
    ensures Phase(w.lib, m, out, RELEASE_STAGES, old(w.files)) == Reached(w.files)
  {
    hide *;
    ghost var lib, start := w.lib, w.files;
    StageLists();
    RunStart(lib, m, out, RELEASE_STAGES, start);
    PlainStages(lib, m, out, start);
    ok := w.EnsureProductionQA();
    ghost var checked := w.files;
    LeavesReached(lib, m, out, QaFile, start, checked);
    RunStage(lib, m, out, RELEASE_STAGES, 0, QaFile, start, start, checked, ok);
    PlainStages(lib, m, out, checked);
    ok := w.EnsurePublishManifest();
    LeavesReached(lib, m, out, PublishFile, checked, w.files);
    RunStage(lib, m, out, RELEASE_STAGES, 1, PublishFile, start, checked, w.files, ok);
    ReleaseMade(start, checked, w.files, w.calls);
    PhaseReached(lib, m, out, RELEASE_STAGES, start, w.files);
  }

  lemma PhaseReached(lib: Library, m: Manifest, out: Outside, stages: seq<Path>, start: Files, after: Files)
    requires Leaves(Phase(lib, m, out, stages, start), true, after)
    ensures Phase(lib, m, out, stages, start) == Reached(after)
  {}

  /** What the two stages of the release leave between them. */
  lemma ReleaseMade(start: Files, checked: Files, after: Files, calls: int)
    requires Makes(QaFile, {}, start, checked, calls, calls, true) && checked[QaFile] == QaDoc(true)
    requires Makes(PublishFile, {}, checked, after, calls, calls, true)
    ensures Keeps(start, after) && OnlyTouches(start, after, RELEASED + {AuditFile}, {})
    ensures Has(after, RELEASED) && after[QaFile] == QaDoc(true)
    ensures Has(start, RELEASED) ==> after == start
  {
    hide Keeps;
    MakesKeeps(QaFile, {}, start, checked, calls, calls, true);
    MakesKeeps(PublishFile, {}, checked, after, calls, calls, true);
    KeepsBoth(start, checked, after);
  }

  // ----- Resume -----

  /** Where a Resume that returned without an error has left the workspace. */
  ghost predicate Settled(lib: Library, files: Files) {
    && EpisodeFile in files && files[EpisodeFile].EpisodeDoc?
    && var m := files[EpisodeFile].manifest;
    && ScriptSettled(files, m.reviewMode)
    && (if ScriptIssue(lib, files, m.episodeId).Some? then m.status == NeedsReview
        else
          && ProduceSettled(files, m.reviewMode)
          && (if FinalIssue(files, m.episodeId).Some? then m.status == ReleaseBlocked
              else Has(files, RELEASED) && m.status == ReleaseCandidate))
  }

  /** What a ready release candidate has behind it. */
  ghost predicate Approved(lib: Library, files: Files) {
    && EpisodeFile in files && files[EpisodeFile].EpisodeDoc?
    && ScriptResponseFile in files && files[ScriptResponseFile].ReviewDoc?
    && FinalResponseFile in files && files[FinalResponseFile].ReviewDoc?
    && var m := files[EpisodeFile].manifest;
    && var script, final := files[ScriptResponseFile].review, files[FinalResponseFile].review;
    && EnvelopeOk(script, m) && EnvelopeOk(final, m)
    && script.verdict == "pass" && script.canContinue && script.blockingIssues == []
    && FileHash(lib, files, ScriptFile) == Some(script.approvedScriptHash)
    && (if final.override then Present(final.overrideReason)
        else final.verdict == "pass" && final.canRelease && final.blockingIssues == [])
    && QaFile in files && files[QaFile] == QaDoc(true)
    && PublishFile in files && files[PublishFile] == PublishDoc(false, "private", "release_candidate_only")
  }

  lemma IssuesMean(lib: Library, files: Files, m: Manifest)
    requires EpisodeFile in files && files[EpisodeFile] == EpisodeDoc(m)
    requires ScriptIssue(lib, files, m.episodeId).None? && FinalIssue(files, m.episodeId).None?
    requires QaFile in files && files[QaFile] == QaDoc(true)
    requires PublishFile in files && files[PublishFile] == PublishDoc(false, "private", "release_candidate_only")
    ensures Approved(lib, files)
  {
    hide TrimSpace;
  }

  /** Status reads the mark and not the reviews: its ready is backed by the files exactly when
      both gates still pass. */
  lemma ReadyStatusIff(lib: Library, files: Files, m: Manifest)
    requires Inv(files) && EpisodeFile in files && files[EpisodeFile] == EpisodeDoc(m) && StatusOf(files, m).ready
    ensures Approved(lib, files)
      <==> ScriptIssue(lib, files, m.episodeId).None? && FinalIssue(files, m.episodeId).None?
  {
    hide Inv, Present, StatusOf, FileHash;
    StatusReadyIff(files, m);
    QaApproves(files);
    PublishesNothing(files);
    if ScriptIssue(lib, files, m.episodeId).None? && FinalIssue(files, m.episodeId).None? {
      IssuesMean(lib, files, m);
    }
  }

  lemma PublishesNothing(files: Files)
    requires Inv(files) && PublishFile in files
    ensures files[PublishFile] == PublishDoc(false, "private", "release_candidate_only")
  {
    hide Sound, Fits, Output;
  }

  /** The gates look at the two responses and the script alone. */
  lemma IssuesFrame(lib: Library, before: Files, after: Files, named: set<Path>, dirs: set<Dir>, episodeId: string)
    requires OnlyTouches(before, after, named, dirs)
    ensures ScriptResponseFile !in named && ScriptFile !in named ==>
      ScriptIssue(lib, after, episodeId) == ScriptIssue(lib, before, episodeId)
    ensures FinalResponseFile !in named ==> FinalIssue(after, episodeId) == FinalIssue(before, episodeId)
  {
    hide Present;
  }

  lemma {:induction false} SelectMarked(files: Files, after: Files, paths: seq<Path>, present: bool)
    requires files.Keys == after.Keys
    ensures Select(after, paths, present) == Select(files, paths, present)
  {
    if paths != [] {
      SelectMarked(files, after, paths[..|paths| - 1], present);
    }
  }

  /** Marking the manifest again with the mark it has changes no report. */
  lemma ReportMarked(lib: Library, files: Files, now: int)
    requires EpisodeFile in files && files[EpisodeFile].EpisodeDoc?
    ensures Report(lib, Marked(files, files[EpisodeFile].manifest.status, now)) == Report(lib, files)
  {
    hide Present, Required, Select;
    var m := files[EpisodeFile].manifest;
    var after := Marked(files, m.status, now);
    MarkedTouches(files, m.status, now);
    IssuesFrame(lib, files, after, {EpisodeFile}, {}, m.episodeId);
    SelectMarked(files, after, Required(m.episodeId), true);
    SelectMarked(files, after, Required(m.episodeId), false);
  }

  lemma MarkedTouches(files: Files, status: Status, now: int)
    requires EpisodeFile in files && files[EpisodeFile].EpisodeDoc?
    ensures OnlyTouches(files, Marked(files, status, now), {EpisodeFile}, {})
    ensures Keeps(files, Marked(files, status, now))
    ensures Marked(files, status, now).Keys == files.Keys
  {}

  /** The marked files are settled when the unmarked ones have what the mark stands for. */
  lemma MarkedSettled(lib: Library, files: Files, status: Status, now: int)
    requires EpisodeFile in files && files[EpisodeFile].EpisodeDoc?
    requires var m := files[EpisodeFile].manifest;
      && ScriptSettled(files, m.reviewMode)
      && (if ScriptIssue(lib, files, m.episodeId).Some? then status == NeedsReview
          else
            && ProduceSettled(files, m.reviewMode)
            && (if FinalIssue(files, m.episodeId).Some? then status == ReleaseBlocked
                else Has(files, RELEASED) && status == ReleaseCandidate))
    ensures Settled(lib, Marked(files, status, now))
  {
    hide ScriptIssue, FinalIssue;
    MarkedTouches(files, status, now);
    IssuesFrame(lib, files, Marked(files, status, now), {EpisodeFile}, {}, files[EpisodeFile].manifest.episodeId);
  }

  /** A blocked report is never ready. */
  lemma BlockedNotReady(lib: Library, files: Files)
    requires EpisodeFile in files && files[EpisodeFile].EpisodeDoc?
    requires files[EpisodeFile].manifest.status != ReleaseCandidate
    ensures !Report(lib, files).ready
  {
    hide ScriptIssue, FinalIssue, Select, Required;
    StatusReadyIff(files, files[EpisodeFile].manifest);
  }

  /** What is there of the required artifacts, what is missing, and the stage. */
  method ShowStatus(w: Workspace) returns (r: Option<RunResult>)
    ensures r.Some? <==> EpisodeFile in w.files && w.files[EpisodeFile].EpisodeDoc?
    ensures r.Some? ==> r.value == StatusOf(w.files, w.files[EpisodeFile].manifest)
  {
    hide DeriveStage, Required;
    if EpisodeFile !in w.files || !w.files[EpisodeFile].EpisodeDoc? {
      return None;
    }
    var m := w.files[EpisodeFile].manifest;
    var required := Required(m.episodeId);
    var existing, missing := [], [];
    for i := 0 to |required|
      invariant existing == Select(w.files, required[..i], true) && missing == Select(w.files, required[..i], false)
    {
      assert required[..i + 1][..i] == required[..i];
      if required[i] in w.files {
        existing := existing + [required[i]];
      } else {
        missing := missing + [required[i]];
      }
    }
    assert required[..|required|] == required;
    var (stage, gate) := DeriveStage(w.files, m.status);
    var ready := stage == ReleaseStage && PublishFile in w.files;
    r := Some(RunResult(m.episodeId, stage, gate, None, ready, existing, missing));
  }

  /** Marks the manifest and reports: the end of every Resume without an error. */
  method Finish(w: Workspace, status: Status, now: int) returns (r: RunResult)
    requires Inv(w.files) && EpisodeFile in w.files && w.files[EpisodeFile].EpisodeDoc?
    requires var m := w.files[EpisodeFile].manifest;
      && ScriptSettled(w.files, m.reviewMode)
      && (if ScriptIssue(w.lib, w.files, m.episodeId).Some? then status == NeedsReview
          else
            && ProduceSettled(w.files, m.reviewMode)
            && (if FinalIssue(w.files, m.episodeId).Some? then status == ReleaseBlocked
                else Has(w.files, RELEASED) && status == ReleaseCandidate))
    modifies w`files
    ensures w.files == Marked(old(w.files), status, now) && Inv(w.files) && Keeps(old(w.files), w.files)
    ensures EpisodeFile in w.files && w.files[EpisodeFile].EpisodeDoc?
    ensures Settled(w.lib, w.files) && r == Report(w.lib, w.files)
    ensures status != ReleaseCandidate ==> !r.ready
  {
    hide Inv, ScriptIssue, FinalIssue, Settled, ScriptSettled, ProduceSettled, StatusOf, Keeps;
    ghost var before := w.files;
    w.UpdateStatus(status, now);
    MarkedSettled(w.lib, before, status, now);
    MarkedTouches(before, status, now);
    if status != ReleaseCandidate {
      BlockedNotReady(w.lib, w.files);
    }
    var current := ShowStatus(w);
    var m := w.files[EpisodeFile].manifest;
    r := current.value;
    var script, final := ScriptIssue(w.lib, w.files, m.episodeId), FinalIssue(w.files, m.episodeId);
    if script.Some? {
      r := r.(gate := Some(ScriptReviewStage), issue := script);
    } else if final.Some? {
      r := r.(gate := Some(FinalReviewStage), issue := final);
    }
  }

  /** Of the manifest only the mark and the time change. */
  predicate SameEpisode(before: Files, after: Files) {
    EpisodeFile in before && before[EpisodeFile].EpisodeDoc? ==>
      && EpisodeFile in after && after[EpisodeFile].EpisodeDoc?
      && var was := before[EpisodeFile].manifest;
      after[EpisodeFile].manifest.(status := was.status, updatedAt := was.updatedAt) == was
  }

  lemma EpisodeSelf(files: Files)
    ensures SameEpisode(files, files)
  {}

  lemma EpisodeKept(start: Files, before: Files, after: Files, named: set<Path>, dirs: set<Dir>)
    requires SameEpisode(start, before) && OnlyTouches(before, after, named, dirs) && EpisodeFile !in named
    ensures SameEpisode(start, after)
  {
    Unnamed(before, after, named, dirs, EpisodeFile);
  }

  lemma EpisodeMarked(start: Files, before: Files, status: Status, now: int)
    requires SameEpisode(start, before) && EpisodeFile in before && before[EpisodeFile].EpisodeDoc?
    ensures SameEpisode(start, Marked(before, status, now))
  {}

  /** A restart. None stands for an error: there is no manifest, or some stage failed. */
  method Resume(w: Workspace, out: Outside) returns (r: Option<RunResult>)
    requires Inv(w.files)
    modifies w
    ensures Inv(w.files) && Keeps(old(w.files), w.files)
    ensures SameEpisode(old(w.files), w.files)
    ensures (w.files, r) == Resumed(w.lib, old(w.files), out)
    ensures w.calls == old(w.calls) + CallsOf(w.lib, old(w.files), out)
    ensures r.Some? <==> EndingOf(w.lib, old(w.files), out).Ended?
    ensures r.Some? ==> Settled(w.lib, w.files) && r.value == Report(w.lib, w.files)
    ensures r.Some? && r.value.ready ==> Approved(w.lib, w.files)
    ensures r.Some? && r.value.ready <==> Releases(w.lib, old(w.files), out)
    ensures old(Settled(w.lib, w.files)) ==>
      && r.Some? && r.value == Report(w.lib, old(w.files)) && w.calls == old(w.calls)
      && OnlyTouches(old(w.files), w.files, {EpisodeFile}, {})
  {
    hide Inv, ScriptIssue, FinalIssue, ScriptSettled, ProduceSettled, Keeps, Report, Approved, OnlyTouches, SameEpisode;
    hide Phase, PhaseCalls, Marked, SCRIPT_STAGES, PRODUCE_STAGES, RELEASE_STAGES;
    EpisodeSelf(w.files);
    KeepsSelf(w.files);
    if EpisodeFile !in w.files || !w.files[EpisodeFile].EpisodeDoc? {
      return None;
    }
    var m := w.files[EpisodeFile].manifest;
    ghost var start := w.files;
    var ok := ScriptPhase(w, m, out);
    ghost var scripted := w.files;
    EpisodeKept(start, start, scripted, SCRIPTED + {ScriptResponseFile, AuditFile}, {});
    if !ok {
      return None;
    }
    AfterScript(w.lib, start, scripted, m);
    if ScriptIssue(w.lib, w.files, m.episodeId).Some? {
      var blocked := Finish(w, NeedsReview, out.now);
      Finished(w.lib, start, scripted, NeedsReview, out.now);
      EpisodeMarked(start, scripted, NeedsReview, out.now);
      return Some(blocked);
    }
    ok := ProducePhase(w, m, out);
    ghost var produced := w.files;
    KeepsBoth(start, scripted, produced);
    EpisodeKept(start, scripted, produced, PRODUCED + {FinalResponseFile, AuditFile}, DIRS);
    if !ok {
      return None;
    }
    AfterProduce(w.lib, start, scripted, produced, m);
    if FinalIssue(w.files, m.episodeId).Some? {
      var blocked := Finish(w, ReleaseBlocked, out.now);
      Finished(w.lib, start, produced, ReleaseBlocked, out.now);
      EpisodeMarked(start, produced, ReleaseBlocked, out.now);
      return Some(blocked);
    }
    ok := ReleasePhase(w, m, out);
    ghost var released := w.files;
    KeepsBoth(start, produced, released);
    EpisodeKept(start, produced, released, RELEASED + {AuditFile}, {});
    AfterRelease(w.lib, produced, released, m);
    var result := Finish(w, ReleaseCandidate, out.now);
    Finished(w.lib, start, released, ReleaseCandidate, out.now);
    EpisodeMarked(start, released, ReleaseCandidate, out.now);
    ReadyApproved(w.lib, released, m, out.now);
    ReleasedReady(w.lib, released, m, out.now);
    r := Some(result);
  }

  /** A restart ends at the release. */
  predicate Releases(lib: Library, files: Files, out: Outside) {
    var ending := EndingOf(lib, files, out);
    ending.Ended? && ending.status == ReleaseCandidate
  }

  lemma ReleasedReady(lib: Library, released: Files, m: Manifest, now: int)
    requires EpisodeFile in released && released[EpisodeFile] == EpisodeDoc(m)
    requires ScriptSettled(released, m.reviewMode) && ProduceSettled(released, m.reviewMode) && Has(released, RELEASED)
    requires ScriptIssue(lib, released, m.episodeId).None? && FinalIssue(released, m.episodeId).None?
    ensures var after := Marked(released, ReleaseCandidate, now);
      EpisodeFile in after && after[EpisodeFile].EpisodeDoc? && Report(lib, after).ready
  {
    hide Present, StatusOf;
    var after := Marked(released, ReleaseCandidate, now);
    MarkedTouches(released, ReleaseCandidate, now);
    IssuesFrame(lib, released, after, {EpisodeFile}, {}, m.episodeId);
    StatusReadyIff(after, after[EpisodeFile].manifest);
  }

  lemma AfterScript(lib: Library, start: Files, scripted: Files, m: Manifest)
    requires EpisodeFile in start && start[EpisodeFile] == EpisodeDoc(m)
    requires OnlyTouches(start, scripted, SCRIPTED + {ScriptResponseFile, AuditFile}, {})
    requires ScriptSettled(scripted, m.reviewMode)
    ensures EpisodeFile in scripted && scripted[EpisodeFile] == EpisodeDoc(m) && EpisodeId(scripted) == m.episodeId
    ensures ScriptFile in scripted
  {
    Unnamed(start, scripted, SCRIPTED + {ScriptResponseFile, AuditFile}, {}, EpisodeFile);
  }

  lemma AfterProduce(lib: Library, start: Files, scripted: Files, produced: Files, m: Manifest)
    requires EpisodeFile in scripted && scripted[EpisodeFile] == EpisodeDoc(m)
    requires OnlyTouches(scripted, produced, PRODUCED + {FinalResponseFile, AuditFile}, DIRS)
    requires ScriptSettled(scripted, m.reviewMode) && ProduceSettled(produced, m.reviewMode)
    ensures EpisodeFile in produced && produced[EpisodeFile] == EpisodeDoc(m)
    ensures ScriptSettled(produced, m.reviewMode) && RenderManifestFile in produced
    ensures ScriptIssue(lib, produced, m.episodeId) == ScriptIssue(lib, scripted, m.episodeId)
  {
    hide ScriptIssue;
    var named := PRODUCED + {FinalResponseFile, AuditFile};
    IssuesFrame(lib, scripted, produced, named, DIRS, m.episodeId);
    Unnamed(scripted, produced, named, DIRS, EpisodeFile);
    Unnamed(scripted, produced, named, DIRS, ScriptResponseFile);
    forall p | p in SCRIPTED
      ensures p in produced
    {
      Unnamed(scripted, produced, named, DIRS, p);
    }
  }

  lemma AfterRelease(lib: Library, produced: Files, released: Files, m: Manifest)
    requires EpisodeFile in produced && produced[EpisodeFile] == EpisodeDoc(m)
    requires OnlyTouches(produced, released, RELEASED + {AuditFile}, {})
    requires ScriptSettled(produced, m.reviewMode) && ProduceSettled(produced, m.reviewMode)
    ensures EpisodeFile in released && released[EpisodeFile] == EpisodeDoc(m)
    ensures ScriptSettled(released, m.reviewMode) && ProduceSettled(released, m.reviewMode)
    ensures ScriptIssue(lib, released, m.episodeId) == ScriptIssue(lib, produced, m.episodeId)
    ensures FinalIssue(released, m.episodeId) == FinalIssue(produced, m.episodeId)
  {
    hide ScriptIssue, FinalIssue;
    var named := RELEASED + {AuditFile};
    IssuesFrame(lib, produced, released, named, {}, m.episodeId);
    Unnamed(produced, released, named, {}, EpisodeFile);
    Unnamed(produced, released, named, {}, ScriptResponseFile);
    Unnamed(produced, released, named, {}, FinalResponseFile);
    forall p | p in SCRIPTED + PRODUCED && p in produced
      ensures p in released
    {
      Unnamed(produced, released, named, {}, p);
    }
  }

  /** The end of a Resume, seen from its start: when it found everything in place it changed
      the manifest alone, and reported what was to be reported before. */
  lemma Finished(lib: Library, start: Files, before: Files, status: Status, now: int)
    requires EpisodeFile in before && before[EpisodeFile].EpisodeDoc?
    requires Keeps(start, before)
    ensures Keeps(start, Marked(before, status, now))
    ensures before == start && before[EpisodeFile].manifest.status == status ==>
      && OnlyTouches(start, Marked(before, status, now), {EpisodeFile}, {})
      && Report(lib, Marked(before, status, now)) == Report(lib, start)
  {
    hide Report;
    MarkedTouches(before, status, now);
    KeepsBoth(start, before, Marked(before, status, now));
    if before == start && before[EpisodeFile].manifest.status == status {
      ReportMarked(lib, before, now);
    }
  }

  lemma ReadyApproved(lib: Library, released: Files, m: Manifest, now: int)
    requires Inv(released) && EpisodeFile in released && released[EpisodeFile] == EpisodeDoc(m)
    requires ScriptIssue(lib, released, m.episodeId).None? && FinalIssue(released, m.episodeId).None?
    requires Has(released, RELEASED) && released[QaFile] == QaDoc(true)
    ensures Approved(lib, Marked(released, ReleaseCandidate, now))
  {
    hide Inv, ScriptIssue, FinalIssue, Approved;
    var after := Marked(released, ReleaseCandidate, now);
    PublishesNothing(released);
    MarkedTouches(released, ReleaseCandidate, now);
    IssuesFrame(lib, released, after, {EpisodeFile}, {}, m.episodeId);
    IssuesMean(lib, after, after[EpisodeFile].manifest);
  }

  /** Convergence: after a Resume without an error, another one runs no command, changes no
      file but the episode manifest, and returns the same result, whatever the commands would
      answer by then. */
  method ResumeTwice(w: Workspace, out: Outside, later: Outside)
    returns (first: Option<RunResult>, second: Option<RunResult>, ghost between: Files)
    requires Inv(w.files)
    modifies w
    ensures Inv(between) && Keeps(old(w.files), between) && Keeps(between, w.files)
    ensures (between, first) == Resumed(w.lib, old(w.files), out)
    ensures (w.files, second) == Resumed(w.lib, between, later)
    ensures w.calls == old(w.calls) + CallsOf(w.lib, old(w.files), out) + CallsOf(w.lib, between, later)
    ensures first.Some? ==>
      && Settled(w.lib, between) && first.value == Report(w.lib, between) && CallsOf(w.lib, between, later) == 0
      && second == first && OnlyTouches(between, w.files, {EpisodeFile}, {})
  {
    hide *;
    first := Resume(w, out);
    between := w.files;
    second := Resume(w, later);
  }

  // ----- imports -----

  datatype ReviewKind = ScriptKind | FinalKind | OtherKind(name: string)

  function ReviewPath(kind: ReviewKind): Path {
    if kind == ScriptKind then ScriptResponseFile else FinalResponseFile
  }

  /** The reviews that are stored. */
  predicate Storable(files: Files, kind: ReviewKind, review: Option<Review>) {
    && EpisodeFile in files && files[EpisodeFile].EpisodeDoc? && review.Some?
    && EnvelopeOk(review.value, files[EpisodeFile].manifest) && !kind.OtherKind?
    && (kind == ScriptKind ==> review.value.approvedScriptHash != "")
  }

  /** The gate of a review. */
  function IssueOf(lib: Library, kind: ReviewKind, files: Files): Option<Issue> {
    if kind == ScriptKind then ScriptIssue(lib, files, EpisodeId(files)) else FinalIssue(files, EpisodeId(files))
  }

  /** The files with a review that is given, and whether it lets the run continue. */
  function Reviewed(lib: Library, files: Files, kind: ReviewKind, review: Option<Review>): (Files, bool) {
    if !Storable(files, kind, review) then (files, false)
    else
      var written := files[ReviewPath(kind) := ReviewDoc(review.value)];
      if IssueOf(lib, kind, written).Some? then (written, false) else (Audited(written, ReviewPath(kind)), true)
  }

  /** Stores a review whatever its verdict, and then says whether it lets the run continue. */
  method ImportReview(w: Workspace, kind: ReviewKind, review: Option<Review>) returns (ok: bool)
    requires Inv(w.files)
    modifies w`files
    ensures Inv(w.files) && Keeps(old(w.files), w.files)
    ensures OnlyTouches(old(w.files), w.files, {ScriptResponseFile, FinalResponseFile, AuditFile}, {})
    ensures (w.files, ok) == Reviewed(w.lib, old(w.files), kind, review)
    ensures !Storable(old(w.files), kind, review) ==> !ok && w.files == old(w.files)
    ensures Storable(old(w.files), kind, review) ==>
      && ReviewPath(kind) in w.files && w.files[ReviewPath(kind)] == ReviewDoc(review.value)
      && (ok <==> IssueOf(w.lib, kind, w.files).None?)
  {
    hide Inv, Keeps, ScriptIssue, FinalIssue, Events, OnlyTouches;
    ghost var start := w.files;
    KeepsSelf(start);
    TouchesNothing(start, {ScriptResponseFile, FinalResponseFile, AuditFile}, {});
    if EpisodeFile !in w.files || !w.files[EpisodeFile].EpisodeDoc? || review.None? {
      return false;
    }
    var m := w.files[EpisodeFile].manifest;
    if !EnvelopeOk(review.value, m) || kind.OtherKind?
      || (kind == ScriptKind && review.value.approvedScriptHash == "") {
      return false;
    }
    var p := ReviewPath(kind);
    WriteKeepsInv(w.files, p, ReviewDoc(review.value));
    w.Write(p, ReviewDoc(review.value));
    ReviewWritten(start, p, ReviewDoc(review.value));
    ghost var written := w.files;
    ok := if kind == ScriptKind then ScriptIssue(w.lib, w.files, m.episodeId).None?
      else FinalIssue(w.files, m.episodeId).None?;
    if !ok {
      return false;
    }
    w.AppendAudit(p);
    AuditedFrame(w.lib, start, written, p);
  }

  lemma TouchesNothing(a: Files, named: set<Path>, dirs: set<Dir>)
    ensures OnlyTouches(a, a, named, dirs)
  {}

  lemma ReviewWritten(start: Files, p: Path, d: Doc)
    requires p == ScriptResponseFile || p == FinalResponseFile
    ensures OnlyTouches(start, start[p := d], {ScriptResponseFile, FinalResponseFile, AuditFile}, {})
    ensures Keeps(start, start[p := d]) && EpisodeId(start[p := d]) == EpisodeId(start)
  {}

  lemma AuditedFrame(lib: Library, start: Files, files: Files, event: Path)
    requires OnlyTouches(start, files, {ScriptResponseFile, FinalResponseFile, AuditFile}, {}) && Keeps(start, files)
    ensures var after := Audited(files, event);
      && OnlyTouches(start, after, {ScriptResponseFile, FinalResponseFile, AuditFile}, {}) && Keeps(start, after)
      && EpisodeId(after) == EpisodeId(files)
      && ScriptIssue(lib, after, EpisodeId(files)) == ScriptIssue(lib, files, EpisodeId(files))
      && FinalIssue(after, EpisodeId(files)) == FinalIssue(files, EpisodeId(files))
  {
    hide Events, ScriptIssue, FinalIssue;
    var after := Audited(files, event);
    assert OnlyTouches(files, after, {AuditFile}, {});
    IssuesFrame(lib, files, after, {AuditFile}, {}, EpisodeId(files));
    OthersKept(files, after, {AuditFile});
    KeepsBoth(start, files, after);
  }

  /** The files with a shot that is given, and whether it was taken. */
  function WithShot(files: Files, shotId: string, ext: string, content: Option<string>): (Files, bool) {
    var p := In(VisualDir, shotId + ext);
    if EpisodeFile in files && RequestsFile in files && files[RequestsFile].RequestsDoc? && shotId != ""
      && shotId in RequestIds(files[RequestsFile].requests) && p !in files && content.Some?
    then (Audited(files[p := Blob(content.value)], p), true)
    else (files, false)
  }

  /** A shot is copied into the workspace under a name that is free. */
  method ImportVisualShot(w: Workspace, shotId: string, ext: string, content: Option<string>) returns (ok: bool)
    requires Inv(w.files)
    modifies w`files
    ensures Inv(w.files) && Keeps(old(w.files), w.files)
    ensures OnlyTouches(old(w.files), w.files, {AuditFile, In(VisualDir, shotId + ext)}, {})
    ensures (w.files, ok) == WithShot(old(w.files), shotId, ext, content)
    ensures In(VisualDir, shotId + ext) in old(w.files) ==> !ok && w.files == old(w.files)
    ensures ok <==>
      && EpisodeFile in old(w.files) && RequestsFile in old(w.files) && old(w.files)[RequestsFile].RequestsDoc?
      && shotId != ""
      && shotId in RequestIds(old(w.files)[RequestsFile].requests)
      && In(VisualDir, shotId + ext) !in old(w.files) && content.Some?
    ensures ok ==> In(VisualDir, shotId + ext) in w.files && w.files[In(VisualDir, shotId + ext)] == Blob(content.value)
  {
    hide Inv, Events, Keeps, OnlyTouches, RequestIds;
    var p := In(VisualDir, shotId + ext);
    ghost var start := w.files;
    KeepsSelf(start);
    TouchesNothing(start, {AuditFile, p}, {});
    if EpisodeFile !in w.files || RequestsFile !in w.files || !w.files[RequestsFile].RequestsDoc? || shotId == "" {
      return false;
    }
    if shotId !in RequestIds(w.files[RequestsFile].requests) || p in w.files || content.None? {
      return false;
    }
    FitsStep(p, Blob(content.value));
    WriteKeepsInv(w.files, p, Blob(content.value));
    w.Write(p, Blob(content.value));
    w.AppendAudit(p);
    ShotFrame(start, p, Blob(content.value));
    ok := true;
  }

  lemma ShotFrame(start: Files, p: Path, d: Doc)
    requires p.In?
    ensures var after := Audited(start[p := d], p);
      Keeps(start, after) && OnlyTouches(start, after, {AuditFile, p}, {}) && p in after && after[p] == d
  {
    hide Events;
  }

  function VoicePath(ext: string): (p: Path)
    ensures p.In?
  {
    In(AudioDir, "voiceover" + (if ext == "" then ".wav" else ext))
  }

  /** The manifest of a voiceover given by hand, which has the duration of the episode. */
  function ImportedVoice(lib: Library, files: Files, p: Path, content: string): (d: Doc)
    ensures d.VoiceDoc?
  {
    VoiceDoc(p, lib.sha(content), EpisodeDuration(files), lib.format(p), 0)
  }

  /** The files with a voiceover that is given, and whether it was taken. */
  function WithVoice(lib: Library, files: Files, ext: string, content: Option<string>): (Files, bool) {
    var p := VoicePath(ext);
    if EpisodeFile !in files || p in files || content.None? then (files, false)
    else
      var copied := files[p := Blob(content.value)];
      var d := ImportedVoice(lib, files, p, content.value);
      if lib.valid(d) then (Audited(copied[VoiceManifestFile := d], VoiceManifestFile), true) else (copied, false)
  }

  /** A voiceover is copied under a name that is free; its manifest is written anew. */
  method ImportVoice(w: Workspace, ext: string, content: Option<string>) returns (ok: bool)
    requires Inv(w.files)
    modifies w`files
    ensures Inv(w.files) && Keeps(old(w.files), w.files)
    ensures OnlyTouches(old(w.files), w.files, {AuditFile, VoiceManifestFile, VoicePath(ext)}, {})
    ensures (w.files, ok) == WithVoice(w.lib, old(w.files), ext, content)
    ensures VoicePath(ext) in old(w.files) ==> !ok && w.files == old(w.files)
    ensures ok <==>
      && EpisodeFile in old(w.files) && VoicePath(ext) !in old(w.files) && content.Some?
      && w.lib.valid(ImportedVoice(w.lib, old(w.files), VoicePath(ext), content.value))
    ensures ok ==> content.Some? && VoicePath(ext) in w.files && w.files[VoicePath(ext)] == Blob(content.value)
    ensures ok ==>
      && VoiceManifestFile in w.files
      && w.files[VoiceManifestFile] == ImportedVoice(w.lib, old(w.files), VoicePath(ext), content.value)
  {
    hide Inv, Events, Keeps, OnlyTouches, VoicePath, ImportedVoice;
    var p := VoicePath(ext);
    ghost var start := w.files;
    KeepsSelf(start);
    TouchesNothing(start, {AuditFile, VoiceManifestFile, p}, {});
    if EpisodeFile !in w.files || p in w.files || content.None? {
      return false;
    }
    var d := ImportedVoice(w.lib, w.files, p, content.value);
    FitsStep(p, Blob(content.value));
    WriteKeepsInv(w.files, p, Blob(content.value));
    w.Write(p, Blob(content.value));
    VoiceFrame(start, p, Blob(content.value), d);
    if !w.lib.valid(d) {
      return false;
    }
    WriteKeepsInv(w.files, VoiceManifestFile, d);
    w.Complete(VoiceManifestFile, d);
    ok := true;
  }

  lemma VoiceFrame(start: Files, p: Path, d: Doc, e: Doc)
    requires p.In?
    ensures Keeps(start, start[p := d]) && OnlyTouches(start, start[p := d], {AuditFile, VoiceManifestFile, p}, {})
    ensures var after := Audited(start[p := d][VoiceManifestFile := e], VoiceManifestFile);
      && Keeps(start, after) && OnlyTouches(start, after, {AuditFile, VoiceManifestFile, p}, {})
      && p in after && after[p] == d
  {
    hide Events;
  }

  // ----- a new workspace -----

  /** The manifest of a new workspace leaves the invariant alone. */
  lemma CreateKeepsInv(files: Files, m: Manifest)
    requires Inv(files) && EpisodeFile !in files
    ensures Inv(files[EpisodeFile := EpisodeDoc(m)])
  {
    hide Sound, Output, Fits;
    FitsManifest(m);
  }

  lemma FitsManifest(m: Manifest)
    ensures Fits(EpisodeFile, EpisodeDoc(m))
  {}

  /** The files of a new workspace. */
  function Created(lib: Library, files: Files, m: Manifest): Files {
    Audited(
      files[EpisodeFile := EpisodeDoc(m)][TopicFile := Blob(lib.text(TopicFile, m, ""))]
           [ResearchFile := Blob(lib.text(ResearchFile, m, ""))],
      ResearchFile)
  }

  /** The workspace belongs to another episode, or its manifest cannot be read. */
  predicate Foreign(files: Files, m: Manifest) {
    EpisodeFile in files && (!files[EpisodeFile].EpisodeDoc? || files[EpisodeFile].manifest.episodeId != m.episodeId)
  }

  /** Where generate-real begins to resume. */
  function Begun(lib: Library, files: Files, m: Manifest, out: Outside): Files {
    if EpisodeFile in files then files else Created(lib, files, m.(status := Generated, updatedAt := out.now))
  }

  /** The files after generate-real, and its result. */
  function Generation(lib: Library, files: Files, m: Manifest, valid: bool, out: Outside): (Files, Option<RunResult>) {
    if !valid || Foreign(files, m) then (files, None)
    else Resumed(lib, Begun(lib, files, m, out), out)
  }

  /** generate-real: makes the workspace the first time, and then resumes. */
  method GenerateReal(w: Workspace, m: Manifest, valid: bool, out: Outside) returns (r: Option<RunResult>)
    requires Inv(w.files)
    modifies w
    ensures Inv(w.files) && Keeps(old(w.files), w.files)
    ensures (w.files, r) == Generation(w.lib, old(w.files), m, valid, out)
    ensures w.calls == old(w.calls)
      + if valid && !Foreign(old(w.files), m) then CallsOf(w.lib, Begun(w.lib, old(w.files), m, out), out) else 0
    ensures !valid || Foreign(old(w.files), m) ==> r.None? && w.files == old(w.files) && w.calls == old(w.calls)
    ensures r.Some? ==>
      && Settled(w.lib, w.files) && r.value == Report(w.lib, w.files)
      && w.files[EpisodeFile].manifest.episodeId == m.episodeId
    ensures r.Some? && r.value.ready ==> Approved(w.lib, w.files)
    ensures r.Some? && r.value.ready <==>
      valid && !Foreign(old(w.files), m) && Releases(w.lib, Begun(w.lib, old(w.files), m, out), out)
    ensures valid && EpisodeFile !in old(w.files) ==> SameEpisode(map[EpisodeFile := EpisodeDoc(m)], w.files)
  {
    hide Inv, Keeps, Settled, Report, Approved, Events, Resumed, Created, EndingOf, Releases, CallsOf;
    ghost var start := w.files;
    KeepsSelf(start);
    if !valid {
      return None;
    }
    if EpisodeFile in w.files {
      if !w.files[EpisodeFile].EpisodeDoc? || w.files[EpisodeFile].manifest.episodeId != m.episodeId {
        return None;
      }
    } else {
      Create(w, m.(status := Generated, updatedAt := out.now));
    }
    ghost var created := w.files;
    r := Resume(w, out);
    KeepsBoth(start, created, w.files);
    if r.Some? {
      SettledEpisode(w.lib, w.files);
    }
  }

  lemma SettledEpisode(lib: Library, files: Files)
    requires Settled(lib, files)
    ensures EpisodeFile in files && files[EpisodeFile].EpisodeDoc?
  {}

  method Create(w: Workspace, m: Manifest)
    requires Inv(w.files) && EpisodeFile !in w.files
    modifies w`files
    ensures Inv(w.files) && Keeps(old(w.files), w.files) && w.files == Created(w.lib, old(w.files), m)
    ensures EpisodeFile in w.files && w.files[EpisodeFile] == EpisodeDoc(m)
    ensures OnlyTouches(old(w.files), w.files, {EpisodeFile, TopicFile, ResearchFile, AuditFile}, {})
  {
    hide Inv, Events;
    CreateKeepsInv(w.files, m);
    w.Write(EpisodeFile, EpisodeDoc(m));
    var topic, research := Blob(w.lib.text(TopicFile, m, "")), Blob(w.lib.text(ResearchFile, m, ""));
    WriteKeepsInv(w.files, TopicFile, topic);
    w.Write(TopicFile, topic);
    WriteKeepsInv(w.files, ResearchFile, research);
    w.Complete(ResearchFile, research);
  }

  // ----- whole runs -----

  datatype Step =
    | Generate(manifest: Manifest, valid: bool, out: Outside)
    | Restart(out: Outside)
    | GiveReview(kind: ReviewKind, review: Option<Review>)
    | GiveShot(shotId: string, ext: string, content: Option<string>)
    | GiveVoice(ext: string, content: Option<string>)

  datatype Answer = Result(result: Option<RunResult>) | Imported(ok: bool)

  /** The files after a step, and its answer. */
  function StepOf(lib: Library, files: Files, step: Step): (Files, Answer) {
    match step
    case Generate(m, valid, out) => var (after, r) := Generation(lib, files, m, valid, out); (after, Result(r))
    case Restart(out) => var (after, r) := Resumed(lib, files, out); (after, Result(r))
    case GiveReview(kind, review) => var (after, ok) := Reviewed(lib, files, kind, review); (after, Imported(ok))
    case GiveShot(shotId, ext, content) =>
      var (after, ok) := WithShot(files, shotId, ext, content); (after, Imported(ok))
    case GiveVoice(ext, content) => var (after, ok) := WithVoice(lib, files, ext, content); (after, Imported(ok))
  }

  /** The files after a sequence of steps. */
  function Played(lib: Library, files: Files, steps: seq<Step>): Files {
    if steps == [] then files
    else StepOf(lib, Played(lib, files, steps[..|steps| - 1]), steps[|steps| - 1]).0
  }

  lemma PlayedNext(lib: Library, files: Files, steps: seq<Step>, i: nat)
    requires i < |steps|
    ensures Played(lib, files, steps[..i + 1]) == StepOf(lib, Played(lib, files, steps[..i]), steps[i]).0
  {
    hide StepOf;
    assert steps[..i + 1][..i] == steps[..i];
  }

  lemma PlayedNone(lib: Library, files: Files)
    ensures Played(lib, files, []) == files
  {}

  /** The answer says that a release candidate is ready. */
  predicate SaysReady(a: Answer) {
    a.Result? && a.result.Some? && a.result.value.ready
  }

  method Perform(w: Workspace, step: Step) returns (a: Answer)
    requires Inv(w.files)
    modifies w
    ensures Inv(w.files) && Keeps(old(w.files), w.files)
    ensures (w.files, a) == StepOf(w.lib, old(w.files), step)
    ensures SaysReady(a) ==> Approved(w.lib, w.files)
  {
    hide Inv, Keeps, Approved, Resumed, Generation, Reviewed, WithShot, WithVoice, SameEpisode, OnlyTouches, Settled;
    hide Storable, Report, EndingOf, Releases, IssueOf, ReviewPath, RequestIds, VoicePath, Foreign;
    match step {
      case Generate(m, valid, out) =>
        var r := GenerateReal(w, m, valid, out);
        a := Result(r);
      case Restart(out) =>
        var r := Resume(w, out);
        a := Result(r);
      case GiveReview(kind, review) =>
        var ok := ImportReview(w, kind, review);
        a := Imported(ok);
      case GiveShot(shotId, ext, content) =>
        var ok := ImportVisualShot(w, shotId, ext, content);
        a := Imported(ok);
      case GiveVoice(ext, content) =>
        var ok := ImportVoice(w, ext, content);
        a := Imported(ok);
    }
  }

  lemma EmptyInv()
    ensures Inv(map[])
  {}

  /** Any sequence of restarts and imports, from an empty workspace on, with commands that
      answer what they like: each step turns the files into the next and answers as StepOf
      says, the files written once never change, from each moment to every later one, and
      whenever a restart says ready the reviews approve the script that is there, production
      QA approved, and nothing is published. */
  method RunAll(lib: Library, steps: seq<Step>)
    returns (w: Workspace, answers: seq<Answer>, ghost history: seq<Files>)
    ensures fresh(w) && |answers| == |steps| && |history| == |steps| + 1
    ensures history[0] == map[] && history[|steps|] == w.files
    ensures forall i | 0 <= i < |steps| :: (history[i + 1], answers[i]) == StepOf(lib, history[i], steps[i])
    ensures forall i | 0 <= i <= |steps| :: history[i] == Played(lib, map[], steps[..i])
    ensures forall i | 0 <= i <= |steps| :: Inv(history[i])
    ensures forall i, j | 0 <= i <= j <= |steps| :: Keeps(history[i], history[j])
    ensures forall i | 0 <= i < |steps| && SaysReady(answers[i]) :: Approved(lib, history[i + 1])
  {
    hide *;
    w := new Workspace(lib);
    EmptyInv();
    KeepsSelf(w.files);
    answers, history := [], [w.files];
    PlayedNone(lib, map[]);
    assert steps[..0] == [];
    for i := 0 to |steps|
      invariant |history| == i + 1 && |answers| == i && history[0] == map[] && history[i] == w.files && w.lib == lib
      invariant forall j | 0 <= j < i :: (history[j + 1], answers[j]) == StepOf(lib, history[j], steps[j])
      invariant forall j | 0 <= j <= i :: history[j] == Played(lib, map[], steps[..j])
      invariant Inv(w.files) && forall j | 0 <= j <= i :: Inv(history[j])
      invariant forall j, k | 0 <= j <= k <= i :: Keeps(history[j], history[k])
      invariant forall j | 0 <= j < i && SaysReady(answers[j]) :: Approved(lib, history[j + 1])
      invariant fresh(w)
    {
      PlayedNext(lib, map[], steps, i);
      var a := Perform(w, steps[i]);
      KeepsSelf(w.files);
      forall j | 0 <= j <= i
        ensures Keeps(history[j], w.files)
      {
        KeepsBoth(history[j], history[i], w.files);
      }
      answers, history := answers + [a], history + [w.files];
    }
  }
}
