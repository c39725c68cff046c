# Animus News pipeline: verified model

A Dafny model of the editorial and production pipeline of Animus News, and proofs about it.
Every file is one component; `dafny verify dfyconfig.toml` checks them all.

* **Canonical JSON and content hashes** (`ContentHash`): the printer every pin, seal and
  tamper check rests on, a parser that undoes it, and stamping.
* **JSON Schema** (`Schema`, `Validate`): the compiler and the validator of the supported part
  of JSON Schema Draft 2020-12, against a declarative meaning of the documents.
* **Pilot** (`Pilot`, `PilotCourse`, `PilotStages`, `PilotRuns`, `PilotHealth`, `PilotFate`,
  `Shots`): the restartable stage machine over a workspace of files. The commands it runs
  answer what they like and do what they like in their own directories; `PilotCourse` gives
  the files, the result and the number of commands of every restart as functions of the files
  before it and of those answers, `PilotHealth` says from where working commands reach the
  release, and `PilotFate` what no later restart can undo.
* **Short-form workflow** (`ShortForm`, `Gates`, `Providers`, `Workflow`, `Runner`): artifacts,
  gates, mock providers with their injected defects, the workflow and the demo run.
* **Script to chapters** (`Markdown`, `Claims`, `Storyboard`, `Preview`, `Chapters`): sentence
  splitting, claims, scenes, the clocks one package prints and another reads, chapters.
* **Artifact store** (`Store`): an index per episode over a pool of objects, with crashes.
* **Episode lifecycle** (`Lifecycle`): histories with blocks and unblocks.
* **Decisions** (`Router`, `Council`, `Verification`, `QaPacket`, `ProductionQA`, `Release`,
  `Veto`, `StringList`): from model routing to the release pack.
* **Cost** (`Cost`): aggregation and budgets.

Objects whose methods update their fields are classes, loops are methods; each is proved equal
to a function of its inputs or of the old state, or against a property stated outright, and
lemmas then say what these functions promise. SHA-256, lower-casing, regular expressions,
number values, schema checks of manifests and generated texts are parameters, and a theorem
holds for all of them that its hypotheses admit. `PilotHealth` and `PilotFate` speak of working
commands: there the checks are those of the four media schemas on the modelled fields
(`PilotHealth.SchemaFine`), hashes have the pattern of these schemas and the timed transcript
is JSON. Collision freedom is assumed only where a lemma says so, and of stored bytes alone.

## What the proofs found

* A schema whose `type` is an empty list means that nothing is valid, and the validator takes
  it for no constraint (`Validate.EmptyTypeListIsIgnored`). Everywhere else the two agree.
* A script line of a dash, a vertical tab and a dash is narrated as a blank segment
  (`Preview.BlankSegment`): the storyboard of it is made and the preview refuses it
  (`Preview.BlankSegmentRefused`). A storyboard without a blank segment is never refused
  (`Preview.KeywordRenderable`).
* The QA packet looks up a claim's risk by its id. So a partially supported claim of high risk
  goes without a warning exactly when a claim with its id has no coverage and the last claim
  with its id is of lower risk (`QaPacket.HighRiskSeen`, `Veto.SharedIdHidesRisk`,
  `Veto.SharedIdExample`). An approving packet leaves no other claim of high risk unresolved
  (`Veto.ApprovalMeansResolved`).
* `round1` truncates towards zero, and rounds to the nearest tenth only from -0.05 up
  (`Shots.RoundsWhen`); the shots never need more.
* A state machine created in `blocked` has no recorded source and can never move
  (`Lifecycle.CreatedBlockedIsStuck`). Besides `archived` it is the only state a machine can be
  created in and never leave (`Lifecycle.CreatedMovesIff`).
* `Status` of the pilot reads the mark of the last `Resume` and not the reviews. After a release a
  rejecting final review can be imported: the import fails but stores it, and `Status` says ready
  until the next `Resume`, which blocks the release (`PilotFate.RejectAfterRelease`,
  `PilotFate.AfterRejection`). A ready `Status` is backed by the files exactly when both gates
  still pass (`PilotRuns.ReadyStatusIff`). What `Resume` itself returns always is.
* A render that writes its output and then fails, or whose output does not pass the probe or
  the schema, leaves a workspace that is lost: the next restart refuses to write over the
  output, and no sequence of restarts and imports ever releases it (`PilotFate.StrayIff`,
  `PilotFate.FailedRender`, `PilotFate.NeverReleased`, `PilotFate.LoseWorkspace`). Half of the
  script pair is as fatal. `PilotHealth.RecoversIff` says exactly which workspaces working
  commands can still release.
* The demo runner, unlike the workflow, reaches the storyboard image gate without the
  self-approval gate when the approval is withheld (`Runner.RunDemo`).

## Model

| member | source | states |
|---|---|---|
| ContentHash.PrintBack | internal/shortform/contenthash/contenthash.go:87-140 | the parser of canonical texts undoes the printer for every JSON value at every depth, whatever delimited text follows |
| ContentHash.EscapeBack | internal/shortform/contenthash/contenthash.go:87-140 | every character is read back from its escape (section 7 of RFC 8259) |
| ContentHash.UniquelyReadable | internal/shortform/contenthash/contenthash.go:87-140 | equal canonical texts, with whatever follows them, come from equal values and break off at the same place |
| ContentHash.PrintInjective | internal/shortform/contenthash/contenthash.go:87-140 | two values have one canonical text exactly when they are equal |
| ContentHash.CollectKeys | internal/shortform/contenthash/contenthash.go:114-120 | the keys come out sorted, however the map is enumerated |
| ContentHash.Canonical | internal/shortform/contenthash/contenthash.go:87-140 | the printer appends the canonical text of the value to the buffer, whatever order its maps are enumerated in |
| ContentHash.CanonicalArray | internal/shortform/contenthash/contenthash.go:103-113 | arrays are appended item by item |
| ContentHash.CanonicalObject | internal/shortform/contenthash/contenthash.go:114-135 | objects are appended member by member in the order of the keys |
| ContentHash.Canonicalize | internal/shortform/contenthash/contenthash.go:48-61 | the canonical text of a value without its top-level content_hash |
| ContentHash.Compute | internal/shortform/contenthash/contenthash.go:30-44 | the hash is a function of the value alone |
| ContentHash.Verify | internal/shortform/contenthash/contenthash.go:64-73 | verification succeeds exactly against the hash of the value |
| ContentHash.VerifiesIff | internal/shortform/contenthash/contenthash.go:30-73 | v verifies against the hash of w exactly when they agree on all but the top-level content_hash, or their texts collide under the hash function |
| ContentHash.Artifact.Stamp | internal/shortform/artifacts.go:70-77 | stamping writes the computed hash into the hash field and changes no other |
| ContentHash.StampStable | internal/shortform/artifacts.go:67-77 | a stamped artifact verifies, keeps its other fields, and is not changed by stamping it again |
| ContentHash.TamperingDetected | internal/shortform/contenthash/contenthash.go:63-73 | an artifact that carries the hash of a stamped one verifies exactly when it is that artifact, collisions apart |
| Schema.CompileNode | internal/shortform/schema/schema.go:59-119 | a document node compiles exactly when all its keywords are supported and well formed, to the same node for every enumeration order |
| Schema.CompileKeyword | internal/shortform/schema/schema.go:67-116 | one keyword fills its own field or refuses its value |
| Schema.CompileBound | internal/shortform/schema/schema.go:121-171 | counts are non-negative integers, bounds numbers, patterns compile |
| Schema.CompileProps | internal/shortform/schema/schema.go:140-154 | every property schema is compiled, in any order |
| Schema.CompiledStep | internal/shortform/schema/schema.go:59-119 | reading one more keyword changes its own field and no other |
| Schema.CompiledField | internal/shortform/schema/schema.go:59-119 | each field of a compiled node is what its keyword says, or the default |
| Schema.FailsClosed | internal/shortform/schema/schema.go:59-119 | a document compiles only if every schema node in it, at any depth, compiles and has supported keywords only |
| Validate.MeetsIff | internal/shortform/schema/schema.go:196-270 | for every document that compiles and every instance the instance satisfies every keyword exactly when the validator reports nothing and the walk meets no empty type list |
| Validate.ValidatesAsWritten | internal/shortform/schema/schema.go:176-270 | without an empty type list the validator agrees with the meaning of the document |
| Validate.EmptyTypeListIsIgnored | internal/shortform/schema/schema.go:121-138 | the document whose type list is empty compiles and refuses nothing, though no instance satisfies it |
| Validate.VisitedNode | internal/shortform/schema/schema.go:196-252 | an empty type list the walk meets is a schema node of the document |
| Validate.CleanIff | internal/shortform/schema/schema.go:196-270 | the validator is silent exactly when each constraint of the compiled node holds |
| Validate.ValidateNode | internal/shortform/schema/schema.go:196-218 | the validator appends the issues of the instance, and no others |
| Validate.ValidateObject | internal/shortform/schema/schema.go:220-238 | missing, extra and property issues of an object |
| Validate.ValidateProps | internal/shortform/schema/schema.go:232-237 | the issues of every property that is there, in any enumeration order |
| Validate.ValidateItems | internal/shortform/schema/schema.go:240-252 | the issues of every item |
| Validate.GatherStep | internal/shortform/schema/schema.go:220-238 | the sum of issues over a map does not depend on the entry taken first |
| Validate.ValidateBytes | internal/shortform/schema/schema.go:185-194 | the sorted report is a function of schema and instance, and empty exactly for a clean one |
| PilotRuns.Resume | internal/shortform/pilot/pipeline.go:129-198 | the files and the result are exactly those of the course of stages from the files before, and so is the number of commands it runs; it succeeds exactly when no stage is stuck, and is ready exactly when the course ends at the release; it then leaves settled files and reports them; on settled files it runs no command, changes the episode manifest alone and repeats the report; when it says ready the reviews, QA and publish manifest are as they must be; of the manifest only mark and time change |
| PilotCourse.ReachedIff | internal/shortform/pilot/pipeline.go:129-198 | a phase comes to its end exactly when every stage is ready with the files that the stages before it left |
| PilotCourse.StuckMeans | internal/shortform/pilot/pipeline.go:129-198 | otherwise it stops at a stage that is not ready with the files it began with, which are those the stages before it left, and leaves what the command of that stage left |
| PilotCourse.FailedMeans | internal/shortform/pilot/pipeline.go:129-198 | a restart with a manifest fails only at a stage of the first two phases that cannot succeed |
| PilotCourse.RunQuiet | internal/shortform/pilot/pipeline.go:129-198 | a phase whose files are all there changes nothing and runs nothing, whatever the commands would answer |
| PilotCourse.RunFrame | internal/shortform/pilot/pipeline.go:129-198 | the stages of a phase touch no other file outside the directories of their commands, and none but the render touches the output |
| PilotHealth.RecoversIff | internal/shortform/pilot/pipeline.go:129-198 | with working commands and the checks of the schemas a restart reaches the release exactly from the recoverable workspaces, however far they have come: no half of the script pair, no rejecting review, no foreign shot requests still to be filmed, no output in the way of a render, and nothing missing that a later stage reads |
| PilotHealth.VisualReadyIff | internal/shortform/pilot/pipeline.go:437-502 | a working visual command makes the manifest exactly when the requests on disk ask for the three shots, name their source by a hash and name different scenes |
| PilotFate.FreshRecovers | internal/shortform/pilot/pipeline.go:62-198 | a new workspace is recoverable, and released by working commands |
| PilotFate.HealthyExample | internal/shortform/pilot/pipeline.go:437-659 | there are working commands under schema checks that refuse an empty shot list |
| PilotHealth.HealthyCovers | internal/shortform/pilot/helpers.go:301-365 | three good shots are accepted exactly for requests with the three ids |
| PilotHealth.HealthyShots | internal/shortform/pilot/helpers.go:301-365 | they are recorded at paths that exist, and pass the checks exactly for requests that name a source and different scenes |
| PilotFate.StrayIff | internal/shortform/pilot/render.go:19-110 | a restart leaves an output without its manifest behind exactly when it fails at a render whose encoder wrote one |
| PilotFate.FailedRender | internal/shortform/pilot/render.go:69-110 | a recoverable workspace that a restart would have released is lost when its render alone writes an output that does not pass |
| PilotFate.StrayRun | internal/shortform/pilot/render.go:22-27 | no phase gets past the render where an output lies without its manifest, and the output stays |
| PilotFate.NeverReleased | internal/shortform/pilot/pipeline.go:62-198 | a workspace with such an output, or with half of the script pair, is never ready again, after any sequence of generations, restarts and imports with any commands |
| PilotFate.LoseWorkspace | internal/shortform/pilot/pipeline.go:62-198 | a run from an empty workspace that is lost in this way, and whose later restarts are not ready |
| PilotFate.AfterRejection | internal/shortform/pilot/helpers.go:838-853 | a rejecting final review after a release is refused and stored, Status goes on saying ready without the approval, and every restart then blocks the release without another change |
| PilotFate.RejectAfterRelease | internal/shortform/pilot/pipeline.go:62-233 | a run from an empty workspace that does so |
| PilotRuns.ResumeTwice | internal/shortform/pilot/pipeline.go:129-198 | each restart does what its course says and runs as many commands; after one without an error, which has left settled files with the write-once files kept and reported them, another returns the same result, runs none and changes only the episode manifest, whatever the commands would answer |
| PilotRuns.RunAll | internal/shortform/pilot/pipeline.go:62-278 | over any sequence of generations, restarts and imports from an empty workspace each step turns the files into the next and answers as specified for it, the files being those of the steps so far, the write-once files never change, and every ready result is approved |
| PilotRuns.GenerateReal | internal/shortform/pilot/pipeline.go:62-127 | refuses an invalid request and the workspace of another episode without a change; makes the manifest, topic and research files of a new one; and then ends as a restart from there does, ready exactly when that one is |
| PilotRuns.ScriptPhase | internal/shortform/pilot/pipeline.go:138-146 | script, request and API review leave exactly the files of their course, or fail where it is stuck; quiet when they are there, and nothing else changes |
| PilotRuns.ProducePhase | internal/shortform/pilot/pipeline.go:158-178 | the production with its final review by API leaves exactly the files of its course, or fails where it is stuck; quiet when all is there |
| PilotRuns.Produce | internal/shortform/pilot/pipeline.go:158-175 | the six stages between the reviews leave exactly the files of their course; quiet when all their files are there, and nothing else changes |
| PilotRuns.ReleasePhase | internal/shortform/pilot/pipeline.go:188-193 | QA report and publish manifest, the report approving, as their course says; it never fails |
| PilotRuns.ProgressStep | internal/shortform/pilot/pipeline.go:411-662 | one more stage keeps the write-once files and everything the phase does not name |
| PilotRuns.IssuesMean | internal/shortform/pilot/pipeline.go:380-409 | passing both gates means approving reviews bound to the hash of the script |
| PilotRuns.ReadyStatusIff | internal/shortform/pilot/pipeline.go:200-233 | a ready status is backed by approving reviews, QA and publish manifest exactly when both gates still pass |
| PilotRuns.ReportMarked | internal/shortform/pilot/pipeline.go:200-233 | marking the manifest again with the mark it has changes no report |
| PilotRuns.ShowStatus | internal/shortform/pilot/pipeline.go:200-233 | the stage, the gate, and the required files that are there and that are missing, in order |
| PilotRuns.ImportReview | internal/shortform/pilot/helpers.go:805-853 | a storable review is stored whatever its verdict, and accepted and logged exactly when its gate passes; any other changes nothing |
| PilotRuns.ImportVisualShot | internal/shortform/pilot/helpers.go:855-893 | succeeds exactly for a requested shot under a free name, overwrites nothing, and adds the shot and its log entry alone |
| PilotRuns.ImportVoice | internal/shortform/pilot/helpers.go:895-954 | succeeds exactly under a free name with a valid manifest, which names it by its hash; an invalid manifest leaves the copied file alone |
| Pilot.StatusReadyIff | internal/shortform/pilot/pipeline.go:200-233 | Status says ready exactly when the stage files are there and the manifest is marked |
| Pilot.NormalizeVisual | internal/shortform/pilot/helpers.go:301-365 | the answer is accepted exactly when it covers the requests with existing, matching, well-shaped files, and is recorded in the order of the requests |
| Pilot.IntoKeepsInv | internal/shortform/pilot/helpers.go:242-278 | what a command does inside its directory does not break the workspace |
| PilotStages.Workspace.EnsureScript | internal/shortform/pilot/pipeline.go:280-318 | the script and its manifest are written once, together, and a half of the pair is refused |
| PilotStages.Workspace.EnsureScriptRequest | internal/shortform/pilot/pipeline.go:320-366 | the request is written once |
| PilotStages.Workspace.EnsureApiScriptReview | internal/shortform/pilot/review.go:37-70 | the review by API is fetched once, stored exactly when its envelope is right, and bound to the hash of the script on disk |
| PilotStages.Workspace.EnsureVisualRequests | internal/shortform/pilot/pipeline.go:411-435 | the requests are written once, for the hash of the script |
| PilotStages.Workspace.EnsureVisuals | internal/shortform/pilot/pipeline.go:437-502 | the manifest is written once, exactly when the answer of a configured command covers the requests |
| PilotStages.Workspace.EnsureVoice | internal/shortform/pilot/pipeline.go:504-548 | the manifest is written once, exactly when the command names a file that is there with the right hash |
| PilotStages.Workspace.EnsureSubtitles | internal/shortform/pilot/pipeline.go:550-659 | the manifest is written once, exactly when the timed or transcribed files can be recorded, by their hashes |
| PilotStages.Workspace.RecordSubtitles | internal/shortform/pilot/helpers.go:425-472 | succeeds exactly when the three files are there and the transcript is JSON, and records their hashes |
| PilotStages.Workspace.TimeScript | internal/shortform/pilot/pipeline.go:609-647 | the three files timed from the script, and no other |
| PilotStages.Workspace.Transcribe | internal/shortform/pilot/pipeline.go:564-591 | succeeds exactly when the sidecar is configured, the voiceover is there and the answer is complete |
| PilotStages.Workspace.EnsureRender | internal/shortform/pilot/render.go:19-140 | a finished render is left alone, an output without manifest is never overwritten, and otherwise it succeeds exactly with its inputs, its tools and an upright output with sound |
| PilotStages.Workspace.CheckRenderInputs | internal/shortform/pilot/render.go:36-65 | exactly when the three manifests and the files they name are there |
| PilotStages.Workspace.RenderTo | internal/shortform/pilot/render.go:66-139 | the manifest records the output by its hash, with sound and captions |
| PilotStages.Workspace.EnsureFinalRequest | internal/shortform/pilot/pipeline.go:661-692 | the request is written once |
| PilotStages.Workspace.EnsureApiFinalReview | internal/shortform/pilot/review.go:74-102 | the final review is fetched once, and stored exactly when its envelope is right |
| PilotStages.Workspace.EnsureProductionQA | internal/shortform/pilot/pipeline.go:751-796 | in a workspace of the pilot the report approves |
| PilotStages.Workspace.EnsurePublishManifest | internal/shortform/pilot/pipeline.go:798-825 | the manifest is written once, with live publishing off |
| PilotStages.Workspace.UpdateStatus | internal/shortform/pilot/pipeline.go:827-839 | the mark and the time of the manifest change, and nothing else |
| PilotStages.MakesKeeps | internal/shortform/pilot/pipeline.go:280-318 | a stage that makes its file once keeps the write-once files |
| Shots.ShotsAddUp | internal/shortform/pilot/helpers.go:155-205 | for every requested duration the three shots are non-negative tenths that add up to the rounded total, within 0.05 of it |
| Shots.RoundsWhen | internal/shortform/pilot/helpers.go:203-205 | round1 is within 0.05 exactly where it does not truncate a negative fraction |
| Workflow.ShortFormRun.Execute | internal/workflows/shortform.go:65-264 | a run ends published exactly when the stated condition on input, signals and defects holds, and otherwise in the state and after the gates of the first stage that stops it; its gates are a prefix of the fixed sequence with only the last possibly blocked; a completed run pins what it reports |
| Workflow.NoEndIff | internal/workflows/shortform.go:65-264 | no stage stops a run exactly when the condition holds that can be evaluated beforehand |
| Workflow.ShortFormRun.Gate | internal/workflows/shortform.go:97-106 | one more gate result, which stops the run when it blocks |
| Workflow.ShortFormRun.Importing | internal/workflows/shortform.go:111-128 | provenance, scenes and provider decide the import, in this order |
| Workflow.ShortFormRun.Storyboarding | internal/workflows/shortform.go:111-148 | import, decision, approver and operator decide the storyboard stage, in this order |
| Workflow.ShortFormRun.ApproveStoryboard | internal/workflows/shortform.go:136-148 | the approved images are stamped, and gated on the approver and then on the operator |
| Workflow.ShortFormRun.Shooting | internal/workflows/shortform.go:150-162 | the shot stage passes exactly when the provider answers and every duration is at most 60 |
| Workflow.ShortFormRun.Voicing | internal/workflows/shortform.go:164-173 | the approved voiceover of the script, which needs a reference |
| Workflow.ShortFormRun.Subtitling | internal/workflows/shortform.go:175-187 | the approved subtitles, unless the provider fails or is out of sync |
| Workflow.ShortFormRun.Rendering | internal/workflows/shortform.go:189-205 | the approved render, unless the provider fails or leaves out the sound; QA approves it |
| Workflow.ShortFormRun.Bundling | internal/workflows/shortform.go:207-220 | the five final artifacts are pinned in a locked candidate |
| Workflow.ShortFormRun.Producing | internal/workflows/shortform.go:164-220 | voiceover, subtitles, render and bundle, with the first failure deciding |
| Workflow.ShortFormRun.Releasing | internal/workflows/shortform.go:222-264 | decision, human approver, provider and the publish condition decide the release, in this order |
| Workflow.PinsRecomputed | internal/shortform/approve.go:99-130 | each pin holds the id, the kind and the recomputed hash of its artifact |
| Workflow.StoryboardGateOnFinal | internal/shortform/gates/content_gates.go:13-39 | on approved mock images the storyboard gate depends on the operator alone |
| Workflow.ShotGateOnFinal | internal/shortform/gates/content_gates.go:51-76 | on approved mock shots the shot gate depends on the durations alone |
| Workflow.RenderOnFinal | internal/shortform/gates/content_gates.go:107-126 | on mock renders QA and gate depend on the sound alone |
| Workflow.PublishGateOnDraft | internal/shortform/gates/content_gates.go:137-162 | on mock publish manifests the release gate is the stated condition |
| Workflow.VerifiersOnFinal | internal/shortform/gates/invariant_gates.go:84-98 | a human approver and production QA are two verifiers |
| Runner.RunDemo | internal/shortform/runner/runner.go:82-281 | the demo completes exactly in the stated configurations; with the approval withheld it stops at the storyboard image gate after two gates |
| Runner.Drive | internal/shortform/runner/runner.go:135-281 | the demo ends as the workflow does on its fixed inputs |
| Gates.Evaluator.Require | internal/shortform/gates/gates.go:51-55 | a requirement that fails is noted |
| Gates.ProvenanceGate | internal/shortform/gates/invariant_gates.go:115-124 | the reasons in order |
| Gates.ProvenancePasses | internal/shortform/gates/invariant_gates.go:115-124 | passes exactly with a research pack for an approved script and a source for every claim |
| Gates.SelfApprovalGate | internal/shortform/gates/invariant_gates.go:15-28 | the reasons in order |
| Gates.SelfApprovalPasses | internal/shortform/gates/invariant_gates.go:15-35 | what a machine made is approved exactly by a human |
| Gates.StoryboardImageGate | internal/shortform/gates/content_gates.go:13-39 | the reasons in order, of images of one scene the last counting |
| Gates.StoryboardPasses | internal/shortform/gates/content_gates.go:13-39 | with images in order, passes exactly with an operator and an image for every scene |
| Gates.VisualShotGate | internal/shortform/gates/content_gates.go:51-76 | the reasons in order |
| Gates.VisualPasses | internal/shortform/gates/content_gates.go:51-76 | passes exactly when the provider is named and every shot is in order |
| Gates.SubtitleGate | internal/shortform/gates/content_gates.go:84-98 | the reasons in order |
| Gates.SubtitlePasses | internal/shortform/gates/content_gates.go:84-98 | passes exactly with a hashed transcript, captions, the three checks and the approval of the captions |
| Gates.RenderGate | internal/shortform/gates/content_gates.go:107-126 | the reasons in order |
| Gates.RenderPasses | internal/shortform/gates/content_gates.go:107-126 | passes exactly when QA approved, there are outputs and every one is on target |
| Gates.MultiVerifierGate | internal/shortform/gates/invariant_gates.go:84-98 | counts the distinct present verifiers |
| Gates.TwoVerifiers | internal/shortform/gates/invariant_gates.go:84-98 | two present verifiers that differ are enough |
| Gates.ReleaseGate | internal/shortform/gates/content_gates.go:137-162 | the reasons in order, with those of the disclosure gate |
| Gates.ReleasePasses | internal/shortform/gates/content_gates.go:137-162 | passes exactly under its seven conditions |
| ShortForm.StampVerifies | internal/shortform/artifacts.go:67-77 | a stamped artifact verifies, and stamping is idempotent |
| ShortForm.ApproveStoryboardImages | internal/shortform/approve.go:22-35 | every image is approved and the manifest stamped last |
| ShortForm.ApproveVisualShots | internal/shortform/approve.go:38-47 | every shot is approved and the manifest stamped last |
| ShortForm.ApproveRenderOutputs | internal/shortform/approve.go:70-79 | every output is approved and the manifest stamped last |
| ShortForm.AssembleProductionCandidate | internal/shortform/approve.go:99-130 | succeeds exactly on stamped and approved components, and pins each in order |
| ShortForm.BuildReleaseApproval | internal/shortform/approve.go:148-186 | succeeds exactly for a named human |
| Providers.ImportStoryboardImages | internal/shortform/providers/mocks.go:49-76 | one draft image per scene, in order |
| Providers.GenerateShots | internal/shortform/providers/mocks.go:84-124 | one draft shot per image, in order |
| Providers.SynthesizeVoiceover | internal/shortform/providers/mocks.go:131-156 | needs a script reference |
| Providers.GenerateSubtitles | internal/shortform/providers/mocks.go:165-194 | fails only by an injected error |
| Providers.RenderShort | internal/shortform/providers/mocks.go:202-239 | one draft output per platform, or one master |
| Providers.UploadPostDryRun | internal/shortform/providers/mocks.go:248-275 | a dry-run manifest of the release |
| Providers.RunProductionQA | internal/shortform/activities/activities.go:248-268 | approves exactly when there are outputs and every one meets the target |
| Providers.ShotOfOk | internal/shortform/providers/mocks.go:84-124 | a mock shot of an approved image passes exactly when its duration is at most 60 |
| Providers.SubtitlesOk | internal/shortform/providers/mocks.go:165-194 | mock subtitles pass exactly when they are in sync |
| Claims.Extract | internal/claims/extractor.go:75-127 | succeeds exactly on complete input with some factual sentence, and returns the claims in order |
| Claims.ClaimsFromSentences | internal/claims/extractor.go:92-121 | every claim is made from a sentence of the script, keeps its text, is numbered in order, and is neither supported nor given evidence |
| Claims.KeywordsNeedText | internal/claims/extractor.go:207-362 | the keyword heuristics take no empty text for a claim |
| Markdown.SplitScript | internal/claims/extractor.go:129-153 | the splitter both packages carry |
| Markdown.SplitSentenceLine | internal/claims/extractor.go:161-182 | the sentences of a line |
| Markdown.SentencesJoin | internal/claims/extractor.go:161-182 | the sentences of a line, put together, are the line |
| Markdown.DedupeItems | internal/claims/extractor.go:193-205 | the first of every group equal in lower case is kept, in order |
| Markdown.SameParts | internal/storyboard/generator.go:129-153 | splitters that normalize alike agree on every script |
| Storyboard.SegmentsAreSentences | internal/storyboard/generator.go:129-188 | storyboarding and claim extraction split every script into the same sentences |
| Storyboard.Generate | internal/storyboard/generator.go:65-111 | succeeds exactly on storyboardable input, and makes one scene per segment |
| Storyboard.GenerateScenes | internal/storyboard/generator.go:88-105 | scene i has its number, its interval, its narration and its references |
| Storyboard.ReferencesFor | internal/storyboard/generator.go:227-244 | the references of a segment, sorted and compacted |
| Storyboard.ReferencesMean | internal/storyboard/generator.go:227-250 | a scene lists an id exactly when it is the trimmed id of a claim that occurs in its narration |
| Storyboard.CompactInPlace | internal/storyboard/generator.go:312-327 | compaction over the front of the slice it reads |
| Storyboard.CompactMembers | internal/storyboard/generator.go:312-327 | it keeps every non-blank value, trimmed, and no other |
| Storyboard.CompactSorted | internal/storyboard/generator.go:312-327 | sorted trimmed values come out strictly sorted |
| Storyboard.TechnicalClaimsMissing | internal/storyboard/generator.go:289-310 | exactly the technical claims that no scene represents, sorted |
| Storyboard.ClaimHasScene | internal/storyboard/generator.go:227-250 | an extracted claim is listed by the scene that speaks its sentence |
| Storyboard.ExtractedClaimsAreStoryboarded | internal/storyboard/generator.go:65-111 | whenever extraction succeeds, storyboarding the script with the extracted claims and an approving decision succeeds, and every claim is in some scene |
| Storyboard.KeywordClaimsAreStoryboarded | internal/storyboard/generator.go:65-120 | the same with the keyword heuristics, exactly for the approving decisions |
| Preview.ClockBack | internal/render/preview.go:271-282 | the clock reader undoes the clock printer |
| Preview.IntervalBack | internal/render/preview.go:258-269 | the renderer recovers the length of every printed interval |
| Preview.DurationSeconds | internal/render/preview.go:247-256 | the sum of the scene durations, or eight seconds a scene when it is zero |
| Preview.ScenesTile | internal/storyboard/generator.go:89-105 | generated scenes tile the episode from 0 in intervals of 6 to 18 seconds, and the total the renderer computes is where the last one ends |
| Preview.ValidateStoryboard | internal/render/preview.go:138-165 | accepts exactly the storyboards with scenes that are complete and distinctly named |
| Preview.RenderableIff | internal/render/preview.go:138-165 | a generated storyboard is rendered exactly when no segment is blank and every visual is named and filled |
| Preview.KeywordRenderable | internal/render/preview.go:138-165 | with the keyword directions: exactly when no segment is blank |
| Preview.BlankSegment | internal/storyboard/generator.go:129-188 | a script with a blank segment |
| Preview.BlankSegmentRefused | internal/render/preview.go:138-165 | the approved storyboard of that script is made, and the preview refuses it |
| Chapters.ChaptersFromStoryboard | internal/publishing/pack.go:154-168 | the titled chapters of the scenes, in order |
| Chapters.ChaptersTile | internal/publishing/pack.go:154-168 | one chapter per generated scene, whose timestamps read back as the starts of the scenes: zero first and strictly increasing |
| Chapters.KeywordChaptersTile | internal/publishing/pack.go:154-168 | the same for the keyword directions and every storyboardable input, one chapter for each segment of the script |
| Store.LocalStore.PutArtifact | internal/storage/store.go:103-158 | a put, with a crash before either write |
| Store.LocalStore.GetArtifact | internal/storage/store.go:162-193 | a get by name and hash |
| Store.LocalStore.ListArtifacts | internal/storage/store.go:196-218 | the refs of an episode, each once, in the order of the names |
| Store.LocalStore.DoSaveEpisode | internal/storage/store.go:221-248 | saves exactly the records with a safe id and a state, under the trimmed id, at the time given or else now, and otherwise as they are; every other record, index and object stays, and a refusal changes nothing |
| Store.LocalStore.DoAddArtifactRef | internal/storage/store.go:274-293 | a link that is added once |
| Store.LocalStore.DoWriteObject | internal/storage/store.go:346-357 | an object is written only when absent |
| Store.PutIffFreeOrSame | internal/storage/store.go:103-158 | a put succeeds exactly when the slot is free or holds the same bytes; then the slot holds them and no other slot changes |
| Store.PutNeverOverwrites | internal/storage/store.go:103-158 | a filled slot keeps its bytes and its ref through every put |
| Store.CrashedPutCanBeRepeated | internal/storage/store.go:103-158 | a put that dies leaves every slot as it was, and the same put then succeeds with the same effect |
| Store.GetReturnsContent | internal/storage/store.go:162-193 | a get returns the bytes of the slot for its own hash or none, and nothing for another |
| Store.RunValid | internal/storage/store.go:103-357 | in every run each indexed artifact has its object, and each object lies under its hash |
| Store.SlotsAreImmutable | internal/storage/store.go:103-193 | over every run a filled slot keeps its bytes |
| Store.PutThenGet | internal/storage/store.go:103-193 | the bytes of a put come back from every later get |
| Store.LinkTwice | internal/storage/store.go:274-293 | linking an artifact twice is linking it once |
| Lifecycle.EpisodeStateMachine.DoTransition | internal/workflows/state_machine.go:167-191 | does what the step says and reports why it is refused |
| Lifecycle.EpisodeStateMachine.DoBlock | internal/workflows/state_machine.go:194-208 | does what the block says and reports why it is refused |
| Lifecycle.EpisodeStateMachine.DoUnblock | internal/workflows/state_machine.go:211-229 | does what the unblock says and reports why it is refused |
| Lifecycle.EpisodeStateMachine.AppendTransition | internal/workflows/state_machine.go:273-285 | the history grows by one entry, which ends at the new state |
| Lifecycle.NewMachine | internal/workflows/state_machine.go:143-148 | succeeds exactly for the known states |
| Lifecycle.RuleClimbs | internal/workflows/state_machine.go:93-140 | every allowed step climbs, and exactly three target states need a human |
| Lifecycle.RunInvariant | internal/workflows/state_machine.go:167-229 | in every reachable machine the history is a linked chain ending at the current state, blocked exactly when a source is recorded, and climbing without its blocks |
| Lifecycle.AtMostFifteenSteps | internal/workflows/state_machine.go:93-140 | at most 15 forward steps, however often it is blocked |
| Lifecycle.PublishedNeedsHumans | internal/workflows/state_machine.go:93-191 | every entry into published has human entries into the three gated states before it, in order |
| Lifecycle.BlockUnblock | internal/workflows/state_machine.go:194-229 | a block is undone by a human or the system and no one else, and leads back |
| Lifecycle.CreatedBlockedIsStuck | internal/workflows/state_machine.go:143-229 | a machine created blocked never moves |
| Lifecycle.CreatedMovesIff | internal/workflows/state_machine.go:143-229 | of the machines that can be created exactly those neither blocked nor archived accept some call, and are changed by some history of calls |
| Router.Route | internal/models/router/router.go:36-108 | the selection is the first of the candidates in descending quality, as many as the risk asks for |
| Router.RouteAll | internal/models/router/router.go:45-83 | candidates, rejections and fallback reasons, in the order of the registry |
| Router.RouteOne | internal/models/router/router.go:46-83 | the reason to reject one record, if any |
| Router.Partition | internal/models/router/router.go:45-83 | every record is a candidate or rejected and never both, in order |
| Router.SortIsStable | internal/models/router/router.go:89-91 | a permutation in descending quality that leaves equals in order |
| Router.StableUnique | internal/models/router/router.go:89-91 | there is only one such order |
| Router.SelectionIsBest | internal/models/router/router.go:85-108 | the selection has the length the risk asks for, capped, and no candidate left out is strictly better |
| Router.RestrictedStaysInside | internal/models/router/router.go:137-148 | restricted work goes to restricted and local models only |
| Council.Aggregate | internal/council/council.go:43-84 | fails exactly on no review or an unknown verdict; the most severe verdict decides; dissent and objections are kept in order |
| Verification.VerifyClaims | internal/verification/verification.go:27-62 | one result per claim, and an issue for every high-risk claim that is not covered |
| Verification.ApprovedIff | internal/verification/verification.go:27-84 | approves exactly when every high or critical claim is verified and the council does not stand against it |
| QaPacket.Generate | internal/qa/packet.go:95-132 | the packet of complete input |
| QaPacket.CollectUnresolved | internal/qa/packet.go:205-243 | the unresolved results and claims, sorted by id |
| QaPacket.HighRiskSeen | internal/qa/packet.go:205-243 | an unresolved claim of high risk has an issue of high risk under its id exactly when no result under its id is unresolved or the last claim with its id is of high risk |
| QaPacket.HighRiskIff | internal/qa/packet.go:205-243 | the packet has an issue of high risk exactly for an unresolved result whose id stands for such a claim, or an unresolved claim of high risk without such a result |
| QaPacket.VerificationIssueBlocks | internal/qa/packet.go:284-296 | a readable verification issue becomes a blocking issue |
| ProductionQA.Run | internal/productionqa/checks.go:48-83 | the blockers, tidied, and the decision on them |
| ProductionQA.HumanVeto | internal/productionqa/checks.go:236-277 | without an approving human decision production QA blocks |
| ProductionQA.PublicVeto | internal/productionqa/checks.go:184-194 | with a public target production QA blocks |
| ProductionQA.ApprovedIff | internal/productionqa/checks.go:48-83 | it approves exactly with a flawless render, an approving human, no public target, a declared disclosure where required, verification not against it, and no open high-risk result |
| StringList.SortUnique | internal/productionqa/checks.go:279-301 | trimming, sorting and compacting in place |
| StringList.TidyMeans | internal/productionqa/checks.go:279-301 | the list is strictly sorted and holds every non-blank value, trimmed, once |
| Release.GenerateReleasePack | internal/publishing/pack.go:96-207 | a pack is made exactly from approved, sourced, disclosed and safely aimed input |
| Veto.BlockPropagates | internal/council/council.go:43-84 | one blocking review: verification does not approve, the packet recommends to block, no storyboard, production QA blocks, no release pack |
| Veto.HighRiskNeedsEvidence | internal/verification/verification.go:64-84 | one high or critical claim without evidence: no approving recommendation, and every later stage refuses |
| Veto.ApprovalMeansResolved | internal/qa/packet.go:336-374 | under an approving packet every claim of high risk is verified, and fully supported unless the packet does not show its risk |
| Veto.SharedIdHidesRisk | internal/qa/packet.go:205-243 | an unresolved claim of high risk has no issue of high risk exactly when a claim with its id has no coverage and the last claim with its id is of lower risk |
| Veto.SharedIdExample | internal/qa/packet.go:205-243 | two claims that show it |
| Cost.Aggregate | internal/cost/cost.go:80-120 | sums the events, or refuses mixed or invalid ones |
| Cost.AddEvent | internal/cost/cost.go:95-117 | one event goes into the total and its groups |
| Cost.CostIsConserved | internal/cost/cost.go:80-120 | the stages add up to the total; each other group adds up to the total less the events without its key |
| Cost.OrderDoesNotMatter | internal/cost/cost.go:80-120 | every order of the events gives the same summary |
| Cost.BudgetIsMonotone | internal/cost/cost.go:135-152 | spending more never turns a refusal into a permission |
| Text.TrimIdempotent | internal/storyboard/generator.go:246-250 | trimming twice changes nothing more |
| Text.ValueOfPadded | internal/storyboard/generator.go:223-225 | a padded numeral reads back as its number |

## Left out

- Temporal itself: workers, retries, replay and data conversion; activities are calls and signals are inputs. The workflow's notes, its block reasons as text and the state query are not modelled.
- HTTP and process execution: a command is an answer with the files it wrote and deleted in its directory; timeouts, stderr and secret redaction are not modelled.
- Files: permissions, symbolic links, path syntax, and writes that fail or stop halfway. In the pilot a process does not die between the writes of one stage; the store does model its crash.
- Number formatting and IEEE-754: a number is its token, with a value in the reals; durations and costs are reals. Clocks and counters do not overflow 64 bits.
- Unicode case mapping is a map on characters; invalid UTF-8 and its replacement are not modelled.
- Claims.Extract: the warnings, the unlinked claim ids and the list of rejected candidates are not modelled; the inference of source ids is a parameter.
- Markdown.SplitScript: the two packages carry the same loop twice; it is modelled once, with their two normalizations as the parameter.
- QaPacket.Generate: the risk summary, the list of model approvals, the unresolved risks, the operator notes and the sorting of the dissent are not modelled; none of them enters the recommendation.
- Council.Aggregate: the summary text for the operator, fixed by the consensus, is not modelled; it enters no decision.
- Verification.VerifyClaims: the summary text, fixed by the decision, is not modelled; it enters no decision.
- ProductionQA.Run: what checkRenderManifest, checkRenderOutputs and checkAssetManifest find comes in as an arbitrary list of blockers; the map of named checks is not modelled.
- Release.GenerateReleasePack: the description, the comment and the post are not modelled, nor the paths in the manifest.
- Store.LocalStore.PutArtifact: metadata maps, and the reading of a damaged index or record, are not modelled; the clock is one parameter.
- Router.Route: the registry file and its validation are not modelled; ranking of sources is left out because ties depend on map order.
- Schema.CompileBound: a count beyond the range of the machine integer, for which the conversion from a float is not defined by the language, is taken at its value.
- Schema.CompileNode: error texts carry the path and not every detail of the Go message.
- PilotRuns.Resume: the next-action texts and the absolute paths of the result are not modelled, nor Validate, which only reads.
- Pilot.Records: prompts, camera and style of the shots, and in all manifests the provider, the language, the ids and the times, are not carried, so the schema checks are modelled on the other fields; where `PilotHealth` takes these checks as exact, the fields left out are taken to be fine, as the pilot fills them.
- PilotHealth.RecoversIff: working commands review by API and delete nothing; reviews given by hand are covered by the course of stages only.
- PilotRuns.ImportVoice: the voiceover manifest can be replaced by an import under another file extension, so it is not among the write-once files.
- ShortForm.ApproveVoiceover: camera, style, codec and provider version fields that no gate reads are not modelled; manifests are values that each activity returns, as they are across an activity boundary.
- Runner.RunDemo: the files it writes, the audit log and the schema warnings are not modelled.
- Preview.ValidateStoryboard: the HTML page, the asset manifest and the hash of the preview are not modelled.
- The flat field validators, configuration, capability registry, publishing adapters, analytics and the command line: they would only add one-branch facts.
