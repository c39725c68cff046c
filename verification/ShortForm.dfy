/** internal/shortform: the artifacts of the short-form pipeline, their stamping, approval
    and bundling. */
module ShortForm {
  import opened Text
  import opened Json
  import ContentHash

  // ----- artifacts -----

  datatype Status = Draft | InReview | Approved | Rejected | Superseded | Locked | OtherStatus(name: string)

  datatype Kind =
    | StoryboardKind | ShotKind | VoiceoverKind | SubtitleKind | RenderKind | CandidateKind | ReleaseKind | PublishKind

  datatype Envelope = Envelope(
    episodeId: string, artifactId: string, createdAt: int, createdBy: string, sources: seq<string>,
    contentHash: string, status: Status)

  datatype Image = Image(
    sceneId: string, path: string, hash: string, status: Status, start: real, end: real,
    reviewPassed: bool, approvedBy: string, approvedAt: Option<int>)

  datatype Shot = Shot(
    sceneId: string, prompt: string, negativePrompt: string, referenceHash: string,
    outputPath: string, outputHash: string, duration: real, operatorApproval: bool)

  datatype Media = Media(path: string, hash: string, duration: real)

  datatype Checks = Checks(wordTimestamps: bool, safeZone: bool, sync: bool)

  datatype Output = Output(
    platform: string, path: string, hash: string, resolution: string, aspect: string, fps: int,
    audioTrack: bool, subtitlesBurned: bool, duration: real, status: Status)

  datatype Component = Component(artifactId: string, kind: Kind, contentHash: string, status: Status)

  datatype Pin = Pin(artifactId: string, kind: Kind, contentHash: string)

  datatype Body =
    | StoryboardImages(source: string, operator: string, images: seq<Image>)
    | VisualShots(provider: string, shots: seq<Shot>)
    | Voiceover(scriptRef: string, language: string, media: Media, voiceApproved: bool)
    | Subtitles(
        captionLanguage: string, transcriptPath: string, transcriptHash: string, srtPath: string, assPath: string,
        checks: Checks, captionsApproved: bool)
    | ShortRender(outputs: seq<Output>)
    | ProductionCandidate(candidateId: string, immutable: bool, components: seq<Pin>)
    | ReleaseApproval(
        candidateId: string, platforms: seq<string>, visibility: string, scheduledAt: string,
        disclosureRequired: bool, disclosure: string, humanRelease: bool, approvedBy: string, qaRef: string)
    | PublishManifest(
        mode: string, dryRun: bool, platforms: seq<string>, visibility: string, scheduledAt: string,
        disclosureRequired: bool, disclosure: string, humanRelease: bool, qaRef: string, releaseRef: string)

  datatype Artifact = Artifact(env: Envelope, body: Body) {
    function Kind(): Kind {
      match body
      case StoryboardImages(_, _, _) => StoryboardKind
      case VisualShots(_, _) => ShotKind
      case Voiceover(_, _, _, _) => VoiceoverKind
      case Subtitles(_, _, _, _, _, _, _) => SubtitleKind
      case ShortRender(_) => RenderKind
      case ProductionCandidate(_, _, _) => CandidateKind
      case ReleaseApproval(_, _, _, _, _, _, _, _, _) => ReleaseKind
      case PublishManifest(_, _, _, _, _, _, _, _, _, _) => PublishKind
    }

    function WithHash(hash: string): Artifact {
      this.(env := env.(contentHash := hash))
    }

    function As(status: Status, newBody: Body): Artifact {
      this.(env := env.(status := status), body := newBody)
    }
  }

  function KindName(kind: Kind): string {
    match kind
    case StoryboardKind => "storyboard_image_manifest"
    case ShotKind => "visual_shot_manifest"
    case VoiceoverKind => "voiceover_manifest"
    case SubtitleKind => "subtitle_manifest"
    case RenderKind => "short_render_manifest"
    case CandidateKind => "production_candidate"
    case ReleaseKind => "release_approval"
    case PublishKind => "uploadpost_publish_manifest"
  }

  function ArtifactId(kind: Kind, episodeId: string): string {
    KindName(kind) + "-" + episodeId + "-v1"
  }

  const TARGET_RESOLUTION := "1080x1920"
  const TARGET_ASPECT := "9:16"
  const TARGET_FPS := 30

  // ----- stamping -----

  /** SHA-256 in hex, and the JSON members an artifact is marshaled to. */
  datatype Library = Library(sha: string -> string, fields: Artifact -> map<string, Json>)

  /** A digest has 64 digits, and the content hash of an envelope is marshaled to its own
      member and to no other. */
  ghost predicate Marshals(lib: Library) {
    && (forall x :: |lib.sha(x)| == 64)
    && forall a: Artifact, h ::
      lib.fields(a.WithHash(h)) - {ContentHash.HASH_FIELD} == lib.fields(a) - {ContentHash.HASH_FIELD}
  }

  ghost function Hash(lib: Library, a: Artifact): string {
    ContentHash.HashOf(lib.sha, Obj(lib.fields(a)))
  }

  ghost function Stamped(lib: Library, a: Artifact): Artifact {
    a.WithHash(Hash(lib, a))
  }

  method Stamp(lib: Library, a: Artifact) returns (r: Artifact)
    ensures r == Stamped(lib, a)
  {
    var hash := ContentHash.Compute(lib.sha, Obj(lib.fields(a)));
    r := a.WithHash(hash);
  }

  /** An artifact that verifies: it carries its own content hash. */
  ghost predicate Verifies(lib: Library, a: Artifact) {
    a.env.contentHash == Hash(lib, a)
  }

  lemma StampVerifies(lib: Library, a: Artifact)
    requires Marshals(lib)
    ensures Verifies(lib, Stamped(lib, a)) && |Stamped(lib, a).env.contentHash| == 71
    ensures Stamped(lib, Stamped(lib, a)) == Stamped(lib, a)
  {
    hide ContentHash.Print;
    var hash := Hash(lib, a);
    assert ContentHash.WithoutHash(Obj(lib.fields(a.WithHash(hash)))) == ContentHash.WithoutHash(Obj(lib.fields(a)));
    assert a.WithHash(hash).WithHash(hash) == a.WithHash(hash);
  }

  // ----- approval -----

  function ApprovedImage(image: Image, approver: string, now: int): Image {
    image.(status := Approved, reviewPassed := true, approvedBy := approver, approvedAt := Some(now))
  }

  function ApprovedImages(images: seq<Image>, approver: string, now: int): (r: seq<Image>)
    ensures |r| == |images|
  {
    seq(|images|, i requires 0 <= i < |images| => ApprovedImage(images[i], approver, now))
  }

  method ApproveStoryboardImages(lib: Library, m: Artifact, approver: string, now: int) returns (r: Artifact)
    requires m.body.StoryboardImages?
    ensures r == Stamped(lib, m.As(Approved, m.body.(images := ApprovedImages(m.body.images, approver, now))))
  {
    var images := m.body.images;
    for i := 0 to |m.body.images|
      invariant |images| == |m.body.images|
      invariant forall j | 0 <= j < i :: images[j] == ApprovedImage(m.body.images[j], approver, now)
      invariant forall j | i <= j < |images| :: images[j] == m.body.images[j]
    {
      images := images[i := ApprovedImage(images[i], approver, now)];
    }
    assert images == ApprovedImages(m.body.images, approver, now);
    r := Stamp(lib, m.As(Approved, m.body.(images := images)));
  }

  function ApprovedShots(shots: seq<Shot>): (r: seq<Shot>)
    ensures |r| == |shots|
  {
    seq(|shots|, i requires 0 <= i < |shots| => shots[i].(operatorApproval := true))
  }

  method ApproveVisualShots(lib: Library, m: Artifact) returns (r: Artifact)
    requires m.body.VisualShots?
    ensures r == Stamped(lib, m.As(Approved, m.body.(shots := ApprovedShots(m.body.shots))))
  {
    var shots := m.body.shots;
    for i := 0 to |m.body.shots|
      invariant |shots| == |m.body.shots|
      invariant forall j | 0 <= j < i :: shots[j] == m.body.shots[j].(operatorApproval := true)
      invariant forall j | i <= j < |shots| :: shots[j] == m.body.shots[j]
    {
      shots := shots[i := shots[i].(operatorApproval := true)];
    }
    assert shots == ApprovedShots(m.body.shots);
    r := Stamp(lib, m.As(Approved, m.body.(shots := shots)));
  }

  method ApproveVoiceover(lib: Library, m: Artifact) returns (r: Artifact)
    requires m.body.Voiceover?
    ensures r == Stamped(lib, m.As(Approved, m.body.(voiceApproved := true)))
  {
    r := Stamp(lib, m.As(Approved, m.body.(voiceApproved := true)));
  }

  method ApproveSubtitles(lib: Library, m: Artifact) returns (r: Artifact)
    requires m.body.Subtitles?
    ensures r == Stamped(lib, m.As(Approved, m.body.(captionsApproved := true)))
  {
    r := Stamp(lib, m.As(Approved, m.body.(captionsApproved := true)));
  }

  function ApprovedOutputs(outputs: seq<Output>): (r: seq<Output>)
    ensures |r| == |outputs|
  {
    seq(|outputs|, i requires 0 <= i < |outputs| => outputs[i].(status := Approved))
  }

  method ApproveRenderOutputs(lib: Library, m: Artifact) returns (r: Artifact)
    requires m.body.ShortRender?
    ensures r == Stamped(lib, m.As(Approved, m.body.(outputs := ApprovedOutputs(m.body.outputs))))
  {
    var outputs := m.body.outputs;
    for i := 0 to |m.body.outputs|
      invariant |outputs| == |m.body.outputs|
      invariant forall j | 0 <= j < i :: outputs[j] == m.body.outputs[j].(status := Approved)
      invariant forall j | i <= j < |outputs| :: outputs[j] == m.body.outputs[j]
    {
      outputs := outputs[i := outputs[i].(status := Approved)];
    }
    assert outputs == ApprovedOutputs(m.body.outputs);
    r := Stamp(lib, m.As(Approved, m.body.(outputs := outputs)));
  }

  // ----- the production candidate -----

  function ComponentRefOf(a: Artifact): Component {
    Component(a.env.artifactId, a.Kind(), a.env.contentHash, a.env.status)
  }

  predicate Bundleable(c: Component) {
    c.contentHash != "" && (c.status == Approved || c.status == Locked)
  }

  function PinOf(c: Component): Pin {
    Pin(c.artifactId, c.kind, c.contentHash)
  }

  function Pins(components: seq<Component>): seq<Pin> {
    seq(|components|, i requires 0 <= i < |components| => PinOf(components[i]))
  }

  function SourceIds(components: seq<Component>): seq<string> {
    seq(|components|, i requires 0 <= i < |components| => components[i].artifactId)
  }

  function Candidate(episodeId: string, candidateId: string, now: int, components: seq<Component>): Artifact {
    Artifact(
      Envelope(episodeId, ArtifactId(CandidateKind, episodeId), now, "system", SourceIds(components), "", Locked),
      ProductionCandidate(candidateId, true, Pins(components)))
  }

  method AssembleProductionCandidate(
    lib: Library, episodeId: string, candidateId: string, now: int, components: seq<Component>)
    returns (r: Result<Artifact>)
    ensures r.Ok? <==> components != [] && forall i | 0 <= i < |components| :: Bundleable(components[i])
    ensures r.Ok? ==> r.value == Stamped(lib, Candidate(episodeId, candidateId, now, components))
  {
    if |components| == 0 {
      return Err("production candidate requires at least one component");
    }
    var pinned, sources := [], [];
    for i := 0 to |components|
      invariant |pinned| == i && forall j | 0 <= j < i :: pinned[j] == PinOf(components[j])
      invariant |sources| == i && forall j | 0 <= j < i :: sources[j] == components[j].artifactId
      invariant forall j | 0 <= j < i :: Bundleable(components[j])
    {
      var c := components[i];
      if c.contentHash == "" {
        return Err("component must be stamped before bundling");
      }
      if c.status != Approved && c.status != Locked {
        return Err("component must be approved before bundling");
      }
      pinned := pinned + [Pin(c.artifactId, c.kind, c.contentHash)];
      sources := sources + [c.artifactId];
    }
    assert pinned == Pins(components) && sources == SourceIds(components);
    var candidate := Artifact(
      Envelope(episodeId, ArtifactId(CandidateKind, episodeId), now, "system", sources, "", Locked),
      ProductionCandidate(candidateId, true, pinned));
    candidate := Stamp(lib, candidate);
    r := Ok(candidate);
  }

  // ----- the release approval -----

  /** More than the prefix alone. */
  predicate IsHumanIdentity(identity: string) {
    |identity| > |"human:"| && HasPrefix(identity, "human:")
  }

  datatype ReleaseInput = ReleaseInput(
    episodeId: string, candidateId: string, approver: string, now: int, platforms: seq<string>, visibility: string,
    scheduledAt: string, disclosureRequired: bool, disclosure: string, qaRef: string)

  function Release(i: ReleaseInput): Artifact {
    Artifact(
      Envelope(i.episodeId, ArtifactId(ReleaseKind, i.episodeId), i.now, i.approver, [], "", Approved),
      ReleaseApproval(
        i.candidateId, i.platforms, if i.visibility == "" then "private" else i.visibility, i.scheduledAt,
        i.disclosureRequired, i.disclosure, true, i.approver, i.qaRef))
  }

  method BuildReleaseApproval(lib: Library, i: ReleaseInput) returns (r: Result<Artifact>)
    ensures r.Ok? <==> IsHumanIdentity(i.approver)
    ensures r.Ok? ==> r.value == Stamped(lib, Release(i))
  {
    if !IsHumanIdentity(i.approver) {
      return Err("release approval requires a human approver");
    }
    var release := Stamp(lib, Release(i));
    r := Ok(release);
  }
}
