/** internal/storage/store.go: a local store with one index file per episode and a pool of
    objects addressed by content hash. */
module Store {
  import opened Text
  import opened Json

  /** SHA-256 in hex, and the canonical validation of an artifact's bytes. */
  datatype Library = Library(sha: string -> string, valid: (string, string) -> bool)

  function ContentHash(lib: Library, content: string): string {
    "sha256:" + lib.sha(content)
  }

  datatype PutInput = PutInput(
    episodeId: string, artifactName: string, content: string, validateCanonical: bool, createdAt: Option<int>)

  datatype Ref = Ref(episodeId: string, artifactName: string, contentHash: string, size: nat, uri: string,
    createdAt: int)

  datatype Record = Record(episodeId: string, state: string, updatedAt: Option<int>, artifacts: seq<Ref>)

  /** The files below the store's root: artifacts.json and state.json of every episode, and
      the object pool, whose paths are made of a content hash and an artifact name. */
  datatype Disk = Disk(
    indexes: map<string, map<string, Ref>>,
    objects: map<(string, string), string>,
    states: map<string, Record>)

  const EMPTY_DISK := Disk(map[], map[], map[])

  /** A single safe path segment. */
  function SafeSegment(value: string): Option<string> {
    var v := TrimSpace(value);
    if v == "" || v == "." || Contains(v, "..") || '/' in v || '\\' in v || ':' in v then None else Some(v)
  }

  /** A put whose names are safe and whose content is not refused. */
  datatype Request = Request(episodeId: string, name: string, content: string, createdAt: Option<int>)

  function Checked(lib: Library, input: PutInput): Option<Request> {
    match (SafeSegment(input.episodeId), SafeSegment(input.artifactName))
    case (Some(ep), Some(name)) =>
      if input.content == "" || (input.validateCanonical && !lib.valid(name, input.content)) then None
      else Some(Request(ep, name, input.content, input.createdAt))
    case _ => None
  }

  function Index(d: Disk, ep: string): map<string, Ref> {
    if ep in d.indexes then d.indexes[ep] else map[]
  }

  function NewRef(lib: Library, r: Request, now: int): Ref {
    var hash := ContentHash(lib, r.content);
    Ref(r.episodeId, r.name, hash, |r.content|, "local://artifact-store/" + r.episodeId + "/" + r.name + "@" + hash,
        r.createdAt.GetOr(now))
  }

  /** Where a process may die inside a put. */
  datatype Crash = Never | BeforeObject | BeforeIndex

  datatype Outcome = Stored(ref: Ref) | Refused | Conflict | Crashed

  function WriteObject(d: Disk, key: (string, string), content: string): Disk {
    if key in d.objects then d else d.(objects := d.objects[key := content])
  }

  function WriteIndex(d: Disk, ref: Ref): Disk {
    d.(indexes := d.indexes[ref.episodeId := Index(d, ref.episodeId)[ref.artifactName := ref]])
  }

  function Put(lib: Library, d: Disk, r: Request, now: int, crash: Crash): (Disk, Outcome) {
    var index := Index(d, r.episodeId);
    var ref := NewRef(lib, r, now);
    if r.name in index then
      if index[r.name].contentHash == ref.contentHash then (d, Stored(index[r.name])) else (d, Conflict)
    else if crash == BeforeObject then (d, Crashed)
    else
      var d' := WriteObject(d, (ref.contentHash, r.name), r.content);
      if crash == BeforeIndex then (d', Crashed) else (WriteIndex(d', ref), Stored(ref))
  }

  datatype Fetched = Bytes(content: string) | NotFound | Invalid | HashMismatch

  function Get(lib: Library, d: Disk, episodeId: string, name: string, contentHash: string): Fetched {
    match (SafeSegment(episodeId), SafeSegment(name))
    case (Some(ep), Some(n)) => GetSafe(lib, d, ep, n, contentHash)
    case _ => Invalid
  }

  function GetSafe(lib: Library, d: Disk, ep: string, n: string, contentHash: string): Fetched {
    if n !in Index(d, ep) then NotFound
    else
      var stored := Index(d, ep)[n];
      if contentHash != "" && stored.contentHash != contentHash then NotFound
      else
        var key := (stored.contentHash, stored.artifactName);
        if key !in d.objects then NotFound
        else if ContentHash(lib, d.objects[key]) != stored.contentHash then HashMismatch
        else Bytes(d.objects[key])
  }

  function SaveEpisode(d: Disk, record: Record, now: int): Option<Disk> {
    match SafeSegment(record.episodeId)
    case None => None
    case Some(ep) =>
      if !Present(record.state) then None
      else Some(d.(states := d.states[ep := record.(episodeId := ep, updatedAt := Some(record.updatedAt.GetOr(now)))]))
  }

  /** Links an artifact to the record of its episode, once. */
  function AddArtifactRef(d: Disk, episodeId: string, ref: Ref, now: int): Option<Disk> {
    if ref.episodeId != episodeId then None
    else match SafeSegment(episodeId)
      case None => None
      case Some(ep) =>
        var record := if ep in d.states then d.states[ep] else Record(episodeId, "backlog", None, []);
        if Linked(record.artifacts, ref) then Some(d)
        else SaveEpisode(d, record.(artifacts := record.artifacts + [ref], updatedAt := Some(now)), now)
  }

  predicate Linked(artifacts: seq<Ref>, ref: Ref) {
    exists i | 0 <= i < |artifacts| ::
      artifacts[i].artifactName == ref.artifactName && artifacts[i].contentHash == ref.contentHash
  }

  // ----- the store as an object -----

  class LocalStore {
    const lib: Library
    var disk: Disk

    constructor (lib: Library)
      ensures this.lib == lib && disk == EMPTY_DISK
    {
      this.lib := lib;
      disk := EMPTY_DISK;
    }

    /** os.Stat, then os.WriteFile when there is no such file. */
    method DoWriteObject(ref: Ref, content: string)
      modifies this
      ensures disk == WriteObject(old(disk), (ref.contentHash, ref.artifactName), content)
    {
      if (ref.contentHash, ref.artifactName) !in disk.objects {
        disk := disk.(objects := disk.objects[(ref.contentHash, ref.artifactName) := content]);
      }
    }

    method PutArtifact(input: PutInput, now: int, crash: Crash) returns (outcome: Outcome)
      modifies this
      ensures Checked(lib, input).None? ==> outcome == Refused && disk == old(disk)
      ensures Checked(lib, input).Some? ==>
        (disk, outcome) == Put(lib, old(disk), Checked(lib, input).value, now, crash)
    {
      var checked := Checked(lib, input);
      if checked.None? {
        return Refused;
      }
      var r := checked.value;
      var index := Index(disk, r.episodeId);
      if r.name in index {
        if index[r.name].contentHash != ContentHash(lib, r.content) {
          return Conflict;
        }
        return Stored(index[r.name]);
      }
      var ref := NewRef(lib, r, now);
      if crash == BeforeObject {
        return Crashed;
      }
      DoWriteObject(ref, r.content);
      if crash == BeforeIndex {
        return Crashed;
      }
      index := index[r.name := ref];
      disk := disk.(indexes := disk.indexes[r.episodeId := index]);
      outcome := Stored(ref);
    }

    method GetArtifact(ref: Ref) returns (fetched: Fetched)
      ensures fetched == Get(lib, disk, ref.episodeId, ref.artifactName, ref.contentHash)
    {
      var ep, name := SafeSegment(ref.episodeId), SafeSegment(ref.artifactName);
      if ep.None? || name.None? {
        return Invalid;
      }
      var index := Index(disk, ep.value);
      if name.value !in index || (ref.contentHash != "" && index[name.value].contentHash != ref.contentHash) {
        return NotFound;
      }
      var stored := index[name.value];
      if (stored.contentHash, stored.artifactName) !in disk.objects {
        return NotFound;
      }
      var data := disk.objects[(stored.contentHash, stored.artifactName)];
      if ContentHash(lib, data) != stored.contentHash {
        return HashMismatch;
      }
      fetched := Bytes(data);
    }

    /** The refs of one episode in the order of their names. */
    method ListArtifacts(episodeId: string) returns (refs: Option<seq<Ref>>)
      ensures refs.Some? <==> SafeSegment(episodeId).Some?
      ensures refs.Some? ==> Lists(Index(disk, SafeSegment(episodeId).value), refs.value)
    {
      var ep := SafeSegment(episodeId);
      if ep.None? {
        return None;
      }
      var listed := ListIndex(Index(disk, ep.value));
      refs := Some(listed);
    }

    /** Saves exactly the records with a safe id and a state: under the trimmed id, at the time
        given or else now, and otherwise as they are. Nothing else changes on the disk. */
    method DoSaveEpisode(record: Record, now: int) returns (ok: bool)
      modifies this
      ensures ok <==> SafeSegment(record.episodeId).Some? && Present(record.state)
      ensures !ok ==> disk == old(disk)
      ensures ok ==>
        var ep := SafeSegment(record.episodeId).value;
        && ep in disk.states && disk.states == old(disk).states[ep := disk.states[ep]]
        && disk.states[ep].episodeId == ep && disk.states[ep].updatedAt.Some?
        && disk.states[ep].updatedAt.value == record.updatedAt.GetOr(now)
        && disk.states[ep].(episodeId := record.episodeId, updatedAt := record.updatedAt) == record
        && disk.indexes == old(disk).indexes && disk.objects == old(disk).objects
      ensures ok <==> SaveEpisode(old(disk), record, now).Some?
      ensures disk == SaveEpisode(old(disk), record, now).GetOr(old(disk))
    {
      hide SafeSegment, Present;
      var ep := SafeSegment(record.episodeId);
      if ep.None? || !Present(record.state) {
        return false;
      }
      var saved := record;
      if saved.updatedAt.None? {
        saved := saved.(updatedAt := Some(now));
      }
      saved := saved.(episodeId := ep.value);
      disk := disk.(states := disk.states[ep.value := saved]);
      ok := true;
    }

    method DoAddArtifactRef(episodeId: string, ref: Ref, now: int) returns (ok: bool)
      modifies this
      ensures ok <==> AddArtifactRef(old(disk), episodeId, ref, now).Some?
      ensures disk == AddArtifactRef(old(disk), episodeId, ref, now).GetOr(old(disk))
    {
      hide SafeSegment, SaveEpisode;
      if ref.episodeId != episodeId {
        return false;
      }
      var ep := SafeSegment(episodeId);
      if ep.None? {
        return false;
      }
      var record := if ep.value in disk.states then disk.states[ep.value] else Record(episodeId, "backlog", None, []);
      for i := 0 to |record.artifacts|
        invariant forall j | 0 <= j < i ::
          !(record.artifacts[j].artifactName == ref.artifactName && record.artifacts[j].contentHash == ref.contentHash)
      {
        if record.artifacts[i].artifactName == ref.artifactName && record.artifacts[i].contentHash == ref.contentHash {
          return true;
        }
      }
      ok := DoSaveEpisode(record.(artifacts := record.artifacts + [ref], updatedAt := Some(now)), now);
    }
  }

  method ListIndex(index: map<string, Ref>) returns (refs: seq<Ref>)
    ensures Lists(index, refs)
  {
    var names := SortedNames(index);
    refs := [];
    for i := 0 to |names|
      invariant |refs| == i
      invariant forall j | 0 <= j < i :: refs[j] == index[names[j]]
    {
      refs := refs + [index[names[i]]];
    }
    assert ListsNames(index, refs, names);
  }

  method SortedNames(index: map<string, Ref>) returns (names: seq<string>)
    ensures Sorted(names) && multiset(names) == multiset(index.Keys)
    ensures forall i | 0 <= i < |names| :: names[i] in index
  {
    names := [];
    var pending := index.Keys;
    while pending != {}
      invariant pending <= index.Keys
      invariant multiset(names) == multiset(index.Keys - pending)
      decreases pending
    {
      var name :| name in pending;
      names := names + [name];
      assert index.Keys - (pending - {name}) == (index.Keys - pending) + {name};
      pending := pending - {name};
    }
    assert index.Keys - {} == index.Keys;
    names := Sort(names);
    forall i | 0 <= i < |names|
      ensures names[i] in index
    {
      assert names[i] in multiset(names);
    }
  }

  /** The refs of an index, each once, in the order of their names. */
  ghost predicate Lists(index: map<string, Ref>, refs: seq<Ref>) {
    exists names :: ListsNames(index, refs, names)
  }

  ghost predicate ListsNames(index: map<string, Ref>, refs: seq<Ref>, names: seq<string>) {
    && Sorted(names) && multiset(names) == multiset(index.Keys) && |names| == |refs|
    && forall i | 0 <= i < |names| :: names[i] in index && refs[i] == index[names[i]]
  }

  // ----- the map the store implements -----

  type Slot = (string, string)

  predicate Occupied(d: Disk, k: Slot) {
    k.1 in Index(d, k.0)
  }

  function RefAt(d: Disk, k: Slot): Ref
    requires Occupied(d, k)
  {
    Index(d, k.0)[k.1]
  }

  function ObjectKey(d: Disk, k: Slot): (string, string)
    requires Occupied(d, k)
  {
    (RefAt(d, k).contentHash, k.1)
  }

  /** Every indexed artifact has its own name and an object behind it, and every object
      lies under the hash of its bytes. */
  ghost predicate Valid(lib: Library, d: Disk) {
    && (forall k: Slot | Occupied(d, k) ::
        RefAt(d, k).episodeId == k.0 && RefAt(d, k).artifactName == k.1 && ObjectKey(d, k) in d.objects)
    && (forall key | key in d.objects :: ContentHash(lib, d.objects[key]) == key.0)
  }

  /** What the store holds for an episode and a name. */
  function Content(d: Disk, k: Slot): Option<string> {
    if Occupied(d, k) && ObjectKey(d, k) in d.objects then Some(d.objects[ObjectKey(d, k)]) else None
  }

  function SlotOf(r: Request): Slot {
    (r.episodeId, r.name)
  }

  ghost predicate CollisionFree(lib: Library, x: string, y: string) {
    lib.sha(x) == lib.sha(y) ==> x == y
  }

  lemma HashesAgree(lib: Library, x: string, y: string)
    requires CollisionFree(lib, x, y)
    ensures ContentHash(lib, x) == ContentHash(lib, y) <==> x == y
  {
    if ContentHash(lib, x) == ContentHash(lib, y) {
      assert ContentHash(lib, x)[|"sha256:"|..] == lib.sha(x);
      assert ContentHash(lib, y)[|"sha256:"|..] == lib.sha(y);
    }
  }

  /** What an index write does to the slots. */
  lemma WriteIndexSlots(d: Disk, ref: Ref, k: Slot)
    ensures var d' := WriteIndex(d, ref);
      && (Occupied(d', k) <==> Occupied(d, k) || k == (ref.episodeId, ref.artifactName))
      && (Occupied(d', k) ==> RefAt(d', k) == if k == (ref.episodeId, ref.artifactName) then ref else RefAt(d, k))
  {}

  lemma WriteObjectKeeps(lib: Library, d: Disk, content: string, name: string)
    requires Valid(lib, d)
    ensures Valid(lib, WriteObject(d, (ContentHash(lib, content), name), content))
    ensures forall k: Slot :: Content(WriteObject(d, (ContentHash(lib, content), name), content), k) == Content(d, k)
  {
    var d' := WriteObject(d, (ContentHash(lib, content), name), content);
    forall k: Slot
      ensures Occupied(d', k) <==> Occupied(d, k)
      ensures Occupied(d, k) ==> RefAt(d', k) == RefAt(d, k)
    {
      assert Index(d', k.0) == Index(d, k.0);
    }
  }

  /** A put keeps the store valid, whatever crash interrupts it. */
  lemma PutKeepsValid(lib: Library, d: Disk, r: Request, now: int, crash: Crash)
    requires Valid(lib, d)
    ensures Valid(lib, Put(lib, d, r, now, crash).0)
  {
    var ref := NewRef(lib, r, now);
    var d1 := WriteObject(d, (ref.contentHash, r.name), r.content);
    WriteObjectKeeps(lib, d, r.content, r.name);
    var d2 := WriteIndex(d1, ref);
    forall k: Slot | Occupied(d2, k)
      ensures RefAt(d2, k).episodeId == k.0 && RefAt(d2, k).artifactName == k.1 && ObjectKey(d2, k) in d2.objects
    {
      WriteIndexSlots(d1, ref, k);
    }
  }

  lemma WriteIndexKeeps(d: Disk, ref: Ref, k: Slot)
    requires Occupied(d, k) && k != (ref.episodeId, ref.artifactName)
    ensures var d' := WriteIndex(d, ref);
      Occupied(d', k) && RefAt(d', k) == RefAt(d, k) && Content(d', k) == Content(d, k)
  {
    WriteIndexSlots(d, ref, k);
  }

  lemma WriteObjectKeepsRef(d: Disk, key: (string, string), content: string, k: Slot)
    requires Occupied(d, k) && ObjectKey(d, k) in d.objects
    ensures var d' := WriteObject(d, key, content);
      Occupied(d', k) && RefAt(d', k) == RefAt(d, k) && Content(d', k) == Content(d, k)
  {
    assert Index(WriteObject(d, key, content), k.0) == Index(d, k.0);
  }

  /** A slot, once filled, keeps its bytes and its ref through every put. */
  lemma PutNeverOverwrites(lib: Library, d: Disk, r: Request, now: int, crash: Crash, k: Slot)
    requires Valid(lib, d) && Occupied(d, k)
    ensures var d' := Put(lib, d, r, now, crash).0;
      Occupied(d', k) && RefAt(d', k) == RefAt(d, k) && Content(d', k) == Content(d, k)
  {
    if r.name !in Index(d, r.episodeId) {
      var ref := NewRef(lib, r, now);
      var key := (ref.contentHash, r.name);
      WriteObjectKeepsRef(d, key, r.content, k);
      WriteIndexKeeps(WriteObject(d, key, r.content), ref, k);
    }
  }

  /** A put of checked input that is not interrupted succeeds exactly when the slot is free
      or holds the same bytes; then the slot holds the bytes and no other slot changes. */
  lemma PutIffFreeOrSame(lib: Library, d: Disk, r: Request, now: int)
    requires Valid(lib, d)
    requires forall key | key in d.objects :: CollisionFree(lib, d.objects[key], r.content)
    ensures var (d', outcome) := Put(lib, d, r, now, Never);
      && (outcome.Stored? <==> Content(d, SlotOf(r)) in {None, Some(r.content)})
      && (outcome.Stored? ==> Content(d', SlotOf(r)) == Some(r.content))
      && (!outcome.Stored? ==> d' == d)
      && forall k: Slot | k != SlotOf(r) :: Content(d', k) == Content(d, k)
  {
    var slot := SlotOf(r);
    if Occupied(d, slot) {
      HashesAgree(lib, d.objects[ObjectKey(d, slot)], r.content);
    } else {
      PutFresh(lib, d, r, now);
    }
  }

  lemma PutFresh(lib: Library, d: Disk, r: Request, now: int)
    requires Valid(lib, d) && !Occupied(d, SlotOf(r))
    requires forall key | key in d.objects :: CollisionFree(lib, d.objects[key], r.content)
    ensures var (d', outcome) := Put(lib, d, r, now, Never);
      && outcome == Stored(NewRef(lib, r, now))
      && Content(d', SlotOf(r)) == Some(r.content)
      && forall k: Slot | k != SlotOf(r) :: Content(d', k) == Content(d, k)
  {
    var ref := NewRef(lib, r, now);
    var key := (ref.contentHash, r.name);
    var d1 := WriteObject(d, key, r.content);
    var d2 := WriteIndex(d1, ref);
    WriteObjectKeeps(lib, d, r.content, r.name);
    WriteIndexSlots(d1, ref, SlotOf(r));
    assert d1.objects[key] == r.content by {
      if key in d.objects { HashesAgree(lib, d.objects[key], r.content); }
    }
    forall k: Slot | k != SlotOf(r)
      ensures Content(d2, k) == Content(d, k)
    {
      WriteIndexSlots(d1, ref, k);
      assert Content(d1, k) == Content(d, k);
    }
  }

  /** A put that dies at any point leaves every slot as it was, and the same put then
      succeeds exactly when it would have succeeded before, with the same effect. */
  lemma CrashedPutCanBeRepeated(lib: Library, d: Disk, r: Request, now: int, crash: Crash, later: int)
    requires Valid(lib, d) && Put(lib, d, r, now, crash).1 == Crashed
    requires forall key | key in d.objects :: CollisionFree(lib, d.objects[key], r.content)
    ensures var left := Put(lib, d, r, now, crash).0;
      && (forall k: Slot :: Content(left, k) == Content(d, k))
      && Put(lib, left, r, later, Never).1.Stored?
      && (forall k: Slot :: Content(Put(lib, left, r, later, Never).0, k) == Content(Put(lib, d, r, later, Never).0, k))
  {
    var left := Put(lib, d, r, now, crash).0;
    WriteObjectKeeps(lib, d, r.content, r.name);
    assert Index(left, r.episodeId) == Index(d, r.episodeId);
    PutFresh(lib, d, r, later);
    PutFresh(lib, left, r, later);
  }

  /** A get of a filled slot returns its bytes, for the ref of the slot and for a ref
      without a hash; any other hash finds nothing. */
  lemma GetReturnsContent(lib: Library, d: Disk, k: Slot, contentHash: string)
    requires Valid(lib, d)
    ensures GetSafe(lib, d, k.0, k.1, contentHash) ==
      if Occupied(d, k) && (contentHash == "" || contentHash == RefAt(d, k).contentHash)
      then Bytes(Content(d, k).value) else NotFound
  {}

  // ----- whole runs -----

  datatype Op =
    | DoPut(input: PutInput, now: int, crash: Crash)
    | DoSave(record: Record, now: int)
    | DoLink(episodeId: string, ref: Ref, now: int)

  function Step(lib: Library, d: Disk, op: Op): Disk {
    match op
    case DoPut(input, now, crash) => PutChecked(lib, d, Checked(lib, input), now, crash)
    case DoSave(record, now) => SaveEpisode(d, record, now).GetOr(d)
    case DoLink(episodeId, ref, now) => AddArtifactRef(d, episodeId, ref, now).GetOr(d)
  }

  function PutChecked(lib: Library, d: Disk, checked: Option<Request>, now: int, crash: Crash): Disk {
    if checked.None? then d else Put(lib, d, checked.value, now, crash).0
  }

  function Run(lib: Library, d: Disk, ops: seq<Op>): Disk
    decreases |ops|
  {
    if ops == [] then d else Step(lib, Run(lib, d, ops[..|ops| - 1]), ops[|ops| - 1])
  }

  lemma RecordsAreSeparate(d: Disk, op: Op)
    requires !op.DoPut?
    ensures var d' := if op.DoSave? then SaveEpisode(d, op.record, op.now).GetOr(d)
                      else AddArtifactRef(d, op.episodeId, op.ref, op.now).GetOr(d);
      d'.indexes == d.indexes && d'.objects == d.objects
  {}

  lemma SameSlots(lib: Library, d: Disk, d': Disk)
    requires d'.indexes == d.indexes && d'.objects == d.objects && Valid(lib, d)
    ensures Valid(lib, d')
    ensures forall k: Slot :: Content(d', k) == Content(d, k) && Occupied(d', k) == Occupied(d, k)
  {
    forall k: Slot
      ensures Occupied(d', k) == Occupied(d, k) && (Occupied(d, k) ==> RefAt(d', k) == RefAt(d, k))
    {
      assert Index(d', k.0) == Index(d, k.0);
    }
  }

  lemma {:induction false} RunValid(lib: Library, ops: seq<Op>)
    ensures Valid(lib, Run(lib, EMPTY_DISK, ops))
    decreases |ops|
  {
    if ops != [] {
      var d, op := Run(lib, EMPTY_DISK, ops[..|ops| - 1]), ops[|ops| - 1];
      RunValid(lib, ops[..|ops| - 1]);
      match op {
        case DoPut(input, now, crash) =>
          match Checked(lib, input) {
            case Some(r) => PutKeepsValid(lib, d, r, now, crash);
            case None =>
          }
        case _ =>
          RecordsAreSeparate(d, op);
          SameSlots(lib, d, Step(lib, d, op));
      }
    }
  }

  /** Over every run, a slot that is filled keeps its bytes for ever. */
  lemma {:induction false} SlotsAreImmutable(lib: Library, ops: seq<Op>, n: nat, k: Slot)
    requires n <= |ops| && Content(Run(lib, EMPTY_DISK, ops[..n]), k).Some?
    ensures Content(Run(lib, EMPTY_DISK, ops), k) == Content(Run(lib, EMPTY_DISK, ops[..n]), k)
    decreases |ops|
  {
    if n == |ops| {
      assert ops[..n] == ops;
    } else {
      var front := ops[..|ops| - 1];
      var d, op := Run(lib, EMPTY_DISK, front), ops[|ops| - 1];
      assert front[..n] == ops[..n];
      SlotsAreImmutable(lib, front, n, k);
      RunValid(lib, front);
      match op {
        case DoPut(input, now, crash) =>
          match Checked(lib, input) {
            case Some(r) => PutNeverOverwrites(lib, d, r, now, crash, k);
            case None =>
          }
        case _ =>
          RecordsAreSeparate(d, op);
          SameSlots(lib, d, Step(lib, d, op));
      }
    }
  }

  /** The bytes of a successful put come back from every later get, whatever happens in
      between, provided the hash function does not confuse them with other stored bytes. */
  lemma PutThenGet(lib: Library, ops: seq<Op>, n: nat, r: Request)
    requires n < |ops| && ops[n].DoPut? && ops[n].crash == Never && Checked(lib, ops[n].input) == Some(r)
    requires Put(lib, Run(lib, EMPTY_DISK, ops[..n]), r, ops[n].now, Never).1.Stored?
    requires var objects := Run(lib, EMPTY_DISK, ops[..n]).objects;
      forall key | key in objects :: CollisionFree(lib, objects[key], r.content)
    ensures GetSafe(lib, Run(lib, EMPTY_DISK, ops), r.episodeId, r.name, ContentHash(lib, r.content))
      == Bytes(r.content)
  {
    var before := Run(lib, EMPTY_DISK, ops[..n]);
    var after := Run(lib, EMPTY_DISK, ops[..n + 1]);
    RunValid(lib, ops[..n]);
    PutIffFreeOrSame(lib, before, r, ops[n].now);
    assert ops[..n + 1][..n] == ops[..n];
    assert Content(after, SlotOf(r)) == Some(r.content);
    SlotsAreImmutable(lib, ops, n + 1, SlotOf(r));
    RunValid(lib, ops);
    var d := Run(lib, EMPTY_DISK, ops);
    assert ContentHash(lib, d.objects[ObjectKey(d, SlotOf(r))]) == RefAt(d, SlotOf(r)).contentHash;
    GetReturnsContent(lib, d, SlotOf(r), ContentHash(lib, r.content));
  }

  /** Every record lies under its own safe episode id. */
  predicate StatesOk(d: Disk) {
    forall ep | ep in d.states :: d.states[ep].episodeId == ep && SafeSegment(ep) == Some(ep)
  }

  lemma SafeSegmentStable(value: string)
    ensures SafeSegment(value).Some? ==> SafeSegment(SafeSegment(value).value) == SafeSegment(value)
  {
    TrimIdempotent(value, IsSpace);
  }

  lemma SaveKeepsStates(d: Disk, record: Record, now: int)
    requires StatesOk(d)
    ensures StatesOk(SaveEpisode(d, record, now).GetOr(d))
  {
    SafeSegmentStable(record.episodeId);
  }

  lemma LinkKeepsStates(d: Disk, episodeId: string, ref: Ref, now: int)
    requires StatesOk(d)
    ensures StatesOk(AddArtifactRef(d, episodeId, ref, now).GetOr(d))
  {
    hide SafeSegment, SaveEpisode, Linked, StatesOk;
    if SafeSegment(episodeId).Some? {
      var ep := SafeSegment(episodeId).value;
      var record := if ep in d.states then d.states[ep] else Record(episodeId, "backlog", None, []);
      SaveKeepsStates(d, record.(artifacts := record.artifacts + [ref], updatedAt := Some(now)), now);
    }
  }

  lemma PutKeepsStates(lib: Library, d: Disk, checked: Option<Request>, now: int, crash: Crash)
    ensures PutChecked(lib, d, checked, now, crash).states == d.states
  {}

  lemma StepKeepsStates(lib: Library, d: Disk, op: Op)
    requires StatesOk(d)
    ensures StatesOk(Step(lib, d, op))
  {
    if op.DoPut? {
      PutKeepsStates(lib, d, Checked(lib, op.input), op.now, op.crash);
    } else if op.DoSave? {
      SaveKeepsStates(d, op.record, op.now);
    } else {
      LinkKeepsStates(d, op.episodeId, op.ref, op.now);
    }
  }

  lemma {:induction false} RunStates(lib: Library, ops: seq<Op>)
    ensures StatesOk(Run(lib, EMPTY_DISK, ops))
    decreases |ops|
  {
    if ops != [] {
      RunStates(lib, ops[..|ops| - 1]);
      StepKeepsStates(lib, Run(lib, EMPTY_DISK, ops[..|ops| - 1]), ops[|ops| - 1]);
    }
  }

  /** In every store that a run can produce, linking an artifact twice is linking it once. */
  lemma LinkTwice(lib: Library, ops: seq<Op>, episodeId: string, ref: Ref, now: int, later: int)
    requires AddArtifactRef(Run(lib, EMPTY_DISK, ops), episodeId, ref, now).Some?
    ensures var once := AddArtifactRef(Run(lib, EMPTY_DISK, ops), episodeId, ref, now).value;
      AddArtifactRef(once, episodeId, ref, later) == Some(once)
  {
    RunStates(lib, ops);
    LinkedOnce(Run(lib, EMPTY_DISK, ops), episodeId, ref, now);
  }

  lemma LinkedOnce(d: Disk, episodeId: string, ref: Ref, now: int)
    requires StatesOk(d) && AddArtifactRef(d, episodeId, ref, now).Some?
    ensures var once, ep := AddArtifactRef(d, episodeId, ref, now).value, SafeSegment(episodeId);
      ep.Some? && ep.value in once.states && Linked(once.states[ep.value].artifacts, ref)
  {
    var ep := SafeSegment(episodeId).value;
    if ep in d.states && Linked(d.states[ep].artifacts, ref) {
    } else {
      var record := if ep in d.states then d.states[ep] else Record(episodeId, "backlog", None, []);
      var grown := record.artifacts + [ref];
      SavedRecord(d, record.(artifacts := grown, updatedAt := Some(now)), now);
      assert grown[|record.artifacts|] == ref;
    }
  }

  lemma SavedRecord(d: Disk, record: Record, now: int)
    requires SaveEpisode(d, record, now).Some?
    ensures var d', ep := SaveEpisode(d, record, now).value, SafeSegment(record.episodeId);
      ep.Some? && ep.value in d'.states && d'.states[ep.value].artifacts == record.artifacts
  {}
}
