/** internal/workflows/state_machine.go: the episode lifecycle. */
module Lifecycle {
  import opened Text
  import opened Json

  /** EpisodeState is a string in Go; Unknown stands for every other string. */
  datatype State =
    | Backlog | Candidate | ApprovedTopic | Researching | ResearchReady | Drafting | Verifying | HumanQA
    | Storyboarding | AssetProduction | Rendering | ProductionQA | Scheduled | Published | Monitored | Archived
    | Blocked | Unknown(name: string)
  {
    predicate Valid() {
      !Unknown?
    }
  }

  datatype ActorKind = Human | System | Model | Workflow | Other(name: string) {
    predicate Valid() {
      !Other?
    }
  }

  /** The zero time is None. */
  datatype Metadata = Metadata(reason: string, actor: string, kind: ActorKind, at: Option<int>)

  datatype Entry = Entry(
    from: State, to: State, reason: string, actor: string, kind: ActorKind, at: Option<int>, humanRequired: bool)

  /** The value of a state machine. */
  datatype Machine = Machine(current: State, history: seq<Entry>, blockedFrom: Option<State>)

  datatype Operation = Transition(to: State, meta: Metadata) | Block(meta: Metadata) | Unblock(meta: Metadata)

  /** allowedTransitions: whether a step is in the table, and whether it needs a human. */
  function Rule(from: State, to: State): Option<bool> {
    match from
    case Backlog => if to == Candidate then Some(false) else None
    case Candidate => if to == ApprovedTopic then Some(true) else if to == Archived then Some(false) else None
    case ApprovedTopic => if to == Researching then Some(false) else None
    case Researching => if to == ResearchReady then Some(false) else None
    case ResearchReady => if to == Drafting then Some(false) else None
    case Drafting => if to == Verifying then Some(false) else None
    case Verifying => if to == HumanQA then Some(false) else None
    case HumanQA => if to == Storyboarding then Some(true) else None
    case Storyboarding => if to == AssetProduction then Some(false) else None
    case AssetProduction => if to == Rendering then Some(false) else None
    case Rendering => if to == ProductionQA then Some(false) else None
    case ProductionQA => if to == Scheduled then Some(true) else None
    case Scheduled => if to == Published then Some(false) else None
    case Published => if to == Monitored then Some(false) else None
    case Monitored => if to == Archived then Some(false) else None
    case _ => None
  }

  predicate MetadataOk(meta: Metadata) {
    Present(meta.reason) && Present(meta.actor) && meta.kind.Valid() && meta.at.Some?
  }

  function NewEntry(from: State, to: State, meta: Metadata, humanRequired: bool): Entry {
    Entry(from, to, TrimSpace(meta.reason), TrimSpace(meta.actor), meta.kind, meta.at, humanRequired)
  }

  /** Why an operation is refused, if it is. */
  function Refusal(m: Machine, op: Operation): Option<string> {
    match op
    case Transition(to, meta) =>
      if to == Blocked then Some("use Block for explicit blocked transitions")
      else if m.current == Blocked then Some("episode is blocked; use Unblock before continuing")
      else if !MetadataOk(meta) then Some("transition metadata is required")
      else if !to.Valid() then Some("unknown episode state")
      else if Rule(m.current, to).None? then Some("invalid episode transition")
      else if Rule(m.current, to).value && meta.kind != Human then Some("transition requires a human actor")
      else None
    case Block(meta) =>
      if m.current == Blocked then Some("episode is already blocked")
      else if m.current == Archived then Some("archived episodes cannot be blocked")
      else if !MetadataOk(meta) then Some("transition metadata is required")
      else None
    case Unblock(meta) =>
      if m.current != Blocked then Some("episode is not blocked")
      else if m.blockedFrom.None? then Some("blocked episode has no recorded source state")
      else if !MetadataOk(meta) then Some("transition metadata is required")
      else if meta.kind != Human && meta.kind != System then Some("unblock requires human or system actor")
      else None
  }

  /** The entry an accepted operation appends. */
  function EntryOf(m: Machine, op: Operation): Entry {
    match op
    case Transition(to, meta) => NewEntry(m.current, to, meta, Rule(m.current, to) == Some(true))
    case Block(meta) => NewEntry(m.current, Blocked, meta, false)
    case Unblock(meta) => NewEntry(m.current, m.blockedFrom.GetOr(Blocked), meta, false)
  }

  function SourceAfter(m: Machine, op: Operation): Option<State> {
    match op
    case Transition(_, _) => m.blockedFrom
    case Block(_) => Some(m.current)
    case Unblock(_) => None
  }

  function Advance(m: Machine, e: Entry, blockedFrom: Option<State>): Machine {
    Machine(e.to, m.history + [e], blockedFrom)
  }

  /** What one operation does; a refused one leaves the machine as it is. */
  function Step(m: Machine, op: Operation): Machine {
    if Refusal(m, op).Some? then m else Advance(m, EntryOf(m, op), SourceAfter(m, op))
  }

  /** A history of calls, failing ones included. */
  function Run(m: Machine, ops: seq<Operation>): Machine
    decreases |ops|
  {
    if ops == [] then m else Step(Run(m, ops[..|ops| - 1]), ops[|ops| - 1])
  }

  const START := Machine(Backlog, [], None)

  // ----- the machine as an object -----

  /** EpisodeStateMachine */
  class EpisodeStateMachine {
    var current: State
    var history: seq<Entry>
    var blockedFrom: Option<State>

    ghost function View(): Machine
      reads this
    {
      Machine(current, history, blockedFrom)
    }

    constructor (initial: State)
      ensures View() == Machine(initial, [], None)
    {
      current, history, blockedFrom := initial, [], None;
    }

    method AppendTransition(to: State, meta: Metadata, humanRequired: bool)
      modifies this`current, this`history
      ensures View() == Advance(old(View()), NewEntry(old(current), to, meta, humanRequired), old(blockedFrom))
    {
      var from := current;
      current := to;
      history := history + [NewEntry(from, to, meta, humanRequired)];
    }

    method DoTransition(to: State, meta: Metadata) returns (err: Option<string>)
      modifies this
      ensures Follows(old(View()), Transition(to, meta), View(), err)
    {
      hide MetadataOk, NewEntry;
      if to == Blocked { return Some("use Block for explicit blocked transitions"); }
      if current == Blocked { return Some("episode is blocked; use Unblock before continuing"); }
      if !MetadataOk(meta) { return Some("transition metadata is required"); }
      if !to.Valid() { return Some("unknown episode state"); }
      var rule := Rule(current, to);
      if rule.None? { return Some("invalid episode transition"); }
      if rule.value && meta.kind != Human { return Some("transition requires a human actor"); }
      AppendTransition(to, meta, rule.value);
      err := None;
    }

    method DoBlock(meta: Metadata) returns (err: Option<string>)
      modifies this
      ensures Follows(old(View()), Block(meta), View(), err)
    {
      if current == Blocked { return Some("episode is already blocked"); }
      if current == Archived { return Some("archived episodes cannot be blocked"); }
      if !MetadataOk(meta) { return Some("transition metadata is required"); }
      blockedFrom := Some(current);
      AppendTransition(Blocked, meta, false);
      err := None;
    }

    method DoUnblock(meta: Metadata) returns (err: Option<string>)
      modifies this
      ensures Follows(old(View()), Unblock(meta), View(), err)
    {
      if current != Blocked { return Some("episode is not blocked"); }
      if blockedFrom.None? { return Some("blocked episode has no recorded source state"); }
      if !MetadataOk(meta) { return Some("transition metadata is required"); }
      if meta.kind != Human && meta.kind != System { return Some("unblock requires human or system actor"); }
      var to := blockedFrom.value;
      blockedFrom := None;
      AppendTransition(to, meta, false);
      err := None;
    }
  }

  /** A call did what the operation does, and reported whether it was refused. */
  ghost predicate Follows(before: Machine, op: Operation, after: Machine, err: Option<string>) {
    after == Step(before, op) && err == Refusal(before, op)
  }

  /** NewEpisodeStateMachine */
  method NewMachine(initial: State) returns (r: Result<EpisodeStateMachine>)
    ensures r.Ok? <==> initial.Valid()
    ensures r.Ok? ==> fresh(r.value) && r.value.View() == Machine(initial, [], None)
  {
    if !initial.Valid() {
      return Err("unknown episode state");
    }
    var m := new EpisodeStateMachine(initial);
    r := Ok(m);
  }

  // ----- what every history satisfies -----

  /** The lifecycle state, seen through a block. */
  function Base(m: Machine): State {
    m.blockedFrom.GetOr(m.current)
  }

  /** The entries form a chain that begins at backlog and ends at `end`. */
  predicate Linked(history: seq<Entry>, end: State) {
    && (history == [] ==> end == Backlog)
    && (history != [] ==> history[0].from == Backlog && history[|history| - 1].to == end)
    && forall i | 0 < i < |history| :: history[i - 1].to == history[i].from
  }

  /** Entry i is an allowed step, a block, or the unblock that answers the block before it. */
  predicate Legal(history: seq<Entry>, i: nat)
    requires i < |history|
  {
    var e := history[i];
    if e.to == Blocked then e.from != Blocked && e.from != Archived
    else if e.from == Blocked then i > 0 && history[i - 1].to == Blocked && e.to == history[i - 1].from
    else Rule(e.from, e.to) == Some(e.humanRequired) && (e.humanRequired ==> e.kind == Human)
  }

  /** Without the blocks and unblocks. */
  function Erase(history: seq<Entry>): seq<Entry> {
    if history == [] then []
    else
      var e := history[|history| - 1];
      Erase(history[..|history| - 1]) + (if e.from == Blocked || e.to == Blocked then [] else [e])
  }

  function Rank(s: State): int {
    match s
    case Backlog => 0 case Candidate => 1 case ApprovedTopic => 2 case Researching => 3
    case ResearchReady => 4 case Drafting => 5 case Verifying => 6 case HumanQA => 7
    case Storyboarding => 8 case AssetProduction => 9 case Rendering => 10 case ProductionQA => 11
    case Scheduled => 12 case Published => 13 case Monitored => 14 case Archived => 15
    case _ => -1
  }

  /** A chain of allowed steps, each climbing. */
  predicate Climbs(walk: seq<Entry>) {
    forall i | 0 <= i < |walk| :: Rule(walk[i].from, walk[i].to).Some? && Rank(walk[i].from) < Rank(walk[i].to)
  }

  predicate HumanInto(e: Entry, s: State) {
    e.to == s && e.kind == Human && e.from != Blocked
  }

  /** Human entries into the three gated states, in order. */
  ghost predicate Milestone1(h: seq<Entry>) {
    exists i | 0 <= i < |h| :: HumanInto(h[i], ApprovedTopic)
  }

  ghost predicate Milestone2(h: seq<Entry>) {
    exists j | 0 <= j < |h| :: HumanInto(h[j], Storyboarding) && Milestone1(h[..j])
  }

  ghost predicate Milestone3(h: seq<Entry>) {
    exists k | 0 <= k < |h| :: HumanInto(h[k], Scheduled) && Milestone2(h[..k])
  }

  /** The human approvals a lifecycle state has behind it. */
  ghost predicate Approved(h: seq<Entry>, s: State) {
    && (2 <= Rank(s) <= 14 ==> Milestone1(h))
    && (8 <= Rank(s) <= 14 ==> Milestone2(h))
    && (12 <= Rank(s) <= 14 ==> Milestone3(h))
  }

  ghost predicate Shape(m: Machine) {
    && Linked(m.history, m.current)
    && (m.current == Blocked <==> m.blockedFrom.Some?)
    && (m.blockedFrom.Some? ==>
        m.history != [] && m.history[|m.history| - 1].from == m.blockedFrom.value != Blocked)
    && forall i | 0 <= i < |m.history| :: Legal(m.history, i)
  }

  ghost predicate Walk(walk: seq<Entry>, end: State) {
    Linked(walk, end) && Climbs(walk) && |walk| <= Rank(end)
  }

  ghost predicate Invariant(m: Machine) {
    Shape(m) && Walk(Erase(m.history), Base(m)) && Approved(m.history, Base(m))
  }

  lemma Milestone1Grows(h: seq<Entry>, e: Entry)
    requires Milestone1(h)
    ensures Milestone1(h + [e])
  {
    var i :| 0 <= i < |h| && HumanInto(h[i], ApprovedTopic);
    assert (h + [e])[i] == h[i];
  }

  lemma Milestone2Grows(h: seq<Entry>, e: Entry)
    requires Milestone2(h)
    ensures Milestone2(h + [e])
  {
    var j :| 0 <= j < |h| && HumanInto(h[j], Storyboarding) && Milestone1(h[..j]);
    assert (h + [e])[j] == h[j] && (h + [e])[..j] == h[..j];
  }

  lemma Milestone3Grows(h: seq<Entry>, e: Entry)
    requires Milestone3(h)
    ensures Milestone3(h + [e])
  {
    var k :| 0 <= k < |h| && HumanInto(h[k], Scheduled) && Milestone2(h[..k]);
    assert (h + [e])[k] == h[k] && (h + [e])[..k] == h[..k];
  }

  lemma ApprovedGrows(h: seq<Entry>, e: Entry, s: State)
    requires Approved(h, s)
    ensures Approved(h + [e], s)
  {
    if Milestone1(h) { Milestone1Grows(h, e); }
    if Milestone2(h) { Milestone2Grows(h, e); }
    if Milestone3(h) { Milestone3Grows(h, e); }
  }

  lemma RuleClimbs(from: State, to: State)
    requires Rule(from, to).Some?
    ensures 0 <= Rank(from) < Rank(to) <= 15
    ensures Rule(from, to) == Some(true) <==> to in {ApprovedTopic, Storyboarding, Scheduled}
    ensures to != Archived ==> Rank(to) == Rank(from) + 1
  {}

  lemma ApprovedStep(h: seq<Entry>, e: Entry)
    requires Approved(h, e.from) && Rule(e.from, e.to) == Some(e.humanRequired)
    requires e.humanRequired ==> e.kind == Human
    ensures Approved(h + [e], e.to)
  {
    RuleClimbs(e.from, e.to);
    ApprovedGrows(h, e, e.from);
    assert (h + [e])[|h|] == e && (h + [e])[..|h|] == h;
    assert e.humanRequired ==> HumanInto(e, e.to);
  }

  lemma EraseAppend(h: seq<Entry>, e: Entry)
    ensures Erase(h + [e]) == Erase(h) + (if e.from == Blocked || e.to == Blocked then [] else [e])
  {
    assert (h + [e])[..|h|] == h;
  }

  lemma WalkAppend(walk: seq<Entry>, e: Entry)
    requires Walk(walk, e.from) && Rule(e.from, e.to).Some?
    ensures Walk(walk + [e], e.to)
  {
    RuleClimbs(e.from, e.to);
  }

  lemma LegalAppend(h: seq<Entry>, e: Entry)
    requires forall i | 0 <= i < |h| :: Legal(h, i)
    requires Legal(h + [e], |h|)
    ensures forall i | 0 <= i < |h + [e]| :: Legal(h + [e], i)
  {
    forall i | 0 <= i < |h|
      ensures Legal(h + [e], i)
    {
      assert Legal(h, i);
    }
  }

  lemma ForwardShape(m: Machine, e: Entry)
    requires Shape(m) && m.current == e.from != Blocked && e.to != Blocked
    requires Legal(m.history + [e], |m.history|)
    ensures Shape(Machine(e.to, m.history + [e], m.blockedFrom))
  {
    LegalAppend(m.history, e);
  }

  lemma ForwardKeeps(m: Machine, e: Entry)
    requires Invariant(m) && m.current == e.from != Blocked && e.to != Blocked
    requires Rule(e.from, e.to) == Some(e.humanRequired) && (e.humanRequired ==> e.kind == Human)
    ensures Invariant(Machine(e.to, m.history + [e], m.blockedFrom))
  {
    assert m.blockedFrom == None && Base(m) == e.from;
    ForwardShape(m, e);
    EraseAppend(m.history, e);
    WalkAppend(Erase(m.history), e);
    ApprovedStep(m.history, e);
  }

  lemma BlockKeeps(m: Machine, e: Entry)
    requires Invariant(m) && m.current == e.from && e.to == Blocked
    requires e.from != Blocked && e.from != Archived
    ensures Invariant(Machine(Blocked, m.history + [e], Some(e.from)))
  {
    hide Approved, Erase, Climbs, Rank, Rule;
    LegalAppend(m.history, e);
    EraseAppend(m.history, e);
    assert Erase(m.history) + [] == Erase(m.history);
    ApprovedGrows(m.history, e, Base(m));
  }

  lemma UnblockKeeps(m: Machine, e: Entry)
    requires Invariant(m) && m.current == e.from == Blocked && m.blockedFrom == Some(e.to)
    ensures Invariant(Machine(e.to, m.history + [e], None))
  {
    hide Approved, Erase, Climbs, Rank, Rule;
    LegalAppend(m.history, e);
    EraseAppend(m.history, e);
    assert Erase(m.history) + [] == Erase(m.history);
    ApprovedGrows(m.history, e, Base(m));
  }

  /** What acceptance says about the entry. */
  lemma Accepted(m: Machine, op: Operation)
    requires Refusal(m, op) == None
    ensures EntryOf(m, op).from == m.current
    ensures op.Transition? ==> var e := EntryOf(m, op);
      && m.current != Blocked && e.to != Blocked
      && Rule(e.from, e.to) == Some(e.humanRequired) && (e.humanRequired ==> e.kind == Human)
    ensures op.Block? ==> m.current != Blocked && m.current != Archived && EntryOf(m, op).to == Blocked
    ensures op.Unblock? ==> m.current == Blocked && m.blockedFrom == Some(EntryOf(m, op).to)
  {
    hide MetadataOk, TrimSpace;
    if op.Transition? {
      assert Rule(m.current, op.to).Some?;
    }
  }

  lemma StepKeepsInvariant(m: Machine, op: Operation)
    requires Invariant(m)
    ensures Invariant(Step(m, op))
  {
    if Refusal(m, op) == None {
      Accepted(m, op);
      EntryKeeps(m, op, EntryOf(m, op));
    }
  }

  lemma EntryKeeps(m: Machine, op: Operation, e: Entry)
    requires Invariant(m) && e.from == m.current
    requires op.Transition? ==>
      && m.current != Blocked && e.to != Blocked
      && Rule(e.from, e.to) == Some(e.humanRequired) && (e.humanRequired ==> e.kind == Human)
    requires op.Block? ==> m.current != Blocked && m.current != Archived && e.to == Blocked
    requires op.Unblock? ==> m.current == Blocked && m.blockedFrom == Some(e.to)
    ensures Invariant(Advance(m, e, SourceAfter(m, op)))
  {
    match op {
      case Transition(_, _) => ForwardKeeps(m, e);
      case Block(_) => BlockKeeps(m, e);
      case Unblock(_) => UnblockKeeps(m, e);
    }
  }

  /** In every machine reachable from backlog, by any calls in any order, the history is a
      linked chain that ends at the current state; the machine is blocked exactly when a
      source state is recorded; every entry is an allowed step, a block, or the unblock
      answering the block before it; and without those the walk climbs the ranks. */
  lemma {:induction false} RunInvariant(ops: seq<Operation>)
    ensures Invariant(Run(START, ops))
    decreases |ops|
  {
    if ops != [] {
      RunInvariant(ops[..|ops| - 1]);
      StepKeepsInvariant(Run(START, ops[..|ops| - 1]), ops[|ops| - 1]);
    }
  }

  /** No lifecycle has more than 15 forward steps, however often it is blocked. */
  lemma AtMostFifteenSteps(ops: seq<Operation>)
    ensures |Erase(Run(START, ops).history)| <= 15
  {
    hide Run, Shape, Approved, Climbs, Linked, Erase;
    RunInvariant(ops);
  }

  /** Only a step from scheduled, or the end of a block there, leads into `published`. */
  lemma PublishingEntry(m: Machine, e: Entry)
    requires Invariant(m) && m.current == e.from && e.to == Published
    requires Rule(e.from, e.to).Some? || m.blockedFrom == Some(e.to)
    ensures Milestone3(m.history)
  {
    if m.blockedFrom == Some(e.to) {
      assert Base(m) == Published;
    } else {
      assert e.from == Scheduled;
      assert Base(m) == Scheduled;
    }
  }

  /** Every machine that ever enters `published` has, before that, entries by human actors
      into approved_topic, storyboarding and scheduled, in this order. */
  lemma {:induction false} PublishedNeedsHumans(ops: seq<Operation>, p: nat)
    requires p < |Run(START, ops).history| && Run(START, ops).history[p].to == Published
    ensures Milestone3(Run(START, ops).history[..p])
    decreases |ops|
  {
    hide Refusal, EntryOf, SourceAfter, Rule, Invariant, Milestone3;
    var before, op := Run(START, ops[..|ops| - 1]), ops[|ops| - 1];
    if p < |before.history| {
      assert Step(before, op).history[..p] == before.history[..p];
      PublishedNeedsHumans(ops[..|ops| - 1], p);
    } else {
      RunInvariant(ops[..|ops| - 1]);
      Accepted(before, op);
      PublishingEntry(before, EntryOf(before, op));
      assert Step(before, op).history[..p] == before.history;
    }
  }

  /** A block can be undone by a human or the system and by no one else, and undoing it
      brings the lifecycle back to where it was. */
  lemma BlockUnblock(m: Machine, block: Metadata, unblock: Metadata)
    requires Refusal(m, Block(block)) == None && MetadataOk(unblock)
    ensures var blocked := Step(m, Block(block));
      && (Refusal(blocked, Unblock(unblock)) == None <==> unblock.kind == Human || unblock.kind == System)
      && (Refusal(blocked, Unblock(unblock)) == None ==>
        var back := Step(blocked, Unblock(unblock));
        back.current == m.current && back.blockedFrom == None && Erase(back.history) == Erase(m.history))
  {
    var blocked := Step(m, Block(block));
    EraseAppend(m.history, EntryOf(m, Block(block)));
    EraseAppend(blocked.history, EntryOf(blocked, Unblock(unblock)));
  }

  /** A machine created in the blocked state has no source state, and no call ever moves it. */
  lemma {:induction false} CreatedBlockedIsStuck(ops: seq<Operation>)
    ensures Run(Machine(Blocked, [], None), ops) == Machine(Blocked, [], None)
    decreases |ops|
  {
    if ops != [] {
      CreatedBlockedIsStuck(ops[..|ops| - 1]);
    }
  }

  lemma StuckRun(m: Machine, ops: seq<Operation>)
    requires forall op :: Refusal(m, op).Some?
    ensures Run(m, ops) == m
    decreases |ops|
  {
    if ops != [] {
      StuckRun(m, ops[..|ops| - 1]);
    }
  }

  /** Of the machines that can be created exactly those in neither the blocked nor the archived
      state can ever be moved: some call is accepted, and some history of calls changes them. */
  lemma CreatedMovesIff(s: State)
    requires s.Valid()
    ensures (exists op :: Refusal(Machine(s, [], None), op) == None) <==> s != Blocked && s != Archived
    ensures (exists ops :: Run(Machine(s, [], None), ops) != Machine(s, [], None)) <==> s != Blocked && s != Archived
  {
    hide Refusal, Run;
    var m := Machine(s, [], None);
    if s != Blocked && s != Archived {
      var op := FirstBlock(m);
      assert Refusal(Machine(s, [], None), op) == None;
      assert Run(Machine(s, [], None), [op]) != Machine(s, [], None);
    } else {
      forall op
        ensures Refusal(m, op).Some?
      {
        NothingAccepted(m, op);
      }
      forall ops
        ensures Run(m, ops) == m
      {
        StuckRun(m, ops);
      }
    }
  }

  /** A machine that is neither blocked nor archived can be blocked. */
  lemma FirstBlock(m: Machine) returns (op: Operation)
    requires m.current != Blocked && m.current != Archived
    ensures Refusal(m, op) == None && Run(m, [op]) != m
  {
    hide Present, TrimSpace;
    var meta := Metadata("r", "a", Human, Some(0));
    PresentAt(meta.reason, 0);
    PresentAt(meta.actor, 0);
    op := Block(meta);
    var ops := [op];
    assert ops[..|ops| - 1] == [] && Run(m, []) == m;
    assert Run(m, ops) == Step(m, op);
  }

  lemma NothingAccepted(m: Machine, op: Operation)
    requires m.current == Archived || (m.current == Blocked && m.blockedFrom.None?)
    ensures Refusal(m, op).Some?
  {}
}
