/**
 The persistent mega-kernel as a concurrent protocol: resident blocks interleaved
 in any order, sharing device memory, a counter of finished blocks, and a shutdown
 flag that block 0 raises.
 */
module MegaKernel {
  import opened Arithmetic
  import opened Sequences
  import opened DeviceTypes
  import opened Stages
  import opened ResidentBlock

  /** The code of a block: what the first iteration sets up, and what each stage does to the block's own memory. */
  datatype Program = Program(launch: Launch, init: Local -> Local, stage: (Pc, Local) -> Local)

  datatype Memory = Memory(requests: seq<Descriptor>, pages: seq<PageEntry>, drafts: seq<int>)

  datatype Pc =
    AtHead | AtInit | AtPrefill | AtSelect | AtDecode | AtVerify | AtCommit |
    AtCount | AtPoll | AtRaise | AtNext | AtExit

  /** One block's registers. */
  datatype Block = Block(pc: Pc, iteration: nat, counted: bool, initialized: bool)

  datatype Mega = Mega(mem: Memory, blocks: seq<Block>, counter: int, flag: bool)

  // ---------------------------------------------------------------- shared memory

  /** What a block sees: its own descriptor, pages and draft region. */
  function Load(k: Launch, m: Memory, b: nat): Local
    requires b < |m.requests|
  {
    var r := m.requests[b];
    Local(r, Slice(m.pages, r.kvOffset, Max(r.kvPages, 0)),
          if k.hasDrafts then Slice(m.drafts, r.draftOffset, k.region) else [])
  }

  function Store(m: Memory, b: nat, l: Local): Memory
    requires b < |m.requests|
  {
    Memory(m.requests[b := l.req], Splice(m.pages, m.requests[b].kvOffset, l.pages),
           Splice(m.drafts, m.requests[b].draftOffset, l.draft))
  }

  predicate Placed(k: Launch, m: Memory, r: Descriptor) {
    && (r.kvPages > 0 ==> 0 <= r.kvOffset && r.kvOffset + r.kvPages <= |m.pages|)
    && (k.hasDrafts ==> 0 <= r.draftOffset && r.draftOffset + k.region <= |m.drafts|)
  }

  predicate Apart(k: Launch, r: Descriptor, q: Descriptor) {
    && (r.kvPages > 0 && q.kvPages > 0 ==> r.kvOffset + r.kvPages <= q.kvOffset || q.kvOffset + q.kvPages <= r.kvOffset)
    && (k.hasDrafts ==> r.draftOffset + k.region <= q.draftOffset || q.draftOffset + k.region <= r.draftOffset)
  }

  /** Page ranges are disjoint, draft regions are `region` apart, and everything is inside the arrays. */
  ghost predicate Laid(k: Launch, m: Memory) {
    && (forall b :: 0 <= b < |m.requests| ==> Placed(k, m, m.requests[b]) && Sized(k, Load(k, m, b)))
    && (forall b, c :: 0 <= b < |m.requests| && 0 <= c < |m.requests| && b != c ==>
          Apart(k, m.requests[b], m.requests[c]))
  }

  lemma LoadSized(k: Launch, m: Memory, b: nat)
    requires b < |m.requests| && Placed(k, m, m.requests[b])
    ensures var l := Load(k, m, b);
      |l.pages| == Max(l.req.kvPages, 0) && |l.draft| == (if k.hasDrafts then k.region else 0)
  {}

  /** A store is seen by its own block and by no other. */
  lemma StoreIsPrivate(k: Launch, m: Memory, b: nat, l: Local)
    requires Laid(k, m) && b < |m.requests| && Sized(k, l) && SamePlace(m.requests[b], l.req)
    ensures Laid(k, Store(m, b, l)) && Load(k, Store(m, b, l), b) == l
    ensures forall c: nat :: c < |m.requests| && c != b ==> Load(k, Store(m, b, l), c) == Load(k, m, c)
  {
    var r, n := m.requests[b], Store(m, b, l);
    assert Placed(k, m, r) && Sized(k, Load(k, m, b));
    if r.kvPages > 0 {
      SpliceOwn(m.pages, r.kvOffset, l.pages);
    }
    if k.hasDrafts {
      SpliceOwn(m.drafts, r.draftOffset, l.draft);
    }
    forall c: nat | c < |m.requests| && c != b ensures Load(k, n, c) == Load(k, m, c) {
      StoreElsewhere(k, m, b, c, l);
    }
    forall c: nat, d: nat | c < |n.requests| && d < |n.requests| && c != d
      ensures Apart(k, n.requests[c], n.requests[d])
    {
      assert Apart(k, m.requests[c], m.requests[d]);
    }
  }

  lemma StoreElsewhere(k: Launch, m: Memory, b: nat, c: nat, l: Local)
    requires b < |m.requests| && c < |m.requests| && b != c && Apart(k, m.requests[b], m.requests[c])
    requires |l.pages| == Max(m.requests[b].kvPages, 0) && |l.draft| == (if k.hasDrafts then k.region else 0)
    ensures Load(k, Store(m, b, l), c) == Load(k, m, c)
  {
    var r, q := m.requests[b], m.requests[c];
    if r.kvPages > 0 && q.kvPages > 0 {
      SpliceApart(m.pages, r.kvOffset, l.pages, q.kvOffset, q.kvPages);
    }
    if k.hasDrafts {
      SpliceApart(m.drafts, r.draftOffset, l.draft, q.draftOffset, k.region);
    }
  }

  // ------------------------------------------------------------------- the protocol

  predicate Staging(pc: Pc) { pc in {AtPrefill, AtSelect, AtDecode, AtVerify, AtCommit} }

  /** What a step makes of the block's memory. */
  function StageAt(p: Program, pc: Pc, initialized: bool, l: Local): Local {
    if pc == AtInit then (if initialized then l else p.init(l))
    else if Staging(pc) then p.stage(pc, l)
    else l
  }

  /** Control flow of block `b`: `done` is its request's state after the step, `count` and `flag` what it reads. */
  function NextPc(k: Launch, b: nat, x: Block, done: bool, count: int, blocks: nat, flag: bool): Pc {
    match x.pc
    case AtHead => if flag || x.iteration >= k.maxIterations then AtExit else AtInit
    case AtInit => if done then AtCount else AtPrefill
    case AtPrefill => AtSelect
    case AtSelect => AtDecode
    case AtDecode => AtVerify
    case AtVerify => AtCommit
    case AtCommit => AtCount
    case AtCount => if b == 0 then AtPoll else AtNext
    case AtPoll => if count >= blocks then AtRaise else AtNext
    case AtRaise => AtNext
    case AtNext => AtHead
    case AtExit => AtExit
  }

  function NextBlock(k: Launch, b: nat, x: Block, done: bool, count: int, blocks: nat, flag: bool): Block {
    Block(NextPc(k, b, x, done, count, blocks, flag),
          if x.pc == AtNext then x.iteration + 1 else x.iteration,
          x.counted || (x.pc == AtCount && done),
          x.initialized || x.pc == AtInit)
  }

  /** One atomic step of block `b`. */
  function StepBlock(p: Program, s: Mega, b: nat): Mega
    requires |s.blocks| == |s.mem.requests| && b < |s.blocks|
  {
    var x := s.blocks[b];
    var l := StageAt(p, x.pc, x.initialized, Load(p.launch, s.mem, b));
    var y := NextBlock(p.launch, b, x, l.req.IsDone(), s.counter, |s.blocks|, s.flag);
    Mega(Store(s.mem, b, l), s.blocks[b := y],
         if y.counted && !x.counted then s.counter + 1 else s.counter,
         s.flag || x.pc == AtRaise)
  }

  /** An interleaving: which block moves, step by step; other numbers are idle steps. */
  function Run(p: Program, s: Mega, schedule: seq<nat>): (t: Mega)
    requires |s.blocks| == |s.mem.requests|
    ensures |t.blocks| == |t.mem.requests| == |s.blocks|
  {
    if schedule == [] then s
    else
      var t := Run(p, s, schedule[..|schedule| - 1]);
      var b := schedule[|schedule| - 1];
      if b < |t.blocks| then StepBlock(p, t, b) else t
  }

  /** At launch: nothing counted, flag down. */
  function Start(m: Memory): Mega {
    Mega(m, seq(|m.requests|, i => Block(AtHead, 0, false, false)), 0, false)
  }

  // --------------------------------------------------------------- a block alone

  function AloneBody(p: Program, l: Local, first: bool): Local {
    var l1 := if first then p.init(l) else l;
    if l1.req.IsDone() then l1
    else p.stage(AtCommit, p.stage(AtVerify, p.stage(AtDecode, p.stage(AtSelect, p.stage(AtPrefill, l1)))))
  }

  /** The block's memory after `n` iterations of its own. */
  function Alone(p: Program, l: Local, n: nat): Local {
    if n == 0 then l else AloneBody(p, Alone(p, l, n - 1), n == 1)
  }

  /** A block's memory at a program point of iteration `i`, if it ran alone. */
  function AloneAt(p: Program, l0: Local, pc: Pc, i: nat): Local {
    var base := Alone(p, l0, i);
    var start := if i == 0 then p.init(base) else base;
    match pc
    case AtHead => base
    case AtInit => base
    case AtExit => base
    case AtPrefill => start
    case AtSelect => p.stage(AtPrefill, start)
    case AtDecode => p.stage(AtSelect, p.stage(AtPrefill, start))
    case AtVerify => p.stage(AtDecode, p.stage(AtSelect, p.stage(AtPrefill, start)))
    case AtCommit => p.stage(AtVerify, p.stage(AtDecode, p.stage(AtSelect, p.stage(AtPrefill, start))))
    case _ => AloneBody(p, base, i == 0)
  }

  // --------------------------------------------------------------- the invariant

  /** The block is where its own run would be. */
  ghost predicate OnTrack(p: Program, l0: Local, x: Block, l: Local) {
    && l == AloneAt(p, l0, x.pc, x.iteration)
    && x.iteration <= p.launch.maxIterations
    && (x.pc != AtHead && x.pc != AtExit ==> x.iteration < p.launch.maxIterations)
    && (x.initialized <==> x.iteration > 0 || x.pc !in {AtHead, AtInit, AtExit})
    && (x.pc == AtExit ==> x.iteration == p.launch.maxIterations || x.counted)
    && (Staging(x.pc) ==> !AloneAt(p, l0, AtPrefill, x.iteration).req.IsDone())
    && (x.counted ==> l.req.IsDone() && !Staging(x.pc) && (x.iteration > 0 || x.pc in {AtPoll, AtRaise, AtNext}))
  }

  /** Alone or not, a block's next step follows its own run. */
  lemma StepOnTrack(p: Program, l0: Local, b: nat, x: Block, l: Local, count: int, blocks: nat, flag: bool)
    requires OnTrack(p, l0, x, l) && (flag ==> x.counted)
    ensures var n := StageAt(p, x.pc, x.initialized, l);
      OnTrack(p, l0, NextBlock(p.launch, b, x, n.req.IsDone(), count, blocks, flag), n)
  {}

  /** A block alone never leaves its place or outgrows it. */
  ghost predicate InPlace(p: Program, l0: Local) {
    forall pc: Pc, i: nat :: Stays(p.launch, l0.req, AloneAt(p, l0, pc, i))
  }

  function Counted(blocks: seq<Block>): set<int> { set b | 0 <= b < |blocks| && blocks[b].counted }

  lemma CountedStep(blocks: seq<Block>, b: nat, y: Block)
    requires b < |blocks| && (blocks[b].counted ==> y.counted)
    ensures |Counted(blocks[b := y])| == |Counted(blocks)| + if y.counted && !blocks[b].counted then 1 else 0
    ensures Counted(blocks) <= Counted(blocks[b := y])
  {
    if y.counted && !blocks[b].counted {
      assert Counted(blocks[b := y]) == Counted(blocks) + {b};
    } else {
      assert Counted(blocks[b := y]) == Counted(blocks);
    }
  }

  lemma AllCountedBySize(blocks: seq<Block>)
    requires |Counted(blocks)| >= |blocks|
    ensures forall b :: 0 <= b < |blocks| ==> blocks[b].counted
  {
    var all := Elems(Range(0, |blocks|));
    NoDupSize(Range(0, |blocks|));
    forall b | b in Counted(blocks) ensures b in all {
      RangeMember(0, |blocks|, b);
    }
    if exists b :: 0 <= b < |blocks| && !blocks[b].counted {
      var b :| 0 <= b < |blocks| && !blocks[b].counted;
      RangeMember(0, |blocks|, b);
      assert Counted(blocks) <= all - {b};
      SubsetSize(Counted(blocks), all - {b});
    }
  }

  /** Raised, or about to be. */
  predicate Raising(s: Mega) { s.flag || exists b :: 0 <= b < |s.blocks| && s.blocks[b].pc == AtRaise }

  /** Memory outside every request's own part is as it was. */
  ghost predicate Untouched(k: Launch, m0: Memory, m: Memory) {
    && |m.pages| == |m0.pages| && |m.drafts| == |m0.drafts|
    && (forall i :: 0 <= i < |m.pages| && (forall b :: 0 <= b < |m0.requests| ==> !OwnsPage(m0.requests[b], i)) ==>
          m.pages[i] == m0.pages[i])
    && (forall i :: 0 <= i < |m.drafts| && (forall b :: 0 <= b < |m0.requests| ==> !OwnsDraft(k, m0.requests[b], i)) ==>
          m.drafts[i] == m0.drafts[i])
  }

  predicate OwnsPage(r: Descriptor, i: int) { r.kvOffset <= i < r.kvOffset + r.kvPages }

  predicate OwnsDraft(k: Launch, r: Descriptor, i: int) { k.hasDrafts && r.draftOffset <= i < r.draftOffset + k.region }

  lemma StoreUntouched(k: Launch, m0: Memory, m: Memory, b: nat, l: Local)
    requires Untouched(k, m0, m) && b < |m.requests| == |m0.requests| && SamePlace(m0.requests[b], m.requests[b])
    requires |l.pages| == Max(m.requests[b].kvPages, 0) && |l.draft| == (if k.hasDrafts then k.region else 0)
    ensures Untouched(k, m0, Store(m, b, l))
  {
    var n := Store(m, b, l);
    forall i | 0 <= i < |n.pages| && (forall c :: 0 <= c < |m0.requests| ==> !OwnsPage(m0.requests[c], i))
      ensures n.pages[i] == m0.pages[i]
    {
      assert !OwnsPage(m0.requests[b], i);
    }
    forall i | 0 <= i < |n.drafts| && (forall c :: 0 <= c < |m0.requests| ==> !OwnsDraft(k, m0.requests[c], i))
      ensures n.drafts[i] == m0.drafts[i]
    {
      assert !OwnsDraft(k, m0.requests[b], i);
    }
  }

  // ------------------------------------------------- counting, for any program and memory

  /** A counted block is done and past its stages; past them, a done block is counted unless it is about to be. */
  predicate CountOk(x: Block, done: bool) {
    && (x.counted ==> done && x.initialized && !Staging(x.pc))
    && (x.pc !in {AtHead, AtInit, AtExit} ==> x.initialized)
    && (done && x.initialized && !Staging(x.pc) && x.pc != AtCount ==> x.counted)
  }

  ghost predicate ProtocolInv(s: Mega) {
    && |s.blocks| == |s.mem.requests| && s.counter == |Counted(s.blocks)|
    && (Raising(s) ==> forall b :: 0 <= b < |s.blocks| ==> s.blocks[b].counted)
    && (forall b :: 0 <= b < |s.blocks| ==> CountOk(s.blocks[b], s.mem.requests[b].IsDone()))
  }

  /** The flag goes up only after every block has been counted. */
  lemma StepKeepsFlag(p: Program, s: Mega, b: nat)
    requires |s.blocks| == |s.mem.requests| && b < |s.blocks| && s.counter == |Counted(s.blocks)|
    requires Raising(s) ==> forall c :: 0 <= c < |s.blocks| ==> s.blocks[c].counted
    ensures var t := StepBlock(p, s, b); Raising(t) ==> forall c :: 0 <= c < |t.blocks| ==> t.blocks[c].counted
  {
    var x, t := s.blocks[b], StepBlock(p, s, b);
    if x.pc == AtPoll && t.blocks[b].pc == AtRaise {
      AllCountedBySize(s.blocks);
    } else {
      assert forall c :: 0 <= c < |t.blocks| && t.blocks[c].pc == AtRaise ==> s.blocks[c].pc == AtRaise;
    }
  }

  lemma ProtocolStart(m: Memory)
    ensures ProtocolInv(Start(m))
  {
    assert Counted(Start(m).blocks) == {};
  }

  lemma ProtocolStep(p: Program, s: Mega, b: nat)
    requires ProtocolInv(s) && b < |s.blocks|
    ensures ProtocolInv(StepBlock(p, s, b))
  {
    var x, t := s.blocks[b], StepBlock(p, s, b);
    assert CountOk(x, s.mem.requests[b].IsDone());
    CountedStep(s.blocks, b, t.blocks[b]);
    StepKeepsFlag(p, s, b);
    forall c | 0 <= c < |t.blocks| ensures CountOk(t.blocks[c], t.mem.requests[c].IsDone()) {
      assert CountOk(s.blocks[c], s.mem.requests[c].IsDone());
    }
  }

  lemma {:induction false} ProtocolRun(p: Program, m: Memory, schedule: seq<nat>)
    ensures ProtocolInv(Run(p, Start(m), schedule))
  {
    if schedule == [] {
      ProtocolStart(m);
    } else {
      var k := |schedule| - 1;
      ProtocolRun(p, m, schedule[..k]);
      if schedule[k] < |m.requests| {
        ProtocolStep(p, Run(p, Start(m), schedule[..k]), schedule[k]);
      }
    }
  }

  /**
   Every interleaving of any block program over any memory, at every point: the
   counter is the number of counted blocks, a counted request is done, and the
   shutdown flag is up only if every request is done.
   */
  lemma CounterAndFlag(p: Program, m: Memory, schedule: seq<nat>)
    ensures var s := Run(p, Start(m), schedule);
      && s.counter == |Counted(s.blocks)|
      && (forall b: nat :: b in Counted(s.blocks) ==> s.mem.requests[b].IsDone())
      && (s.flag ==> s.counter == |s.blocks| && forall b: nat :: b < |s.blocks| ==> s.mem.requests[b].IsDone())
  {
    ProtocolRun(p, m, schedule);
    var s := Run(p, Start(m), schedule);
    forall b: nat | b < |s.blocks| && s.blocks[b].counted ensures s.mem.requests[b].IsDone() {
      assert CountOk(s.blocks[b], s.mem.requests[b].IsDone());
    }
    if s.flag {
      AllCounted(s.blocks);
    }
  }

  lemma AllCounted(blocks: seq<Block>)
    requires forall b :: 0 <= b < |blocks| ==> blocks[b].counted
    ensures |Counted(blocks)| == |blocks|
  {
    forall b ensures b in Range(0, |blocks|) <==> b in Counted(blocks) {
      RangeMember(0, |blocks|, b);
    }
    SetSize(Range(0, |blocks|), Counted(blocks));
  }

  /** What every interleaving keeps. */
  ghost predicate KernelInv(p: Program, m0: Memory, s: Mega) {
    && |s.blocks| == |s.mem.requests| == |m0.requests|
    && Laid(p.launch, s.mem) && Untouched(p.launch, m0, s.mem)
    && (forall b: nat :: b < |s.blocks| ==>
          OnTrack(p, Load(p.launch, m0, b), s.blocks[b], Load(p.launch, s.mem, b))
          && SamePlace(m0.requests[b], s.mem.requests[b]))
    && ProtocolInv(s)
  }

  lemma StartInv(p: Program, m0: Memory)
    requires Laid(p.launch, m0)
    ensures KernelInv(p, m0, Start(m0))
  {
    ProtocolStart(m0);
  }

  lemma StepKeepsInv(p: Program, m0: Memory, s: Mega, b: nat)
    requires KernelInv(p, m0, s) && b < |s.blocks| && InPlace(p, Load(p.launch, m0, b))
    ensures KernelInv(p, m0, StepBlock(p, s, b))
  {
    var k, x, l0, l := p.launch, s.blocks[b], Load(p.launch, m0, b), Load(p.launch, s.mem, b);
    var n := StageAt(p, x.pc, x.initialized, l);
    var y := NextBlock(k, b, x, n.req.IsDone(), s.counter, |s.blocks|, s.flag);
    assert OnTrack(p, l0, x, l);
    StepOnTrack(p, l0, b, x, l, s.counter, |s.blocks|, s.flag);
    assert n == AloneAt(p, l0, y.pc, y.iteration);
    assert Stays(k, l0.req, n);
    StoreIsPrivate(k, s.mem, b, n);
    StoreUntouched(k, m0, s.mem, b, n);
    ProtocolStep(p, s, b);
  }

  lemma {:induction false} RunInv(p: Program, m0: Memory, schedule: seq<nat>)
    requires Laid(p.launch, m0) && forall b: nat :: b < |m0.requests| ==> InPlace(p, Load(p.launch, m0, b))
    ensures KernelInv(p, m0, Run(p, Start(m0), schedule))
  {
    if schedule == [] {
      StartInv(p, m0);
    } else {
      var k := |schedule| - 1;
      RunInv(p, m0, schedule[..k]);
      var b := schedule[k];
      if b < |m0.requests| {
        StepKeepsInv(p, m0, Run(p, Start(m0), schedule[..k]), b);
      }
    }
  }

  // ------------------------------------------------------------ fair schedules finish

  function PcRank(pc: Pc): nat {
    match pc
    case AtHead => 12
    case AtInit => 11
    case AtPrefill => 10
    case AtSelect => 9
    case AtDecode => 8
    case AtVerify => 7
    case AtCommit => 6
    case AtCount => 5
    case AtPoll => 4
    case AtRaise => 3
    case AtNext => 2
    case AtExit => 0
  }

  /** Steps a block may still take. */
  function StepsLeft(k: Launch, x: Block): int {
    if x.pc == AtExit then 0 else 12 * (k.maxIterations - x.iteration) + PcRank(x.pc)
  }

  /** Steps after which a block has surely left its loop. */
  function StepsPerBlock(k: Launch): nat { 12 * (k.maxIterations + 1) }

  lemma StepUsesOne(p: Program, s: Mega, b: nat, l0: Local)
    requires |s.blocks| == |s.mem.requests| && b < |s.blocks|
    requires OnTrack(p, l0, s.blocks[b], Load(p.launch, s.mem, b))
    ensures StepsLeft(p.launch, s.blocks[b]) >= 0
    ensures s.blocks[b].pc != AtExit ==>
      StepsLeft(p.launch, StepBlock(p, s, b).blocks[b]) <= StepsLeft(p.launch, s.blocks[b]) - 1
    ensures s.blocks[b].pc == AtExit ==> StepBlock(p, s, b).blocks[b].pc == AtExit
  {}

  lemma {:induction false} ScheduledExits(p: Program, m0: Memory, schedule: seq<nat>, b: nat)
    requires Laid(p.launch, m0) && forall c: nat :: c < |m0.requests| ==> InPlace(p, Load(p.launch, m0, c))
    requires b < |m0.requests|
    ensures var x := Run(p, Start(m0), schedule).blocks[b];
      0 <= StepsLeft(p.launch, x) <= Max(0, StepsPerBlock(p.launch) - multiset(schedule)[b])
  {
    if schedule != [] {
      var k := |schedule| - 1;
      var before, c := schedule[..k], schedule[k];
      assert schedule == before + [c];
      ScheduledExits(p, m0, before, b);
      RunInv(p, m0, before);
      var s := Run(p, Start(m0), before);
      assert OnTrack(p, Load(p.launch, m0, b), s.blocks[b], Load(p.launch, s.mem, b));
      if c == b {
        StepUsesOne(p, s, b, Load(p.launch, m0, b));
        RunInv(p, m0, schedule);
      }
    }
  }

  // ------------------------------------------------------------- the actual kernel

  function ProgramOf(k: Launch): Program
    requires k.pageSize >= 1
  {
    Program(k, l => InitBlock(k, l), (pc: Pc, l: Local) => KernelStage(k, pc, l))
  }

  function KernelStage(k: Launch, pc: Pc, l: Local): Local {
    match pc
    case AtPrefill => DoPrefill(l)
    case AtSelect => DoSelect(l)
    case AtDecode => DoDecode(k, l)
    case AtVerify => DoVerify(k, l)
    case AtCommit => if k.pageSize >= 1 then DoCommit(k, l) else l
    case _ => l
  }

  lemma StageIs(k: Launch, l: Local)
    requires k.pageSize >= 1
    ensures var p := ProgramOf(k);
      && p.init(l) == InitBlock(k, l) && p.stage(AtPrefill, l) == DoPrefill(l) && p.stage(AtSelect, l) == DoSelect(l)
      && p.stage(AtDecode, l) == DoDecode(k, l) && p.stage(AtVerify, l) == DoVerify(k, l)
      && p.stage(AtCommit, l) == DoCommit(k, l)
  {}

  /** The nest of stages is the same, seen either way. */
  lemma StagesAgree(p: Program, l: Local, a: Local, b: Local, c: Local, d: Local, e: Local)
    requires p.stage(AtPrefill, l) == a && p.stage(AtSelect, a) == b && p.stage(AtDecode, b) == c
    requires p.stage(AtVerify, c) == d && p.stage(AtCommit, d) == e
    ensures p.stage(AtCommit, p.stage(AtVerify, p.stage(AtDecode, p.stage(AtSelect, p.stage(AtPrefill, l))))) == e
  {}

  lemma BodyAgrees(k: Launch, l: Local, first: bool)
    requires k.pageSize >= 1
    ensures AloneBody(ProgramOf(k), l, first) == Body(k, l, first)
  {
    var l0 := if first then InitBlock(k, l) else l;
    StageIs(k, l);
    StageIs(k, l0);
    var a := DoPrefill(l0);
    StageIs(k, a);
    var b := DoSelect(a);
    StageIs(k, b);
    var c := DoDecode(k, b);
    StageIs(k, c);
    var d := DoVerify(k, c);
    StageIs(k, d);
    StagesAgree(ProgramOf(k), l0, a, b, c, d, DoCommit(k, d));
  }

  lemma {:induction false} AloneIsIterations(k: Launch, l: Local, n: nat)
    requires k.pageSize >= 1
    ensures Alone(ProgramOf(k), l, n) == Iterations(k, l, n)
  {
    if n > 0 {
      AloneIsIterations(k, l, n - 1);
      BodyAgrees(k, Iterations(k, l, n - 1), n == 1);
    }
  }

  predicate Stays(k: Launch, r: Descriptor, n: Local) { Sized(k, n) && SamePlace(r, n.req) }

  lemma AtInPlace(p: Program, l0: Local, pc: Pc, i: nat, start: Local, a: Local, b: Local, c: Local, d: Local)
    requires start == (if i == 0 then p.init(Alone(p, l0, i)) else Alone(p, l0, i))
    requires p.stage(AtPrefill, start) == a && p.stage(AtSelect, a) == b && p.stage(AtDecode, b) == c
    requires p.stage(AtVerify, c) == d
    requires Stays(p.launch, l0.req, Alone(p, l0, i)) && Stays(p.launch, l0.req, start)
    requires Stays(p.launch, l0.req, a) && Stays(p.launch, l0.req, b) && Stays(p.launch, l0.req, c)
    requires Stays(p.launch, l0.req, d) && Stays(p.launch, l0.req, AloneBody(p, Alone(p, l0, i), i == 0))
    ensures Stays(p.launch, l0.req, AloneAt(p, l0, pc, i))
  {}

  /** The values a block goes through in one iteration. */
  lemma StageChain(k: Launch, l: Local, first: bool, r: Descriptor)
    returns (start: Local, a: Local, b: Local, c: Local, d: Local)
    requires k.pageSize >= 1 && Sized(k, l) && SamePlace(r, l.req)
    requires if first then DraftsFit(k, l.req) else Settled(k, l.req)
    ensures var p := ProgramOf(k);
      && start == (if first then p.init(l) else l)
      && p.stage(AtPrefill, start) == a && p.stage(AtSelect, a) == b
      && p.stage(AtDecode, b) == c && p.stage(AtVerify, c) == d
      && Stays(k, r, start) && Stays(k, r, a) && Stays(k, r, b) && Stays(k, r, c) && Stays(k, r, d)
      && Stays(k, r, AloneBody(p, l, first))
  {
    StagesKeepPlace(k, if first then InitBlock(k, l) else l);
    BodyAgrees(k, l, first);
    start := if first then InitBlock(k, l) else l;
    StageIs(k, l);
    StageIs(k, start);
    a := DoPrefill(start);
    StageIs(k, a);
    b := DoSelect(a);
    StageIs(k, b);
    c := DoDecode(k, b);
    StageIs(k, c);
    d := DoVerify(k, c);
  }

  lemma KernelInPlace(k: Launch, l: Local)
    requires k.pageSize >= 1 && Sized(k, l) && DraftsFit(k, l.req)
    ensures InPlace(ProgramOf(k), l)
  {
    forall pc: Pc, i: nat ensures Stays(k, l.req, AloneAt(ProgramOf(k), l, pc, i)) {
      AloneIsIterations(k, l, i);
      IterationsKeepPlace(k, l, i);
      var start, a, b, c, d := StageChain(k, Alone(ProgramOf(k), l, i), i == 0, l.req);
      AtInPlace(ProgramOf(k), l, pc, i, start, a, b, c, d);
    }
  }

  /** Requests have their own pages and draft regions, long enough for every draft. */
  ghost predicate Separated(k: Launch, m0: Memory) {
    && k.pageSize >= 1 && Laid(k, m0)
    && (forall b: nat :: b < |m0.requests| ==> DraftsFit(k, m0.requests[b]))
  }

  /** A launch as the host prepares it. */
  ghost predicate Launched(k: Launch, m0: Memory) {
    && Separated(k, m0)
    && (forall b: nat :: b < |m0.requests| ==>
          ReadyRequest(m0.requests[b]) && k.maxIterations >= 1 && k.maxIterations >= m0.requests[b].maxNew)
  }

  /** Request `b` as the host sets it up: four pages, a draft region and the token of a fresh prefill. */
  predicate HostRequest(k: Launch, r: Descriptor, b: nat) {
    && r.requestId == b + 1 && r.state == DecodeReady && r.outputCount == 0 && r.kvOffset == 4 * b && r.kvPages == 4
    && r.draftOffset == b * k.region && r.lastToken == Rem(r.requestId * 7 + 3, VOCABULARY)
  }

  /** The host's own launches satisfy everything that is asked of a launch. */
  lemma HostIsLaunched(k: Launch, m: Memory)
    requires k.pageSize >= 1 && k.hasDrafts && k.initialBlock >= 1 && k.region == 4 * k.initialBlock
    requires |m.pages| == 4 * |m.requests| && |m.drafts| == |m.requests| * k.region && k.maxIterations >= 1
    requires forall b: nat :: b < |m.requests| ==>
      HostRequest(k, m.requests[b], b) && m.requests[b].maxNew <= k.maxIterations
    ensures Launched(k, m)
  {
    forall b: nat | b < |m.requests|
      ensures Placed(k, m, m.requests[b]) && Sized(k, Load(k, m, b)) && DraftsFit(k, m.requests[b])
    {
      assert HostRequest(k, m.requests[b], b);
      MulStep(b, k.region);
      MulLe(0, b, k.region);
      MulLe(b + 1, |m.requests|, k.region);
      HostLaunchFits(k, m.requests[b]);
    }
    forall b: nat, c: nat | b < |m.requests| && c < |m.requests| && b != c
      ensures Apart(k, m.requests[b], m.requests[c])
    {
      assert HostRequest(k, m.requests[b], b) && HostRequest(k, m.requests[c], c);
      MulStep(b, k.region);
      MulStep(c, k.region);
      MulLe(if b < c then b + 1 else c + 1, if b < c then c else b, k.region);
    }
    assert forall b: nat :: b < |m.requests| ==> HostRequest(k, m.requests[b], b);
  }

  lemma LaunchedInv(k: Launch, m0: Memory, schedule: seq<nat>)
    requires Separated(k, m0)
    ensures KernelInv(ProgramOf(k), m0, Run(ProgramOf(k), Start(m0), schedule))
  {
    forall b: nat | b < |m0.requests| ensures InPlace(ProgramOf(k), Load(k, m0, b)) {
      KernelInPlace(k, Load(k, m0, b));
    }
    RunInv(ProgramOf(k), m0, schedule);
  }

  /** A block that has left its loop: its request is done, and its memory is that of its own full run. */
  lemma ExitedIsSolo(k: Launch, m0: Memory, schedule: seq<nat>, b: nat)
    requires Launched(k, m0) && b < |m0.requests|
    requires Run(ProgramOf(k), Start(m0), schedule).blocks[b].pc == AtExit
    ensures var s := Run(ProgramOf(k), Start(m0), schedule);
      s.mem.requests[b].IsDone() && Load(k, s.mem, b) == SoloRun(k, Load(k, m0, b))
  {
    LaunchedInv(k, m0, schedule);
    var s, l0 := Run(ProgramOf(k), Start(m0), schedule), Load(k, m0, b);
    var x := s.blocks[b];
    assert OnTrack(ProgramOf(k), l0, x, Load(k, s.mem, b));
    AloneIsIterations(k, l0, x.iteration);
    assert ReadyRequest(m0.requests[b]);
    SoloRunCompletes(k, l0);
    if x.iteration < k.maxIterations {
      DoneIsFinal(k, l0, x.iteration, k.maxIterations);
    }
  }

  /**
   Fair schedules finish: once every block has been scheduled often enough, every
   block has left its loop with its request done, and each request's descriptor,
   pages and drafts are those of a run of that block alone.
   */
  lemma FairRunCompletes(k: Launch, m0: Memory, schedule: seq<nat>)
    requires Launched(k, m0)
    requires forall b: nat :: b < |m0.requests| ==> multiset(schedule)[b] >= StepsPerBlock(k)
    ensures var s := Run(ProgramOf(k), Start(m0), schedule);
      forall b: nat :: b < |m0.requests| ==>
        s.blocks[b].pc == AtExit && s.mem.requests[b].IsDone() && Load(k, s.mem, b) == SoloRun(k, Load(k, m0, b))
  {
    var p := ProgramOf(k);
    var s := Run(p, Start(m0), schedule);
    forall b: nat | b < |m0.requests| ensures InPlace(p, Load(k, m0, b)) {
      KernelInPlace(k, Load(k, m0, b));
    }
    LaunchedInv(k, m0, schedule);
    forall b: nat | b < |m0.requests|
      ensures s.blocks[b].pc == AtExit && s.mem.requests[b].IsDone() && Load(k, s.mem, b) == SoloRun(k, Load(k, m0, b))
    {
      ScheduledExits(p, m0, schedule, b);
      assert OnTrack(p, Load(k, m0, b), s.blocks[b], Load(k, s.mem, b));
      ExitedIsSolo(k, m0, schedule, b);
    }
  }

  ghost predicate Finished(s: Mega) { forall b: nat :: b < |s.blocks| ==> s.blocks[b].pc == AtExit }

  /** A finished launch has counted every block, once. */
  lemma FinishedCounts(k: Launch, m0: Memory, schedule: seq<nat>)
    requires Launched(k, m0) && Finished(Run(ProgramOf(k), Start(m0), schedule))
    ensures Run(ProgramOf(k), Start(m0), schedule).counter == |m0.requests|
  {
    var s := Run(ProgramOf(k), Start(m0), schedule);
    LaunchedInv(k, m0, schedule);
    forall b: nat | b < |s.blocks| ensures s.blocks[b].counted {
      ExitedIsSolo(k, m0, schedule, b);
      assert OnTrack(ProgramOf(k), Load(k, m0, b), s.blocks[b], Load(k, s.mem, b));
      assert ReadyRequest(m0.requests[b]) && CountOk(s.blocks[b], s.mem.requests[b].IsDone());
    }
    AllCounted(s.blocks);
  }

  /** The order of interleaving does not matter: all finished runs leave the same device memory. */
  lemma OutcomeIsUnique(k: Launch, m0: Memory, one: seq<nat>, two: seq<nat>)
    requires Launched(k, m0)
    requires Finished(Run(ProgramOf(k), Start(m0), one)) && Finished(Run(ProgramOf(k), Start(m0), two))
    ensures Run(ProgramOf(k), Start(m0), one).mem == Run(ProgramOf(k), Start(m0), two).mem
  {
    var s, t := Run(ProgramOf(k), Start(m0), one), Run(ProgramOf(k), Start(m0), two);
    LaunchedInv(k, m0, one);
    LaunchedInv(k, m0, two);
    forall b: nat | b < |m0.requests| ensures Load(k, s.mem, b) == Load(k, t.mem, b) {
      ExitedIsSolo(k, m0, one, b);
      ExitedIsSolo(k, m0, two, b);
    }
    SameViewsSameMemory(k, m0, s.mem, t.mem);
  }

  lemma SameViewsSameMemory(k: Launch, m0: Memory, m: Memory, n: Memory)
    requires |m.requests| == |n.requests| == |m0.requests| && Laid(k, m) && Laid(k, n)
    requires Untouched(k, m0, m) && Untouched(k, m0, n)
    requires forall b: nat :: b < |m0.requests| ==>
      Load(k, m, b) == Load(k, n, b) && SamePlace(m0.requests[b], m.requests[b])
    ensures m == n
  {
    forall b: nat | b < |m0.requests| ensures m.requests[b] == n.requests[b] {
      assert Load(k, m, b).req == Load(k, n, b).req;
    }
    forall i | 0 <= i < |m.pages| ensures m.pages[i] == n.pages[i] {
      if b :| 0 <= b < |m0.requests| && OwnsPage(m0.requests[b], i) {
        SamePageAt(k, m, n, b, i);
      }
    }
    forall i | 0 <= i < |m.drafts| ensures m.drafts[i] == n.drafts[i] {
      if b :| 0 <= b < |m0.requests| && OwnsDraft(k, m0.requests[b], i) {
        SameDraftAt(k, m, n, b, i);
      }
    }
  }

  lemma SamePageAt(k: Launch, m: Memory, n: Memory, b: nat, i: int)
    requires b < |m.requests| == |n.requests| && m.requests[b] == n.requests[b] && Load(k, m, b) == Load(k, n, b)
    requires Placed(k, m, m.requests[b]) && Placed(k, n, n.requests[b]) && OwnsPage(m.requests[b], i)
    ensures 0 <= i < |m.pages| && i < |n.pages| && m.pages[i] == n.pages[i]
  {
    var r := m.requests[b];
    assert m.pages[i] == Slice(m.pages, r.kvOffset, r.kvPages)[i - r.kvOffset];
    assert n.pages[i] == Slice(n.pages, r.kvOffset, r.kvPages)[i - r.kvOffset];
  }

  lemma SameDraftAt(k: Launch, m: Memory, n: Memory, b: nat, i: int)
    requires b < |m.requests| == |n.requests| && m.requests[b] == n.requests[b] && Load(k, m, b) == Load(k, n, b)
    requires Placed(k, m, m.requests[b]) && Placed(k, n, n.requests[b]) && OwnsDraft(k, m.requests[b], i)
    ensures 0 <= i < |m.drafts| && i < |n.drafts| && m.drafts[i] == n.drafts[i]
  {
    var r := m.requests[b];
    assert m.drafts[i] == Slice(m.drafts, r.draftOffset, k.region)[i - r.draftOffset];
    assert n.drafts[i] == Slice(n.drafts, r.draftOffset, k.region)[i - r.draftOffset];
  }

  /** At its verify stage a block reads only its own draft region. */
  lemma VerifyStaysInRegion(k: Launch, m0: Memory, schedule: seq<nat>, b: nat)
    requires Separated(k, m0) && b < |m0.requests|
    ensures var r := Run(ProgramOf(k), Start(m0), schedule).mem.requests[b];
      Verifying(r) ==> VerifyLimit(r) <= k.region
  {
    LaunchedInv(k, m0, schedule);
    var s := Run(ProgramOf(k), Start(m0), schedule);
    assert Sized(k, Load(k, s.mem, b));
  }

  /** At its decode stage a block writes only its own draft region. */
  lemma DecodeStaysInRegion(k: Launch, m0: Memory, schedule: seq<nat>, b: nat)
    requires Separated(k, m0) && b < |m0.requests|
    requires Run(ProgramOf(k), Start(m0), schedule).blocks[b].pc == AtDecode
    ensures DraftCount(Run(ProgramOf(k), Start(m0), schedule).mem.requests[b]) <= k.region
  {
    LaunchedInv(k, m0, schedule);
    var s, l0 := Run(ProgramOf(k), Start(m0), schedule), Load(k, m0, b);
    assert OnTrack(ProgramOf(k), l0, s.blocks[b], Load(k, s.mem, b));
    DecodeFitsRegion(k, l0, s.blocks[b].iteration);
  }

  lemma DecodeFitsRegion(k: Launch, l0: Local, i: nat)
    requires k.pageSize >= 1 && Sized(k, l0) && DraftsFit(k, l0.req)
    requires !AloneAt(ProgramOf(k), l0, AtPrefill, i).req.IsDone()
    ensures AloneAt(ProgramOf(k), l0, AtDecode, i).req.blockSize <= k.region
  {
    AloneIsIterations(k, l0, i);
    IterationsKeepPlace(k, l0, i);
    var base := Iterations(k, l0, i);
    StageIs(k, base);
    var start := if i == 0 then InitBlock(k, base) else base;
    StageIs(k, start);
    StagesKeepPlace(k, start);
    StageIs(k, DoPrefill(start));
  }
}
