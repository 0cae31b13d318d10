/** Whole runs of the page allocator in memory, with the owners of live pages writing to them in between. */
module KmmRuns {
  import opened Outcomes
  import opened Bytes
  import opened FreeList
  import opened Headers
  import opened Kmm

  // ---------------------------------------------------------------- who owns a byte

  ghost predicate Owned(live: set<Block>, a: nat) {
    exists b :: b in live && Within(b, a / PAGE)
  }

  /** The bytes of the given ranges are untouched. */
  ghost predicate Spares(mem: Memory, mem': Memory, live: set<Block>) {
    |mem'| == |mem| && forall a :: 0 <= a < |mem| && Owned(live, a) ==> mem'[a] == mem[a]
  }

  lemma HeadersSpare(mem: Memory, mem': Memory, pages: set<nat>, live: set<Block>)
    requires OnlyHeadersOf(mem, mem', pages)
    requires forall b, page :: b in live && page in pages ==> !Within(b, page)
    ensures Spares(mem, mem', live)
  {
  }

  /** A live range lies in memory and apart from the free chain. */
  lemma LiveBlock(h: Heap, b: Block, region: Block, mem: Memory)
    requires Partition(h, region) && b in h.live && region.End() * PAGE <= |mem|
    ensures BlockOk(mem, b) && DisjointFrom(h.chain, b)
  {
    hide Separated;
    hide Covers;
    assert InRange(b);
    assert Within(b, b.End() - 1);
    assert Within(region, b.End() - 1);
  }

  lemma StartCovered(c: seq<Block>, page: nat)
    requires Separated(c) && page in Starts(c)
    ensures Covers(c, page)
  {
    var i :| 0 <= i < |c| && c[i].start == page;
    assert Within(c[i], page);
  }

  /** No live range holds the start of a free block. */
  lemma StartsNotLive(h: Heap, region: Block, b: Block, page: nat)
    requires Partition(h, region) && b in h.live && page in Starts(h.chain)
    ensures !Within(b, page)
  {
    StartCovered(h.chain, page);
  }

  /** Whatever the owners write to their live pages, the chain in memory survives. */
  lemma OwnersKeepChain(mem: Memory, mem': Memory, h: Heap, region: Block)
    requires Partition(h, region) && Linked(mem, h.chain) && |mem'| == |mem|
    requires forall a :: 0 <= a < |mem| && !Owned(h.live, a) ==> mem'[a] == mem[a]
    ensures Linked(mem', h.chain)
  {
    forall i | 0 <= i < |h.chain| ensures NodeOk(mem', h.chain, i) {
      assert NodeOk(mem, h.chain, i);
      ChainPageKept(mem, mem', h, region, i);
      hide ReadHeader;
      hide Partition;
    }
  }

  lemma ChainPageKept(mem: Memory, mem': Memory, h: Heap, region: Block, i: nat)
    requires Partition(h, region) && i < |h.chain| && BlockOk(mem, h.chain[i]) && |mem'| == |mem|
    requires forall a :: 0 <= a < |mem| && !Owned(h.live, a) ==> mem'[a] == mem[a]
    ensures ReadHeader(mem', h.chain[i].start) == ReadHeader(mem, h.chain[i].start)
  {
    var page := h.chain[i].start;
    forall b | b in h.live ensures !Within(b, page) {
      assert page in Starts(h.chain);
      StartsNotLive(h, region, b, page);
    }
    hide Partition;
    var at := page * PAGE;
    forall a | at <= a < at + HEADER ensures mem'[a] == mem[a] {
      assert a / PAGE == page;
    }
    assert mem'[at..at + 4] == mem[at..at + 4];
    assert mem'[at + 4..at + 8] == mem[at + 4..at + 8];
    assert mem'[at + 8..at + 12] == mem[at + 8..at + 12];
  }

  // ---------------------------------------------------------------- one step

  /** The ranges that are live before and after a step. */
  function Staying(h: Heap, op: HeapOp): set<Block>
    requires Allowed(h, op)
  {
    h.live * StepHeap(h, op).live
  }

  lemma AllocationSpares(h: Heap, pages: nat, region: Block)
    requires Partition(h, region) && HeadFit(h.chain, pages)
    ensures forall b, page :: b in h.live && page in Remainder(h.chain[0], pages) ==> !Within(b, page)
  {
    forall b, page | b in h.live && page in Remainder(h.chain[0], pages) ensures !Within(b, page) {
      assert Within(h.chain[0], page);
      assert Covers(h.chain, page);
    }
  }

  lemma ReleaseSpares(h: Heap, b: Block, region: Block)
    requires Partition(h, region) && b in h.live
    ensures forall c, page :: c in h.live - {b} && page in Starts(h.chain) + {b.start} ==> !Within(c, page)
  {
    assert Within(b, b.start);
    forall c, page | c in h.live - {b} && page in Starts(h.chain) + {b.start} ensures !Within(c, page) {
      if page in Starts(h.chain) {
        StartsNotLive(h, region, c, page);
      }
    }
  }

  /**
    One allocation or free of a run, in memory: it takes the step of the abstract heap, so the live
    ranges and the chain that memory spells out go on partitioning the region, and no byte of a range
    that stays live is touched.
   */
  method Serve(r: Region, op: HeapOp, ghost h: Heap, ghost region: Block) returns (page: Option<nat>)
    requires r.Valid() && h.chain == r.chain && Partition(h, region) && Allowed(h, op)
    requires region.End() * PAGE <= |r.mem|
    requires op.Allocate? ==> op.pages < 0x1_0000_0000
    modifies r
    ensures r.Valid() && r.chain == StepHeap(h, op).chain && Partition(StepHeap(h, op), region)
    ensures Spares(old(r.mem), r.mem, Staying(h, op))
    ensures op.Allocate? ==>
      && (page.None? <==> FirstFit(h.chain, op.pages) == |h.chain|)
      && (page.Some? ==> StepHeap(h, op).live == h.live + {Block(page.value, op.pages)})
  {
    hide Covers;
    hide FreeChain;
    hide AllocChain;
    hide OnlyHeadersOf;
    hide Allocation;
    StepKeepsPartition(h, op, region);
    match op {
      case Allocate(pages) => {
        if HeadFit(h.chain, pages) {
          AllocationSpares(h, pages, region);
        }
        hide Partition;
        page := r.AllocateLinear(pages);
        if page.Some? {
          HeadersSpare(old(r.mem), r.mem, Remainder(h.chain[0], pages), Staying(h, op));
        }
      }
      case Release(b) => {
        LiveBlock(h, b, region, r.mem);
        ReleaseSpares(h, b, region);
        hide Partition;
        r.Free(b.start * PAGE, b.size);
        HeadersSpare(old(r.mem), r.mem, Starts(h.chain) + {b.start}, Staying(h, op));
        page := None;
      }
    }
  }

  // ---------------------------------------------------------------- whole runs

  /** A call to the allocator, or an owner storing a byte in its pages. */
  datatype Request = Call(op: HeapOp) | Store(at: nat, value: Byte)

  /** The abstract heap, and what owners stored in ranges that are still live. */
  datatype World = World(heap: Heap, stored: map<nat, Byte>)

  ghost predicate Permitted(w: World, q: Request) {
    match q
    case Call(op) => Allowed(w.heap, op) && (op.Allocate? ==> op.pages < 0x1_0000_0000)
    case Store(at, _) => Owned(w.heap.live, at)
  }

  ghost function StepWorld(w: World, q: Request): World
    requires Permitted(w, q)
  {
    match q
    case Call(op) =>
      var h := StepHeap(w.heap, op);
      World(h, map a | a in w.stored && Owned(h.live, a) :: w.stored[a])
    case Store(at, value) => w.(stored := w.stored[at := value])
  }

  ghost predicate PermittedRun(w: World, qs: seq<Request>)
    decreases |qs|
  {
    qs == [] || (Permitted(w, qs[0]) && PermittedRun(StepWorld(w, qs[0]), qs[1..]))
  }

  ghost function RunWorld(w: World, qs: seq<Request>): World
    requires PermittedRun(w, qs)
    decreases |qs|
  {
    if qs == [] then w else RunWorld(StepWorld(w, qs[0]), qs[1..])
  }

  /** Every stored byte lies in a live range and is still in memory. */
  ghost predicate Intact(mem: Memory, w: World) {
    forall a :: a in w.stored ==> a < |mem| && mem[a] == w.stored[a] && Owned(w.heap.live, a)
  }

  ghost predicate Consistent(r: Region, w: World, region: Block)
    reads r
  {
    && r.Valid() && r.chain == w.heap.chain && Partition(w.heap, region)
    && region.End() * PAGE <= |r.mem| && Intact(r.mem, w)
  }

  /** An allocator call disturbs no stored byte of a range that stays live. */
  lemma IntactAfterCall(mem: Memory, mem': Memory, w: World, op: HeapOp)
    requires Intact(mem, w) && Allowed(w.heap, op) && Permitted(w, Call(op))
    requires Spares(mem, mem', Staying(w.heap, op))
    ensures Intact(mem', StepWorld(w, Call(op)))
  {
    var w' := StepWorld(w, Call(op));
    forall a | a in w'.stored ensures a < |mem'| && mem'[a] == w'.stored[a] && Owned(w'.heap.live, a) {
      var b :| b in w.heap.live && Within(b, a / PAGE);
      var b' :| b' in w'.heap.live && Within(b', a / PAGE);
      assert b in Staying(w.heap, op) || b' in Staying(w.heap, op);
      assert Owned(Staying(w.heap, op), a);
    }
  }

  lemma OwnedInMemory(w: World, region: Block, at: nat, size: nat)
    requires Partition(w.heap, region) && Owned(w.heap.live, at) && region.End() * PAGE <= size
    ensures at < size
  {
    var b :| b in w.heap.live && Within(b, at / PAGE);
    assert Within(region, at / PAGE);
  }

  /** An owner's store keeps the chain and every other stored byte. */
  method StoreByte(r: Region, at: nat, value: Byte, ghost w: World, ghost region: Block)
    requires Consistent(r, w, region) && Permitted(w, Store(at, value))
    modifies r`mem
    ensures Consistent(r, StepWorld(w, Store(at, value)), region)
  {
    OwnedInMemory(w, region, at, |r.mem|);
    ghost var before := r.mem;
    r.mem := r.mem[at := value];
    OwnersKeepChain(before, r.mem, w.heap, region);
    hide Partition;
    hide Linked;
    hide Separated;
  }

  method OneRequest(r: Region, q: Request, ghost w: World, ghost region: Block)
    requires Consistent(r, w, region) && Permitted(w, q)
    modifies r
    ensures Consistent(r, StepWorld(w, q), region)
  {
    hide Partition;
    hide Intact;
    match q {
      case Call(op) => {
        var _ := Serve(r, op, w.heap, region);
        IntactAfterCall(old(r.mem), r.mem, w, op);
      }
      case Store(at, value) => StoreByte(r, at, value, w, region);
    }
  }

  /**
    Over every run of allocations, frees and owners' stores from a fresh region: the chain that memory
    spells out stays right, live ranges and free blocks partition the region, and every byte an owner
    stored in a range that is still live is still there.
   */
  method FreshRun(r: Region, addr: Word, pages: Word, qs: seq<Request>)
    requires addr % PAGE == 0 && BlockOk(r.mem, Block(addr / PAGE, pages))
    requires PermittedRun(World(Heap([Block(addr / PAGE, pages)], {}), map[]), qs)
    modifies r
    ensures var w := RunWorld(World(Heap([Block(addr / PAGE, pages)], {}), map[]), qs);
      Consistent(r, w, Block(addr / PAGE, pages))
  {
    ghost var region := Block(addr / PAGE, pages);
    ghost var w := World(Heap([region], {}), map[]);
    ghost var whole := RunWorld(w, qs);
    InitialPartition(region);
    r.InitRegion(addr, pages);
    assert qs[0..] == qs && Intact(r.mem, w);
    hide Consistent;
    hide StepWorld;
    hide Permitted;
    for i := 0 to |qs|
      invariant Consistent(r, w, region)
      invariant PermittedRun(w, qs[i..]) && RunWorld(w, qs[i..]) == whole
    {
      assert qs[i..][0] == qs[i] && qs[i..][1..] == qs[i + 1..];
      OneRequest(r, qs[i], w, region);
      w := StepWorld(w, qs[i]);
    }
  }

  // ---------------------------------------------------------------- the failing allocations are reachable

  /** Six pages, three calls later: one free page in front, four at the end, one live between them. */
  lemma BrokenSoon() returns (ops: seq<HeapOp>)
    ensures var start := Heap([Block(1, 6)], {});
      && AllowedRun(start, ops)
      && RunHeap(start, ops) == Heap([Block(1, 1), Block(3, 4)], {Block(2, 1)})
  {
    var h0 := Heap([Block(1, 6)], {});
    var h1 := Heap([Block(2, 5)], {Block(1, 1)});
    var h2 := Heap([Block(3, 4)], {Block(1, 1), Block(2, 1)});
    var h3 := Heap([Block(1, 1), Block(3, 4)], {Block(2, 1)});
    TakeFirstPage(h0, h1);
    TakeFirstPage(h1, h2);
    assert h2.live - {Block(1, 1)} == h3.live;
    assert Insert(h2.chain, 0, Block(1, 1)) == h3.chain;
    assert FreeChain(h2.chain, Block(1, 1)) == h3.chain;
    ops := PrependOp(h2, Release(Block(1, 1)), h3, []);
    ops := PrependOp(h1, Allocate(1), h2, ops);
    ops := PrependOp(h0, Allocate(1), h1, ops);
  }

  /** One page taken from a heap whose only free block is larger than that. */
  lemma TakeFirstPage(h: Heap, h': Heap)
    requires |h.chain| == 1 && h.chain[0].size > 1
    requires h' == Heap([Block(h.chain[0].start + 1, h.chain[0].size - 1)], h.live + {Block(h.chain[0].start, 1)})
    ensures Allowed(h, Allocate(1)) && StepHeap(h, Allocate(1)) == h'
  {
    assert h.chain[1..] == [];
    assert AllocChain(h.chain, 1) == h'.chain;
  }

  lemma PrependOp(h: Heap, op: HeapOp, h': Heap, rest: seq<HeapOp>) returns (ops: seq<HeapOp>)
    requires Allowed(h, op) && StepHeap(h, op) == h' && AllowedRun(h', rest)
    ensures AllowedRun(h, ops) && RunHeap(h, ops) == RunHeap(h', rest)
  {
    ops := [op] + rest;
    assert ops[1..] == rest;
  }

  /**
    There the next allocation goes wrong in either way: one page takes the whole head block and leaves
    an empty chain although four pages are free; two pages come from the later block and stay in the
    chain although they are taken.
   */
  lemma BothFailuresReachable(mem: Memory)
    requires Linked(mem, [Block(1, 1), Block(3, 4)])
    ensures var c := [Block(1, 1), Block(3, 4)];
      && BlockOk(mem, c[0]) && BlockOk(mem, c[1])
      && Allocation(mem, FirstOf(c), LastOf(c), c[0], 1).first == None
      && !KeepsChain(Allocation(mem, FirstOf(c), LastOf(c), c[0], 1), c, c[0], 1)
      && !KeepsChain(Allocation(mem, FirstOf(c), LastOf(c), c[1], 2), c, c[1], 2)
  {
    var c := [Block(1, 1), Block(3, 4)];
    assert Separated(c);
    assert FirstFit(c, 1) == 0;
    assert c[1..] == [Block(3, 4)] && FirstFit(c, 2) == 1;
    AllocationKeepsIff(mem, c, 1);
    AllocationKeepsIff(mem, c, 2);
  }
}
