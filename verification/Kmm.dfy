/** The page allocator itself: region descriptor and in-memory headers, updated in place. */
module Kmm {
  import opened Outcomes
  import opened Bytes
  import opened FreeList
  import opened Headers

  ghost function Starts(c: seq<Block>): set<nat> {
    set i | 0 <= i < |c| :: c[i].start
  }

  /** What `allocate_linear` leaves behind after taking `pages` from a block, told on plain values. */
  datatype Allocated = Allocated(mem: Memory, first: Option<nat>, last: Option<nat>)

  function Allocation(mem: Memory, first: Option<nat>, last: Option<nat>, b: Block, pages: nat): Allocated
    requires BlockOk(mem, b) && pages <= b.size
  {
    var head := ReadHeader(mem, b.start);
    var rem := b.size - pages;
    var rest := if rem > 0 then Some(b.start + pages) else None;
    Allocated(
      if rem > 0 then WriteHeader(mem, b.start + pages, Header(rem, head.next, head.prev)) else mem,
      if first == Some(b.start) then rest else first,
      if last == Some(b.start) then rest else last)
  }

  /** The page whose header an allocation writes: where the remainder of the block starts, if there is one. */
  function Remainder(b: Block, pages: nat): set<nat> {
    if pages < b.size then {b.start + pages} else {}
  }

  lemma AllocationWrites(mem: Memory, first: Option<nat>, last: Option<nat>, b: Block, pages: nat)
    requires BlockOk(mem, b) && pages <= b.size
    ensures OnlyHeadersOf(mem, Allocation(mem, first, last, b, pages).mem, Remainder(b, pages))
  {
    hide ReadHeader;
    hide WriteHeader;
    hide OnlyHeadersOf;
    if pages < b.size {
      var head := ReadHeader(mem, b.start);
      WriteOnlyHeader(mem, b.start + pages, Header(b.size - pages, head.next, head.prev), Remainder(b, pages));
    } else {
      OnlyHeadersRefl(mem, Remainder(b, pages));
    }
  }

  class Region {
    var mem: Memory
    var first: Option<nat>
    var last: Option<nat>
    var start: nat
    var size: nat

    /** The free blocks in address order: what following `next` from `first` spells out. */
    ghost var chain: seq<Block>

    ghost predicate Ends()
      reads this
    {
      first == FirstOf(chain) && last == LastOf(chain)
    }

    ghost predicate Valid()
      reads this
    {
      Linked(mem, chain) && Separated(chain) && Ends()
    }

    constructor (memory: Memory)
      ensures Valid() && chain == [] && mem == memory
    {
      mem, first, last, start, size, chain := memory, None, None, 0, 0, [];
    }

    /** `init_region`: the whole region becomes one free block. */
    method InitRegion(addr: Word, pages: Word)
      requires addr % PAGE == 0 && BlockOk(mem, Block(addr / PAGE, pages))
      modifies this
      ensures Valid() && chain == [Block(addr / PAGE, pages)]
      ensures start == addr && size == pages
      ensures OnlyHeadersOf(old(mem), mem, {addr / PAGE})
    {
      var ptr := addr / PAGE;
      start, size := addr, pages;
      first, last := Some(ptr), Some(ptr);
      ReadWritten(mem, ptr, Header(pages, Raw(None), Raw(None)));
      WriteOnlyHeader(mem, ptr, Header(pages, Raw(None), Raw(None)), {ptr});
      mem := WriteHeader(mem, ptr, Header(pages, Raw(None), Raw(None)));
      chain := [Block(ptr, pages)];
    }

    /** `find_insertion_point`: the neighbours between which a page belongs. */
    method FindInsertionPoint(ptr: nat) returns (prev: Option<nat>, next: Option<nat>)
      requires Valid()
      ensures var k := Position(chain, ptr);
        && prev == PrevOf(chain, k)
        && next == InsertNext(chain, k)
    {
      next, prev := first, None;
      ghost var i := 0;
      while next.Some? && next.value <= ptr
        invariant 0 <= i <= |chain|
        invariant next == InsertNext(chain, i)
        invariant prev == if i > 0 then Some(chain[i - 1].start) else None
        invariant forall j :: 0 <= j < i ==> chain[j].start <= ptr
        decreases |chain| - i
      {
        SafeRawOf(mem, chain, i);
        prev, next := next, Safe(ReadHeader(mem, next.value).next);
        i := i + 1;
      }
    }

    /**
      `merge_right`: extend a block over its right neighbour if they touch. The caller writes the
      extended header back.
     */
    method MergeRight(ptr: nat, cur: Header, ghost i: nat) returns (merged: bool, ext: Header)
      requires Linked(mem, chain) && Ordered(chain) && last == LastOf(chain)
      requires i < |chain| && chain[i].start == ptr && cur.size == chain[i].size
      requires NodeOk(mem, chain, i) && cur.next == ReadHeader(mem, ptr).next
      modifies this`mem, this`last
      ensures merged == Touches(chain, i)
      ensures |mem| == |old(mem)| && forall page: nat :: SameLinks(old(mem), mem, page)
      ensures !merged ==> mem == old(mem) && ext == cur
      ensures merged ==>
        && BlockOk(mem, chain[i + 1])
        && ext.size == chain[i].size + chain[i + 1].size
        && ext.next == ReadHeader(mem, chain[i + 1].start).next && ext.prev == cur.prev
      ensures last == LastOf(MergeAt(chain, i))
      ensures OnlyHeadersOf(old(mem), mem, Starts(chain))
      ensures HasPage(mem, ptr) && ReadHeader(mem, ptr) == old(ReadHeader(mem, ptr))
    {
      merged, ext := false, cur;
      TouchTest(mem, chain, i);
      MergeEnds(chain, i);
      var end := Offset(ptr, cur.size);
      var next := Safe(cur.next);
      if end.Some? && next.Some? && next.value == end.value {
        merged := true;
        var right := ReadHeader(mem, next.value);
        ext := Header(cur.size + right.size, right.next, cur.prev);
        var nextNext := Safe(ext.next);
        if nextNext.Some? {
          assert NodeOk(mem, chain, i + 2);
          SetPrevFacts(mem, nextNext.value, ptr, Starts(chain));
          mem := SetPrev(mem, nextNext.value, ptr);
        } else {
          last := Some(ptr);
        }
      }
    }

    /** One half of `coalesce`: merge block `i` to the right and write its header back. */
    method MergeAndWrite(ptr: nat, ghost i: nat, ghost pages: set<nat>) returns (cur: Header)
      requires Linked(mem, chain) && Ordered(chain) && Ends()
      requires i < |chain| && chain[i].start == ptr && Starts(chain) <= pages
      modifies this`mem, this`last, this`chain
      ensures chain == MergeAt(old(chain), i) && Starts(chain) <= pages
      ensures Linked(mem, chain) && Ordered(chain) && Ends()
      ensures OnlyHeadersOf(old(mem), mem, pages)
      ensures HasPage(old(mem), ptr) && cur.prev == old(ReadHeader(mem, ptr)).prev
    {
      hide ReadHeader;
      hide WriteHeader;
      hide OnlyHeadersOf;
      assert NodeOk(mem, chain, i);
      cur := ReadHeader(mem, ptr);
      var merged;
      ghost var before := mem;
      MergeOrdered(chain, i);
      MergeEnds(chain, i);
      merged, cur := MergeRight(ptr, cur, i);
      if merged {
        MergeWritten(before, mem, chain, i, cur, pages);
        mem := WriteHeader(mem, ptr, cur);
        MergeStarts(chain, i);
        chain := MergeAt(chain, i);
      } else {
        OnlyHeadersRefl(before, pages);
      }
    }

    /** `coalesce`: merge a block with its right neighbour, then its left neighbour with it. */
    method Coalesce(ptr: nat, ghost k: nat, ghost pages: set<nat>)
      requires Linked(mem, chain) && Ordered(chain) && Ends()
      requires k < |chain| && chain[k].start == ptr && Starts(chain) <= pages
      requires HasPage(mem, ptr) && k > 0 ==> 1 <= chain[k - 1].start < PAGES
      requires HasPage(mem, ptr)
        && ReadHeader(mem, ptr).prev == Raw(if k > 0 then Some(chain[k - 1].start) else None)
      modifies this`mem, this`last, this`chain
      ensures chain == MergeAt(MergeAt(old(chain), k), k as int - 1)
      ensures Linked(mem, chain) && Ordered(chain) && Ends()
      ensures OnlyHeadersOf(old(mem), mem, pages)
    {
      SafeRaw(if k > 0 then Some(chain[k - 1].start) else None);
      var cur := MergeAndWrite(ptr, k, pages);
      var prev := Safe(cur.prev);
      if prev.Some? {
        assert chain[k - 1] == old(chain)[k - 1];
        var _ := MergeAndWrite(prev.value, k - 1, pages);
      }
    }

    /** The writes of `free` that link a block in between its neighbours. */
    method WriteLinks(ptr: nat, pages: Word, prev: Option<nat>, next: Option<nat>)
      requires HasPage(mem, ptr) && ptr < PAGES && pages < PAGES
      requires prev.Some? ==> HasPage(mem, prev.value) && prev.value < PAGES
      requires next.Some? ==> HasPage(mem, next.value) && next.value < PAGES
      requires prev.None? ==> first == next
      modifies this`mem, this`first, this`last
      ensures mem == LinkMem(old(mem), Block(ptr, pages), prev, next)
      ensures first == if prev.None? then Some(ptr) else old(first)
      ensures last == if (if prev.None? then old(last).Some? else next.Some?) then old(last) else Some(ptr)
    {
      hide ReadHeader;
      hide WriteHeader;
      hide Raw;
      var block := Header(pages, Raw(None), Raw(None));
      if prev.None? {
        block := block.(next := Raw(first));
        first := Some(ptr);
        if last.None? {
          last := Some(ptr);
        }
      } else {
        block := block.(prev := Raw(prev));
        mem := WriteHeader(mem, prev.value, ReadHeader(mem, prev.value).(next := Raw(Some(ptr))));
        if next.Some? {
          block := block.(next := Raw(next));
          mem := SetPrev(mem, next.value, ptr);
        } else {
          last := Some(ptr);
        }
      }
      mem := WriteHeader(mem, ptr, block);
    }

    /** The first half of `free`: link the block in where it belongs. */
    method Link(ptr: nat, pages: Word, ghost touched: set<nat>)
      requires Valid() && BlockOk(mem, Block(ptr, pages)) && DisjointFrom(chain, Block(ptr, pages))
      requires Starts(chain) + {ptr} <= touched
      modifies this`mem, this`first, this`last, this`chain
      ensures var k := Position(old(chain), ptr);
        && chain == Insert(old(chain), k, Block(ptr, pages)) && Starts(chain) <= touched
        && k < |chain| && chain[k] == Block(ptr, pages)
        && (k > 0 ==> 1 <= chain[k - 1].start < PAGES)
        && HasPage(mem, ptr)
        && ReadHeader(mem, ptr).prev == Raw(if k > 0 then Some(chain[k - 1].start) else None)
      ensures Linked(mem, chain) && Ordered(chain) && Ends()
      ensures OnlyHeadersOf(old(mem), mem, touched)
    {
      hide ReadHeader;
      hide OnlyHeadersOf;
      hide Insert;
      hide Raw;
      ghost var b := Block(ptr, pages);
      ghost var k := Position(chain, ptr);
      LinkPlan(mem, chain, b, touched);
      var prev, next := FindInsertionPoint(ptr);
      hide Linked;
      hide Separated;
      hide Ordered;
      hide LinkMem;
      hide Starts;
      hide Position;
      hide BlockOk;
      hide DisjointFrom;
      WriteLinks(ptr, pages, prev, next);
      chain := Insert(chain, k, b);
    }

    /**
      `free` of a range that is not free yet: the chain stays separated and covers exactly the old
      free pages and the freed ones, whatever `prev` fields older blocks hold. No byte outside the
      headers of free pages is written.
     */
    method Free(addr: Word, pages: Word)
      requires Valid()
      requires addr % PAGE == 0 && BlockOk(mem, Block(addr / PAGE, pages))
      requires DisjointFrom(chain, Block(addr / PAGE, pages))
      modifies this
      ensures Valid() && chain == FreeChain(old(chain), Block(addr / PAGE, pages))
      ensures forall page: nat ::
        Covers(chain, page) <==> Covers(old(chain), page) || Within(Block(addr / PAGE, pages), page)
      ensures OnlyHeadersOf(old(mem), mem, Starts(old(chain)) + {addr / PAGE})
      ensures start == old(start) && size == old(size)
    {
      hide ReadHeader;
      hide WriteHeader;
      hide OnlyHeadersOf;
      hide Linked;
      hide Ordered;
      hide Insert;
      hide MergeAt;
      var ptr := addr / PAGE;
      ghost var k := Position(chain, ptr);
      ghost var touched := Starts(chain) + {ptr};
      FreeChainCorrect(chain, Block(ptr, pages));
      hide Separated;
      hide DisjointFrom;
      hide Covers;
      ghost var before := mem;
      Link(ptr, pages, touched);
      ghost var linked := mem;
      Coalesce(ptr, k, touched);
      OnlyHeadersTrans(before, linked, mem, touched);
    }

    /** The branch of `allocate_linear` that takes pages from a block. */
    method TakeFrom(b: Block, pages: Word)
      requires BlockOk(mem, b) && ReadHeader(mem, b.start).size == b.size && pages <= b.size
      modifies this`mem, this`first, this`last
      ensures Allocated(mem, first, last) == Allocation(old(mem), old(first), old(last), b, pages)
    {
      hide ReadHeader;
      hide WriteHeader;
      var ptr := Some(b.start);
      var block := ReadHeader(mem, b.start);
      var rem := block.size - pages;
      var rest := None;
      if rem > 0 {
        var at := Offset(b.start, pages);
        mem := WriteHeader(mem, at.value, Header(rem, block.next, block.prev));
        rest := at;
      }
      if first == ptr {
        first := rest;
      }
      if last == ptr {
        last := rest;
      }
    }

    /**
      `allocate_linear`, as written: first fit, with the remainder relinked only through the region
      descriptor. It returns a page number. The chain survives when the head block fits and is either
      split or alone.
     */
    method AllocateLinear(pages: Word) returns (page: Option<nat>)
      requires Valid()
      modifies this
      ensures page.None? <==> FirstFit(old(chain), pages) == |old(chain)|
      ensures page.None? ==> mem == old(mem) && first == old(first) && last == old(last) && chain == old(chain)
      ensures page.Some? ==>
        var b := old(chain)[FirstFit(old(chain), pages)];
        && page.value == b.start && BlockOk(old(mem), b)
        && Allocated(mem, first, last) == Allocation(old(mem), old(first), old(last), b, pages)
        && OnlyHeadersOf(old(mem), mem, Remainder(b, pages))
      ensures page.None? || HeadFit(old(chain), pages) ==> Valid()
      ensures HeadFit(old(chain), pages) ==> chain == AllocChain(old(chain), pages)
      ensures start == old(start) && size == old(size)
    {
      hide ReadHeader;
      hide AllocChain;
      hide Allocation;
      hide Separated;
      hide Raw;
      hide OnlyHeadersOf;
      var ptr := first;
      ghost var i := 0;
      while ptr.Some?
        invariant 0 <= i <= |chain| && ptr == InsertNext(chain, i)
        invariant forall j :: 0 <= j < i ==> chain[j].size < pages
        invariant mem == old(mem) && first == old(first) && last == old(last) && chain == old(chain)
        invariant start == old(start) && size == old(size)
        decreases |chain| - i
      {
        SafeRawOf(mem, chain, i);
        hide Linked;
        var block := ReadHeader(mem, ptr.value);
        if block.size >= pages {
          assert i == FirstFit(chain, pages);
          hide FirstFit;
          AllocationWrites(mem, first, last, Block(ptr.value, block.size), pages);
          TakeFrom(Block(ptr.value, block.size), pages);
          if HeadFit(chain, pages) {
            HeadAllocation(old(mem), chain, pages);
            chain := AllocChain(chain, pages);
          }
          return Some(ptr.value);
        }
        ptr := Safe(block.next);
        i := i + 1;
      }
      return None;
    }
  }

  // ---------------------------------------------------------------- linking a freed block

  lemma NotAStart(c: seq<Block>, b: Block)
    requires Separated(c) && InRange(b) && DisjointFrom(c, b)
    ensures forall i :: 0 <= i < |c| ==> c[i].start != b.start
  {
    assert Within(b, b.start);
    forall i | 0 <= i < |c| ensures c[i].start != b.start {
      assert Within(c[i], c[i].start) && Covers(c, c[i].start);
      assert !Within(b, c[i].start);
    }
  }

  lemma HeadInRange(c: seq<Block>)
    requires Separated(c)
    ensures forall i :: 0 <= i < |c| ==> InRange(c[i])
  {
  }

  lemma InsertStarts(c: seq<Block>, k: nat, b: Block)
    requires k <= |c|
    ensures Starts(Insert(c, k, b)) <= Starts(c) + {b.start}
  {
    var c1 := Insert(c, k, b);
    forall i | 0 <= i < |c1| ensures c1[i].start in Starts(c) + {b.start} {
      assert i != k ==> c1[i] == c[if i < k then i else i - 1];
    }
  }

  lemma LinkFirst(mem: Memory, c: seq<Block>, b: Block, touched: set<nat>)
    requires Linked(mem, c) && BlockOk(mem, b) && b.start in touched
    requires forall i :: 0 <= i < |c| ==> c[i].start != b.start
    requires c != [] ==> c[0].start < PAGES
    ensures var h := Header(b.size, Raw(FirstOf(c)), Raw(None));
      var mem' := WriteHeader(mem, b.start, h);
      Linked(mem', Insert(c, 0, b)) && OnlyHeadersOf(mem, mem', touched) && ReadHeader(mem', b.start) == h
  {
    var h := Header(b.size, Raw(FirstOf(c)), Raw(None));
    ReadWritten(mem, b.start, h);
    WriteOnlyHeader(mem, b.start, h, touched);
    forall j | 0 <= j < |c| ensures SameLinks(mem, WriteHeader(mem, b.start, h), c[j].start) {
      WriteKeepsOthers(mem, b.start, h, c[j].start);
    }
    InsertLinked(mem, WriteHeader(mem, b.start, h), c, 0, b);
  }

  /** The memory after the two neighbours of a new block have been pointed at it. */
  function NeighboursLinked(mem: Memory, prev: nat, next: Option<nat>, ptr: nat): (r: Memory)
    requires HasPage(mem, prev) && (next.Some? ==> HasPage(mem, next.value)) && ptr < PAGES
    ensures |r| == |mem|
  {
    var m1 := WriteHeader(mem, prev, ReadHeader(mem, prev).(next := Raw(Some(ptr))));
    if next.Some? then SetPrev(m1, next.value, ptr) else m1
  }

  lemma NeighboursFacts(mem: Memory, prev: nat, next: Option<nat>, ptr: nat, touched: set<nat>)
    requires HasPage(mem, prev) && (next.Some? ==> HasPage(mem, next.value)) && ptr < PAGES
    requires prev in touched && (next.Some? ==> next.value in touched)
    ensures var m := NeighboursLinked(mem, prev, next, ptr);
      && ReadHeader(m, prev).size == ReadHeader(mem, prev).size && ReadHeader(m, prev).next == Raw(Some(ptr))
      && (forall other: nat :: other != prev ==> SameLinks(mem, m, other))
      && OnlyHeadersOf(mem, m, touched)
  {
    hide ReadHeader;
    hide WriteHeader;
    hide OnlyHeadersOf;
    var h := ReadHeader(mem, prev).(next := Raw(Some(ptr)));
    var m1 := WriteHeader(mem, prev, h);
    ReadWritten(mem, prev, h);
    WriteOnlyHeader(mem, prev, h, touched);
    forall other: nat | other != prev ensures SameLinks(mem, m1, other) {
      WriteKeepsOthers(mem, prev, h, other);
    }
    if next.Some? {
      var m := SetPrev(m1, next.value, ptr);
      SetPrevFacts(m1, next.value, ptr, touched);
      assert SameLinks(m1, m, prev);
      forall other: nat | other != prev ensures SameLinks(mem, m, other) {
        SameLinksTrans(mem, m1, m, other);
      }
      OnlyHeadersTrans(mem, m1, m, touched);
    }
  }

  lemma LinkBetween(mem: Memory, c: seq<Block>, k: nat, b: Block, touched: set<nat>)
    requires Linked(mem, c) && Separated(c) && BlockOk(mem, b) && 0 < k <= |c|
    requires forall i :: 0 <= i < |c| ==> c[i].start != b.start
    requires Starts(c) + {b.start} <= touched
    ensures HasPage(mem, c[k - 1].start) && (k < |c| ==> HasPage(mem, c[k].start)) && b.start < PAGES
    ensures c[k - 1].start < PAGES && (k < |c| ==> c[k].start < PAGES)
    ensures var h := Header(b.size, Raw(InsertNext(c, k)), Raw(Some(c[k - 1].start)));
      var mem' := WriteHeader(NeighboursLinked(mem, c[k - 1].start, InsertNext(c, k), b.start), b.start, h);
      Linked(mem', Insert(c, k, b)) && OnlyHeadersOf(mem, mem', touched) && ReadHeader(mem', b.start) == h
  {
    assert NodeOk(mem, c, k - 1);
    assert k < |c| ==> NodeOk(mem, c, k);
    assert c[k - 1].start in Starts(c) && (k < |c| ==> c[k].start in Starts(c));
    var h := Header(b.size, Raw(InsertNext(c, k)), Raw(Some(c[k - 1].start)));
    var m := NeighboursLinked(mem, c[k - 1].start, InsertNext(c, k), b.start);
    NeighboursFacts(mem, c[k - 1].start, InsertNext(c, k), b.start, touched);
    var mem' := WriteHeader(m, b.start, h);
    ReadWritten(m, b.start, h);
    WriteOnlyHeader(m, b.start, h, touched);
    forall other: nat | other != b.start ensures SameLinks(m, mem', other) {
      WriteKeepsOthers(m, b.start, h, other);
    }
    forall j | 0 <= j < |c| && j != k - 1 ensures SameLinks(mem, mem', c[j].start) {
      assert c[j].start != c[k - 1].start;
      assert SameLinks(mem, m, c[j].start) && SameLinks(m, mem', c[j].start);
    }
    assert SameLinks(m, mem', c[k - 1].start);
    InsertLinked(mem, mem', c, k, b);
  }

  /** The memory after a block has been linked in between two neighbours, told on plain values. */
  function LinkMem(mem: Memory, b: Block, prev: Option<nat>, next: Option<nat>): (r: Memory)
    requires HasPage(mem, b.start) && b.start < PAGES && b.size < PAGES
    requires prev.Some? ==> HasPage(mem, prev.value) && prev.value < PAGES
    requires next.Some? ==> HasPage(mem, next.value) && next.value < PAGES
    ensures |r| == |mem|
  {
    WriteHeader(
      if prev.Some? then NeighboursLinked(mem, prev.value, next, b.start) else mem, b.start,
      Header(b.size, Raw(next), Raw(prev)))
  }

  function PrevOf(c: seq<Block>, k: nat): Option<nat>
    requires k <= |c|
  {
    if k > 0 then Some(c[k - 1].start) else None
  }

  /** Everything linking in a disjoint block has to achieve. */
  lemma LinkPlan(mem: Memory, c: seq<Block>, b: Block, touched: set<nat>)
    requires Linked(mem, c) && Separated(c) && BlockOk(mem, b) && DisjointFrom(c, b) && b.size < PAGES
    requires Starts(c) + {b.start} <= touched
    ensures HasPage(mem, b.start) && b.start < PAGES
    ensures var k := Position(c, b.start);
      && (k > 0 ==> HasPage(mem, c[k - 1].start) && 1 <= c[k - 1].start < PAGES)
      && (k < |c| ==> HasPage(mem, c[k].start) && 1 <= c[k].start < PAGES)
    ensures var k := Position(c, b.start);
      var c1 := Insert(c, k, b);
      && Ordered(c1) && Starts(c1) <= touched
      && |c1| == |c| + 1 && c1[k] == b && (k > 0 ==> c1[k - 1] == c[k - 1])
      && FirstOf(c1) == (if k == 0 then Some(b.start) else FirstOf(c))
      && LastOf(c1) == (if k == |c| then Some(b.start) else LastOf(c))
    ensures var k := Position(c, b.start);
      var mem' := LinkMem(mem, b, PrevOf(c, k), InsertNext(c, k));
      && Linked(mem', Insert(c, k, b)) && OnlyHeadersOf(mem, mem', touched)
      && ReadHeader(mem', b.start).prev == Raw(PrevOf(c, k))
  {
    hide ReadHeader;
    hide WriteHeader;
    hide OnlyHeadersOf;
    var k := Position(c, b.start);
    InsertOrdered(c, b);
    InsertEnds(c, k, b);
    NotAStart(c, b);
    InsertStarts(c, k, b);
    HeadInRange(c);
    hide Insert;
    hide Ordered;
    assert k > 0 ==> NodeOk(mem, c, k - 1);
    assert k < |c| ==> NodeOk(mem, c, k);
    if k == 0 {
      LinkFirst(mem, c, b, touched);
    } else {
      LinkBetween(mem, c, k, b, touched);
    }
  }

  // ---------------------------------------------------------------- allocating

  lemma HeadAllocation(mem: Memory, c: seq<Block>, pages: nat)
    requires Linked(mem, c) && Separated(c) && HeadFit(c, pages)
    ensures BlockOk(mem, c[0])
    ensures var a := Allocation(mem, FirstOf(c), LastOf(c), c[0], pages);
      var c' := AllocChain(c, pages);
      Linked(a.mem, c') && Separated(c') && a.first == FirstOf(c') && a.last == LastOf(c')
  {
    hide ReadHeader;
    hide WriteHeader;
    assert NodeOk(mem, c, 0);
    AllocChainCorrect(c, pages);
    if c[0].size > pages {
      SplitLinked(mem, c, pages);
      SplitShape(c, pages);
      hide Linked;
      hide Separated;
      hide AllocChain;
    }
  }

  lemma SplitShape(c: seq<Block>, pages: nat)
    requires Separated(c) && HeadFit(c, pages) && c[0].size > pages
    ensures var c' := AllocChain(c, pages);
      && |c'| == |c| && c'[0] == Block(c[0].start + pages, c[0].size - pages)
      && (forall i :: 0 < i < |c| ==> c'[i] == c[i] && c[i].start > c[0].start + pages)
  {
  }

  /** A later block keeps its place when its header is untouched. */
  lemma NodeKept(mem: Memory, mem': Memory, c: seq<Block>, c': seq<Block>, i: nat)
    requires |mem'| == |mem| && i < |c| == |c'| && NodeOk(mem, c, i)
    requires c'[i] == c[i] && (i + 1 < |c| ==> c'[i + 1] == c[i + 1])
    requires ReadHeader(mem', c[i].start) == ReadHeader(mem, c[i].start)
    ensures NodeOk(mem', c', i)
  {
    hide ReadHeader;
  }

  /** The remainder of a split block takes over its successor. */
  lemma RestLinked(mem: Memory, mem': Memory, c: seq<Block>, c': seq<Block>, pages: nat)
    requires |mem'| == |mem| && 0 < |c| == |c'| && NodeOk(mem, c, 0) && pages < c[0].size
    requires c'[0] == Block(c[0].start + pages, c[0].size - pages) && (1 < |c| ==> c'[1] == c[1])
    requires HasPage(mem, c[0].start + pages)
    requires ReadHeader(mem', c[0].start + pages).size == c[0].size - pages
    requires ReadHeader(mem', c[0].start + pages).next == ReadHeader(mem, c[0].start).next
    ensures NodeOk(mem', c', 0)
  {
    hide ReadHeader;
  }

  lemma SplitNodes(mem: Memory, mem': Memory, c: seq<Block>, c': seq<Block>, pages: nat)
    requires |mem'| == |mem| && 0 < |c| == |c'| && Linked(mem, c)
    requires BlockOk(mem, c[0]) && pages < c[0].size
    requires c'[0] == Block(c[0].start + pages, c[0].size - pages)
    requires HasPage(mem, c[0].start + pages)
    requires ReadHeader(mem', c[0].start + pages).size == c[0].size - pages
    requires ReadHeader(mem', c[0].start + pages).next == ReadHeader(mem, c[0].start).next
    requires forall i :: 0 < i < |c| ==>
      c'[i] == c[i] && HasPage(mem, c[i].start) && ReadHeader(mem', c[i].start) == ReadHeader(mem, c[i].start)
    ensures Linked(mem', c')
  {
    hide ReadHeader;
    hide BlockOk;
    hide HasPage;
    forall i | 0 <= i < |c'| ensures NodeOk(mem', c', i) {
      assert NodeOk(mem, c, i);
      hide NodeOk;
      if i > 0 {
        NodeKept(mem, mem', c, c', i);
      } else {
        RestLinked(mem, mem', c, c', pages);
      }
    }
  }

  lemma SplitLinked(mem: Memory, c: seq<Block>, pages: nat)
    requires Linked(mem, c) && Separated(c) && HeadFit(c, pages) && c[0].size > pages && BlockOk(mem, c[0])
    ensures Linked(Allocation(mem, FirstOf(c), LastOf(c), c[0], pages).mem, AllocChain(c, pages))
  {
    hide ReadHeader;
    hide WriteHeader;
    SplitShape(c, pages);
    var head := ReadHeader(mem, c[0].start);
    var at := c[0].start + pages;
    var h := Header(c[0].size - pages, head.next, head.prev);
    var mem' := WriteHeader(mem, at, h);
    var c' := AllocChain(c, pages);
    ReadWritten(mem, at, h);
    hide Separated;
    hide AllocChain;
    hide Raw;
    forall i | 0 < i < |c|
      ensures HasPage(mem, c[i].start) && ReadHeader(mem', c[i].start) == ReadHeader(mem, c[i].start)
    {
      assert NodeOk(mem, c, i);
      ReadElsewhere(mem, at, h, c[i].start);
    }
    hide Linked;
    SplitNodes(mem, mem', c, c', pages);
  }

  /** The state an allocation leaves is a correct free list for what remains. */
  ghost predicate KeepsChain(a: Allocated, c: seq<Block>, b: Block, pages: nat) {
    exists c' ::
      && Linked(a.mem, c') && Separated(c') && a.first == FirstOf(c') && a.last == LastOf(c')
      && (forall page: nat :: Covers(c', page) <==> Covers(c, page) && !Within(Block(b.start, pages), page))
  }

  lemma HeadFitKeeps(mem: Memory, c: seq<Block>, pages: nat)
    requires Linked(mem, c) && Separated(c) && HeadFit(c, pages)
    ensures BlockOk(mem, c[0])
    ensures KeepsChain(Allocation(mem, FirstOf(c), LastOf(c), c[0], pages), c, c[0], pages)
  {
    HeadAllocation(mem, c, pages);
    AllocChainCorrect(c, pages);
    hide Linked;
    hide Separated;
    hide Covers;
    hide Allocation;
    hide AllocChain;
    var c' := AllocChain(c, pages);
  }

  lemma OtherFitBreaks(mem: Memory, c: seq<Block>, pages: nat)
    requires Linked(mem, c) && Separated(c) && FirstFit(c, pages) < |c| && !HeadFit(c, pages)
    requires BlockOk(mem, c[FirstFit(c, pages)])
    ensures var b := c[FirstFit(c, pages)];
      !KeepsChain(Allocation(mem, FirstOf(c), LastOf(c), b, pages), c, b, pages)
  {
    hide ReadHeader;
    hide WriteHeader;
    hide Covers;
    var i := FirstFit(c, pages);
    var b := c[i];
    var a := Allocation(mem, FirstOf(c), LastOf(c), b, pages);
    forall c' | Linked(a.mem, c') && a.first == FirstOf(c')
      ensures exists page: nat ::
        Covers(c', page) != (Covers(c, page) && !Within(Block(b.start, pages), page))
    {
      if i == 0 {
        LostTail(c, pages);
        assert c' == [];
        assert Covers(c', c[1].start) != (Covers(c, c[1].start) && !Within(Block(b.start, pages), c[1].start));
      } else {
        StillFree(mem, a.mem, c, c', pages);
        assert Covers(c', b.start) != (Covers(c, b.start) && !Within(Block(b.start, pages), b.start));
      }
    }
  }

  /** Exactly the head-fitting allocations keep the chain; any other loses or duplicates free pages. */
  lemma AllocationKeepsIff(mem: Memory, c: seq<Block>, pages: nat)
    requires Linked(mem, c) && Separated(c) && FirstFit(c, pages) < |c|
    ensures var b := c[FirstFit(c, pages)];
      && BlockOk(mem, b)
      && (KeepsChain(Allocation(mem, FirstOf(c), LastOf(c), b, pages), c, b, pages) <==> HeadFit(c, pages))
  {
    hide KeepsChain;
    hide Allocation;
    hide ReadHeader;
    assert NodeOk(mem, c, FirstFit(c, pages));
    if HeadFit(c, pages) {
      HeadFitKeeps(mem, c, pages);
    } else {
      OtherFitBreaks(mem, c, pages);
    }
  }

  /** Taking a whole head block that has a successor empties the chain although pages are free. */
  lemma LostTail(c: seq<Block>, pages: nat)
    requires Separated(c) && |c| > 1 && c[0].size == pages
    ensures Covers(c, c[1].start) && !Within(Block(c[0].start, pages), c[1].start)
    ensures !Covers([], c[1].start)
  {
    assert Within(c[1], c[1].start);
  }

  /** Taking from a later block leaves its predecessor pointing at it: the taken pages stay in the chain. */
  lemma StillFree(mem: Memory, mem': Memory, c: seq<Block>, c': seq<Block>, pages: nat)
    requires Linked(mem, c) && Separated(c) && 0 < FirstFit(c, pages) < |c|
    requires var b := c[FirstFit(c, pages)];
      BlockOk(mem, b) && mem' == Allocation(mem, FirstOf(c), LastOf(c), b, pages).mem
    requires Linked(mem', c') && FirstOf(c') == FirstOf(c)
    ensures var b := c[FirstFit(c, pages)];
      Covers(c', b.start) && Within(Block(b.start, pages), b.start)
  {
    hide ReadHeader;
    hide WriteHeader;
    var i := FirstFit(c, pages);
    var b := c[i];
    forall j | 0 <= j <= i ensures BlockOk(mem, c[j]) && ReadHeader(mem', c[j].start) == ReadHeader(mem, c[j].start) {
      assert NodeOk(mem, c, j);
      if b.size > pages {
        var head := ReadHeader(mem, b.start);
        ReadElsewhere(mem, b.start + pages, Header(b.size - pages, head.next, head.prev), c[j].start);
      }
    }
    assert NodeOk(mem, c, 0) && c[0].size < pages;
    WalkAgrees(mem, mem', c, c', i);
    assert Within(c'[i], b.start);
  }

  // ---------------------------------------------------------------- merging

  lemma MergeWritten(before: Memory, mid: Memory, c: seq<Block>, i: nat, ext: Header, pages: set<nat>)
    requires Linked(before, c) && Ordered(c) && Touches(c, i) && Starts(c) <= pages
    requires |mid| == |before| && forall page: nat :: SameLinks(before, mid, page)
    requires OnlyHeadersOf(before, mid, Starts(c))
    requires BlockOk(before, c[i]) && BlockOk(before, c[i + 1])
    requires ext.size == c[i].size + c[i + 1].size && ext.next == ReadHeader(mid, c[i + 1].start).next
    ensures Linked(WriteHeader(mid, c[i].start, ext), MergeAt(c, i))
    ensures OnlyHeadersOf(before, WriteHeader(mid, c[i].start, ext), pages)
  {
    var ptr := c[i].start;
    var mem := WriteHeader(mid, ptr, ext);
    ReadWritten(mid, ptr, ext);
    assert SameLinks(before, mid, c[i + 1].start);
    forall j | 0 <= j < |c| && j != i ensures SameLinks(before, mem, c[j].start) {
      assert c[j].start != ptr;
      assert SameLinks(before, mid, c[j].start);
      WriteKeepsOthers(mid, ptr, ext, c[j].start);
    }
    MergeLinked(before, mem, c, i);
    assert ptr in Starts(c);
    WriteOnlyHeader(mid, ptr, ext, pages);
  }

  lemma MergeStarts(c: seq<Block>, i: int)
    ensures Starts(MergeAt(c, i)) <= Starts(c)
  {
    if Touches(c, i) {
      var c1 := MergeAt(c, i);
      forall j | 0 <= j < |c1| ensures c1[j].start in Starts(c) {
        assert c1[j].start == c[if j <= i then j else j + 1].start;
      }
    }
  }
}
