/** The 12-byte block headers that the page allocator keeps inside the free pages themselves. */
module Headers {
  import opened Outcomes
  import opened Bytes
  import opened FreeList

  const HEADER: nat := 12

  type Memory = seq<Byte>

  /** `next` and `prev` are raw 32-bit words, as they lie in memory. */
  datatype Header = Header(size: Word, next: Word, prev: Word)

  predicate HasPage(mem: Memory, page: nat) {
    (page + 1) * PAGE <= |mem|
  }

  function ReadWord(mem: Memory, at: nat): Word
    requires at + 4 <= |mem|
  {
    Decode(mem[at..at + 4])
  }

  function ReadHeader(mem: Memory, page: nat): Header
    requires HasPage(mem, page)
  {
    Header(ReadWord(mem, page * PAGE), ReadWord(mem, page * PAGE + 4), ReadWord(mem, page * PAGE + 8))
  }

  function HeaderBytes(h: Header): (r: seq<Byte>)
    ensures |r| == HEADER
  {
    Encode(h.size) + Encode(h.next) + Encode(h.prev)
  }

  function WriteHeader(mem: Memory, page: nat, h: Header): (r: Memory)
    requires HasPage(mem, page)
    ensures |r| == |mem|
  {
    mem[..page * PAGE] + HeaderBytes(h) + mem[page * PAGE + HEADER..]
  }

  /** Only the header bytes of one page change. */
  lemma WriteTouches(mem: Memory, page: nat, h: Header)
    requires HasPage(mem, page)
    ensures var r := WriteHeader(mem, page, h);
      && (forall a :: 0 <= a < page * PAGE ==> r[a] == mem[a])
      && (forall a :: page * PAGE + HEADER <= a < |mem| ==> r[a] == mem[a])
      && r[page * PAGE..page * PAGE + HEADER] == HeaderBytes(h)
  {
  }

  lemma ReadWritten(mem: Memory, page: nat, h: Header)
    requires HasPage(mem, page)
    ensures ReadHeader(WriteHeader(mem, page, h), page) == h
  {
    var r := WriteHeader(mem, page, h);
    var at := page * PAGE;
    WriteTouches(mem, page, h);
    assert r[at..at + 4] == HeaderBytes(h)[0..4] == Encode(h.size);
    assert r[at + 4..at + 8] == HeaderBytes(h)[4..8] == Encode(h.next);
    assert r[at + 8..at + 12] == HeaderBytes(h)[8..12] == Encode(h.prev);
    DecodeEncode(h.size);
    DecodeEncode(h.next);
    DecodeEncode(h.prev);
  }

  /** A word in memory lies there byte by byte, the least significant first. */
  lemma WordBytes(mem: Memory, at: nat)
    requires at + 4 <= |mem|
    ensures forall i :: 0 <= i < 4 ==> mem[at + i] == Digit(ReadWord(mem, at), i)
  {
    hide Decode;
    hide Digit;
    var four := mem[at..at + 4];
    ValueDigits(four);
    hide Value;
    forall i | 0 <= i < 4 ensures mem[at + i] == Digit(ReadWord(mem, at), i) {
      assert four[i] == mem[at + i];
    }
  }

  lemma ReadElsewhere(mem: Memory, page: nat, h: Header, other: nat)
    requires HasPage(mem, page) && HasPage(mem, other) && other != page
    ensures ReadHeader(WriteHeader(mem, page, h), other) == ReadHeader(mem, other)
  {
    var r := WriteHeader(mem, page, h);
    var at := other * PAGE;
    WriteTouches(mem, page, h);
    assert other < page ==> at + HEADER <= page * PAGE;
    assert other > page ==> at >= page * PAGE + PAGE;
    assert r[at..at + 4] == mem[at..at + 4];
    assert r[at + 4..at + 8] == mem[at + 4..at + 8];
    assert r[at + 8..at + 12] == mem[at + 8..at + 12];
  }

  // ---------------------------------------------------------------- pointers

  /** `into_unsafe`: a page number as a raw word, zero for none. */
  function Raw(ptr: Option<nat>): (w: Word)
    requires ptr.Some? ==> ptr.value < PAGES
    ensures w % PAGE == 0
  {
    if ptr.None? then 0 else ptr.value * PAGE
  }

  /** `from_unsafe_data` on a page-aligned word; any other word is fatal. */
  function Safe(raw: Word): Option<nat>
    requires raw % PAGE == 0
  {
    if raw / PAGE == 0 then None else Some(raw / PAGE)
  }

  lemma SafeRaw(ptr: Option<nat>)
    requires ptr.Some? ==> 1 <= ptr.value < PAGES
    ensures Safe(Raw(ptr)) == ptr
  {
  }

  /** `MemoryBlockHeaderPtr::offset`: none when the page number leaves 20 bits. */
  function Offset(page: nat, pages: nat): Option<nat> {
    if page + pages < PAGES then Some(page + pages) else None
  }

  // ---------------------------------------------------------------- the linked chain

  function NextOf(c: seq<Block>, i: nat): Option<nat>
    requires i < |c|
  {
    if i + 1 < |c| then Some(c[i + 1].start) else None
  }

  function FirstOf(c: seq<Block>): Option<nat> {
    if c == [] then None else Some(c[0].start)
  }

  function LastOf(c: seq<Block>): Option<nat> {
    if c == [] then None else Some(c[|c| - 1].start)
  }

  predicate BlockOk(mem: Memory, b: Block) {
    InRange(b) && b.End() * PAGE <= |mem|
  }

  ghost predicate NodeOk(mem: Memory, c: seq<Block>, i: nat)
    requires i < |c|
  {
    && BlockOk(mem, c[i])
    && (i + 1 < |c| ==> c[i + 1].start < PAGES)
    && ReadHeader(mem, c[i].start).size == c[i].size
    && ReadHeader(mem, c[i].start).next == Raw(NextOf(c, i))
  }

  /** Following `next` from the first block spells out the chain; `prev` fields may hold anything. */
  ghost predicate Linked(mem: Memory, c: seq<Block>) {
    forall i :: 0 <= i < |c| ==> NodeOk(mem, c, i)
  }

  /** The byte address of the block behind block `i`, or zero. */
  function NextAddress(c: seq<Block>, i: nat): nat
    requires i < |c|
  {
    if i + 1 < |c| then c[i + 1].start * 0x1000 else 0
  }

  /**
    How the chain lies in memory: at the start of each free block its size in pages, and four bytes on
    the address of the next block or zero, both with the least significant byte first.
   */
  lemma ChainBytes(mem: Memory, c: seq<Block>, i: nat)
    requires Linked(mem, c) && i < |c|
    ensures c[i].start * 0x1000 + 8 <= |mem|
    ensures forall j :: 0 <= j < 4 ==> mem[c[i].start * 0x1000 + j] == Digit(c[i].size, j)
    ensures forall j :: 0 <= j < 4 ==> mem[c[i].start * 0x1000 + 4 + j] == Digit(NextAddress(c, i), j)
  {
    hide Digit;
    assert NodeOk(mem, c, i);
    var at := c[i].start * PAGE;
    WordBytes(mem, at);
    WordBytes(mem, at + 4);
    hide ReadWord;
  }

  /** The first chain that memory spells out from a given block is the only one. */
  lemma {:induction false} WalkAgrees(mem: Memory, mem': Memory, c: seq<Block>, c': seq<Block>, i: nat)
    requires Linked(mem, c) && Linked(mem', c') && |mem'| == |mem|
    requires FirstOf(c) == FirstOf(c') && i < |c|
    requires forall j :: 0 <= j <= i ==>
      BlockOk(mem, c[j]) && ReadHeader(mem', c[j].start) == ReadHeader(mem, c[j].start)
    ensures i < |c'| && c'[i] == c[i]
  {
    hide ReadHeader;
    hide Raw;
    assert NodeOk(mem, c, i);
    if i > 0 {
      WalkAgrees(mem, mem', c, c', i - 1);
      assert NodeOk(mem, c, i - 1) && NodeOk(mem', c', i - 1);
      SafeRaw(NextOf(c, i - 1));
      SafeRawOf(mem', c', i - 1);
      assert i < |c'|;
    }
    assert NodeOk(mem', c', i);
  }

  lemma SafeRawOf(mem: Memory, c: seq<Block>, i: nat)
    requires Linked(mem, c) && i < |c|
    ensures NodeOk(mem, c, i) && Safe(ReadHeader(mem, c[i].start).next) == NextOf(c, i)
  {
    assert NodeOk(mem, c, i);
    if i + 1 < |c| {
      assert NodeOk(mem, c, i + 1);
    }
  }

  // ---------------------------------------------------------------- what an operation writes

  /** Bytes outside the headers of the given pages are untouched. */
  ghost predicate OnlyHeadersOf(mem: Memory, mem': Memory, pages: set<nat>) {
    && |mem'| == |mem|
    && forall a :: 0 <= a < |mem| && mem'[a] != mem[a] ==> a / PAGE in pages && a % PAGE < HEADER
  }

  lemma WriteOnlyHeader(mem: Memory, page: nat, h: Header, pages: set<nat>)
    requires HasPage(mem, page) && page in pages
    ensures OnlyHeadersOf(mem, WriteHeader(mem, page, h), pages)
  {
    WriteTouches(mem, page, h);
    var r := WriteHeader(mem, page, h);
    forall a | 0 <= a < |mem| && r[a] != mem[a] ensures a / PAGE in pages && a % PAGE < HEADER {
      assert page * PAGE <= a < page * PAGE + HEADER;
      assert a / PAGE == page;
    }
  }

  lemma HeaderUntouched(mem: Memory, mem': Memory, pages: set<nat>, page: nat)
    requires OnlyHeadersOf(mem, mem', pages) && HasPage(mem, page) && page !in pages
    ensures ReadHeader(mem', page) == ReadHeader(mem, page)
  {
    var at := page * PAGE;
    forall a | at <= a < at + HEADER ensures mem'[a] == mem[a] {
      assert a / PAGE == page;
    }
    assert mem'[at..at + 4] == mem[at..at + 4];
    assert mem'[at + 4..at + 8] == mem[at + 4..at + 8];
    assert mem'[at + 8..at + 12] == mem[at + 8..at + 12];
  }

  /** Another region's chain survives whatever is written to headers that are not its own. */
  lemma OtherChainKept(mem: Memory, mem': Memory, pages: set<nat>, other: seq<Block>)
    requires OnlyHeadersOf(mem, mem', pages) && Linked(mem, other)
    requires forall i :: 0 <= i < |other| ==> other[i].start !in pages
    ensures Linked(mem', other)
  {
    hide ReadHeader;
    forall i | 0 <= i < |other| ensures NodeOk(mem', other, i) {
      assert NodeOk(mem, other, i);
      HeaderUntouched(mem, mem', pages, other[i].start);
    }
  }

  lemma OnlyHeadersRefl(mem: Memory, pages: set<nat>)
    ensures OnlyHeadersOf(mem, mem, pages)
  {
  }

  lemma OnlyHeadersTrans(m0: Memory, m1: Memory, m2: Memory, pages: set<nat>)
    requires OnlyHeadersOf(m0, m1, pages) && OnlyHeadersOf(m1, m2, pages)
    ensures OnlyHeadersOf(m0, m2, pages)
  {
  }

  // ---------------------------------------------------------------- relinking

  /** The header of a page keeps its size and its successor; `prev` may differ. */
  ghost predicate SameLinks(mem: Memory, mem': Memory, page: nat) {
    && |mem'| == |mem|
    && (HasPage(mem, page) ==>
          ReadHeader(mem', page).size == ReadHeader(mem, page).size
          && ReadHeader(mem', page).next == ReadHeader(mem, page).next)
  }

  lemma SameLinksTrans(m0: Memory, m1: Memory, m2: Memory, page: nat)
    requires SameLinks(m0, m1, page) && SameLinks(m1, m2, page)
    ensures SameLinks(m0, m2, page)
  {
  }

  lemma WriteKeepsOthers(mem: Memory, page: nat, h: Header, other: nat)
    requires HasPage(mem, page) && other != page
    ensures SameLinks(mem, WriteHeader(mem, page, h), other)
  {
    if HasPage(mem, other) {
      ReadElsewhere(mem, page, h, other);
    }
  }

  /** Writing back a header with another `prev` changes no link. */
  lemma WritePrevKeepsLinks(mem: Memory, page: nat, prev: Word, other: nat)
    requires HasPage(mem, page)
    ensures SameLinks(mem, WriteHeader(mem, page, ReadHeader(mem, page).(prev := prev)), other)
  {
    if other == page {
      ReadWritten(mem, page, ReadHeader(mem, page).(prev := prev));
    } else {
      WriteKeepsOthers(mem, page, ReadHeader(mem, page).(prev := prev), other);
    }
  }

  /** The memory after a block's `prev` was pointed at another block. */
  function SetPrev(mem: Memory, page: nat, prev: nat): (r: Memory)
    requires HasPage(mem, page) && prev < PAGES
    ensures |r| == |mem|
  {
    WriteHeader(mem, page, ReadHeader(mem, page).(prev := Raw(Some(prev))))
  }

  lemma SetPrevFacts(mem: Memory, page: nat, prev: nat, pages: set<nat>)
    requires HasPage(mem, page) && prev < PAGES && page in pages
    ensures forall other: nat :: SameLinks(mem, SetPrev(mem, page, prev), other)
    ensures forall other: nat :: HasPage(mem, other) && other != page ==>
      ReadHeader(SetPrev(mem, page, prev), other) == ReadHeader(mem, other)
    ensures OnlyHeadersOf(mem, SetPrev(mem, page, prev), pages)
  {
    var h := ReadHeader(mem, page).(prev := Raw(Some(prev)));
    forall other: nat ensures SameLinks(mem, SetPrev(mem, page, prev), other) {
      WritePrevKeepsLinks(mem, page, Raw(Some(prev)), other);
    }
    forall other: nat | HasPage(mem, other) && other != page
      ensures ReadHeader(SetPrev(mem, page, prev), other) == ReadHeader(mem, other)
    {
      ReadElsewhere(mem, page, h, other);
    }
    WriteOnlyHeader(mem, page, h, pages);
  }

  /** The code's test for touching neighbours, on the words it reads. */
  lemma TouchTest(mem: Memory, c: seq<Block>, i: nat)
    requires Linked(mem, c) && Ordered(c) && i < |c|
    ensures NodeOk(mem, c, i) && Safe(ReadHeader(mem, c[i].start).next) == NextOf(c, i)
    ensures Touches(c, i) <==>
      NextOf(c, i).Some? && Offset(c[i].start, c[i].size) == NextOf(c, i)
    ensures Touches(c, i) ==> NodeOk(mem, c, i + 1) && Safe(ReadHeader(mem, c[i + 1].start).next) == NextOf(c, i + 1)
  {
    SafeRawOf(mem, c, i);
    if i + 1 < |c| {
      SafeRawOf(mem, c, i + 1);
    }
  }

  lemma InsertEnds(c: seq<Block>, k: nat, b: Block)
    requires k <= |c|
    ensures var c1 := Insert(c, k, b);
      && |c1| == |c| + 1 && c1[k] == b && (k > 0 ==> c1[k - 1] == c[k - 1])
      && FirstOf(c1) == (if k == 0 then Some(b.start) else FirstOf(c))
      && LastOf(c1) == (if k == |c| then Some(b.start) else LastOf(c))
  {
  }

  lemma MergeEnds(c: seq<Block>, m: int)
    ensures FirstOf(MergeAt(c, m)) == FirstOf(c)
    ensures LastOf(MergeAt(c, m)) == if Touches(c, m) && m + 2 == |c| then Some(c[m].start) else LastOf(c)
  {
  }

  function InsertNext(c: seq<Block>, k: nat): Option<nat> {
    if k < |c| then Some(c[k].start) else None
  }

  lemma InsertLinked(mem: Memory, mem': Memory, c: seq<Block>, k: nat, b: Block)
    requires Linked(mem, c) && k <= |c| && BlockOk(mem, b) && |mem'| == |mem|
    requires k < |c| ==> c[k].start < PAGES
    requires ReadHeader(mem', b.start).size == b.size && ReadHeader(mem', b.start).next == Raw(InsertNext(c, k))
    requires k > 0 ==>
      BlockOk(mem, c[k - 1])
      && ReadHeader(mem', c[k - 1].start).size == ReadHeader(mem, c[k - 1].start).size
      && ReadHeader(mem', c[k - 1].start).next == Raw(Some(b.start))
    requires forall j :: 0 <= j < |c| && j != k - 1 ==> SameLinks(mem, mem', c[j].start)
    ensures Linked(mem', Insert(c, k, b))
  {
    hide ReadHeader;
    hide Raw;
    hide Insert;
    var c1 := Insert(c, k, b);
    InsertIndex(c, k, b, k);
    forall i | 0 <= i < |c1| ensures NodeOk(mem', c1, i) {
      InsertIndex(c, k, b, i);
      if i + 1 < |c1| {
        InsertIndex(c, k, b, i + 1);
      }
      if i < k {
        assert NodeOk(mem, c, i);
        assert i < k - 1 ==> SameLinks(mem, mem', c[i].start);
      } else if i > k {
        assert NodeOk(mem, c, i - 1) && SameLinks(mem, mem', c[i - 1].start);
      }
    }
  }

  lemma MergeLinked(mem: Memory, mem': Memory, c: seq<Block>, m: nat)
    requires Linked(mem, c) && Touches(c, m) && |mem'| == |mem|
    requires BlockOk(mem, c[m]) && BlockOk(mem, c[m + 1])
    requires ReadHeader(mem', c[m].start).size == c[m].size + c[m + 1].size
    requires ReadHeader(mem', c[m].start).next == ReadHeader(mem, c[m + 1].start).next
    requires forall j :: 0 <= j < |c| && j != m ==> SameLinks(mem, mem', c[j].start)
    ensures Linked(mem', MergeAt(c, m))
  {
    hide ReadHeader;
    hide Raw;
    hide MergeAt;
    var c1 := MergeAt(c, m);
    MergeIndex(c, m, m);
    forall i | 0 <= i < |c1| ensures NodeOk(mem', c1, i) {
      MergeIndex(c, m, i);
      if i + 1 < |c1| {
        MergeIndex(c, m, i + 1);
      }
      if i < m {
        assert NodeOk(mem, c, i) && SameLinks(mem, mem', c[i].start);
      } else if i == m {
        assert NodeOk(mem, c, m) && NodeOk(mem, c, m + 1);
      } else {
        assert NodeOk(mem, c, i + 1) && SameLinks(mem, mem', c[i + 1].start);
      }
    }
  }
}
