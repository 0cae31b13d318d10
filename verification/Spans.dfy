/** Virtual memory as a map of page spans, and the flat byte map it stands for. */
module Spans {
  import opened Outcomes
  import opened Bytes

  const SPAN_LIMIT: nat := 0x10_0000

  function PageOf(a: nat): (page: nat)
    ensures page * PAGE <= a < (page + 1) * PAGE
  {
    a / PAGE
  }

  /** The offset of an address in its page. */
  function InPage(a: nat): (offset: nat)
    ensures offset == a - PageOf(a) * PAGE && offset < PAGE
  {
    a % PAGE
  }

  lemma NextPage(page: nat)
    ensures InPage(page * PAGE) == 0
  {
  }

  /** A span of whole pages with its backing bytes. */
  datatype Span = Span(size: nat, data: seq<Byte>)

  /** Keyed by first page. */
  type Spans = map<nat, Span>

  ghost predicate WellFormed(s: Spans) {
    && (forall b :: b in s ==> s[b].size < SPAN_LIMIT && |s[b].data| == s[b].size * PAGE)
    && (forall b, c :: b in s && c in s && b < c ==> b + s[b].size <= c)
  }

  /** The greatest key at or below a page. */
  function Below(s: Spans, page: nat): (r: Option<nat>)
    ensures r.Some? ==> r.value in s && r.value <= page && forall b :: b in s && b <= page ==> b <= r.value
    ensures r.None? ==> forall b :: b in s ==> page < b
  {
    if page in s then Some(page) else if page == 0 then None else Below(s, page - 1)
  }

  /** `lookup`: the span that holds a page. */
  function Lookup(s: Spans, page: nat): (r: Option<nat>)
    ensures r.Some? ==> r.value in s && r.value <= page < r.value + s[r.value].size
  {
    match Below(s, page)
    case None => None
    case Some(b) => if b + s[b].size > page then Some(b) else None
  }

  /** In disjoint spans, lookup finds the span exactly when there is one. */
  lemma LookupFinds(s: Spans, b: nat, page: nat)
    requires WellFormed(s) && b in s && b <= page < b + s[b].size
    ensures Lookup(s, page) == Some(b)
  {
  }

  ghost function At(s: Spans, a: nat): Option<Byte>
    requires WellFormed(s)
  {
    match Lookup(s, PageOf(a))
    case None => None
    case Some(b) => Some(s[b].data[a - b * PAGE])
  }

  ghost predicate Mapped(s: Spans, addr: nat, n: nat) {
    forall a :: addr <= a < addr + n ==> Lookup(s, PageOf(a)).Some?
  }

  /** Only contents differ. */
  ghost predicate SameLayout(s: Spans, s': Spans) {
    s'.Keys == s.Keys && forall b :: b in s ==> s'[b].size == s[b].size
  }

  lemma {:induction false} LayoutLookup(s: Spans, s': Spans, page: nat)
    requires SameLayout(s, s')
    ensures Lookup(s', page) == Lookup(s, page)
  {
    BelowSame(s, s', page);
  }

  lemma {:induction false} BelowSame(s: Spans, s': Spans, page: nat)
    requires s'.Keys == s.Keys
    ensures Below(s', page) == Below(s, page)
  {
    assert page in s <==> page in s.Keys;
    assert page in s' <==> page in s'.Keys;
    if page != 0 {
      BelowSame(s, s', page - 1);
    }
  }

  lemma MappedSame(s: Spans, s': Spans, addr: nat, n: nat)
    requires SameLayout(s, s')
    ensures Mapped(s', addr, n) <==> Mapped(s, addr, n)
  {
    hide PageOf;
    forall a | addr <= a < addr + n ensures Lookup(s', PageOf(a)) == Lookup(s, PageOf(a)) {
      LayoutLookup(s, s', PageOf(a));
    }
  }

  lemma MappedNothing(s: Spans, addr: nat)
    ensures Mapped(s, addr, 0)
  {
  }

  lemma Unmapped(s: Spans, addr: nat, n: nat)
    requires n > 0 && Lookup(s, PageOf(addr)).None?
    ensures !Mapped(s, addr, n)
  {
    assert addr <= addr < addr + n;
  }

  // ---------------------------------------------------------------- mapping

  /** A span of this size can be entered at page `b`; a span already there is replaced. */
  ghost predicate FitsAt(s: Spans, b: nat, size: nat) {
    forall c :: c in s && c != b ==> c + s[c].size <= b || b + size <= c
  }

  predicate Holds(b: nat, size: nat, a: nat) {
    b * PAGE <= a < (b + size) * PAGE
  }

  /** Mapping keeps the spans well formed exactly when the new span overlaps none that stays. */
  lemma MapKeepsIff(s: Spans, b: nat, span: Span)
    requires WellFormed(s) && span.size < SPAN_LIMIT && |span.data| == span.size * PAGE
    ensures WellFormed(s[b := span]) <==> FitsAt(s, b, span.size)
  {
    var s' := s[b := span];
    if WellFormed(s') {
      forall c | c in s && c != b ensures c + s[c].size <= b || b + span.size <= c {
        assert c in s' && b in s' && s'[c] == s[c];
      }
    }
  }

  /** After mapping, the new span shows through; what only the replaced span held is gone. */
  ghost function MappedAt(s: Spans, b: nat, span: Span, a: nat): Option<Byte>
    requires WellFormed(s) && |span.data| == span.size * PAGE
  {
    if Holds(b, span.size, a) then Some(span.data[a - b * PAGE])
    else if b in s && Holds(b, s[b].size, a) then None
    else At(s, a)
  }

  lemma MapShows(s: Spans, b: nat, span: Span, a: nat)
    requires WellFormed(s) && span.size < SPAN_LIMIT && |span.data| == span.size * PAGE
    requires WellFormed(s[b := span])
    ensures At(s[b := span], a) == MappedAt(s, b, span, a)
  {
    hide PageOf;
    hide Lookup;
    var s', page := s[b := span], PageOf(a);
    if Holds(b, span.size, a) {
      LookupFinds(s', b, page);
    } else {
      match Lookup(s', page) {
        case Some(c) => {
          LookupFinds(s, c, page);
          if b in s && Holds(b, s[b].size, a) {
            LookupFinds(s, b, page);
          }
        }
        case None =>
          if Lookup(s, page).Some? && Lookup(s, page).value != b {
            LookupFinds(s', Lookup(s, page).value, page);
          }
      }
    }
  }

  // ---------------------------------------------------------------- chunks

  /** How many bytes the span at a page can serve from an address, at most `n`. */
  function ChunkLength(s: Spans, b: nat, addr: nat, n: nat): (max: nat)
    requires b in s && b <= PageOf(addr) < b + s[b].size && n > 0
    ensures 0 < max <= n && addr + max <= (b + s[b].size) * PAGE
    ensures max < n ==> addr + max == (b + s[b].size) * PAGE
  {
    var bytes := (s[b].size - (PageOf(addr) - b)) * PAGE - InPage(addr);
    if bytes > n then n else bytes
  }

  /** The chunk as the code computes it: the bytes left in the span, but no more than asked for. */
  lemma ChunkComputed(s: Spans, b: nat, addr: nat, n: nat)
    requires b in s && b <= PageOf(addr) < b + s[b].size && n > 0
    ensures var bytes := (s[b].size - (PageOf(addr) - b)) * PAGE - InPage(addr);
      ChunkLength(s, b, addr, n) == if bytes > n then n else bytes
  {
    hide PageOf;
    hide InPage;
  }

  /** One more chunk joins the bytes read so far. */
  lemma ReadJoins(s: Spans, addr: nat, n: nat, done: seq<Byte>)
    requires n > 0 && Lookup(s, PageOf(addr)).Some?
    ensures var b := Lookup(s, PageOf(addr)).value;
      var max := ChunkLength(s, b, addr, n);
      var rest := ReadChunks(s, addr + max, n - max, false);
      var all := ReadChunks(s, addr, n, false);
      && (all.Some? <==> addr + max <= |s[b].data| && rest.Some?)
      && (addr + max <= |s[b].data| && rest.Some? ==>
            done + all.value == (done + s[b].data[addr..addr + max]) + rest.value)
  {
    hide PageOf;
    hide Lookup;
    hide ReadChunks;
    hide ChunkLength;
    ReadStep(s, addr, n, false);
    var b := Lookup(s, PageOf(addr)).value;
    var max := ChunkLength(s, b, addr, n);
    var rest := ReadChunks(s, addr + max, n - max, false);
    if addr + max <= |s[b].data| && rest.Some? {
      assert done + (s[b].data[addr..addr + max] + rest.value) == (done + s[b].data[addr..addr + max]) + rest.value;
    }
  }

  function Splice(data: seq<Byte>, at: nat, chunk: seq<Byte>): (r: seq<Byte>)
    requires at + |chunk| <= |data|
    ensures |r| == |data|
    ensures forall i :: 0 <= i < |data| ==> r[i] == if at <= i < at + |chunk| then chunk[i - at] else data[i]
  {
    data[..at] + chunk + data[at + |chunk|..]
  }

  /** The flat byte map after a range was overwritten; everything else is unchanged. */
  ghost predicate Overlaid(s: Spans, s': Spans, addr: nat, bytes: seq<Byte>) {
    && WellFormed(s) && WellFormed(s') && SameLayout(s, s')
    && forall a: nat :: At(s', a) == if addr <= a < addr + |bytes| then Some(bytes[a - addr]) else At(s, a)
  }

  lemma OverlaidNothing(s: Spans, addr: nat)
    requires WellFormed(s)
    ensures Overlaid(s, s, addr, [])
  {
  }

  lemma OverlaidTwice(s0: Spans, s1: Spans, s2: Spans, addr: nat, a: seq<Byte>, b: seq<Byte>)
    requires Overlaid(s0, s1, addr, a) && Overlaid(s1, s2, addr + |a|, b)
    ensures Overlaid(s0, s2, addr, a + b)
  {
    hide At;
    hide WellFormed;
  }

  /** Writing a chunk into one backing overlays it on the flat map. */
  lemma ChunkOverlays(s: Spans, b: nat, addr: nat, chunk: seq<Byte>)
    requires WellFormed(s) && b in s && b * PAGE <= addr && addr + |chunk| <= (b + s[b].size) * PAGE
    ensures |s[b].data| == s[b].size * PAGE
    ensures Overlaid(s, s[b := s[b].(data := Splice(s[b].data, addr - b * PAGE, chunk))], addr, chunk)
  {
    hide PageOf;
    hide Lookup;
    hide Splice;
    var data := Splice(s[b].data, addr - b * PAGE, chunk);
    var s' := s[b := s[b].(data := data)];
    assert WellFormed(s') && SameLayout(s, s');
    forall a: nat
      ensures At(s', a) == if addr <= a < addr + |chunk| then Some(chunk[a - addr]) else At(s, a)
    {
      LayoutLookup(s, s', PageOf(a));
      if addr <= a < addr + |chunk| {
        assert b <= PageOf(a) < b + s[b].size;
        LookupFinds(s, b, PageOf(a));
      }
    }
  }

  // ---------------------------------------------------------------- reading

  /**
    Reading chunk by chunk. `relative` says whether the backing is given the span-relative address,
    as writing does, or the untranslated one, as the code's `read` does. None is a panic.
   */
  function ReadChunks(s: Spans, addr: nat, n: nat, relative: bool): (r: Option<seq<Byte>>)
    ensures r.Some? ==> |r.value| == n
    decreases n
  {
    if n == 0 then Some([])
    else
      match Lookup(s, PageOf(addr))
      case None => None
      case Some(b) =>
        var max := ChunkLength(s, b, addr, n);
        var at := if relative then addr - b * PAGE else addr;
        if at + max > |s[b].data| then None
        else
          match ReadChunks(s, addr + max, n - max, relative)
          case None => None
          case Some(rest) => Some(s[b].data[at..at + max] + rest)
  }

  /** One chunk of a read. */
  lemma ReadStep(s: Spans, addr: nat, n: nat, relative: bool)
    ensures n == 0 ==> ReadChunks(s, addr, n, relative) == Some([])
    ensures n > 0 && Lookup(s, PageOf(addr)).None? ==> ReadChunks(s, addr, n, relative) == None
    ensures n > 0 && Lookup(s, PageOf(addr)).Some? ==>
      var b := Lookup(s, PageOf(addr)).value;
      var max, at := ChunkLength(s, b, addr, n), if relative then addr - b * PAGE else addr;
      var rest := ReadChunks(s, addr + max, n - max, relative);
      && (ReadChunks(s, addr, n, relative).Some? <==> at + max <= |s[b].data| && rest.Some?)
      && (at + max <= |s[b].data| && rest.Some? ==>
            ReadChunks(s, addr, n, relative) == Some(s[b].data[at..at + max] + rest.value))
  {
    hide PageOf;
    hide Lookup;
    hide ChunkLength;
  }

  /** The bytes of the flat map in a range. */
  ghost predicate Shows(s: Spans, addr: nat, bytes: seq<Byte>)
    requires WellFormed(s)
  {
    forall i :: 0 <= i < |bytes| ==> At(s, addr + i) == Some(bytes[i])
  }

  lemma MappedTail(s: Spans, b: nat, addr: nat, n: nat, max: nat)
    requires WellFormed(s) && b in s && b * PAGE <= addr && addr + max <= (b + s[b].size) * PAGE && max <= n
    ensures Mapped(s, addr, n) <==> Mapped(s, addr + max, n - max)
    ensures forall a :: addr <= a < addr + max ==> At(s, a) == Some(s[b].data[a - b * PAGE])
  {
    hide PageOf;
    forall a | addr <= a < addr + max
      ensures Lookup(s, PageOf(a)) == Some(b) && At(s, a) == Some(s[b].data[a - b * PAGE])
    {
      LookupFinds(s, b, PageOf(a));
    }
    hide At;
    hide Lookup;
  }

  /** Reading at span-relative addresses succeeds exactly on mapped ranges and shows the flat map. */
  lemma {:induction false} RelativeReadIsFlat(s: Spans, addr: nat, n: nat)
    requires WellFormed(s)
    ensures ReadChunks(s, addr, n, true).Some? <==> Mapped(s, addr, n)
    ensures Mapped(s, addr, n) ==> Shows(s, addr, ReadChunks(s, addr, n, true).value)
    decreases n
  {
    hide PageOf;
    hide Lookup;
    hide ReadChunks;
    hide ChunkLength;
    hide At;
    ReadStep(s, addr, n, true);
    if n > 0 {
      match Lookup(s, PageOf(addr)) {
        case None => assert addr <= addr < addr + n;
        case Some(b) => {
          var max := ChunkLength(s, b, addr, n);
          MappedTail(s, b, addr, n, max);
          hide Mapped;
          RelativeReadIsFlat(s, addr + max, n - max);
          if Mapped(s, addr, n) {
            var at := addr - b * PAGE;
            ShowsConcat(s, addr, s[b].data[at..at + max], ReadChunks(s, addr + max, n - max, true).value);
          }
        }
      }
    }
  }

  lemma ShowsConcat(s: Spans, addr: nat, a: seq<Byte>, b: seq<Byte>)
    requires WellFormed(s) && Shows(s, addr, a) && Shows(s, addr + |a|, b)
    ensures Shows(s, addr, a + b)
  {
    hide At;
    forall i | 0 <= i < |a + b| ensures At(s, addr + i) == Some((a + b)[i]) {
      if i >= |a| {
        assert At(s, addr + |a| + (i - |a|)) == Some(b[i - |a|]);
      }
    }
  }

  /** Reading back what was written returns it. */
  lemma ReadBack(s: Spans, s': Spans, addr: nat, bytes: seq<Byte>)
    requires Overlaid(s, s', addr, bytes)
    ensures ReadChunks(s', addr, |bytes|, true) == Some(bytes)
  {
    hide PageOf;
    hide ReadChunks;
    forall a | addr <= a < addr + |bytes| ensures Lookup(s', PageOf(a)).Some? {
      assert At(s', a) == Some(bytes[a - addr]);
    }
    hide At;
    hide Lookup;
    RelativeReadIsFlat(s', addr, |bytes|);
    var r := ReadChunks(s', addr, |bytes|, true).value;
    forall i | 0 <= i < |bytes| ensures r[i] == bytes[i] {
      assert At(s', addr + i) == Some(r[i]);
      assert At(s', addr + i) == Some(bytes[addr + i - addr]);
    }
    assert r == bytes;
  }

  // ---------------------------------------------------------------- reading as written

  /** As written, the code reads each byte of a range at its untranslated address in the span's backing. */
  lemma {:induction false} AsWrittenAt(s: Spans, addr: nat, n: nat, i: nat)
    requires WellFormed(s) && i < n && ReadChunks(s, addr, n, false).Some?
    ensures Lookup(s, PageOf(addr + i)).Some?
    ensures var data := s[Lookup(s, PageOf(addr + i)).value].data;
      addr + i < |data| && ReadChunks(s, addr, n, false).value[i] == data[addr + i]
    decreases n
  {
    hide PageOf;
    hide ReadChunks;
    hide ChunkLength;
    hide Lookup;
    ReadStep(s, addr, n, false);
    var b := Lookup(s, PageOf(addr)).value;
    var max := ChunkLength(s, b, addr, n);
    if i < max {
      LookupFinds(s, b, PageOf(addr + i));
    } else {
      AsWrittenAt(s, addr + max, n - max, i - max);
    }
  }

  /** The same spans holding zeroes, except for one byte of one span. */
  ghost function Marked(s: Spans, b: nat, at: nat): Spans {
    map c | c in s :: Span(s[c].size, seq(s[c].size * PAGE, i => if c == b && i == at then 1 else 0))
  }

  ghost predicate ReadsRight(s: Spans, addr: nat, n: nat)
    requires WellFormed(s)
  {
    && ReadChunks(s, addr, n, false).Some?
    && Shows(s, addr, ReadChunks(s, addr, n, false).value)
  }

  lemma AtBaseZero(s: Spans, addr: nat, n: nat)
    requires WellFormed(s) && n > 0 && 0 in s && addr + n <= s[0].size * PAGE
    ensures ReadsRight(s, addr, n)
  {
    hide PageOf;
    hide Lookup;
    hide ReadChunks;
    hide At;
    LookupFinds(s, 0, PageOf(addr));
    MappedTail(s, 0, addr, n, n);
    hide Mapped;
    ReadStep(s, addr, n, false);
    ReadStep(s, addr + n, 0, false);
    assert ChunkLength(s, 0, addr, n) == n;
    hide ChunkLength;
    var bytes := s[0].data[addr..addr + n];
    assert bytes + [] == bytes;
    forall i | 0 <= i < n ensures At(s, addr + i) == Some(bytes[i]) {
    }
  }

  lemma MarkedSame(s: Spans, b: nat, at: nat)
    requires WellFormed(s)
    ensures SameLayout(s, Marked(s, b, at)) && WellFormed(Marked(s, b, at))
  {
  }

  /** Where a range leaves the span at page zero, its last byte is read from the wrong place. */
  lemma LastByteMisread(s: Spans, addr: nat, n: nat)
    requires WellFormed(s) && n > 0 && Mapped(s, addr, n) && !(0 in s && addr + n <= s[0].size * PAGE)
    ensures var x := addr + n - 1;
      && Lookup(s, PageOf(x)).Some?
      && var b := Lookup(s, PageOf(x)).value;
         && b > 0 && b * PAGE <= x < (b + s[b].size) * PAGE
  {
    hide PageOf;
    hide Lookup;
    var x := addr + n - 1;
    assert addr <= x < addr + n;
  }

  lemma NotAtBaseZero(s: Spans, addr: nat, n: nat)
    requires WellFormed(s) && n > 0 && Mapped(s, addr, n) && !(0 in s && addr + n <= s[0].size * PAGE)
    ensures exists s' :: SameLayout(s, s') && WellFormed(s') && !ReadsRight(s', addr, n)
  {
    hide PageOf;
    hide ReadChunks;
    hide Lookup;
    hide Mapped;
    hide WellFormed;
    hide SameLayout;
    hide Marked;
    hide ReadsRight;
    LastByteMisread(s, addr, n);
    var x := addr + n - 1;
    var b := Lookup(s, PageOf(x)).value;
    var s' := Marked(s, b, x - b * PAGE);
    MarkedSame(s, b, x - b * PAGE);
    LayoutLookup(s, s', PageOf(x));
    MarkedMisread(s, s', b, addr, n);
    assert SameLayout(s, s') && WellFormed(s') && !ReadsRight(s', addr, n);
  }

  lemma MarkedMisread(s: Spans, s': Spans, b: nat, addr: nat, n: nat)
    requires WellFormed(s) && WellFormed(s') && n > 0 && b in s && b > 0
    requires var x := addr + n - 1;
      && b * PAGE <= x < (b + s[b].size) * PAGE && s' == Marked(s, b, x - b * PAGE)
      && Lookup(s', PageOf(x)) == Some(b)
    ensures !ReadsRight(s', addr, n)
  {
    hide PageOf;
    hide ReadChunks;
    hide Lookup;
    assert At(s', addr + (n - 1)) == Some(1);
    if ReadChunks(s', addr, n, false).Some? {
      AsWrittenAt(s', addr, n, n - 1);
      assert ReadChunks(s', addr, n, false).value[n - 1] == 0;
    }
  }

  /** The code's read is right for all contents exactly when the range lies in a span mapped at page zero. */
  lemma ReadsRightIff(s: Spans, addr: nat, n: nat)
    requires WellFormed(s) && n > 0 && Mapped(s, addr, n)
    ensures (forall s' :: SameLayout(s, s') && WellFormed(s') ==> ReadsRight(s', addr, n))
      <==> 0 in s && addr + n <= s[0].size * PAGE
  {
    if 0 in s && addr + n <= s[0].size * PAGE {
      forall s' | SameLayout(s, s') && WellFormed(s') ensures ReadsRight(s', addr, n) {
        assert 0 in s'.Keys;
        AtBaseZero(s', addr, n);
      }
    } else {
      NotAtBaseZero(s, addr, n);
    }
  }
}
