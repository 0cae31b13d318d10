/** The span map as the code updates it. */
module Virt {
  import opened Outcomes
  import opened Bytes
  import opened Spans

  class VirtualMemory {
    var pages: Spans

    constructor ()
      ensures pages == map[] && WellFormed(pages)
    {
      pages := map[];
    }

    /**
      `map_memory`: the spans stay well formed exactly when the new one overlaps none that stays, and
      the flat byte map then shows the backing. A span that started at the same page is replaced
      without notice: what it held beyond the new one is no longer mapped.
     */
    method MapMemory(addr: Word, backing: seq<Byte>)
      requires |backing| % PAGE == 0
      modifies this
      ensures pages == old(pages)[PageOf(addr) := Span(|backing| / PAGE, backing)]
      ensures WellFormed(old(pages)) && |backing| / PAGE < SPAN_LIMIT ==>
        && (WellFormed(pages) <==> FitsAt(old(pages), PageOf(addr), |backing| / PAGE))
        && (WellFormed(pages) ==> forall a: nat ::
              At(pages, a) == MappedAt(old(pages), PageOf(addr), Span(|backing| / PAGE, backing), a))
    {
      hide PageOf;
      hide At;
      hide MappedAt;
      var span := Span(|backing| / PAGE, backing);
      ghost var before := pages;
      pages := pages[PageOf(addr) := span];
      if WellFormed(before) && span.size < SPAN_LIMIT {
        MapKeepsIff(before, PageOf(addr), span);
        if WellFormed(pages) {
          forall a: nat ensures At(pages, a) == MappedAt(before, PageOf(addr), span, a) {
            MapShows(before, PageOf(addr), span, a);
          }
        }
      }
    }

    /** Hands one chunk to the backing of a span, at the span-relative address. */
    method WriteChunk(b: nat, addr: nat, chunk: seq<Byte>)
      requires WellFormed(pages) && b in pages && b <= PageOf(addr)
      requires addr + |chunk| <= (b + pages[b].size) * PAGE
      modifies this
      ensures Overlaid(old(pages), pages, addr, chunk) && SameLayout(old(pages), pages) && WellFormed(pages)
    {
      hide PageOf;
      hide InPage;
      hide At;
      var item := pages[b];
      ChunkOverlays(pages, b, addr, chunk);
      pages := pages[b := item.(data := Splice(item.data, (PageOf(addr) - b) * PAGE + InPage(addr), chunk))];
    }

    /**
      `write` over a range that ends below 2^32: it succeeds exactly on mapped ranges, and is then one
      update of the flat byte map.
     */
    method Write(start: Word, bytes: seq<Byte>) returns (ok: bool)
      requires WellFormed(pages) && start + |bytes| < 0x1_0000_0000
      modifies this
      ensures ok <==> Mapped(old(pages), start, |bytes|)
      ensures ok ==> Overlaid(old(pages), pages, start, bytes)
    {
      hide PageOf;
      hide InPage;
      hide Lookup;
      hide At;
      hide Mapped;
      hide Overlaid;
      hide ChunkLength;
      hide WellFormed;
      var addr, rem := start, |bytes|;
      var pageOffset, sliceOffset := InPage(start), 0;
      OverlaidNothing(pages, start);
      while rem > 0
        invariant addr == start + sliceOffset && rem == |bytes| - sliceOffset && 0 <= sliceOffset <= |bytes|
        invariant rem > 0 ==> pageOffset == InPage(addr)
        invariant WellFormed(pages) && Overlaid(old(pages), pages, start, bytes[..sliceOffset])
        invariant Mapped(old(pages), start, |bytes|) <==> Mapped(pages, addr, rem)
        decreases rem
      {
        var found := Lookup(pages, PageOf(addr));
        if found.None? {
          Unmapped(pages, addr, rem);
          return false;
        }
        ChunkComputed(pages, found.value, addr, rem);
        var item := pages[found.value];
        var itemBytes := (item.size - (PageOf(addr) - found.value)) * PAGE - pageOffset;
        var max := if itemBytes > rem then rem else itemBytes;
        var chunk := bytes[sliceOffset..sliceOffset + max];
        NextPage(found.value + item.size);
        MappedTail(pages, found.value, addr, rem, max);
        ghost var before := pages;
        WriteChunk(found.value, addr, chunk);
        MappedSame(before, pages, addr + max, rem - max);
        OverlaidTwice(old(pages), before, pages, start, bytes[..sliceOffset], chunk);
        assert bytes[..sliceOffset] + chunk == bytes[..sliceOffset + max];
        addr, sliceOffset, rem := addr + max, sliceOffset + max, rem - max;
        pageOffset := 0;
      }
      MappedNothing(pages, addr);
      assert bytes[..sliceOffset] == bytes;
      return true;
    }

    /** `read` as written: the backing is given the untranslated address. */
    method Read(start: Word, count: nat) returns (r: Option<seq<Byte>>)
      requires WellFormed(pages) && start + count < 0x1_0000_0000
      ensures r == ReadChunks(pages, start, count, false)
    {
      hide PageOf;
      hide InPage;
      hide Lookup;
      hide ReadChunks;
      hide ChunkLength;
      hide WellFormed;
      var addr, rem := start, count;
      var pageOffset := InPage(start);
      var bytes := [];
      ghost var whole := ReadChunks(pages, start, count, false);
      assert whole.Some? ==> [] + whole.value == whole.value;
      while rem > 0
        invariant addr == start + |bytes| && rem == count - |bytes| && rem >= 0
        invariant rem > 0 ==> pageOffset == InPage(addr)
        invariant whole.Some? <==> ReadChunks(pages, addr, rem, false).Some?
        invariant whole.Some? ==> whole.value == bytes + ReadChunks(pages, addr, rem, false).value
        decreases rem
      {
        var found := Lookup(pages, PageOf(addr));
        if found.None? {
          ReadStep(pages, addr, rem, false);
          return None;
        }
        ReadJoins(pages, addr, rem, bytes);
        ChunkComputed(pages, found.value, addr, rem);
        var item := pages[found.value];
        var itemBytes := (item.size - (PageOf(addr) - found.value)) * PAGE - pageOffset;
        var max := if itemBytes > rem then rem else itemBytes;
        if addr + max > |item.data| {
          return None;
        }
        NextPage(found.value + item.size);
        bytes := bytes + item.data[addr..addr + max];
        addr, rem := addr + max, rem - max;
        pageOffset := 0;
      }
      ReadStep(pages, addr, rem, false);
      assert bytes + [] == bytes;
      return Some(bytes);
    }
  }
}
