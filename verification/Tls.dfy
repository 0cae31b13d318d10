/** Thread-local storage slots of a process: eight 0x200-byte slots to a page, numbered in a byte. */
module Tls {
  import opened Outcomes
  import opened Bytes

  const TLS_BASE: nat := 0x1FF8_2000
  const SLOT: nat := 0x200

  /** Where a thread's IPC buffer lies in its slot. */
  const IPC_OFFSET: nat := 0x80

  /** The number of a page's slot; shifting the page number within a byte drops its high bits. */
  function SlotNumber(page: nat, slot: nat): Byte
    requires slot < 8
  {
    page * 8 % 0x100 + slot
  }

  /** The slot numbers of one page, the lowest on top. */
  function PageSlots(page: nat): (r: seq<Byte>)
    ensures |r| == 8 && forall i :: 0 <= i < 8 ==> r[i] == SlotNumber(page, 7 - i)
  {
    seq(8, i requires 0 <= i < 8 => SlotNumber(page, 7 - i))
  }

  /** The address of the k-th slot handed out, counting from zero. */
  function SlotAddress(k: nat): nat {
    TLS_BASE + k % 0x100 * SLOT
  }

  function PageAddress(page: nat): nat {
    TLS_BASE + page * PAGE
  }

  lemma SlotOf(page: nat, slot: nat)
    requires slot < 8
    ensures TLS_BASE + SlotNumber(page, slot) * SLOT == SlotAddress(page * 8 + slot)
  {
  }

  /** Every slot lies in a page of the first 32, which was mapped when its number first came up. */
  lemma SlotInPage(k: nat)
    ensures var home := PageAddress(k % 0x100 / 8);
      home <= SlotAddress(k) && SlotAddress(k) + SLOT <= home + PAGE && k % 0x100 / 8 <= k / 8
  {
  }

  class ProcessTls {
    var free: seq<Byte>
    var nextOffset: nat

    /** The pages mapped so far. */
    ghost var mapped: set<nat>

    /** How many slots have been handed out. */
    ghost var count: nat

    ghost predicate Valid()
      reads this
    {
      && nextOffset < 0x100 && count <= nextOffset * 8 < count + 8
      && (nextOffset > 0 ==> free == PageSlots(nextOffset - 1)[..nextOffset * 8 - count])
      && (nextOffset == 0 ==> free == [])
      && (forall i :: 0 <= i < nextOffset ==> PageAddress(i) in mapped)
    }

    constructor ()
      ensures Valid() && count == 0 && mapped == {}
    {
      free, nextOffset, mapped, count := [], 0, {}, 0;
    }

    /**
      `allocate_tls`: the k-th allocation returns slot k modulo 256 of the area, and its page is mapped.
      The page counter is one byte wide, so the allocation after 255 full pages is the first to fail.
     */
    method AllocateTls() returns (tls: Option<nat>)
      requires Valid()
      modifies this
      ensures tls.Some? <==> old(count) < 255 * 8
      ensures tls.Some? ==> Valid() && count == old(count) + 1 && tls.value == SlotAddress(old(count))
      ensures tls.Some? ==> old(mapped) <= mapped && PageAddress(old(count) / 8) in mapped
      ensures tls.Some? ==>
        exists page :: page in mapped && page <= tls.value && tls.value + SLOT <= page + PAGE
    {
      hide SlotNumber;
      hide SlotAddress;
      hide PageAddress;
      if free == [] {
        mapped := mapped + {PageAddress(nextOffset)};
        free := PageSlots(nextOffset);
        if nextOffset == 0xFF {
          return None;
        }
        nextOffset := nextOffset + 1;
      }
      ghost var page := nextOffset - 1;
      SlotOf(page, count - page * 8);
      var slot: int := free[|free| - 1];
      free := free[..|free| - 1];
      tls := Some(TLS_BASE + slot * SLOT);
      SlotInPage(count);
      ghost var home := PageAddress(count % 0x100 / 8);
      assert home in mapped && home <= tls.value && tls.value + SLOT <= home + PAGE;
      count := count + 1;
    }
  }

  // ---------------------------------------------------------------- which slots are apart

  /** The first 256 slots follow each other, each inside the page mapped for it. */
  lemma FirstSlots(k: nat)
    requires k < 0x100
    ensures SlotAddress(k) == TLS_BASE + SLOT * k
    ensures PageAddress(k / 8) <= SlotAddress(k) && SlotAddress(k) + SLOT <= PageAddress(k / 8) + PAGE
  {
  }

  predicate Apart(a: nat, b: nat, size: nat) {
    a + size <= b || b + size <= a
  }

  /** Two slots, and the IPC buffers in them, are apart unless their numbers agree modulo 256. */
  lemma ApartIff(j: nat, k: nat)
    ensures Apart(SlotAddress(j), SlotAddress(k), SLOT) <==> j % 0x100 != k % 0x100
    ensures Apart(SlotAddress(j) + IPC_OFFSET, SlotAddress(k) + IPC_OFFSET, IPC_BYTES) <==> j % 0x100 != k % 0x100
    ensures IPC_OFFSET + IPC_BYTES <= SLOT
  {
  }

  ghost predicate AllApart(n: nat) {
    forall j, k :: 0 <= j < k < n ==> Apart(SlotAddress(j), SlotAddress(k), SLOT)
  }

  /** 256 slots is the exact bound: slot zero comes back as the next one. */
  lemma AllApartIff(n: nat)
    ensures AllApart(n) <==> n <= 0x100
    ensures SlotAddress(0x100) == SlotAddress(0)
  {
    if n <= 0x100 {
      forall j, k | 0 <= j < k < n ensures Apart(SlotAddress(j), SlotAddress(k), SLOT) {
        ApartIff(j, k);
      }
    } else {
      assert !Apart(SlotAddress(0), SlotAddress(0x100), SLOT);
    }
  }
}
