/** Reader and writer over a thread's 256-byte IPC buffer: cursors, counters and the patched header. */
module IpcBuffer {
  import opened Outcomes
  import opened Bytes
  import opened Bits
  import opened Ipc

  // ---------------------------------------------------------------- bytes and words

  function WordAt(b: seq<Byte>, k: nat): Word
    requires 4 * k + 4 <= |b|
  {
    Decode(b[4 * k..4 * k + 4])
  }

  ghost function BufferWords(b: seq<Byte>): (ws: seq<Word>)
    requires |b| == IPC_BYTES
    ensures |ws| == MAX_WORDS && forall k :: 0 <= k < |ws| ==> ws[k] == WordAt(b, k)
  {
    seq(MAX_WORDS, k requires 0 <= k < MAX_WORDS => WordAt(b, k))
  }

  /** Byte `4 * k + i` of a buffer is the i-th byte, the least significant first, of its k-th word. */
  lemma BufferByte(b: seq<Byte>, k: nat, i: nat)
    requires |b| == IPC_BYTES && k < MAX_WORDS && i < 4
    ensures b[4 * k + i] == Digit(BufferWords(b)[k], i)
  {
    hide Decode;
    hide Digit;
    ValueDigits(b[4 * k..4 * k + 4]);
    hide Value;
    assert b[4 * k..4 * k + 4][i] == b[4 * k + i];
  }

  /** A request that starts with bytes 40 00 02 00 is command 2 with one normal word. */
  lemma FirstBytes(b: seq<Byte>)
    requires |b| == IPC_BYTES && b[0] == 0x40 && b[1] == 0 && b[2] == 2 && b[3] == 0
    ensures UnpackHeader(BufferWords(b)[0]) == HeaderCode(2, 1, 0)
  {
    assert Value(b[4 * 0..4 * 0 + 4]) == 0x2_0040;
  }

  /** Storing one word changes that word and no other. */
  lemma StoredWord(b: seq<Byte>, b': seq<Byte>, k: nat, w: Word)
    requires |b| == |b'| == IPC_BYTES && k < MAX_WORDS
    requires b'[4 * k..4 * k + 4] == Encode(w)
    requires forall i :: 0 <= i < |b| && !(4 * k <= i < 4 * k + 4) ==> b'[i] == b[i]
    ensures BufferWords(b') == BufferWords(b)[k := w]
  {
    DecodeEncode(w);
    hide Decode;
    hide Encode;
    forall j | 0 <= j < MAX_WORDS && j != k ensures WordAt(b', j) == WordAt(b, j) {
      assert b'[4 * j..4 * j + 4] == b[4 * j..4 * j + 4];
    }
  }

  /** The words a buffer holds. */
  ghost function View(buf: array<Byte>): (ws: seq<Word>)
    requires buf.Length == IPC_BYTES
    reads buf
    ensures |ws| == MAX_WORDS
  {
    BufferWords(buf[..])
  }

  // ---------------------------------------------------------------- writer

  class Writer {
    const buf: array<Byte>
    const commandId: CommandId
    var pos: nat
    var normals: nat
    var words: nat
    ghost const preamble: nat

    ghost predicate Placed()
      reads this`pos
    {
      buf.Length == IPC_BYTES && pos % 4 == 0 && pos <= IPC_BYTES
    }

    ghost predicate Valid()
      reads this
    {
      Placed() && 1 <= preamble && pos == 4 * (preamble + normals + words)
    }

    ghost function Written(): (ws: seq<Word>)
      requires Placed()
      reads this`pos, buf
      ensures |ws| == pos / 4
    {
      View(buf)[..pos / 4]
    }

    /** `new_request` and `new_response`: the header word is reserved, a response also stores its result. */
    constructor (command: CommandId, result: Option<Word>, data: array<Byte>)
      requires data.Length == IPC_BYTES
      modifies data
      ensures Valid() && buf == data && commandId == command && preamble == Preamble(result.Some?)
      ensures normals == 0 && words == 0 && Written() == [0] + ResultWords(result)
    {
      buf, commandId, preamble := data, command, Preamble(result.Some?);
      pos, normals, words := 0, 0, 0;
      new;
      var _ := Write(0);
      if result.Some? {
        var _ := Write(result.value);
      }
    }

    /** Stores a word at a position, the least significant byte first. */
    method Store(at: nat, w: Word)
      requires buf.Length == IPC_BYTES && at % 4 == 0 && at < IPC_BYTES
      modifies buf
      ensures View(buf) == old(View(buf))[at / 4 := w]
      ensures forall i :: 0 <= i < 4 ==> buf[at + i] == Digit(w, i)
    {
      hide Encode;
      hide Digit;
      ghost var before := buf[..];
      ghost var k := at / 4;
      var b := Encode(w);
      buf[at], buf[at + 1], buf[at + 2], buf[at + 3] := b[0], b[1], b[2], b[3];
      assert buf[..][4 * k..4 * k + 4] == b;
      StoredWord(before, buf[..], k, w);
      forall i | 0 <= i < 4 ensures buf[at + i] == Digit(w, i) {
        BufferByte(buf[..], k, i);
      }
    }

    method Write(w: Word) returns (ok: bool)
      requires Placed()
      modifies this`pos, buf
      ensures ok == (old(pos) < IPC_BYTES)
      ensures ok ==> pos == old(pos) + 4 && Written() == old(Written()) + [w]
      ensures ok ==> forall i :: 0 <= i < 4 ==> buf[old(pos) + i] == Digit(w, i)
      ensures !ok ==> pos == old(pos)
    {
      hide View;
      hide Digit;
      ok := pos + 4 <= buf.Length;
      if ok {
        Store(pos, w);
        pos := pos + 4;
      }
    }

    /** `write_normal`: refused once a translate parameter was written. */
    method WriteNormal(w: Word) returns (ok: bool)
      requires Valid()
      modifies this`pos, this`normals, buf
      ensures ok == (words == 0 && old(pos) < IPC_BYTES)
      ensures ok ==> Valid() && Written() == old(Written()) + [w] && normals == old(normals) + 1
      ensures ok ==> forall i :: 0 <= i < 4 ==> buf[old(pos) + i] == Digit(w, i)
    {
      ok := words == 0;
      if ok {
        normals := normals + 1;
        ok := Write(w);
      }
    }

    /** `write_translate`: only handle parameters are implemented. */
    method WriteTranslate(p: Param) returns (ok: bool)
      requires Valid()
      modifies this`pos, this`words, buf
      ensures ok == (Writable(p) && old(pos) / 4 + 1 + |p.handles.List()| <= MAX_WORDS)
      ensures ok ==>
        Valid() && Written() == old(Written()) + FormatParam(p) && words == old(words) + |FormatParam(p)|
    {
      hide Descriptor;
      hide Or;
      hide Shl;
      hide Written;
      hide View;
      words := words + 1;
      if !p.HandleParam? {
        return false;
      }
      var list := p.handles.List();
      if list == [] {
        return false;
      }
      DescriptorBits(p.moved, p.callingProcess, (|list| - 1) % 64 + 1);
      CountShift(|list| - 1);
      ok := Write(Or(Or(Or(0, if p.moved then 16 else 0), if p.callingProcess then 32 else 0), Shl(|list| - 1, 26)));
      if ok {
        ok := WriteHandles(list);
      }
    }

    /** The handle loop of `write_translate`. */
    method WriteHandles(list: seq<Option<Handle>>) returns (ok: bool)
      requires Valid()
      modifies this`pos, this`words, buf
      ensures ok == (old(pos) / 4 + |list| <= MAX_WORDS)
      ensures ok ==>
        Valid() && Written() == old(Written()) + RawHandles(list) && words == old(words) + |list|
    {
      hide Written;
      ghost var raw := RawHandles(list);
      for i := 0 to |list|
        invariant Valid() && words == old(words) + i
        invariant Written() == old(Written()) + raw[..i]
      {
        ok := Write(ToRaw(list[i]));
        if !ok {
          return;
        }
        words := words + 1;
        assert raw[..i] + [raw[i]] == raw[..i + 1];
      }
      assert raw[..|list|] == raw;
      ok := true;
    }

    /** Dropping the writer patches the header with the counts. */
    method Finish()
      requires Valid()
      modifies this`pos, buf
      ensures View(buf)[..old(pos) / 4] ==
        [PackHeader(HeaderCode(commandId, normals, words))] + old(Written())[1..]
      ensures forall i :: 0 <= i < 4 ==> buf[i] == Digit(PackHeader(HeaderCode(commandId, normals, words)), i)
    {
      hide Or;
      hide Shl;
      hide View;
      hide Digit;
      hide PackHeader;
      HeaderBits(HeaderCode(commandId, normals, words));
      Store(0, Or(Or(Shl(commandId, 16), Shl(normals, 6)), words));
      pos := 4;
    }
  }

  // ---------------------------------------------------------------- reader

  /** The cases of a translate parameter, on the words behind its descriptor. */
  lemma ParseCases(ws: seq<Word>)
    ensures ws == [] ==> ParseParam(ws) == None
    ensures ws != [] && ws[0] % 8 == 0 ==>
      var d, n, tail := ws[0], HandleCount(ws[0]), ws[1..];
      if |tail| < n then ParseParam(ws) == None
      else
        && ParseParam(ws) == Some(Parsed(
          HandleParam(ReadsMoved(d), ReadsCalling(d), Pack(ReadHandles(ReadsCalling(d), tail[..n]))), 1 + n))
        && ws[1 + n..] == tail[n..]
    ensures ws != [] && ws[0] % 8 != 0 ==>
      var d, tail := ws[0], ws[1..];
      if tail == [] then ParseParam(ws) == None
      else
        && ParseParam(ws) == Some(Parsed(
          if d % 8 == 1 then StaticBuffer(d / 0x400 % 16, d / 0x4000, tail[0])
          else BufferMapping(d % 8 / 2 % 4, d / 16, tail[0]), 2))
        && ws[2..] == tail[1..]
  {
    hide HandleCount;
    hide ReadsMoved;
    hide ReadsCalling;
    if ws != [] && ws[0] % 8 == 0 && |ws| >= 1 + HandleCount(ws[0]) {
      assert ws[1..1 + HandleCount(ws[0])] == ws[1..][..HandleCount(ws[0])];
    }
  }

  /** The `left` words from position `k` on, as far as the buffer goes. */
  ghost function WindowOf(view: seq<Word>, k: nat, left: nat): (ws: seq<Word>)
    requires k <= |view| == MAX_WORDS
    ensures |ws| == if k + left <= MAX_WORDS then left else MAX_WORDS - k
  {
    if k + left <= MAX_WORDS then view[k..k + left] else view[k..]
  }

  lemma WindowStep(view: seq<Word>, k: nat, left: nat)
    requires k < |view| == MAX_WORDS && left > 0
    ensures var ws := WindowOf(view, k, left);
      ws != [] && ws[0] == view[k] && ws[1..] == WindowOf(view, k + 1, left - 1)
  {
  }

  class Reader {
    const buf: array<Byte>
    var commandId: CommandId
    var result: Word
    var pos: nat
    var normals: nat
    var words: nat

    ghost predicate Valid()
      reads this
    {
      buf.Length == IPC_BYTES && pos % 4 == 0 && pos <= IPC_BYTES
    }

    /** The words a reader may still take for translate parameters. */
    ghost function Window(): (ws: seq<Word>)
      requires Valid()
      reads this, buf
      ensures |ws| == if pos / 4 + words <= MAX_WORDS then words else MAX_WORDS - pos / 4
    {
      WindowOf(View(buf), pos / 4, words)
    }

    /** `new_request` and `new_response`. */
    constructor (data: array<Byte>, reply: bool)
      requires data.Length == IPC_BYTES
      ensures Valid() && buf == data && pos == 4 * Preamble(reply)
      ensures HeaderCode(commandId, normals, words) == UnpackHeader(View(buf)[0])
      ensures result == if reply then View(buf)[1] else 0
    {
      buf := data;
      hide And;
      hide Shr;
      hide Decode;
      var w := WordAt(data[..], 0);
      HeaderMasks(w);
      hide UnpackHeader;
      commandId, normals, words := Shr(And(w, 0xFFFF_0000), 16), Shr(And(w, 0xFC0), 6), And(w, 0x3F);
      pos := 4 * Preamble(reply);
      result := if reply then WordAt(data[..], 1) else 0;
    }

    method Next() returns (r: Option<Word>)
      requires Valid()
      modifies this`pos
      ensures Valid() && r.Some? == (old(pos) < IPC_BYTES)
      ensures r.Some? ==> r.value == View(buf)[old(pos) / 4] && pos == old(pos) + 4
    {
      hide Decode;
      if pos + 4 > buf.Length {
        return None;
      }
      assert pos == 4 * (pos / 4);
      r := Some(WordAt(buf[..], pos / 4));
      pos := pos + 4;
    }

    /** `read_normal` */
    method ReadNormal() returns (r: Option<Word>)
      requires Valid()
      modifies this`pos, this`normals
      ensures Valid() && r.Some? == (old(normals) > 0 && old(pos) < IPC_BYTES)
      ensures r.Some? ==> r.value == View(buf)[old(pos) / 4] && pos == old(pos) + 4 && normals == old(normals) - 1
      ensures r.Some? ==> forall i :: 0 <= i < 4 ==> buf[old(pos) + i] == Digit(r.value, i)
    {
      hide Digit;
      if normals == 0 {
        return None;
      }
      normals := normals - 1;
      ghost var at := pos;
      r := Next();
      if r.Some? {
        forall i | 0 <= i < 4 ensures buf[at + i] == Digit(r.value, i) {
          BufferByte(buf[..], at / 4, i);
          assert buf[..][4 * (at / 4) + i] == buf[at + i];
        }
      }
    }

    /** `read_translate_word` */
    method ReadTranslateWord() returns (r: Option<Word>)
      requires Valid()
      modifies this`pos, this`words
      ensures Valid() && r.Some? == (old(Window()) != [])
      ensures r.Some? ==> r.value == old(Window())[0] && Window() == old(Window())[1..]
      ensures r.Some? ==> pos == old(pos) + 4 && words == old(words) - 1
    {
      hide View;
      if words == 0 {
        return None;
      }
      if pos < IPC_BYTES {
        WindowStep(View(buf), pos / 4, words);
      }
      words := words - 1;
      r := Next();
    }

    /** `read_translate`: one parameter from the window, or a panic when the window does not hold it. */
    method ReadTranslate() returns (r: Option<Param>)
      requires Valid()
      modifies this`pos, this`words
      ensures Valid()
      ensures r.Some? <==> normals == 0 && ParseParam(old(Window())).Some?
      ensures r.Some? ==>
        var p := ParseParam(old(Window())).value;
        && r.value == p.param && words == old(words) - p.used && pos == old(pos) + 4 * p.used
        && Window() == old(Window())[p.used..]
    {
      hide And;
      hide Shr;
      hide ReadHandle;
      hide Window;
      if normals != 0 {
        return None;
      }
      ParseCases(Window());
      hide ParseParam;
      var d := ReadTranslateWord();
      if d.None? {
        return None;
      }
      DescriptorMasks(d.value);
      BufferMasks(d.value);
      var kind := And(d.value, 7);
      if kind == 0 {
        var moved, calling := And(d.value, 16) != 0, And(d.value, 32) != 0;
        var hs := ReadHandleList(calling, Shr(And(d.value, 0xFC00_0000), 26) + 1);
        if hs.None? {
          return None;
        }
        return Some(HandleParam(moved, calling, Pack(hs.value)));
      }
      var ptr := ReadTranslateWord();
      if ptr.None? {
        return None;
      }
      if kind == 1 {
        return Some(StaticBuffer(Shr(And(d.value, 0x3C00), 10), Shr(And(d.value, 0xFFFF_C000), 14), ptr.value));
      }
      return Some(BufferMapping(Shr(And(kind, 6), 1), Shr(And(d.value, 0xFFFF_FFF0), 4), ptr.value));
    }

    /** The handle loop of `read_translate`. */
    method ReadHandleList(callingProcess: bool, count: nat) returns (r: Option<seq<Option<Handle>>>)
      requires Valid()
      modifies this`pos, this`words
      ensures Valid() && r.Some? == (count <= |old(Window())|)
      ensures r.Some? ==>
        && r.value == ReadHandles(callingProcess, old(Window())[..count])
        && words == old(words) - count && pos == old(pos) + 4 * count
        && Window() == old(Window())[count..]
    {
      hide ReadHandle;
      hide Window;
      ghost var w := Window();
      var hs := [];
      for i := 0 to count
        invariant Valid() && i <= |w| && Window() == w[i..]
        invariant words == old(words) - i && pos == old(pos) + 4 * i
        invariant hs == ReadHandles(callingProcess, w[..i])
      {
        var h := ReadTranslateWord();
        if h.None? {
          return None;
        }
        hs := hs + [ReadHandle(callingProcess, h.value)];
      }
      return Some(hs);
    }
  }
}
