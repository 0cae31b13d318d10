/** IPC messages as sequences of words: the meaning that reader and writer share. */
module Ipc {
  import opened Outcomes
  import opened Bytes
  import opened Bits

  type Handle = h: Word | h != 0 witness 1
  type CommandId = c: int | 0 <= c < 0x1_0000

  /** What the reader puts in place of every handle of a calling-process parameter. */
  const CURRENT_PROCESS: Handle := 0xFFFF8001

  const MAX_WORDS: nat := 64

  datatype Handles = Single(one: Option<Handle>) | Multiple(many: seq<Option<Handle>>) {
    function List(): seq<Option<Handle>> {
      match this
      case Single(h) => [h]
      case Multiple(hs) => hs
    }
  }

  datatype Param =
    | HandleParam(moved: bool, callingProcess: bool, handles: Handles)
    | StaticBuffer(index: nat, bytes: nat, at: Word)
    | BufferMapping(permission: nat, length: nat, address: Word)

  /** A request has no result; a response has one. */
  datatype Message = Message(commandId: CommandId, result: Option<Word>, normals: seq<Word>, params: seq<Param>)

  function FromRaw(w: Word): Option<Handle> {
    if w == 0 then None else Some(w)
  }

  function ToRaw(h: Option<Handle>): Word {
    if h.None? then 0 else h.value
  }

  // ---------------------------------------------------------------- reading

  datatype HeaderCode = HeaderCode(commandId: CommandId, normals: nat, words: nat)

  function UnpackHeader(w: Word): (h: HeaderCode)
    ensures h.normals < 64 && h.words < 64
  {
    HeaderCode(w / 0x1_0000, w / 0x40 % 0x40, w % 0x40)
  }

  function HandleCount(descriptor: Word): (n: nat)
    ensures 1 <= n <= 64
  {
    descriptor / 0x400_0000 + 1
  }

  function ReadHandle(callingProcess: bool, w: Word): Option<Handle> {
    if callingProcess then Some(CURRENT_PROCESS) else FromRaw(w)
  }

  function ReadHandles(callingProcess: bool, ws: seq<Word>): (hs: seq<Option<Handle>>)
    ensures |hs| == |ws| && forall i :: 0 <= i < |ws| ==> hs[i] == ReadHandle(callingProcess, ws[i])
  {
    seq(|ws|, i requires 0 <= i < |ws| => ReadHandle(callingProcess, ws[i]))
  }

  function Pack(hs: seq<Option<Handle>>): Handles {
    if |hs| == 1 then Single(hs[0]) else Multiple(hs)
  }

  function ReadsMoved(descriptor: Word): bool {
    descriptor / 16 % 2 == 1
  }

  function ReadsCalling(descriptor: Word): bool {
    descriptor / 32 % 2 == 1
  }

  datatype Parsed = Parsed(param: Param, used: nat)

  /** One translate parameter from the front of the words that remain; none if they do not hold it. */
  function ParseParam(ws: seq<Word>): (r: Option<Parsed>)
    ensures r.Some? ==> 2 <= r.value.used <= |ws|
  {
    if ws == [] then None
    else
      var d := ws[0];
      if d % 8 == 0 then
        var n := HandleCount(d);
        if |ws| < 1 + n then None
        else
          Some(Parsed(
            HandleParam(ReadsMoved(d), ReadsCalling(d), Pack(ReadHandles(ReadsCalling(d), ws[1..1 + n]))), 1 + n))
      else if |ws| < 2 then None
      else if d % 8 == 1 then Some(Parsed(StaticBuffer(d / 0x400 % 16, d / 0x4000, ws[1]), 2))
      else Some(Parsed(BufferMapping(d % 8 / 2 % 4, d / 16, ws[1]), 2))
  }

  function ParseParams(ws: seq<Word>): Option<seq<Param>>
    decreases |ws|
  {
    if ws == [] then Some([])
    else
      match ParseParam(ws)
      case None => None
      case Some(p) =>
        match ParseParams(ws[p.used..])
        case None => None
        case Some(rest) => Some([p.param] + rest)
  }

  /** The number of words before the normal parameters. */
  function Preamble(reply: bool): nat {
    if reply then 2 else 1
  }

  /** What a reader gets out of a buffer; none where it would panic. */
  function ParseMessage(ws: seq<Word>, reply: bool): Option<Message>
    requires |ws| == MAX_WORDS
  {
    var h := UnpackHeader(ws[0]);
    var p := Preamble(reply);
    if p + h.normals + h.words > |ws| then None
    else
      match ParseParams(ws[p + h.normals..p + h.normals + h.words])
      case None => None
      case Some(params) =>
        Some(Message(h.commandId, if reply then Some(ws[1]) else None, ws[p..p + h.normals], params))
  }

  // ---------------------------------------------------------------- writing

  function PackHeader(h: HeaderCode): Word
    requires h.normals < 64 && h.words < 64
  {
    h.commandId * 0x1_0000 + h.normals * 0x40 + h.words
  }

  function Descriptor(moved: bool, callingProcess: bool, count: nat): Word
    requires 1 <= count <= 64
  {
    (if moved then 16 else 0) + (if callingProcess then 32 else 0) + (count - 1) * 0x400_0000
  }

  /** The parameters `write_translate` implements. */
  predicate Writable(p: Param) {
    p.HandleParam? && 1 <= |p.handles.List()| <= 64
  }

  function RawHandles(hs: seq<Option<Handle>>): (ws: seq<Word>)
    ensures |ws| == |hs| && forall i :: 0 <= i < |hs| ==> ws[i] == ToRaw(hs[i])
  {
    seq(|hs|, i requires 0 <= i < |hs| => ToRaw(hs[i]))
  }

  function FormatParam(p: Param): (ws: seq<Word>)
    requires Writable(p)
    ensures |ws| == 1 + |p.handles.List()|
  {
    [Descriptor(p.moved, p.callingProcess, |p.handles.List()|)] + RawHandles(p.handles.List())
  }

  function FormatParams(ps: seq<Param>): seq<Word>
    requires forall p :: p in ps ==> Writable(p)
  {
    if ps == [] then [] else FormatParam(ps[0]) + FormatParams(ps[1..])
  }

  function ResultWords(result: Option<Word>): (ws: seq<Word>)
    ensures |ws| == if result.Some? then 1 else 0
  {
    if result.Some? then [result.value] else []
  }

  function BodyWords(m: Message): seq<Word>
    requires forall p :: p in m.params ==> Writable(p)
  {
    ResultWords(m.result) + m.normals + FormatParams(m.params)
  }

  /** The message fits a 256-byte buffer. */
  predicate Fits(m: Message) {
    (forall p :: p in m.params ==> Writable(p)) && 1 + |BodyWords(m)| <= MAX_WORDS
  }

  lemma FitsCounts(m: Message)
    requires Fits(m)
    ensures |m.normals| < 64 && |FormatParams(m.params)| < 64
  {
  }

  function FormatMessage(m: Message): (ws: seq<Word>)
    requires Fits(m)
    ensures |ws| <= MAX_WORDS
  {
    FitsCounts(m);
    [PackHeader(HeaderCode(m.commandId, |m.normals|, |FormatParams(m.params)|))] + BodyWords(m)
  }

  // ---------------------------------------------------------------- packed fields

  /** The header as the code assembles it, with shifts and `|`. */
  lemma HeaderBits(h: HeaderCode)
    requires h.normals < 64 && h.words < 64
    ensures Or(Or(Shl(h.commandId, 16), Shl(h.normals, 6)), h.words) == PackHeader(h)
  {
    hide Pow2;
    hide Or;
    hide Shl;
    Powers();
    var high, low := h.commandId * 0x1_0000, h.normals * 0x40;
    ShlTimes(h.commandId, 16, 0x1_0000);
    ShlTimes(h.normals, 6, 0x40);
    assert high % 0x1_0000 == 0 && (high + low) % 0x40 == 0;
    OrSum(high, low, 16, 0x1_0000);
    OrSum(high + low, h.words, 6, 0x40);
  }

  /** The header as the code takes it apart, with masks and shifts. */
  lemma HeaderMasks(w: Word)
    ensures var h := UnpackHeader(w);
      Shr(And(w, 0xFFFF_0000), 16) == h.commandId && Shr(And(w, 0xFC0), 6) == h.normals && And(w, 0x3F) == h.words
  {
    hide Pow2;
    hide And;
    hide Shr;
    Powers();
    FieldOf(w, 16, 16, 0x1_0000, 0x1_0000, 0xFFFF_0000);
    FieldOf(w, 6, 6, 64, 64, 0xFC0);
    FieldOf(w, 6, 0, 64, 1, 0x3F);
  }

  /** The descriptor of a handle parameter as the code assembles it. */
  lemma DescriptorBits(moved: bool, callingProcess: bool, count: nat)
    requires 1 <= count <= 64
    ensures Or(Or(Or(0, if moved then 16 else 0), if callingProcess then 32 else 0), Shl(count - 1, 26)) ==
      Descriptor(moved, callingProcess, count)
  {
    hide Pow2;
    hide Or;
    hide Shl;
    Powers();
    var m, c := if moved then 16 else 0, if callingProcess then 32 else 0;
    var high := (count - 1) * 0x400_0000;
    ShlTimes(count - 1, 26, 0x400_0000);
    assert high % 0x400_0000 == 0;
    OrSum(0, m, 5, 32);
    OrSum(c, m, 5, 32);
    OrSum(high, m + c, 26, 0x400_0000);
  }

  /** The shift of the handle count drops all but its six low bits. */
  lemma CountShift(less: nat)
    ensures Shl(less, 26) == Shl(less % 64, 26)
  {
    Powers();
    hide Pow2;
    DivModUnique(less * 0x400_0000, 0x1_0000_0000, less / 64, less % 64 * 0x400_0000);
  }

  /** The parts of a handle descriptor as the code takes them. */
  lemma DescriptorMasks(d: Word)
    ensures And(d, 7) == d % 8
    ensures (And(d, 16) != 0) == ReadsMoved(d) && (And(d, 32) != 0) == ReadsCalling(d)
    ensures Shr(And(d, 0xFC00_0000), 26) + 1 == HandleCount(d)
  {
    hide Pow2;
    hide And;
    hide Shr;
    Powers();
    FieldOf(d, 3, 0, 8, 1, 7);
    FieldOf(d, 1, 4, 2, 16, 16);
    FieldOf(d, 1, 5, 2, 32, 32);
    FieldOf(d, 6, 26, 64, 0x400_0000, 0xFC00_0000);
  }

  /** The parts of a buffer descriptor as the code takes them. */
  lemma BufferMasks(d: Word)
    ensures Shr(And(d, 0x3C00), 10) == d / 0x400 % 16 && Shr(And(d, 0xFFFF_C000), 14) == d / 0x4000
    ensures Shr(And(d % 8, 6), 1) == d % 8 / 2 % 4 && Shr(And(d, 0xFFFF_FFF0), 4) == d / 16
  {
    hide Pow2;
    hide And;
    hide Shr;
    Powers();
    FieldOf(d, 4, 10, 16, 0x400, 0x3C00);
    FieldOf(d, 18, 14, 0x4_0000, 0x4000, 0xFFFF_C000);
    FieldOf(d % 8, 2, 1, 4, 2, 6);
    FieldOf(d, 28, 4, 0x1000_0000, 16, 0xFFFF_FFF0);
  }

  lemma UnpackPacked(h: HeaderCode)
    requires h.normals < 64 && h.words < 64
    ensures UnpackHeader(PackHeader(h)) == h
  {
    var w: int := PackHeader(h);
    DivModUnique(w, 0x1_0000, h.commandId, h.normals * 0x40 + h.words);
    DivModUnique(w, 0x40, h.commandId * 0x400 + h.normals, h.words);
    DivModUnique(h.commandId * 0x400 + h.normals, 0x40, h.commandId * 0x10, h.normals);
  }

  lemma DescriptorFields(moved: bool, callingProcess: bool, count: nat)
    requires 1 <= count <= 64
    ensures var d := Descriptor(moved, callingProcess, count);
      d % 8 == 0 && HandleCount(d) == count && ReadsMoved(d) == moved && ReadsCalling(d) == callingProcess
  {
    var d: int := Descriptor(moved, callingProcess, count);
    var m, c := if moved then 1 else 0, if callingProcess then 1 else 0;
    DivModUnique(d, 0x400_0000, count - 1, m * 16 + c * 32);
    DivModUnique(d, 32, c + (count - 1) * 0x20_0000, m * 16);
    DivModUnique(d, 16, m + 2 * (c + (count - 1) * 0x20_0000), 0);
  }

  // ---------------------------------------------------------------- round trip

  /**
    A parameter as the reader presents it: a single handle is never a one-element list, and every
    handle of a calling-process parameter stands for the current process.
   */
  function Canonical(p: Param): Param {
    if !p.HandleParam? then p
    else if p.callingProcess then p.(handles := Pack(seq(|p.handles.List()|, _ => Some(CURRENT_PROCESS))))
    else p.(handles := Pack(p.handles.List()))
  }

  function CanonicalAll(ps: seq<Param>): (r: seq<Param>)
    ensures |r| == |ps| && forall i :: 0 <= i < |ps| ==> r[i] == Canonical(ps[i])
  {
    seq(|ps|, i requires 0 <= i < |ps| => Canonical(ps[i]))
  }

  lemma ParamRoundTrip(p: Param, rest: seq<Word>)
    requires Writable(p)
    ensures ParseParam(FormatParam(p) + rest) == Some(Parsed(Canonical(p), |FormatParam(p)|))
  {
    var hs := p.handles.List();
    var ws := FormatParam(p) + rest;
    DescriptorFields(p.moved, p.callingProcess, |hs|);
    assert ws[1..1 + |hs|] == RawHandles(hs);
    assert ReadHandles(false, RawHandles(hs)) == hs;
    assert ReadHandles(true, RawHandles(hs)) == seq(|hs|, _ => Some(CURRENT_PROCESS));
  }

  lemma {:induction false} ParamsRoundTrip(ps: seq<Param>)
    requires forall p :: p in ps ==> Writable(p)
    ensures ParseParams(FormatParams(ps)) == Some(CanonicalAll(ps))
  {
    if ps != [] {
      var ws := FormatParams(ps);
      var rest := FormatParams(ps[1..]);
      ParamRoundTrip(ps[0], rest);
      ParamsRoundTrip(ps[1..]);
      assert ws[|FormatParam(ps[0])|..] == rest;
      assert CanonicalAll(ps) == [Canonical(ps[0])] + CanonicalAll(ps[1..]);
    }
  }

  lemma Sections(a: seq<Word>, b: seq<Word>, c: seq<Word>, ws: seq<Word>)
    requires a + b + c <= ws
    ensures a <= ws && ws[|a|..|a| + |b|] == b && ws[|a| + |b|..|a| + |b| + |c|] == c
  {
  }

  function StartWords(m: Message): (ws: seq<Word>)
    requires Fits(m)
    ensures |ws| == Preamble(m.result.Some?)
  {
    FitsCounts(m);
    [PackHeader(HeaderCode(m.commandId, |m.normals|, |FormatParams(m.params)|))] + ResultWords(m.result)
  }

  lemma FormatSplits(m: Message)
    requires Fits(m)
    ensures FormatMessage(m) == StartWords(m) + m.normals + FormatParams(m.params)
  {
    hide PackHeader;
    hide FormatParams;
    hide Writable;
    hide ResultWords;
  }

  /** What parsing needs to know about a buffer that starts with a message. */
  lemma ParseSections(m: Message, tail: seq<Word>, params: seq<Param>, ws: seq<Word>)
    requires |ws| == MAX_WORDS && UnpackHeader(ws[0]) == HeaderCode(m.commandId, |m.normals|, |tail|)
    requires var p := Preamble(m.result.Some?);
      && p + |m.normals| + |tail| <= |ws|
      && ws[p..p + |m.normals|] == m.normals && ws[p + |m.normals|..p + |m.normals| + |tail|] == tail
    requires m.result.Some? ==> ws[1] == m.result.value
    requires ParseParams(tail) == Some(params)
    ensures ParseMessage(ws, m.result.Some?) == Some(m.(params := params))
  {
    hide UnpackHeader;
    hide ParseParams;
  }

  /** Any message that fits reads back identically, whatever the buffer held behind it. */
  lemma MessageRoundTrip(m: Message, ws: seq<Word>)
    requires Fits(m)
    requires |ws| == MAX_WORDS && FormatMessage(m) <= ws
    ensures ParseMessage(ws, m.result.Some?) == Some(m.(params := CanonicalAll(m.params)))
  {
    FitsCounts(m);
    ParamsRoundTrip(m.params);
    FormatSplits(m);
    hide ParseMessage;
    hide ParseParams;
    hide CanonicalAll;
    hide FormatParams;
    hide FormatMessage;
    hide Writable;
    hide UnpackHeader;
    hide PackHeader;
    var tail := FormatParams(m.params);
    Sections(StartWords(m), m.normals, tail, ws);
    UnpackPacked(HeaderCode(m.commandId, |m.normals|, |tail|));
    assert ws[0] == StartWords(m)[0];
    assert m.result.Some? ==> ws[1] == StartWords(m)[1];
    ParseSections(m, tail, CanonicalAll(m.params), ws);
  }

  /** A message laid out word by word: header, normal words, then descriptor and handles, zero for none. */
  lemma LaidOut(command: CommandId, x: Word, y: Word, h: Handle)
    ensures var p := HandleParam(true, false, Multiple([Some(h), None]));
      var m := Message(command, None, [x, y], [p]);
      var raw: Word := h;
      var ws: seq<Word> := [command * 0x1_0000 + 2 * 0x40 + 3, x, y, 16 + 0x400_0000, raw, 0];
      Fits(m) && FormatMessage(m) == ws
  {
    var p := HandleParam(true, false, Multiple([Some(h), None]));
    var m := Message(command, None, [x, y], [p]);
    assert m.params[1..] == [];
    var raw: Word := h;
    var tail: seq<Word> := [16 + 0x400_0000, raw, 0];
    assert FormatParam(p) == tail;
    assert FormatParams(m.params) == FormatParam(p) + FormatParams([]) == tail;
    assert BodyWords(m) == [x, y] + tail;
  }

  /** In a response the result stands between the header and the normal words. */
  lemma ResultSecond(m: Message)
    requires Fits(m) && m.result.Some?
    ensures FormatMessage(m)[1] == m.result.value
    ensures forall i :: 0 <= i < |m.normals| ==> FormatMessage(m)[2 + i] == m.normals[i]
  {
    hide FormatParams;
    hide Writable;
    hide PackHeader;
  }

  /** The buffer bound alone keeps every count within its six bits. */
  lemma {:induction false} CountsFit(m: Message)
    requires (forall p :: p in m.params ==> p.HandleParam? && 1 <= |p.handles.List()|)
    requires 1 + |ResultWords(m.result)| + |m.normals| + WordsOf(m.params) <= MAX_WORDS
    ensures Fits(m) && |m.normals| < 64 && |FormatParams(m.params)| < 64
    ensures forall p :: p in m.params ==> |p.handles.List()| - 1 < 64
  {
    ParamWords(m.params);
  }

  /** The words a list of handle parameters needs, however long it is. */
  function WordsOf(ps: seq<Param>): nat
    requires forall p :: p in ps ==> p.HandleParam?
  {
    if ps == [] then 0 else 1 + |ps[0].handles.List()| + WordsOf(ps[1..])
  }

  lemma {:induction false} ParamWords(ps: seq<Param>)
    requires forall p :: p in ps ==> p.HandleParam? && 1 <= |p.handles.List()|
    ensures forall p :: p in ps ==> |p.handles.List()| < WordsOf(ps)
    ensures WordsOf(ps) <= 64 ==> (forall p :: p in ps ==> Writable(p)) && |FormatParams(ps)| == WordsOf(ps)
  {
    if ps != [] {
      ParamWords(ps[1..]);
      assert forall p :: p in ps ==> p == ps[0] || p in ps[1..];
    }
  }
}
