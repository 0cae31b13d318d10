/** `translate_ipc` as it runs: reader, writer and two handle tables, updated in place. */
module Carrier {
  import opened Outcomes
  import opened Bytes
  import opened Ipc
  import opened IpcBuffer
  import opened Translation

  class ObjectTable {
    var objects: map<Handle, ObjectId>

    /** What the generator is going to draw. */
    var draws: seq<Word>

    ghost function Value(): Table
      reads this
    {
      Table(objects, draws)
    }

    constructor (upcoming: seq<Word>)
      ensures Value() == Table(map[], upcoming)
    {
      objects, draws := map[], upcoming;
    }

    /** `insert` */
    method Insert(o: ObjectId) returns (h: Option<Handle>)
      modifies this
      ensures h.Some? <==> InsertInto(old(Value()), o).Some?
      ensures h.Some? ==> InsertInto(old(Value()), o) == Some(Inserted(h.value, Value()))
    {
      while draws != []
        invariant InsertInto(Value(), o) == InsertInto(old(Value()), o)
        decreases |draws|
      {
        var d := draws[0];
        draws := draws[1..];
        if d != 0 && d !in objects {
          objects := objects[d := o];
          return Some(d);
        }
      }
      return None;
    }

    /** `lookup` */
    method Lookup(h: Handle) returns (o: Option<ObjectId>)
      ensures o == if h in objects then Some(objects[h]) else None
    {
      o := if h in objects then Some(objects[h]) else None;
    }

    /** `remove` */
    method Remove(h: Handle) returns (o: Option<ObjectId>)
      modifies this`objects
      ensures o == if h in old(objects) then Some(old(objects)[h]) else None
      ensures objects == old(objects) - {h}
    {
      o := if h in objects then Some(objects[h]) else None;
      objects := objects - {h};
    }
  }

  ghost function Now(src: ObjectTable, dst: ObjectTable): Tables
    reads src, dst
  {
    Tables(src.objects, dst.Value())
  }

  /** `translate_handle`; the flag is false while the receiver's generator has offered no free handle. */
  method CarryHandle(src: ObjectTable, dst: ObjectTable, moved: bool, h: Option<Handle>)
    returns (ok: bool, out: Option<Handle>)
    requires src != dst
    modifies src`objects, dst
    ensures ok <==> TranslateHandle(old(Now(src, dst)), Item(moved, h)).Some?
    ensures ok ==> TranslateHandle(old(Now(src, dst)), Item(moved, h)) == Some(Sent(out, Now(src, dst)))
  {
    if h.None? {
      return true, None;
    }
    var o;
    if moved {
      o := src.Remove(h.value);
    } else {
      o := src.Lookup(h.value);
    }
    if o.None? {
      assert src.objects == old(src.objects);
      return true, None;
    }
    out := dst.Insert(o.value);
    ok := out.Some?;
  }

  /** A result that continues a list already translated. */
  ghost function Joined<T>(done: seq<T>, rest: Option<Sent<seq<T>>>): Option<Sent<seq<T>>> {
    match rest
    case None => None
    case Some(s) => Some(Sent(done + s.value, s.tables))
  }

  lemma ItemsStep(t: Tables, items: seq<Item>, i: nat, done: seq<Option<Handle>>)
    requires i < |items|
    ensures match TranslateHandle(t, items[i])
      case None => Joined(done, TranslateItems(t, items[i..])) == None
      case Some(one) =>
        Joined(done, TranslateItems(t, items[i..])) ==
        Joined(done + [one.value], TranslateItems(one.tables, items[i + 1..]))
  {
    assert items[i..][0] == items[i] && items[i..][1..] == items[i + 1..];
    hide TranslateHandle;
    match TranslateHandle(t, items[i]) {
      case None =>
      case Some(one) =>
        if TranslateItems(one.tables, items[i + 1..]).Some? {
          var rest := TranslateItems(one.tables, items[i + 1..]).value.value;
          assert done + ([one.value] + rest) == (done + [one.value]) + rest;
        }
    }
  }

  /** The handle loop of `translate_ipc`. */
  method CarryHandles(src: ObjectTable, dst: ObjectTable, moved: bool, hs: seq<Option<Handle>>)
    returns (ok: bool, outs: seq<Option<Handle>>)
    requires src != dst
    modifies src`objects, dst
    ensures ok <==> TranslateItems(old(Now(src, dst)), ItemsOf(moved, hs)).Some?
    ensures ok ==> TranslateItems(old(Now(src, dst)), ItemsOf(moved, hs)) == Some(Sent(outs, Now(src, dst)))
  {
    ghost var items := ItemsOf(moved, hs);
    outs := [];
    assert items[0..] == items;
    ghost var whole := TranslateItems(Now(src, dst), items);
    assert whole.Some? ==> [] + whole.value.value == whole.value.value;
    for i := 0 to |hs|
      invariant Joined(outs, TranslateItems(Now(src, dst), items[i..])) == whole
    {
      ItemsStep(Now(src, dst), items, i, outs);
      hide TranslateItems;
      hide TranslateHandle;
      hide Now;
      var out;
      ok, out := CarryHandle(src, dst, moved, hs[i]);
      if !ok {
        return;
      }
      outs := outs + [out];
    }
    assert items[|hs|..] == [] && outs + [] == outs;
    ok := true;
  }

  // ---------------------------------------------------------------- the parameter loops

  /** Translating parameters while they are being read. */
  ghost function TranslateWords(t: Tables, ws: seq<Word>): Option<Sent<seq<Param>>>
    decreases |ws|
  {
    if ws == [] then Some(Sent([], t))
    else
      match ParseParam(ws)
      case None => None
      case Some(p) =>
        match TranslateParam(t, p.param)
        case None => None
        case Some(one) => Joined(one.value, TranslateWords(one.tables, ws[p.used..]))
  }

  lemma {:induction false} StreamingIsTranslation(t: Tables, ws: seq<Word>)
    ensures TranslateWords(t, ws) ==
      match ParseParams(ws)
      case None => None
      case Some(ps) => TranslateParams(t, ps)
    decreases |ws|
  {
    if ws != [] && ParseParam(ws).Some? {
      var p := ParseParam(ws).value;
      hide ParseParam;
      match TranslateParam(t, p.param) {
        case None =>
        case Some(one) => StreamingIsTranslation(one.tables, ws[p.used..]);
      }
      if ParseParams(ws[p.used..]).Some? {
        var rest := ParseParams(ws[p.used..]).value;
        assert ([p.param] + rest)[0] == p.param && ([p.param] + rest)[1..] == rest;
      }
    }
  }

  lemma WordsStep(t: Tables, ws: seq<Word>, done: seq<Param>)
    requires ws != []
    ensures ParseParam(ws).None? ==> Joined(done, TranslateWords(t, ws)) == None
    ensures ParseParam(ws).Some? ==>
      var p := ParseParam(ws).value;
      match TranslateParam(t, p.param)
      case None => Joined(done, TranslateWords(t, ws)) == None
      case Some(one) =>
        Joined(done, TranslateWords(t, ws)) == Joined(done + one.value, TranslateWords(one.tables, ws[p.used..]))
  {
    hide TranslateParam;
    hide ParseParam;
    if ParseParam(ws).Some? && TranslateParam(t, ParseParam(ws).value.param).Some? {
      var p := ParseParam(ws).value;
      var one := TranslateParam(t, p.param).value;
      var rest := TranslateWords(one.tables, ws[p.used..]);
      assert TranslateWords(t, ws) == Joined(one.value, rest);
      hide TranslateWords;
      if rest.Some? {
        assert done + (one.value + rest.value.value) == (done + one.value) + rest.value.value;
      }
    }
  }

  lemma {:induction false} FormatAppend(ps: seq<Param>, p: Param)
    requires Writable(p) && forall q :: q in ps ==> Writable(q)
    ensures FormatParams(ps + [p]) == FormatParams(ps) + FormatParam(p)
  {
    hide FormatParam;
    if ps == [] {
      assert ps + [p] == [p] && [p][1..] == [];
    } else {
      FormatAppend(ps[1..], p);
      assert (ps + [p])[0] == ps[0] && (ps + [p])[1..] == ps[1..] + [p];
    }
  }

  lemma RefilledShape(t': Tables, t: Tables, p: Param, out: seq<Param>)
    requires p.HandleParam? ==> Writable(p)
    requires TranslateParam(t, p) == Some(Sent(out, t')) && out != []
    ensures |out| == 1 && Writable(out[0]) && |out[0].handles.List()| == |p.handles.List()|
  {
  }

  /** The translation of one parameter; a parameter that is no handle yields nothing. */
  method CarryParam(src: ObjectTable, dst: ObjectTable, p: Param) returns (ok: bool, out: seq<Param>)
    requires src != dst
    modifies src`objects, dst
    ensures ok <==> TranslateParam(old(Now(src, dst)), p).Some?
    ensures ok ==> TranslateParam(old(Now(src, dst)), p) == Some(Sent(out, Now(src, dst)))
  {
    hide TranslateItems;
    hide Now;
    out := [];
    if !p.HandleParam? {
      return true, out;
    }
    var outs;
    ok, outs := CarryHandles(src, dst, p.moved, p.handles.List());
    if ok {
      out := [p.(handles := Refill(p.handles, outs))];
    }
  }

  /** The writer holds what it held before, followed by the given words. */
  ghost predicate Holds(writer: Writer, before: seq<Word>, list: seq<Word>)
    reads writer`pos, writer.buf
  {
    writer.Placed() && writer.Written() == before + list
  }

  method PutNormal(writer: Writer, w: Word, ghost before: seq<Word>, ghost list: seq<Word>) returns (ok: bool)
    requires writer.Valid() && Holds(writer, before, list)
    modifies writer`pos, writer`normals, writer.buf
    ensures ok == (writer.words == 0 && old(writer.pos) < IPC_BYTES)
    ensures ok ==>
      && writer.Valid() && Holds(writer, before, list + [w])
      && writer.normals == old(writer.normals) + 1 && writer.pos == old(writer.pos) + 4
  {
    hide Writer.Written;
    ok := writer.WriteNormal(w);
    assert (before + list) + [w] == before + (list + [w]);
  }

  /** The loop that copies the normal parameters. */
  method CopyNormals(reader: Reader, writer: Writer) returns (ok: bool)
    requires reader.Valid() && writer.Valid() && writer.buf != reader.buf
    requires writer.words == 0 && writer.pos == reader.pos
    modifies reader`pos, reader`normals, writer`pos, writer`normals, writer.buf
    ensures ok == (old(reader.pos) / 4 + old(reader.normals) <= MAX_WORDS)
    ensures ok ==>
      var k, n := old(reader.pos) / 4, old(reader.normals);
      && reader.Valid() && writer.Valid()
      && reader.normals == 0 && reader.pos == writer.pos == 4 * (k + n)
      && writer.normals == old(writer.normals) + n
      && writer.Written() == old(writer.Written()) + View(reader.buf)[k..k + n]
  {
    ghost var k, n := reader.pos / 4, reader.normals;
    ghost var view := View(reader.buf);
    ghost var before, list := writer.Written(), [];
    assert before + [] == before;
    hide Writer.Written;
    hide View;
    var count := reader.normals;
    for i := 0 to count
      invariant reader.Valid() && writer.Valid() && View(reader.buf) == view
      invariant k + i <= MAX_WORDS && reader.normals == n - i && reader.pos == writer.pos == 4 * (k + i)
      invariant writer.normals == old(writer.normals) + i
      invariant list == view[k..k + i] && Holds(writer, before, list)
    {
      hide Holds;
      var w := reader.ReadNormal();
      if w.None? {
        return false;
      }
      ok := PutNormal(writer, w.value, before, list);
      list := list + [w.value];
    }
    ok := true;
  }

  /** The writer holds what it held before, followed by the given parameters. */
  ghost predicate Wrote(writer: Writer, before: seq<Word>, words: nat, out: seq<Param>)
    reads writer, writer.buf
  {
    && writer.Valid() && (forall p :: p in out ==> Writable(p))
    && writer.Written() == before + FormatParams(out)
    && writer.words == words + |FormatParams(out)|
  }

  /** Appends one translated parameter. */
  method Append(writer: Writer, p: Param, ghost before: seq<Word>, ghost words: nat, ghost out: seq<Param>)
    returns (ok: bool)
    requires Wrote(writer, before, words, out) && Writable(p)
    modifies writer`pos, writer`words, writer.buf
    ensures ok == (old(writer.pos) / 4 + 1 + |p.handles.List()| <= MAX_WORDS)
    ensures ok ==>
      Wrote(writer, before, words, out + [p]) && writer.pos == old(writer.pos) + 4 * (1 + |p.handles.List()|)
  {
    hide Writable;
    hide FormatParam;
    hide Writer.Written;
    FormatAppend(out, p);
    hide FormatParams;
    ok := writer.WriteTranslate(p);
    assert (before + FormatParams(out)) + FormatParam(p) == before + (FormatParams(out) + FormatParam(p));
  }

  /** One round of the translate loop. */
  method CarryNext(
      reader: Reader, writer: Writer, src: ObjectTable, dst: ObjectTable,
      ghost before: seq<Word>, ghost words: nat, ghost out: seq<Param>)
    returns (ok: bool, ghost one: seq<Param>)
    requires reader.Valid() && Wrote(writer, before, words, out) && writer.buf != reader.buf && src != dst
    requires reader.normals == 0 && writer.pos <= reader.pos
    modifies reader`pos, reader`words, writer`pos, writer`words, writer.buf, src`objects, dst
    ensures ok <==>
      && ParseParam(old(reader.Window())).Some?
      && TranslateParam(old(Now(src, dst)), ParseParam(old(reader.Window())).value.param).Some?
    ensures ok ==>
      var p := ParseParam(old(reader.Window())).value;
      && TranslateParam(old(Now(src, dst)), p.param) == Some(Sent(one, Now(src, dst)))
      && reader.Valid() && reader.words == old(reader.words) - p.used && reader.pos == old(reader.pos) + 4 * p.used
      && reader.Window() == old(reader.Window())[p.used..]
    ensures ok ==> Wrote(writer, before, words, out + one) && writer.pos <= reader.pos
  {
    one := [];
    ghost var w := reader.Window();
    hide Now;
    hide Wrote;
    hide Reader.Window;
    var p := reader.ReadTranslate();
    if p.None? {
      return false, one;
    }
    if p.value.HandleParam? {
      OneParsed(w);
    }
    hide ParseParam;
    hide ReadForm;
    hide Writable;
    var list;
    ok, list := CarryParam(src, dst, p.value);
    one := list;
    if ok && list != [] {
      RefilledShape(Now(src, dst), old(Now(src, dst)), p.value, list);
      hide TranslateParam;
      ok := Append(writer, list[0], before, words, out);
      assert list == [list[0]];
    } else {
      assert ok ==> out + list == out;
    }
  }

  /** The loop that translates the translate parameters. */
  method CarryParams(reader: Reader, writer: Writer, src: ObjectTable, dst: ObjectTable)
    returns (ok: bool, ghost out: seq<Param>)
    requires reader.Valid() && writer.Valid() && writer.buf != reader.buf && src != dst
    requires reader.normals == 0 && writer.pos <= reader.pos
    modifies reader`pos, reader`words, writer`pos, writer`words, writer.buf, src`objects, dst
    ensures ok <==>
      && old(reader.pos) / 4 + old(reader.words) <= MAX_WORDS
      && TranslateWords(old(Now(src, dst)), old(reader.Window())).Some?
    ensures ok ==>
      && TranslateWords(old(Now(src, dst)), old(reader.Window())) == Some(Sent(out, Now(src, dst)))
      && Wrote(writer, old(writer.Written()), old(writer.words), out)
  {
    out := [];
    ghost var before, words := writer.Written(), writer.words;
    assert Wrote(writer, before, words, []) by {
      assert before + [] == before;
    }
    hide Wrote;
    ghost var total := reader.pos + 4 * reader.words;
    ghost var whole := TranslateWords(Now(src, dst), reader.Window());
    assert whole.Some? ==> [] + whole.value.value == whole.value.value;
    hide ParseParam;
    hide TranslateParam;
    hide Now;
    hide Reader.Window;
    while reader.words > 0
      invariant reader.Valid() && writer.pos <= reader.pos && reader.pos + 4 * reader.words == total
      invariant Joined(out, TranslateWords(Now(src, dst), reader.Window())) == whole
      invariant Wrote(writer, before, words, out)
      decreases reader.words
    {
      if reader.Window() != [] {
        WordsStep(Now(src, dst), reader.Window(), out);
      }
      hide TranslateWords;
      ghost var one;
      ok, one := CarryNext(reader, writer, src, dst, before, words, out);
      if !ok {
        return;
      }
      out := out + one;
    }
    assert out + [] == out;
    ok := true;
  }

  /** The words of a whole message whose parts have been written. */
  lemma Assembled(m: Message, head: Word, ws: seq<Word>, out: seq<Word>)
    requires Fits(m) && ws == [0] + ResultWords(m.result) + m.normals + FormatParams(m.params)
    requires |m.normals| < 64 && |FormatParams(m.params)| < 64
    requires head == PackHeader(HeaderCode(m.commandId, |m.normals|, |FormatParams(m.params)|))
    requires |ws| <= |out| && out[..|ws|] == [head] + ws[1..]
    ensures FormatMessage(m) <= out
  {
    hide PackHeader;
    hide FormatParams;
    hide Writable;
    assert ws[1..] == BodyWords(m);
    assert out[..|ws|] == FormatMessage(m);
  }

  // ---------------------------------------------------------------- the parts of a source buffer

  ghost predicate NormalsFit(view: seq<Word>, reply: bool)
    requires |view| == MAX_WORDS
  {
    Preamble(reply) + UnpackHeader(view[0]).normals <= MAX_WORDS
  }

  ghost predicate AllFit(view: seq<Word>, reply: bool)
    requires |view| == MAX_WORDS
  {
    Preamble(reply) + UnpackHeader(view[0]).normals + UnpackHeader(view[0]).words <= MAX_WORDS
  }

  /** The message in a source buffer, without its translate parameters. */
  ghost function Opening(view: seq<Word>, reply: bool): Message
    requires |view| == MAX_WORDS && NormalsFit(view, reply)
  {
    var h, p := UnpackHeader(view[0]), Preamble(reply);
    Message(h.commandId, if reply then Some(view[1]) else None, view[p..p + h.normals], [])
  }

  ghost function ParamPart(view: seq<Word>, reply: bool): seq<Word>
    requires |view| == MAX_WORDS && AllFit(view, reply)
  {
    var h, p := UnpackHeader(view[0]), Preamble(reply);
    view[p + h.normals..p + h.normals + h.words]
  }

  /** Translation in the order in which the code goes about it. */
  lemma TranslateInOrder(view: seq<Word>, reply: bool, t: Tables)
    requires |view| == MAX_WORDS
    ensures AllFit(view, reply) ==> NormalsFit(view, reply)
    ensures Translate(view, reply, t).Some? <==>
      AllFit(view, reply) && TranslateWords(t, ParamPart(view, reply)).Some?
    ensures Translate(view, reply, t).Some? ==>
      var s := TranslateWords(t, ParamPart(view, reply)).value;
      Translate(view, reply, t).value == Sent(Opening(view, reply).(params := s.value), s.tables)
  {
    hide UnpackHeader;
    hide ParseParams;
    hide TranslateParams;
    hide TranslateWords;
    if AllFit(view, reply) {
      StreamingIsTranslation(t, ParamPart(view, reply));
    }
  }

  /** Dropping the writer completes the message. */
  method Seal(writer: Writer, ghost m: Message, ghost before: seq<Word>)
    requires Fits(m) && writer.commandId == m.commandId && writer.normals == |m.normals|
    requires before == [0] + ResultWords(m.result) + m.normals && Wrote(writer, before, 0, m.params)
    modifies writer`pos, writer.buf
    ensures FormatMessage(m) <= BufferWords(writer.buf[..])
  {
    ghost var ws := writer.Written();
    hide PackHeader;
    hide FormatParams;
    hide FormatMessage;
    hide Writable;
    FitsCounts(m);
    writer.Finish();
    Assembled(m, PackHeader(HeaderCode(m.commandId, |m.normals|, |FormatParams(m.params)|)), ws, View(writer.buf));
  }

  lemma WindowIsParams(view: seq<Word>, reply: bool)
    requires |view| == MAX_WORDS && AllFit(view, reply)
    ensures var h := UnpackHeader(view[0]);
      WindowOf(view, Preamble(reply) + h.normals, h.words) == ParamPart(view, reply)
  {
    hide UnpackHeader;
  }

  /** The first half of `translate_ipc`: both cursors are set up and the normal parameters are copied. */
  method Start(from: array<Byte>, to: array<Byte>, reply: bool)
    returns (ok: bool, reader: Reader, writer: Writer)
    requires from.Length == to.Length == IPC_BYTES && from != to
    modifies to
    ensures fresh(reader) && fresh(writer) && reader.buf == from && writer.buf == to
    ensures ok == NormalsFit(BufferWords(from[..]), reply)
    ensures ok ==>
      var view := BufferWords(from[..]);
      && reader.Valid() && reader.normals == 0 && reader.pos == writer.pos
      && (reader.pos / 4 + reader.words <= MAX_WORDS <==> AllFit(view, reply))
      && (AllFit(view, reply) ==> reader.Window() == ParamPart(view, reply))
    ensures ok ==>
      var m := Opening(BufferWords(from[..]), reply);
      && writer.Valid() && writer.commandId == m.commandId && writer.normals == |m.normals| && writer.words == 0
      && writer.Written() == [0] + ResultWords(m.result) + m.normals
  {
    hide UnpackHeader;
    hide BufferWords;
    hide Writer.Written;
    hide ResultWords;
    hide WindowOf;
    hide ParamPart;
    ghost var view := BufferWords(from[..]);
    if AllFit(view, reply) {
      WindowIsParams(view, reply);
    }
    reader := new Reader(from, reply);
    writer := new Writer(reader.commandId, if reply then Some(reader.result) else None, to);
    ok := CopyNormals(reader, writer);
  }

  /** A successful translation preserves meaning, from buffer to buffer. */
  lemma BuffersAgree(view: seq<Word>, out: seq<Word>, reply: bool, t: Tables)
    requires |view| == |out| == MAX_WORDS && Translate(view, reply, t).Some?
    requires var m := Translate(view, reply, t).value.value; Fits(m) && FormatMessage(m) <= out
    ensures ParseMessage(view, reply).Some?
    ensures NoCalling(ParseMessage(view, reply).value.params) ==>
      && ParseMessage(out, reply).Some?
      && SameMeaning(
        ParseMessage(view, reply).value, ParseMessage(out, reply).value, t, Translate(view, reply, t).value.tables)
  {
    hide SameMeaning;
    hide ParseMessage;
    hide Fits;
    hide FormatMessage;
    assert ParseMessage(view, reply).Some?;
    hide Translate;
    if NoCalling(ParseMessage(view, reply).value.params) {
      TranslationPreservesMeaning(view, out, reply, t);
    }
  }

  /** The normal words of the source message. */
  lemma NormalWords(ws: seq<Word>, reply: bool, t: Tables)
    requires |ws| == MAX_WORDS && Translate(ws, reply, t).Some?
    ensures NormalsFit(ws, reply)
    ensures var m := Translate(ws, reply, t).value.value;
      && m.result.Some? == reply
      && m.normals == ws[Preamble(reply)..Preamble(reply) + UnpackHeader(ws[0]).normals]
  {
    hide UnpackHeader;
    hide ParseParams;
    hide TranslateParams;
  }

  /** Byte for byte the normal words arrive as they were sent. */
  lemma NormalBytesCopied(f: seq<Byte>, g: seq<Byte>, reply: bool, t: Tables)
    requires |f| == |g| == IPC_BYTES && Translate(BufferWords(f), reply, t).Some?
    requires var m := Translate(BufferWords(f), reply, t).value.value; Fits(m) && FormatMessage(m) <= BufferWords(g)
    ensures var p := Preamble(reply);
      forall a :: 4 * p <= a < 4 * (p + UnpackHeader(BufferWords(f)[0]).normals) && a < IPC_BYTES ==> g[a] == f[a]
  {
    hide UnpackHeader;
    hide Translate;
    hide FormatParams;
    hide Writable;
    hide PackHeader;
    hide BufferWords;
    hide Digit;
    var ws := BufferWords(f);
    var p, n := Preamble(reply), UnpackHeader(ws[0]).normals;
    NormalWords(ws, reply, t);
    var m := Translate(ws, reply, t).value.value;
    FormatSplits(m);
    hide FormatMessage;
    hide Fits;
    forall a | 4 * p <= a < 4 * (p + n) && a < IPC_BYTES ensures g[a] == f[a] {
      var k, i := a / 4, a % 4;
      assert FormatMessage(m)[k] == m.normals[k - p] == ws[k];
      BufferByte(f, k, i);
      BufferByte(g, k, i);
      assert 4 * k + i == a;
    }
  }

  /**
    `translate_ipc` between two processes: it succeeds exactly where the specification says, and the
    destination buffer then starts with the translated message. Unless the message asks for the calling
    process, the destination decodes to a message that means the same as the source did.
   */
  method TranslateIpc(from: array<Byte>, to: array<Byte>, src: ObjectTable, dst: ObjectTable, reply: bool)
    returns (ok: bool)
    requires from.Length == to.Length == IPC_BYTES && from != to && src != dst
    modifies to, src`objects, dst
    ensures ok <==> Translate(BufferWords(old(from[..])), reply, old(Now(src, dst))).Some?
    ensures ok ==>
      var s := Translate(BufferWords(old(from[..])), reply, old(Now(src, dst))).value;
      && Now(src, dst) == s.tables
      && Fits(s.value) && FormatMessage(s.value) <= BufferWords(to[..])
    ensures ok ==>
      var source := ParseMessage(BufferWords(old(from[..])), reply);
      && source.Some?
      && (NoCalling(source.value.params) ==>
            var dest := ParseMessage(BufferWords(to[..]), reply);
            dest.Some? && SameMeaning(source.value, dest.value, old(Now(src, dst)), Now(src, dst)))
    ensures ok ==>
      var p := Preamble(reply);
      forall a :: 4 * p <= a < 4 * (p + UnpackHeader(BufferWords(old(from[..]))[0]).normals) && a < IPC_BYTES ==>
        to[a] == old(from[a])
  {
    hide SameMeaning;
    hide ParseMessage;
    hide NoCalling;
    ghost var t := Now(src, dst);
    ghost var view := BufferWords(from[..]);
    TranslateInOrder(view, reply, t);
    if Translate(view, reply, t).Some? {
      TranslatedFits(view, reply, t);
    }
    hide Translate;
    hide TranslateWords;
    hide UnpackHeader;
    hide Now;
    hide Fits;
    hide FormatMessage;
    hide BufferWords;
    hide Wrote;
    hide Reader.Window;
    hide Writer.Written;
    hide AllFit;
    hide NormalsFit;
    hide ParamPart;
    hide Opening;
    var reader, writer;
    ok, reader, writer := Start(from, to, reply);
    if !ok {
      return;
    }
    ghost var before := writer.Written();
    ghost var out;
    ok, out := CarryParams(reader, writer, src, dst);
    if !ok {
      return;
    }
    Seal(writer, Translate(view, reply, t).value.value, before);
    BuffersAgree(view, BufferWords(to[..]), reply, t);
    NormalBytesCopied(old(from[..]), to[..], reply, t);
  }
}
