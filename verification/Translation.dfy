/** Carrying object references from one process's handle table to another's, message by message. */
module Translation {
  import opened Outcomes
  import opened Bytes
  import opened Ipc

  type ObjectId = nat

  /** A handle table and the numbers its generator is going to draw. */
  datatype Table = Table(objects: map<Handle, ObjectId>, draws: seq<Word>)

  datatype Inserted = Inserted(handle: Handle, table: Table)

  /**
    `insert` keeps drawing until it draws a nonzero handle that is not in use; none stands for a
    generator whose draws never offer one.
   */
  function InsertInto(t: Table, o: ObjectId): (r: Option<Inserted>)
    ensures r.Some? ==>
      && r.value.handle !in t.objects && r.value.handle in t.draws
      && r.value.table.objects == t.objects[r.value.handle := o]
    decreases |t.draws|
  {
    if t.draws == [] then None
    else
      var d, rest := t.draws[0], t.draws[1..];
      if d == 0 || d in t.objects then InsertInto(Table(t.objects, rest), o)
      else Some(Inserted(d, Table(t.objects[d := o], rest)))
  }

  /** Insertion fails exactly when no draw is a free nonzero handle. */
  lemma {:induction false} InsertSucceedsIff(t: Table, o: ObjectId)
    ensures InsertInto(t, o).Some? <==> exists d :: d in t.draws && d != 0 && d !in t.objects
    decreases |t.draws|
  {
    if t.draws != [] {
      var d, rest := t.draws[0], t.draws[1..];
      assert t.draws == [d] + rest;
      if d == 0 || d in t.objects {
        InsertSucceedsIff(Table(t.objects, rest), o);
      }
    }
  }

  /** The handle is the first draw that will do, and exactly the draws up to it are used up. */
  lemma {:induction false} InsertTakesFirst(t: Table, o: ObjectId)
    requires InsertInto(t, o).Some?
    ensures exists i :: 0 <= i < |t.draws| && TookDraw(t, InsertInto(t, o).value, i)
    decreases |t.draws|
  {
    var d, rest := t.draws[0], t.draws[1..];
    if d == 0 || d in t.objects {
      InsertTakesFirst(Table(t.objects, rest), o);
      var i :| 0 <= i < |rest| && TookDraw(Table(t.objects, rest), InsertInto(t, o).value, i);
      assert t.draws[i + 1..][1..] == rest[i + 1..];
      assert TookDraw(t, InsertInto(t, o).value, i + 1);
    } else {
      assert TookDraw(t, InsertInto(t, o).value, 0);
    }
  }

  predicate TookDraw(t: Table, r: Inserted, i: nat)
    requires i < |t.draws|
  {
    && r.handle == t.draws[i] && r.table.draws == t.draws[i + 1..]
    && forall j :: 0 <= j < i ==> t.draws[j] == 0 || t.draws[j] in t.objects
  }

  /** The sender's table and the receiver's. */
  datatype Tables = Tables(src: map<Handle, ObjectId>, dst: Table)

  datatype Sent<T> = Sent(value: T, tables: Tables)

  /** One handle on its way, moved or copied. */
  datatype Item = Item(moved: bool, handle: Option<Handle>)

  /** `translate_handle` */
  function TranslateHandle(t: Tables, item: Item): Option<Sent<Option<Handle>>> {
    if item.handle.None? || item.handle.value !in t.src then Some(Sent(None, t))
    else
      var h := item.handle.value;
      var left := if item.moved then t.src - {h} else t.src;
      match InsertInto(t.dst, t.src[h])
      case None => None
      case Some(i) => Some(Sent(Some(i.handle), Tables(left, i.table)))
  }

  function TranslateItems(t: Tables, items: seq<Item>): (r: Option<Sent<seq<Option<Handle>>>>)
    ensures r.Some? ==> |r.value.value| == |items|
    decreases |items|
  {
    if items == [] then Some(Sent([], t))
    else
      match TranslateHandle(t, items[0])
      case None => None
      case Some(one) =>
        match TranslateItems(one.tables, items[1..])
        case None => None
        case Some(rest) => Some(Sent([one.value] + rest.value, rest.tables))
  }

  function ItemsOf(moved: bool, hs: seq<Option<Handle>>): (r: seq<Item>)
    ensures |r| == |hs| && forall i :: 0 <= i < |hs| ==> r[i] == Item(moved, hs[i])
  {
    seq(|hs|, i requires 0 <= i < |hs| => Item(moved, hs[i]))
  }

  /** The translated handles in the container the originals came in. */
  function Refill(hs: Handles, outs: seq<Option<Handle>>): (r: Handles)
    requires |outs| == |hs.List()|
    ensures r.List() == outs && r.Single? == hs.Single?
  {
    match hs
    case Single(_) => Single(outs[0])
    case Multiple(_) => Multiple(outs)
  }

  /** Handle parameters are translated; any other parameter is skipped. */
  function TranslateParams(t: Tables, ps: seq<Param>): Option<Sent<seq<Param>>>
    decreases |ps|
  {
    if ps == [] then Some(Sent([], t))
    else
      match TranslateParam(t, ps[0])
      case None => None
      case Some(one) =>
        match TranslateParams(one.tables, ps[1..])
        case None => None
        case Some(rest) => Some(Sent(one.value + rest.value, rest.tables))
  }

  function TranslateParam(t: Tables, p: Param): (r: Option<Sent<seq<Param>>>)
    ensures r.Some? ==> |r.value.value| == if p.HandleParam? then 1 else 0
  {
    if !p.HandleParam? then Some(Sent([], t))
    else
      match TranslateItems(t, ItemsOf(p.moved, p.handles.List()))
      case None => None
      case Some(s) => Some(Sent([p.(handles := Refill(p.handles, s.value))], s.tables))
  }

  /** What `translate_ipc` makes of a source buffer; none where it panics or a generator is stuck. */
  function Translate(ws: seq<Word>, reply: bool, t: Tables): Option<Sent<Message>>
    requires |ws| == MAX_WORDS
  {
    match ParseMessage(ws, reply)
    case None => None
    case Some(m) =>
      match TranslateParams(t, m.params)
      case None => None
      case Some(s) => Some(Sent(m.(params := s.value), s.tables))
  }

  // ---------------------------------------------------------------- what happens to the references

  /** The sender's table after some handles were moved out of it. */
  predicate MovedAway(items: seq<Item>, h: Handle) {
    exists j :: 0 <= j < |items| && items[j] == Item(true, Some(h))
  }

  /** The i-th handle names no object when its turn comes: it is null, unknown, or was moved before. */
  predicate Gone(src: map<Handle, ObjectId>, items: seq<Item>, i: nat)
    requires i < |items|
  {
    items[i].handle.None? || items[i].handle.value !in src || MovedAway(items[..i], items[i].handle.value)
  }

  /** A delivered handle is new to the receiver and names the object the sender's handle named. */
  predicate Arrives(t: Tables, t': Tables, item: Item, out: Option<Handle>) {
    out.Some? ==>
      && item.handle.Some? && item.handle.value in t.src
      && out.value !in t.dst.objects && out.value in t'.dst.objects
      && t'.dst.objects[out.value] == t.src[item.handle.value]
  }

  /** Each handle that names an object arrives as a fresh handle for that object; the others arrive null. */
  ghost predicate Delivered(t: Tables, t': Tables, items: seq<Item>, outs: seq<Option<Handle>>) {
    && |outs| == |items|
    && (forall i :: 0 <= i < |items| ==> (outs[i].None? <==> Gone(t.src, items, i)))
    && (forall i :: 0 <= i < |items| ==> Arrives(t, t', items[i], outs[i]))
    && (forall i, j :: 0 <= i < j < |outs| && outs[i].Some? ==> outs[i] != outs[j])
  }

  /** The sender loses exactly the moved handles; the receiver gains exactly the delivered ones. */
  ghost predicate TablesFollow(t: Tables, t': Tables, items: seq<Item>, outs: seq<Option<Handle>>) {
    && (forall h :: h in t'.src <==> h in t.src && !MovedAway(items, h))
    && (forall h :: h in t'.src ==> t'.src[h] == t.src[h])
    && (forall h :: h in t'.dst.objects <==> h in t.dst.objects || Some(h) in outs)
    && (forall h :: h in t.dst.objects ==> t'.dst.objects[h] == t.dst.objects[h])
  }

  lemma OneHandle(t: Tables, item: Item)
    requires TranslateHandle(t, item).Some?
    ensures var s := TranslateHandle(t, item).value;
      Delivered(t, s.tables, [item], [s.value]) && TablesFollow(t, s.tables, [item], [s.value])
  {
    assert [item][..0] == [];
    assert [item][0] == item;
  }

  lemma {:induction false} ItemsDelivered(t: Tables, items: seq<Item>)
    requires TranslateItems(t, items).Some?
    ensures var s := TranslateItems(t, items).value;
      Delivered(t, s.tables, items, s.value) && TablesFollow(t, s.tables, items, s.value)
    decreases |items|
  {
    if items != [] {
      var one := TranslateHandle(t, items[0]).value;
      OneHandle(t, items[0]);
      ItemsDelivered(one.tables, items[1..]);
      var rest := TranslateItems(one.tables, items[1..]).value;
      assert items == [items[0]] + items[1..];
      Compose(t, one.tables, rest.tables, [items[0]], items[1..], [one.value], rest.value);
    }
  }

  /** Handles moved by the first or by the second part of a list. */
  lemma MovedConcat(a: seq<Item>, b: seq<Item>, h: Handle)
    ensures MovedAway(a + b, h) <==> MovedAway(a, h) || MovedAway(b, h)
  {
    var c := a + b;
    if MovedAway(a, h) {
      var j :| 0 <= j < |a| && a[j] == Item(true, Some(h));
      assert c[j] == a[j];
    }
    if MovedAway(b, h) {
      var j :| 0 <= j < |b| && b[j] == Item(true, Some(h));
      assert c[|a| + j] == b[j];
    }
  }

  lemma Compose(
      t0: Tables, t1: Tables, t2: Tables, a: seq<Item>, b: seq<Item>, x: seq<Option<Handle>>, y: seq<Option<Handle>>)
    requires Delivered(t0, t1, a, x) && TablesFollow(t0, t1, a, x)
    requires Delivered(t1, t2, b, y) && TablesFollow(t1, t2, b, y)
    ensures Delivered(t0, t2, a + b, x + y) && TablesFollow(t0, t2, a + b, x + y)
  {
    ComposeFollow(t0, t1, t2, a, b, x, y);
    var c, z := a + b, x + y;
    forall i | 0 <= i < |c|
      ensures z[i].None? <==> Gone(t0.src, c, i)
      ensures Arrives(t0, t2, c[i], z[i])
    {
      ComposeGone(t0, t1, a, b, x, i);
      assert i < |a| ==> Arrives(t0, t1, a[i], x[i]);
      assert i >= |a| ==> Arrives(t1, t2, b[i - |a|], y[i - |a|]);
      hide Gone;
      hide MovedAway;
    }
    forall i, j | 0 <= i < j < |z| && z[i].Some? ensures z[i] != z[j] {
      hide Gone;
      hide MovedAway;
      if i < |x| <= j {
        assert Arrives(t0, t1, a[i], x[i]) && Arrives(t1, t2, b[j - |x|], y[j - |x|]);
      }
    }
    hide Gone;
    hide MovedAway;
    hide Arrives;
    hide TablesFollow;
  }

  lemma ComposeFollow(
      t0: Tables, t1: Tables, t2: Tables, a: seq<Item>, b: seq<Item>, x: seq<Option<Handle>>, y: seq<Option<Handle>>)
    requires TablesFollow(t0, t1, a, x) && TablesFollow(t1, t2, b, y)
    ensures TablesFollow(t0, t2, a + b, x + y)
  {
    forall h: Handle ensures MovedAway(a + b, h) <==> MovedAway(a, h) || MovedAway(b, h) {
      MovedConcat(a, b, h);
    }
    hide MovedAway;
  }

  lemma ComposeGone(t0: Tables, t1: Tables, a: seq<Item>, b: seq<Item>, x: seq<Option<Handle>>, i: nat)
    requires TablesFollow(t0, t1, a, x) && i < |a + b|
    ensures Gone(t0.src, a + b, i) <==> if i < |a| then Gone(t0.src, a, i) else Gone(t1.src, b, i - |a|)
  {
    var c := a + b;
    if i < |a| {
      assert c[..i] == a[..i];
    } else {
      assert c[..i] == a + b[..i - |a|];
      if c[i].handle.Some? {
        MovedConcat(a, b[..i - |a|], c[i].handle.value);
      }
    }
  }

  // ---------------------------------------------------------------- counting references

  ghost function RefSet(m: map<Handle, ObjectId>, o: ObjectId): set<Handle> {
    set h | h in m && m[h] == o
  }

  /** The references a table holds to an object. */
  ghost function Refs(m: map<Handle, ObjectId>, o: ObjectId): nat {
    |RefSet(m, o)|
  }

  lemma RefsInserted(m: map<Handle, ObjectId>, h: Handle, v: ObjectId, o: ObjectId)
    requires h !in m
    ensures Refs(m[h := v], o) == Refs(m, o) + if v == o then 1 else 0
  {
    assert RefSet(m[h := v], o) == if v == o then RefSet(m, o) + {h} else RefSet(m, o);
  }

  lemma RefsRemoved(m: map<Handle, ObjectId>, h: Handle, o: ObjectId)
    requires h in m
    ensures Refs(m - {h}, o) == Refs(m, o) - if m[h] == o then 1 else 0
  {
    assert RefSet(m, o) == if m[h] == o then RefSet(m - {h}, o) + {h} else RefSet(m - {h}, o);
  }

  /** The copies of an object's handle that a list delivers. */
  function Copies(src: map<Handle, ObjectId>, items: seq<Item>, o: ObjectId): nat
    decreases |items|
  {
    if items == [] then 0
    else
      var item := items[0];
      if item.handle.None? || item.handle.value !in src then Copies(src, items[1..], o)
      else if item.moved then Copies(src - {item.handle.value}, items[1..], o)
      else Copies(src, items[1..], o) + if src[item.handle.value] == o then 1 else 0
  }

  ghost function AllRefs(t: Tables, o: ObjectId): nat {
    Refs(t.src, o) + Refs(t.dst.objects, o)
  }

  /** Moves conserve the references to every object, and each copy adds one. */
  lemma {:induction false} ReferencesConserved(t: Tables, items: seq<Item>, o: ObjectId)
    requires TranslateItems(t, items).Some?
    ensures AllRefs(TranslateItems(t, items).value.tables, o) == AllRefs(t, o) + Copies(t.src, items, o)
    decreases |items|
  {
    if items != [] {
      var item := items[0];
      if item.handle.Some? && item.handle.value in t.src {
        var h := item.handle.value;
        var i := InsertInto(t.dst, t.src[h]).value;
        RefsInserted(t.dst.objects, i.handle, t.src[h], o);
        RefsRemoved(t.src, h, o);
      }
      var one := TranslateHandle(t, items[0]).value;
      hide Refs;
      ReferencesConserved(one.tables, items[1..], o);
    }
  }

  // ---------------------------------------------------------------- parameters as lists of handles

  function Items(ps: seq<Param>): seq<Item> {
    if ps == [] then []
    else (if ps[0].HandleParam? then ItemsOf(ps[0].moved, ps[0].handles.List()) else []) + Items(ps[1..])
  }

  function HandleParams(ps: seq<Param>): seq<Param> {
    if ps == [] then []
    else (if ps[0].HandleParam? then [ps[0]] else []) + HandleParams(ps[1..])
  }

  function Outputs(ps: seq<Param>): seq<Option<Handle>> {
    if ps == [] then []
    else (if ps[0].HandleParam? then ps[0].handles.List() else []) + Outputs(ps[1..])
  }

  /** The same kinds of handle parameter with the same numbers of handles. */
  predicate SameShape(p: Param, q: Param) {
    && p.HandleParam? && q.HandleParam? && p.moved == q.moved && p.callingProcess == q.callingProcess
    && p.handles.Single? == q.handles.Single? && |p.handles.List()| == |q.handles.List()|
  }

  predicate SameShapes(ps: seq<Param>, qs: seq<Param>) {
    |ps| == |qs| && forall i :: 0 <= i < |ps| ==> SameShape(ps[i], qs[i])
  }

  lemma {:induction false} ItemsSplit(t: Tables, a: seq<Item>, b: seq<Item>)
    ensures TranslateItems(t, a + b) ==
      match TranslateItems(t, a)
      case None => None
      case Some(x) =>
        match TranslateItems(x.tables, b)
        case None => None
        case Some(y) => Some(Sent(x.value + y.value, y.tables))
    decreases |a|
  {
    if a == [] {
      assert a + b == b;
      assert TranslateItems(t, b).Some? ==> [] + TranslateItems(t, b).value.value == TranslateItems(t, b).value.value;
    } else {
      assert (a + b)[0] == a[0] && (a + b)[1..] == a[1..] + b;
      match TranslateHandle(t, a[0]) {
        case None =>
        case Some(one) =>
          ItemsSplit(one.tables, a[1..], b);
          match TranslateItems(one.tables, a[1..]) {
            case None =>
            case Some(x) =>
              if TranslateItems(x.tables, b).Some? {
                var y := TranslateItems(x.tables, b).value.value;
                assert [one.value] + (x.value + y) == ([one.value] + x.value) + y;
              }
          }
      }
    }
  }

  /** Translating parameters is translating their handles in order, and refilling the same shapes. */
  lemma {:induction false} ParamsAreItems(t: Tables, ps: seq<Param>)
    ensures TranslateParams(t, ps).Some? <==> TranslateItems(t, Items(ps)).Some?
    ensures TranslateParams(t, ps).Some? ==>
      var s := TranslateParams(t, ps).value;
      && TranslateItems(t, Items(ps)) == Some(Sent(Outputs(s.value), s.tables))
      && SameShapes(HandleParams(ps), s.value)
    decreases |ps|
  {
    assert TranslateItems(t, []) == Some(Sent([], t));
    hide TranslateItems;
    if ps != [] {
      var p := ps[0];
      var first := if p.HandleParam? then ItemsOf(p.moved, p.handles.List()) else [];
      ItemsSplit(t, first, Items(ps[1..]));
      hide ItemsOf;
      match TranslateParam(t, p) {
        case None =>
        case Some(one) => {
          ParamsAreItems(one.tables, ps[1..]);
          OutputsConcat(one.value, TranslateParams(one.tables, ps[1..]));
          assert Outputs(one.value) == if p.HandleParam? then one.value[0].handles.List() else [] by {
            if p.HandleParam? {
              assert one.value[1..] == [];
            }
          }
          if TranslateParams(one.tables, ps[1..]).Some? {
            var rest := TranslateParams(one.tables, ps[1..]).value.value;
            if p.HandleParam? {
              ShapesCons(p, one.value[0], HandleParams(ps[1..]), rest);
              assert one.value == [one.value[0]];
            } else {
              assert [] + rest == rest && [] + HandleParams(ps[1..]) == HandleParams(ps[1..]);
            }
          }
        }
      }
    }
  }

  lemma ShapesCons(p: Param, q: Param, ps: seq<Param>, qs: seq<Param>)
    requires SameShape(p, q) && SameShapes(ps, qs)
    ensures SameShapes([p] + ps, [q] + qs)
  {
    hide SameShape;
  }

  lemma OutputsConcat(one: seq<Param>, rest: Option<Sent<seq<Param>>>)
    requires |one| <= 1
    ensures rest.Some? ==> Outputs(one + rest.value.value) == Outputs(one) + Outputs(rest.value.value)
  {
    if rest.Some? {
      if one == [] {
        assert one + rest.value.value == rest.value.value;
      } else {
        assert (one + rest.value.value)[1..] == rest.value.value && one[1..] == [];
      }
    }
  }

  // ---------------------------------------------------------------- the translated message

  /** A parameter in the form the reader produces. */
  predicate ReadForm(p: Param) {
    Writable(p) && (p.handles.Single? <==> |p.handles.List()| == 1)
  }

  lemma OneParsed(ws: seq<Word>)
    requires ParseParam(ws).Some? && ParseParam(ws).value.param.HandleParam?
    ensures var p := ParseParam(ws).value;
      ReadForm(p.param) && p.used == 1 + |p.param.handles.List()|
  {
    hide ReadsMoved;
    hide ReadsCalling;
    hide ReadHandle;
  }

  /** Parsed handle parameters have the reader's form, and need no more words than were parsed. */
  lemma {:induction false} ParsedForm(ws: seq<Word>)
    requires ParseParams(ws).Some?
    ensures var ps := HandleParams(ParseParams(ws).value);
      (forall i :: 0 <= i < |ps| ==> ReadForm(ps[i])) && WordsOf(ps) <= |ws|
    decreases |ws|
  {
    if ws != [] {
      var p := ParseParam(ws).value;
      if p.param.HandleParam? {
        OneParsed(ws);
      }
      hide ParseParam;
      hide ReadForm;
      ParsedForm(ws[p.used..]);
      var rest := ParseParams(ws[p.used..]).value;
      assert ([p.param] + rest)[1..] == rest;
      if p.param.HandleParam? {
        assert ([p.param] + HandleParams(rest))[1..] == HandleParams(rest);
      } else {
        assert [] + HandleParams(rest) == HandleParams(rest);
      }
    }
  }

  lemma {:induction false} ShapesFormat(ps: seq<Param>, qs: seq<Param>)
    requires SameShapes(ps, qs) && forall i :: 0 <= i < |ps| ==> ReadForm(ps[i])
    ensures forall q :: q in qs ==> Writable(q) && ReadForm(q)
    ensures |FormatParams(qs)| == WordsOf(ps)
  {
    if ps != [] {
      assert SameShape(ps[0], qs[0]);
      ShapesFormat(ps[1..], qs[1..]);
      assert forall q :: q in qs ==> q == qs[0] || q in qs[1..];
    }
  }

  /** The output never outgrows the buffer. */
  lemma TranslatedFits(ws: seq<Word>, reply: bool, t: Tables)
    requires |ws| == MAX_WORDS && Translate(ws, reply, t).Some?
    ensures var m := Translate(ws, reply, t).value.value;
      Fits(m) && forall q :: q in m.params ==> ReadForm(q)
  {
    hide UnpackHeader;
    hide ParseParams;
    hide TranslateParams;
    hide ReadForm;
    hide FormatParams;
    hide WordsOf;
    hide HandleParams;
    var h := UnpackHeader(ws[0]);
    var p := Preamble(reply);
    var m := ParseMessage(ws, reply).value;
    var out := Translate(ws, reply, t).value.value;
    ParsedForm(ws[p + h.normals..p + h.normals + h.words]);
    ParamsAreItems(t, m.params);
    ShapesFormat(HandleParams(m.params), out.params);
    assert |BodyWords(out)| == |ResultWords(m.result)| + |m.normals| + WordsOf(HandleParams(m.params));
  }

  /** Nothing in the message asks for the calling process. */
  predicate NoCalling(ps: seq<Param>) {
    forall p :: p in ps && p.HandleParam? ==> !p.callingProcess
  }

  lemma {:induction false} NoCallingKept(ps: seq<Param>, qs: seq<Param>)
    requires NoCalling(ps) && SameShapes(HandleParams(ps), qs)
    ensures NoCalling(qs)
  {
    HandleParamsIn(ps);
    forall q | q in qs ensures !q.callingProcess {
      var i :| 0 <= i < |qs| && qs[i] == q;
      assert SameShape(HandleParams(ps)[i], q) && HandleParams(ps)[i] in ps;
    }
  }

  lemma {:induction false} HandleParamsIn(ps: seq<Param>)
    ensures forall p :: p in HandleParams(ps) ==> p in ps && p.HandleParam?
  {
    if ps != [] {
      HandleParamsIn(ps[1..]);
    }
  }

  lemma CanonicalRead(qs: seq<Param>)
    requires NoCalling(qs) && forall q :: q in qs ==> ReadForm(q)
    ensures CanonicalAll(qs) == qs
  {
    forall i | 0 <= i < |qs| ensures Canonical(qs[i]) == qs[i] {
      assert qs[i] in qs && ReadForm(qs[i]);
      assert |qs[i].handles.List()| == 1 ==> qs[i].handles == Single(qs[i].handles.List()[0]);
    }
  }

  /** The receiver's buffer means the same as the sender's. */
  ghost predicate SameMeaning(m: Message, m': Message, t: Tables, t': Tables) {
    && m'.commandId == m.commandId && m'.result == m.result && m'.normals == m.normals
    && SameShapes(HandleParams(m.params), m'.params)
    && Delivered(t, t', Items(m.params), Outputs(m'.params))
    && TablesFollow(t, t', Items(m.params), Outputs(m'.params))
    && (forall o :: AllRefs(t', o) == AllRefs(t, o) + Copies(t.src, Items(m.params), o))
  }

  /**
    For every well-formed source message, whatever buffer starts with the translated message decodes
    to one with the same command, result, normal words and handle shapes, whose nonzero handles name
    the objects the source handles named; moves conserve references and copies add one.
   */
  lemma TranslationPreservesMeaning(ws: seq<Word>, out: seq<Word>, reply: bool, t: Tables)
    requires |ws| == |out| == MAX_WORDS && Translate(ws, reply, t).Some?
    requires var m := Translate(ws, reply, t).value.value; Fits(m) && FormatMessage(m) <= out
    requires NoCalling(ParseMessage(ws, reply).value.params)
    ensures ParseMessage(out, reply).Some?
    ensures SameMeaning(
      ParseMessage(ws, reply).value, ParseMessage(out, reply).value, t, Translate(ws, reply, t).value.tables)
  {
    var m := ParseMessage(ws, reply).value;
    var s := Translate(ws, reply, t).value;
    TranslatedFits(ws, reply, t);
    assert s.value.result.Some? == reply;
    assert TranslateParams(t, m.params) == Some(Sent(s.value.params, s.tables));
    hide Translate;
    hide ParseMessage;
    hide TranslateParams;
    hide TranslateItems;
    hide FormatMessage;
    hide Fits;
    hide CanonicalAll;
    hide Delivered;
    hide TablesFollow;
    hide SameShapes;
    hide ReadForm;
    MessageRoundTrip(s.value, out);
    ParamsAreItems(t, m.params);
    NoCallingKept(m.params, s.value.params);
    CanonicalRead(s.value.params);
    ItemsDelivered(t, Items(m.params));
    hide AllRefs;
    forall o ensures AllRefs(s.tables, o) == AllRefs(t, o) + Copies(t.src, Items(m.params), o) {
      ReferencesConserved(t, Items(m.params), o);
    }
  }
}
