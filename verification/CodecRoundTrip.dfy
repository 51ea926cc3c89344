/** The emitted writers refine one reference encoder, and the emitted reader
    inverts it up to a normal form. */
module CodecRoundTrip {
  import opened Basics
  import opened Wire
  import opened Emitters

  // ---- well-typed values ----

  function MemberOf(fields: seq<Field>, member: string): (r: Option<Field>)
    ensures r.Some? ==> r.value in fields && r.value.disc.Some? && r.value.name == member
  {
    if fields == [] then None
    else if fields[0].disc.Some? && fields[0].name == member then Some(fields[0])
    else MemberOf(fields[1..], member)
  }

  predicate Typed(sc: Schema, name: string, v: Val)
    decreases v, 2
  {
    && name in sc
    && if IsUnion(sc[name]) then
         && v.VUnion? && MemberOf(sc[name].fields, v.member).Some?
         && var f := MemberOf(sc[name].fields, v.member).value;
            if f.ty == Void then v.value.None? else v.value.Some? && TypedTy(sc, f.ty, v.value.value)
       else v.VRecord? && forall f :: f in sc[name].fields ==> TypedField(sc, f, v)
  }

  predicate TypedField(sc: Schema, f: Field, v: Val)
    requires v.VRecord?
    decreases v, 0
  {
    f.ty == Void || (if f.name in v.fields then TypedTy(sc, f.ty, v.fields[f.name]) else OmitWhenNull(f))
  }

  predicate TypedTy(sc: Schema, ty: Ty, x: Val)
    decreases x, 3
  {
    match ty
    case Void => x == VNone
    case Scalar(k) => InRange(k, x)
    case Text => x.VText?
    case Data => x.VData?
    case Enum(table) => x.VEnum? && x.name in table
    case Struct(n) => Typed(sc, n, x)
    case Interface => x.VCap? || x == VNone
    case List(el) => x.VList? && TypedItems(sc, el, x.items)
  }

  predicate TypedItems(sc: Schema, el: El, items: seq<Val>)
    decreases items, 0
  {
    (el.StructEl? ==> el.name in sc) &&
    (items == [] || (TypedItem(sc, el, items[0]) && TypedItems(sc, el, items[1..])))
  }

  predicate TypedItem(sc: Schema, el: El, x: Val)
    decreases x, 3
  {
    match el
    case TextEl => x.VText?
    case DataEl => x.VData?
    case BoolEl => x.VBool?
    case U16El => x.VInt? && 0 <= x.n < Pow2(16)
    case U32El => x.VInt? && 0 <= x.n < Pow2(32)
    case EnumEl(table) => x.VEnum? && x.name in table
    case StructEl(n) => Typed(sc, n, x)
  }

  // ---- both emitted writers make the calls of the reference encoder ----

  lemma ConcatAssoc(a: Option<seq<Op>>, b: Option<seq<Op>>, c: Option<seq<Op>>)
    ensures Concat(Concat(a, b), c) == Concat(a, Concat(b, c))
    ensures Concat(a, Some([])) == a && Concat(Some([]), a) == a
  {
    if a.Some? {
      assert a.value + [] == a.value && [] + a.value == a.value;
      if b.Some? && c.Some? {
        assert (a.value + b.value) + c.value == a.value + (b.value + c.value);
      }
    }
  }

  lemma {:induction false} ExecAppend(sc: Schema, caps: Caps, lang: Lang, a: seq<Stmt>, b: seq<Stmt>, v: Val)
    ensures Exec(sc, caps, lang, a + b, v) == Concat(Exec(sc, caps, lang, a, v), Exec(sc, caps, lang, b, v))
    decreases |a|
  {
    if a == [] {
      assert a + b == b;
      ConcatAssoc(Exec(sc, caps, lang, b, v), None, None);
    } else {
      assert (a + b)[1..] == a[1..] + b;
      ExecAppend(sc, caps, lang, a[1..], b, v);
      ConcatAssoc(ExecOne(sc, caps, lang, a[0], v), Exec(sc, caps, lang, a[1..], v), Exec(sc, caps, lang, b, v));
    }
  }

  lemma ExecSingle(sc: Schema, caps: Caps, lang: Lang, st: Stmt, v: Val)
    ensures Exec(sc, caps, lang, [st], v) == ExecOne(sc, caps, lang, st, v)
  {
    assert [st][1..] == [];
    ConcatAssoc(ExecOne(sc, caps, lang, st, v), None, None);
  }

  /** For Python this holds of every value; TypeScript's `?? default` and null
      tests agree with it on well-typed ones. */
  lemma {:induction false} WriterMeansEncode(sc: Schema, caps: Caps, lang: Lang, name: string, v: Val)
    requires lang == Ts ==> Typed(sc, name, v)
    ensures RunWriter(sc, caps, lang, name, v) == Encode(sc, caps, name, v)
    decreases v, 2
  {
    if name in sc {
      if IsUnion(sc[name]) {
        if v.VUnion? {
          CaseMeansMember(sc, caps, lang, sc[name], sc[name].fields, v);
        }
      } else if v.VRecord? {
        BodyMeansFields(sc, caps, lang, sc[name].fields, v);
      }
    }
  }

  lemma {:induction false} CaseMeansMember(sc: Schema, caps: Caps, lang: Lang, d: StructDef, fields: seq<Field>, v: Val)
    requires v.VUnion?
    requires lang == Ts ==>
               && MemberOf(fields, v.member).Some?
               && var f := MemberOf(fields, v.member).value;
                  f.ty != Void ==> v.value.Some? && TypedTy(sc, f.ty, v.value.value)
    ensures ExecCase(sc, caps, lang, d.discOff, Cases(lang, fields), v) == EncodeMember(sc, caps, d, fields, v)
    decreases v, 1, |fields|
  {
    if fields != [] {
      var f := fields[0];
      if f.disc.Some? && f.name == v.member {
        if f.ty != Void {
          ArgMeansTy(sc, caps, lang, f.ty, f.off, Payload, v);
        }
      } else {
        CaseMeansMember(sc, caps, lang, d, fields[1..], v);
        if f.disc.Some? {
          assert Cases(lang, fields)[1..] == Cases(lang, fields[1..]);
        }
      }
    }
  }

  lemma {:induction false} BodyMeansFields(sc: Schema, caps: Caps, lang: Lang, fields: seq<Field>, v: Val)
    requires v.VRecord?
    requires lang == Ts ==> forall f :: f in fields ==> TypedField(sc, f, v)
    ensures Exec(sc, caps, lang, BodyStmts(lang, fields), v) == EncodeFields(sc, caps, fields, v)
    decreases v, 1, |fields|
  {
    if fields != [] {
      ExecAppend(sc, caps, lang, FieldStmts(lang, fields[0]), BodyStmts(lang, fields[1..]), v);
      FieldMeansField(sc, caps, lang, fields[0], v);
      BodyMeansFields(sc, caps, lang, fields[1..], v);
    }
  }

  lemma {:induction false} FieldMeansField(sc: Schema, caps: Caps, lang: Lang, f: Field, v: Val)
    requires v.VRecord?
    requires lang == Ts ==> TypedField(sc, f, v)
    ensures Exec(sc, caps, lang, FieldStmts(lang, f), v) == EncodeField(sc, caps, f, v)
    decreases v, 0, 1
  {
    var w := WriteExpr(lang, f.ty, f.off, Key(f.name));
    if f.name in v.fields && f.ty != Void {
      ArgMeansTy(sc, caps, lang, f.ty, f.off, Key(f.name), v);
    }
    if lang == Py && OmitWhenNull(f) {
      ExecSingle(sc, caps, lang, IfNotNull(Key(f.name), w), v);
    } else if lang == Ts && f.optional {
      ExecSingle(sc, caps, lang, IfDefined(Key(f.name), w), v);
    } else if f.ty != Void {
      ExecSingle(sc, caps, lang, w[0], v);
    }
  }

  /** The statements for a present argument write what the reference writes. */
  lemma {:induction false} ArgMeansTy(sc: Schema, caps: Caps, lang: Lang, ty: Ty, off: nat, arg: Arg, v: Val)
    requires ty != Void
    requires Lookup(v, arg).Some? ==> (lang == Ts ==> TypedTy(sc, ty, Lookup(v, arg).value))
    requires lang == Ts || arg.Key? ==> Lookup(v, arg).Some?
    ensures Exec(sc, caps, lang, WriteExpr(lang, ty, off, arg), v)
            == if Lookup(v, arg).Some? then EncodeTy(sc, caps, ty, off, Lookup(v, arg).value) else None
    decreases v, 0, 0
  {
    var w := WriteExpr(lang, ty, off, arg);
    ExecSingle(sc, caps, lang, w[0], v);
    if Lookup(v, arg).Some? {
      var x := Lookup(v, arg).value;
      var call := Call(ty, off, arg, false);
      ExecSingle(sc, caps, lang, call, v);
      if ty != Interface || x != VNone {
        CallMeansTy(sc, caps, lang, ty, off, x);
      }
    }
  }

  lemma {:induction false} CallMeansTy(sc: Schema, caps: Caps, lang: Lang, ty: Ty, off: nat, x: Val)
    requires ty != Void && (ty == Interface ==> x != VNone)
    requires lang == Ts ==> TypedTy(sc, ty, x)
    ensures CallOps(sc, caps, lang, ty, off, x) == EncodeTy(sc, caps, ty, off, x)
    decreases x, 3
  {
    if ty.Struct? {
      WriterMeansEncode(sc, caps, lang, ty.name, x);
    } else if ty.List? && ty.el.StructEl? && x.VList? {
      ItemsMeanItems(sc, caps, lang, ty.el, x.items);
    }
  }

  lemma {:induction false} ItemsMeanItems(sc: Schema, caps: Caps, lang: Lang, el: El, items: seq<Val>)
    requires el.StructEl? && (lang == Ts ==> TypedItems(sc, el, items))
    ensures RunItems(sc, caps, lang, el.name, items) == EncodeItems(sc, caps, el.name, items)
    decreases items, 0
  {
    if items != [] {
      WriterMeansEncode(sc, caps, lang, el.name, items[0]);
      ItemsMeanItems(sc, caps, lang, el, items[1..]);
    }
  }

  /** The Python and TypeScript writers issue the same nested sequence of
      allocations and slot writes, so their messages coincide. */
  lemma WritersAgree(sc: Schema, caps: Caps, name: string, v: Val)
    requires Typed(sc, name, v)
    ensures RunWriter(sc, caps, Py, name, v) == RunWriter(sc, caps, Ts, name, v)
    ensures EncodeMessage(sc, caps, Py, name, v) == EncodeMessage(sc, caps, Ts, name, v)
  {
    WriterMeansEncode(sc, caps, Py, name, v);
    WriterMeansEncode(sc, caps, Ts, name, v);
  }

  // ---- layouts ----

  function RawSlot(k: Kind, off: nat): Slot {
    DataSlot(off * Width(k), (off + 1) * Width(k))
  }

  function TySlot(ty: Ty, off: nat): Slot {
    match ty
    case Void => DataSlot(0, 0)
    case Scalar(k) => RawSlot(k, off)
    case Enum(_) => RawSlot(U16, off)
    case _ => PtrSlot(off)
  }

  function FieldSlot(f: Field): Slot {
    TySlot(f.ty, f.off)
  }

  function DiscSlot(d: StructDef): Slot {
    RawSlot(U16, d.discOff)
  }

  predicate TyOk(ty: Ty) {
    match ty
    case Enum(table) => |table| <= Pow2(Width(U16))
    case List(EnumEl(table)) => |table| <= Pow2(Width(U16))
    case _ => true
  }

  /** What the Cap'n Proto compiler guarantees of a layout, and the emitter's own
      checks: unions are whole structs, `$optional` marks Text, Data and numbers. */
  predicate LayoutOk(d: StructDef) {
    && (forall f :: f in d.fields ==> TyOk(f.ty) && Fits(FieldSlot(f), d.dw, d.pc))
    && (forall f :: f in d.fields && f.optional ==>
          f.ty in {Text, Data} || (f.ty.Scalar? && f.ty.kind != Bool))
    && (forall i, j :: 0 <= i < j < |d.fields| ==> d.fields[i].name != d.fields[j].name)
    && (IsUnion(d) ==>
          && Fits(DiscSlot(d), d.dw, d.pc)
          && (forall f :: f in d.fields ==>
                f.disc.Some? && f.disc.value < Pow2(Width(U16)) && !f.optional && Disjoint(DiscSlot(d), FieldSlot(f)))
          && (forall i, j :: 0 <= i < j < |d.fields| ==> d.fields[i].disc != d.fields[j].disc))
    && (!IsUnion(d) ==>
          forall i, j :: 0 <= i < j < |d.fields| ==> Disjoint(FieldSlot(d.fields[i]), FieldSlot(d.fields[j])))
  }

  predicate SchemaOk(sc: Schema) {
    forall n :: n in sc ==> LayoutOk(sc[n])
  }

  /** Importing an exported capability gives it back. */
  ghost predicate CapsOk(caps: Caps) {
    forall c :: caps.importCap(caps.exportCap(c)) == c
  }

  // ---- the normal form ----

  /** Zero `$optional` values and null capabilities are absent. When `lossy`,
      a list of structs without any words is empty as well: that is what the
      reader makes of it, since the payload length in its pointer is zero. */
  function Norm(sc: Schema, lossy: bool, name: string, v: Val): Val
    requires Typed(sc, name, v)
    decreases v, 2
  {
    if IsUnion(sc[name]) then
      var f := MemberOf(sc[name].fields, v.member).value;
      if f.ty == Void then VUnion(v.member, None)
      else VUnion(v.member, Some(NormTy(sc, lossy, f.ty, v.value.value)))
    else
      VRecord(NormFields(sc, lossy, Keep(sc[name].fields, false), v)
              + NormFields(sc, lossy, Keep(sc[name].fields, true), v))
  }

  function NormFields(sc: Schema, lossy: bool, fields: seq<Field>, v: Val): map<string, Val>
    requires v.VRecord? && forall f :: f in fields ==> TypedField(sc, f, v)
    decreases v, 1, |fields|
  {
    if fields == [] then map[]
    else
      var f := fields[0];
      assert TypedField(sc, f, v);
      var rest := NormFields(sc, lossy, fields[1..], v);
      if f.ty == Void then rest[f.name := VNone]
      else if f.name !in v.fields || (OmitWhenNull(f) && IsZero(f.ty, v.fields[f.name])) then rest
      else rest[f.name := NormTy(sc, lossy, f.ty, v.fields[f.name])]
  }

  function NormTy(sc: Schema, lossy: bool, ty: Ty, x: Val): Val
    requires TypedTy(sc, ty, x)
    decreases x, 3
  {
    match ty
    case Struct(n) => Norm(sc, lossy, n, x)
    case List(StructEl(n)) =>
      assert TypedItems(sc, StructEl(n), x.items);
      if lossy && sc[n].dw + sc[n].pc == 0 then VList([]) else VList(NormItems(sc, lossy, n, x.items))
    case _ => x
  }

  function NormItems(sc: Schema, lossy: bool, name: string, items: seq<Val>): (r: seq<Val>)
    requires TypedItems(sc, StructEl(name), items)
    ensures |r| == |items|
    decreases items, 0
  {
    if items == [] then []
    else
      assert TypedItem(sc, StructEl(name), items[0]);
      [Norm(sc, lossy, name, items[0])] + NormItems(sc, lossy, name, items[1..])
  }

  // ---- leaves ----

  lemma PtrRoundTrip(text: bool, x: Val)
    requires if text then x.VText? else x.VData?
    ensures text ==> ReadText(TextPtr(x).value) == Some(x)
    ensures !text ==> ReadData(DataPtr(x).value) == Some(x)
  {
    if text {
      assert (x.bytes + [0])[..|x.bytes|] == x.bytes;
    }
  }

  lemma {:induction false} PtrsRoundTrip(text: bool, items: seq<Val>)
    requires forall x :: x in items ==> if text then x.VText? else x.VData?
    ensures AllPtrs(text, items).Some? && ReadPtrs(text, AllPtrs(text, items).value) == Some(items)
  {
    if items != [] {
      PtrRoundTrip(text, items[0]);
      PtrsRoundTrip(text, items[1..]);
      var ps := AllPtrs(text, items).value;
      assert ps[1..] == AllPtrs(text, items[1..]).value;
      assert items == [items[0]] + items[1..];
    }
  }

  lemma {:induction false} BoolsRoundTrip(items: seq<Val>)
    requires forall x :: x in items ==> x.VBool?
    ensures AllBools(items).Some? && Emitters.Bits(AllBools(items).value) == items
  {
    if items != [] {
      BoolsRoundTrip(items[1..]);
    }
  }

  lemma {:induction false} NumbersRoundTrip(width: nat, items: seq<Val>)
    requires forall x :: x in items ==> x.VInt? && 0 <= x.n < Pow2(width)
    ensures AllNumbers(width, items).Some? && Ints(AllNumbers(width, items).value) == items
  {
    if items != [] {
      NumbersRoundTrip(width, items[1..]);
    }
  }

  lemma {:induction false} EnumsRoundTrip(table: seq<string>, items: seq<Val>)
    requires forall x :: x in items ==> x.VEnum? && x.name in table
    ensures AllOrdinals(table, items).Some? && ReadEnums(table, AllOrdinals(table, items).value) == Some(items)
  {
    if items != [] {
      EnumsRoundTrip(table, items[1..]);
      var ns := AllOrdinals(table, items).value;
      assert ns[1..] == AllOrdinals(table, items[1..]).value;
      assert items == [items[0]] + items[1..];
    }
  }

  lemma {:induction false} ItemsAreTyped(sc: Schema, el: El, items: seq<Val>)
    requires TypedItems(sc, el, items)
    ensures forall x :: x in items ==> TypedItem(sc, el, x)
    decreases |items|
  {
    if items != [] {
      ItemsAreTyped(sc, el, items[1..]);
      assert items == [items[0]] + items[1..];
    }
  }

  lemma ListRoundTrip(sc: Schema, el: El, items: seq<Val>)
    requires !el.StructEl? && TypedItems(sc, el, items)
    ensures ListPtrOf(el, items).Some? && ReadList(el, ListPtr(ListPtrOf(el, items).value)) == Some(items)
  {
    ItemsAreTyped(sc, el, items);
    match el
    case TextEl => PtrsRoundTrip(true, items);
    case DataEl => PtrsRoundTrip(false, items);
    case BoolEl => BoolsRoundTrip(items);
    case U16El => NumbersRoundTrip(16, items);
    case U32El => NumbersRoundTrip(32, items);
    case EnumEl(table) => EnumsRoundTrip(table, items);
  }

  lemma RawRoundTrip(k: Kind, off: nat, raw: nat, o: Obj)
    requires raw < Pow2(Width(k))
    ensures SlotOf(SetRaw(k, off, raw)) == RawSlot(k, off)
    ensures Peek(o, RawSlot(k, off)) == ContentOf(SetRaw(k, off, raw)) ==> GetRaw(k, o, off) == raw
  {
    var w := Width(k);
    ModSmall(raw, Pow2(w));
    BitsRoundTrip(raw, w);
    assert (off + 1) * w == off * w + w;
  }

  predicate ReadsBack(caps: Caps, ty: Ty, off: nat, x: Val, o: Obj)
    requires !Nested(ty) && ty != Void
  {
    && LeafOp(caps, ty, off, x).Some?
    && var op := LeafOp(caps, ty, off, x).value;
       SlotOf(op) == TySlot(ty, off)
       && (Peek(o, TySlot(ty, off)) == ContentOf(op) ==> DecodeLeaf(caps, ty, off, o) == Some(x))
  }

  lemma ScalarLeaf(caps: Caps, k: Kind, off: nat, x: Val, o: Obj)
    requires InRange(k, x)
    ensures ReadsBack(caps, Scalar(k), off, x, o)
  {
    ScalarRoundTrip(k, x);
    RawRoundTrip(k, off, RawOf(k, x).value, o);
  }

  lemma EnumLeaf(caps: Caps, table: seq<string>, off: nat, x: Val, o: Obj)
    requires x.VEnum? && x.name in table && |table| <= Pow2(Width(U16))
    ensures ReadsBack(caps, Enum(table), off, x, o)
  {
    RawRoundTrip(U16, off, Find(table, x.name).value, o);
  }

  lemma ListLeaf(sc: Schema, caps: Caps, el: El, off: nat, x: Val, o: Obj)
    requires !el.StructEl? && x.VList? && TypedItems(sc, el, x.items)
    ensures ReadsBack(caps, List(el), off, x, o)
  {
    ListRoundTrip(sc, el, x.items);
    ListOpReads(caps, el, off, x.items, ListPtrOf(el, x.items).value, o);
  }

  lemma ListOpReads(caps: Caps, el: El, off: nat, items: seq<Val>, l: WireList, o: Obj)
    requires !el.StructEl? && ListPtrOf(el, items) == Some(l) && ReadList(el, ListPtr(l)) == Some(items)
    ensures LeafOp(caps, List(el), off, VList(items)) == Some(SetLeaf(off, ListPtr(l)))
    ensures Peek(o, PtrSlot(off)) == Pointer(ListPtr(l)) ==> DecodeLeaf(caps, List(el), off, o) == Some(VList(items))
  {
    if Peek(o, PtrSlot(off)) == Pointer(ListPtr(l)) {
      assert GetPtr(o, off) == ListPtr(l);
    }
  }

  lemma LeafRoundTrip(sc: Schema, caps: Caps, ty: Ty, off: nat, x: Val, o: Obj)
    requires CapsOk(caps) && TyOk(ty) && !Nested(ty) && ty != Void
    requires TypedTy(sc, ty, x) && (ty == Interface ==> x.VCap?)
    ensures ReadsBack(caps, ty, off, x, o)
  {
    match ty
    case Scalar(k) => ScalarLeaf(caps, k, off, x, o);
    case Enum(table) => EnumLeaf(caps, table, off, x, o);
    case Text => assert (x.bytes + [0])[..|x.bytes|] == x.bytes;
    case Data =>
    case Interface =>
    case List(el) => ListLeaf(sc, caps, el, off, x, o);
  }

  /** An untouched optional slot reads as absent. */
  lemma ZeroReadsAbsent(caps: Caps, ty: Ty, off: nat, o: Obj, dw: nat, pc: nat)
    requires Fits(TySlot(ty, off), dw, pc) && Peek(o, TySlot(ty, off)) == Peek(ZeroObj(dw, pc), TySlot(ty, off))
    requires ty in {Text, Data, Interface} || (ty.Scalar? && ty.kind != Bool)
    ensures DecodeLeaf(caps, ty, off, o).Some? && IsZero(ty, DecodeLeaf(caps, ty, off, o).value)
  {
    if ty.Scalar? {
      var w := Width(ty.kind);
      assert (off + 1) * w == off * w + w;
      ZeroBits(o.data[off * w..(off + 1) * w]);
      assert GetRaw(ty.kind, o, off) == 0;
    }
  }

  // ---- slots of the reference encoder ----

  lemma {:induction false} TyEncodes(sc: Schema, caps: Caps, ty: Ty, off: nat, x: Val)
    requires SchemaOk(sc) && CapsOk(caps) && ty != Void && TyOk(ty) && TypedTy(sc, ty, x)
    ensures var r := EncodeTy(sc, caps, ty, off, x);
            && r.Some? && |r.value| <= 1 && (|r.value| == 0 <==> ty == Interface && x == VNone)
            && (forall op :: op in r.value ==> SlotOf(op) == TySlot(ty, off))
    decreases x, 3
  {
    if ty.Struct? {
      StructEncodes(sc, caps, ty.name, x);
    } else if ty.List? && ty.el.StructEl? {
      ItemsEncode(sc, caps, ty.el.name, x.items);
    } else if ty != Interface || x != VNone {
      LeafRoundTrip(sc, caps, ty, off, x, Obj([], []));
    }
  }

  lemma {:induction false} ItemsEncode(sc: Schema, caps: Caps, name: string, items: seq<Val>)
    requires SchemaOk(sc) && CapsOk(caps) && TypedItems(sc, StructEl(name), items)
    ensures EncodeItems(sc, caps, name, items).Some?
    decreases items, 0
  {
    if items != [] {
      assert TypedItem(sc, StructEl(name), items[0]);
      StructEncodes(sc, caps, name, items[0]);
      ItemsEncode(sc, caps, name, items[1..]);
    }
  }

  lemma {:induction false} StructEncodes(sc: Schema, caps: Caps, name: string, v: Val)
    requires SchemaOk(sc) && CapsOk(caps) && Typed(sc, name, v)
    ensures Encode(sc, caps, name, v).Some?
    decreases v, 2
  {
    var d := sc[name];
    if IsUnion(d) {
      MemberEncodes(sc, caps, d, d.fields, v);
    } else {
      FieldsEncode(sc, caps, d.fields, v);
    }
  }

  /** The encoding of a union is its discriminant and at most one member write. */
  lemma {:induction false} MemberEncodes(sc: Schema, caps: Caps, d: StructDef, fields: seq<Field>, v: Val)
    requires SchemaOk(sc) && CapsOk(caps) && v.VUnion? && MemberOf(fields, v.member).Some?
    requires forall f :: f in fields ==> TyOk(f.ty)
    requires var f := MemberOf(fields, v.member).value;
             f.ty != Void ==> v.value.Some? && TypedTy(sc, f.ty, v.value.value)
    ensures var f := MemberOf(fields, v.member).value;
            var own := if f.ty == Void then Some([]) else EncodeTy(sc, caps, f.ty, f.off, v.value.value);
            && own.Some?
            && EncodeMember(sc, caps, d, fields, v)
               == Some([SetRaw(U16, d.discOff, f.disc.value)] + own.value)
    decreases v, 1, |fields|
  {
    var f := fields[0];
    if f.disc.Some? && f.name == v.member {
      if f.ty != Void {
        TyEncodes(sc, caps, f.ty, f.off, v.value.value);
      }
    } else {
      MemberEncodes(sc, caps, d, fields[1..], v);
    }
  }

  lemma {:induction false} FieldEncodes(sc: Schema, caps: Caps, f: Field, v: Val)
    requires SchemaOk(sc) && CapsOk(caps) && TyOk(f.ty) && v.VRecord? && TypedField(sc, f, v)
    ensures var r := EncodeField(sc, caps, f, v);
            && r.Some? && |r.value| <= 1 && (forall op :: op in r.value ==> SlotOf(op) == FieldSlot(f))
            && (r.value == [] && f.ty != Void ==>
                  OmitWhenNull(f) && (f.name in v.fields ==> f.ty == Interface && v.fields[f.name] == VNone))
            && (r.value != [] ==>
                  && f.ty != Void && f.name in v.fields
                  && r == EncodeTy(sc, caps, f.ty, f.off, v.fields[f.name])
                  && !(f.ty == Interface && v.fields[f.name] == VNone))
    decreases v, 0
  {
    if f.ty != Void && f.name in v.fields {
      TyEncodes(sc, caps, f.ty, f.off, v.fields[f.name]);
    }
  }

  lemma {:induction false} FieldsEncode(sc: Schema, caps: Caps, fields: seq<Field>, v: Val)
    requires SchemaOk(sc) && CapsOk(caps) && v.VRecord?
    requires forall f :: f in fields ==> TyOk(f.ty) && TypedField(sc, f, v)
    ensures EncodeFields(sc, caps, fields, v).Some?
    decreases v, 1, |fields|
  {
    if fields != [] {
      FieldEncodes(sc, caps, fields[0], v);
      FieldsEncode(sc, caps, fields[1..], v);
    }
  }

  lemma {:induction false} FieldsDisjoint(sc: Schema, caps: Caps, fields: seq<Field>, v: Val, s: Slot)
    requires SchemaOk(sc) && CapsOk(caps) && v.VRecord?
    requires forall f :: f in fields ==> TyOk(f.ty) && TypedField(sc, f, v) && Disjoint(FieldSlot(f), s)
    ensures EncodeFields(sc, caps, fields, v).Some?
    ensures forall op :: op in EncodeFields(sc, caps, fields, v).value ==> Disjoint(SlotOf(op), s)
    decreases |fields|
  {
    if fields != [] {
      FieldEncodes(sc, caps, fields[0], v);
      FieldsDisjoint(sc, caps, fields[1..], v, s);
    }
  }

  lemma {:induction false} FieldsSplit(sc: Schema, caps: Caps, fields: seq<Field>, i: nat, v: Val)
    requires v.VRecord? && i <= |fields|
    ensures EncodeFields(sc, caps, fields, v)
            == Concat(EncodeFields(sc, caps, fields[..i], v), EncodeFields(sc, caps, fields[i..], v))
    decreases i
  {
    if i == 0 {
      assert fields[..0] == [] && fields[0..] == fields;
      ConcatAssoc(EncodeFields(sc, caps, fields, v), None, None);
    } else {
      FieldsSplit(sc, caps, fields[1..], i - 1, v);
      assert fields[1..][..i - 1] == fields[..i][1..] && fields[1..][i - 1..] == fields[i..];
      ConcatAssoc(EncodeField(sc, caps, fields[0], v), EncodeFields(sc, caps, fields[..i][1..], v),
                  EncodeFields(sc, caps, fields[i..], v));
    }
  }

  // ---- reading back ----

  lemma FieldsAround(sc: Schema, caps: Caps, fields: seq<Field>, i: nat, v: Val)
    requires v.VRecord? && i < |fields| && EncodeFields(sc, caps, fields, v).Some?
    ensures EncodeFields(sc, caps, fields[..i], v).Some? && EncodeField(sc, caps, fields[i], v).Some?
            && EncodeFields(sc, caps, fields[i + 1..], v).Some?
    ensures EncodeFields(sc, caps, fields, v).value
            == EncodeFields(sc, caps, fields[..i], v).value + EncodeField(sc, caps, fields[i], v).value
               + EncodeFields(sc, caps, fields[i + 1..], v).value
  {
    FieldsSplit(sc, caps, fields, i, v);
    assert fields[i..][1..] == fields[i + 1..] && fields[i..][0] == fields[i];
    ConcatAssoc(EncodeFields(sc, caps, fields[..i], v), EncodeField(sc, caps, fields[i], v),
                EncodeFields(sc, caps, fields[i + 1..], v));
  }

  lemma OtherFields(d: StructDef, i: nat)
    requires LayoutOk(d) && !IsUnion(d) && i < |d.fields|
    ensures forall f :: f in d.fields[..i] ==> f in d.fields && TyOk(f.ty) && Disjoint(FieldSlot(f), FieldSlot(d.fields[i]))
    ensures forall f :: f in d.fields[i + 1..] ==> f in d.fields && TyOk(f.ty) && Disjoint(FieldSlot(f), FieldSlot(d.fields[i]))
  {}

  /** Field `i` of a plain struct reads back from its own slot alone. */
  lemma FieldSurvives(sc: Schema, caps: Caps, d: StructDef, v: Val, i: nat)
    requires SchemaOk(sc) && CapsOk(caps) && LayoutOk(d) && !IsUnion(d) && v.VRecord? && i < |d.fields|
    requires forall f :: f in d.fields ==> TypedField(sc, f, v)
    ensures EncodeFields(sc, caps, d.fields, v).Some? && EncodeField(sc, caps, d.fields[i], v).Some?
    ensures var o := Build(d.dw, d.pc, EncodeFields(sc, caps, d.fields, v).value);
            var own := EncodeField(sc, caps, d.fields[i], v).value;
            Peek(o, FieldSlot(d.fields[i]))
            == if own == [] then Peek(ZeroObj(d.dw, d.pc), FieldSlot(d.fields[i])) else ContentOf(own[0])
  {
    FieldsEncode(sc, caps, d.fields, v);
    FieldEncodes(sc, caps, d.fields[i], v);
    FieldsAround(sc, caps, d.fields, i, v);
    OtherFields(d, i);
    FieldsDisjoint(sc, caps, d.fields[..i], v, FieldSlot(d.fields[i]));
    FieldsDisjoint(sc, caps, d.fields[i + 1..], v, FieldSlot(d.fields[i]));
    SlotSurvives(d.dw, d.pc, EncodeFields(sc, caps, d.fields[..i], v).value,
                 EncodeField(sc, caps, d.fields[i], v).value,
                 EncodeFields(sc, caps, d.fields[i + 1..], v).value, FieldSlot(d.fields[i]));
  }

  lemma {:induction false} FieldReads(sc: Schema, caps: Caps, d: StructDef, v: Val, f: Field)
    requires SchemaOk(sc) && CapsOk(caps) && LayoutOk(d) && !IsUnion(d) && v.VRecord? && f in d.fields
    requires forall g :: g in d.fields ==> TypedField(sc, g, v)
    ensures EncodeFields(sc, caps, d.fields, v).Some?
    ensures var o := Build(d.dw, d.pc, EncodeFields(sc, caps, d.fields, v).value);
            var x := DecodeTy(sc, caps, f.ty, f.off, o);
            && x.Some?
            && TypedField(sc, f, v)
            && (f.ty == Void ==> x.value == VNone)
            && (f.ty != Void && f.name !in v.fields ==> OmitWhenNull(f) && IsZero(f.ty, x.value))
            && (f.ty != Void && f.name in v.fields ==> x.value == NormTy(sc, true, f.ty, v.fields[f.name]))
    decreases v, 0
  {
    var i :| 0 <= i < |d.fields| && d.fields[i] == f;
    FieldSurvives(sc, caps, d, v, i);
    FieldEncodes(sc, caps, f, v);
    var o := Build(d.dw, d.pc, EncodeFields(sc, caps, d.fields, v).value);
    if f.ty != Void {
      if EncodeField(sc, caps, f, v).value == [] {
        ZeroReadsAbsent(caps, f.ty, f.off, o, d.dw, d.pc);
      } else {
        TyReads(sc, caps, f.ty, f.off, v.fields[f.name], o);
      }
    }
  }

  lemma {:induction false} FieldsRead(sc: Schema, caps: Caps, d: StructDef, v: Val, kept: seq<Field>)
    requires SchemaOk(sc) && CapsOk(caps) && LayoutOk(d) && !IsUnion(d) && v.VRecord?
    requires forall g :: g in d.fields ==> TypedField(sc, g, v)
    requires forall f :: f in kept ==> f in d.fields
    ensures EncodeFields(sc, caps, d.fields, v).Some?
    ensures DecodeFields(sc, caps, kept, Build(d.dw, d.pc, EncodeFields(sc, caps, d.fields, v).value))
            == Some(NormFields(sc, true, kept, v))
    decreases v, 1, |kept|
  {
    FieldsEncode(sc, caps, d.fields, v);
    if kept != [] {
      FieldReads(sc, caps, d, v, kept[0]);
      FieldsRead(sc, caps, d, v, kept[1..]);
    }
  }

  /** A slot holds what the encoder wrote for `x`. */
  ghost predicate Holding(sc: Schema, caps: Caps, ty: Ty, off: nat, x: Val, o: Obj)
    requires ty != Void
  {
    && EncodeTy(sc, caps, ty, off, x).Some? && |EncodeTy(sc, caps, ty, off, x).value| == 1
    && Peek(o, TySlot(ty, off)) == ContentOf(EncodeTy(sc, caps, ty, off, x).value[0])
  }

  lemma LeafReads(sc: Schema, caps: Caps, ty: Ty, off: nat, x: Val, o: Obj)
    requires CapsOk(caps) && ty != Void && !Nested(ty) && TyOk(ty) && TypedTy(sc, ty, x)
    requires (ty == Interface ==> x.VCap?) && Holding(sc, caps, ty, off, x, o)
    ensures DecodeTy(sc, caps, ty, off, o) == Some(NormTy(sc, true, ty, x))
  {
    LeafRoundTrip(sc, caps, ty, off, x, o);
  }

  lemma {:induction false} StructSlotReads(sc: Schema, caps: Caps, name: string, off: nat, x: Val, o: Obj)
    requires SchemaOk(sc) && CapsOk(caps) && Typed(sc, name, x) && Holding(sc, caps, Struct(name), off, x, o)
    ensures DecodeTy(sc, caps, Struct(name), off, o) == Some(NormTy(sc, true, Struct(name), x))
    decreases x, 3
  {
    StructReads(sc, caps, name, x);
    assert GetPtr(o, off) == StructPtr(Build(sc[name].dw, sc[name].pc, Encode(sc, caps, name, x).value));
  }

  lemma {:induction false} ListSlotReads(sc: Schema, caps: Caps, name: string, off: nat, x: Val, o: Obj, words: nat)
    requires SchemaOk(sc) && CapsOk(caps) && TypedTy(sc, List(StructEl(name)), x) && name in sc
    requires EncodeItems(sc, caps, name, x.items).Some?
    requires words == 0 <==> |x.items| == 0 || sc[name].dw + sc[name].pc == 0
    requires GetPtr(o, off) ==
             ListPtr(Composite(words, BuildItems(sc[name].dw, sc[name].pc, EncodeItems(sc, caps, name, x.items).value)))
    ensures DecodeTy(sc, caps, List(StructEl(name)), off, o) == Some(NormTy(sc, true, List(StructEl(name)), x))
    decreases x, 3
  {
    NormStructList(sc, name, x);
    StructListReads(sc, caps, name, off, x.items, o, words);
  }

  /** The pointer in a struct list slot; its payload is empty when the list or its struct is. */
  lemma ListSlotPtr(sc: Schema, caps: Caps, name: string, off: nat, x: Val, o: Obj) returns (words: nat)
    requires x.VList? && name in sc && Holding(sc, caps, List(StructEl(name)), off, x, o)
    ensures EncodeItems(sc, caps, name, x.items).Some?
    ensures words == 0 <==> |x.items| == 0 || sc[name].dw + sc[name].pc == 0
    ensures GetPtr(o, off) ==
            ListPtr(Composite(words, BuildItems(sc[name].dw, sc[name].pc, EncodeItems(sc, caps, name, x.items).value)))
  {
    words := |x.items| * (sc[name].dw + sc[name].pc);
    ZeroProduct(|x.items|, sc[name].dw + sc[name].pc);
  }

  lemma NormStructList(sc: Schema, name: string, x: Val)
    requires TypedTy(sc, List(StructEl(name)), x)
    ensures TypedItems(sc, StructEl(name), x.items)
    ensures NormTy(sc, true, List(StructEl(name)), x) ==
            if sc[name].dw + sc[name].pc == 0 then VList([]) else VList(NormItems(sc, true, name, x.items))
  {}

  /** Such a slot reads as `x` in normal form. */
  lemma {:induction false} TyReads(sc: Schema, caps: Caps, ty: Ty, off: nat, x: Val, o: Obj)
    requires SchemaOk(sc) && CapsOk(caps) && ty != Void && TyOk(ty) && TypedTy(sc, ty, x)
    requires !(ty == Interface && x == VNone) && Holding(sc, caps, ty, off, x, o)
    ensures DecodeTy(sc, caps, ty, off, o) == Some(NormTy(sc, true, ty, x))
    decreases x, 4
  {
    if ty.Struct? {
      StructSlotReads(sc, caps, ty.name, off, x, o);
    } else if ty.List? && ty.el.StructEl? {
      NormStructList(sc, ty.el.name, x);
      var words := ListSlotPtr(sc, caps, ty.el.name, off, x, o);
      ListSlotReads(sc, caps, ty.el.name, off, x, o, words);
    } else {
      LeafReads(sc, caps, ty, off, x, o);
    }
  }

  lemma {:induction false} StructListReads(sc: Schema, caps: Caps, name: string, off: nat, items: seq<Val>, o: Obj, words: nat)
    requires SchemaOk(sc) && CapsOk(caps) && TypedItems(sc, StructEl(name), items)
    requires EncodeItems(sc, caps, name, items).Some?
    requires words == 0 <==> |items| == 0 || sc[name].dw + sc[name].pc == 0
    requires GetPtr(o, off) == ListPtr(Composite(words,
               BuildItems(sc[name].dw, sc[name].pc, EncodeItems(sc, caps, name, items).value)))
    ensures DecodeTy(sc, caps, List(StructEl(name)), off, o)
            == Some(if sc[name].dw + sc[name].pc == 0 then VList([]) else VList(NormItems(sc, true, name, items)))
    decreases items, 1
  {
    ItemsRead(sc, caps, name, items);
    CompositeReads(sc, caps, name, off, o, words,
                   BuildItems(sc[name].dw, sc[name].pc, EncodeItems(sc, caps, name, items).value));
  }

  lemma CompositeReads(sc: Schema, caps: Caps, name: string, off: nat, o: Obj, words: nat, elems: seq<Obj>)
    requires GetPtr(o, off) == ListPtr(Composite(words, elems))
    ensures words == 0 ==> DecodeTy(sc, caps, List(StructEl(name)), off, o) == Some(VList([]))
    ensures words != 0 && DecodeItems(sc, caps, name, elems).Some? ==>
              DecodeTy(sc, caps, List(StructEl(name)), off, o) == Some(VList(DecodeItems(sc, caps, name, elems).value))
  {}

  lemma ZeroProduct(a: nat, b: nat)
    ensures a * b == 0 <==> a == 0 || b == 0
  {}

  lemma {:induction false} ItemsRead(sc: Schema, caps: Caps, name: string, items: seq<Val>)
    requires SchemaOk(sc) && CapsOk(caps) && TypedItems(sc, StructEl(name), items)
    ensures EncodeItems(sc, caps, name, items).Some?
    ensures DecodeItems(sc, caps, name, BuildItems(sc[name].dw, sc[name].pc, EncodeItems(sc, caps, name, items).value))
            == Some(NormItems(sc, true, name, items))
    decreases items, 0
  {
    if items != [] {
      assert TypedItem(sc, StructEl(name), items[0]);
      StructReads(sc, caps, name, items[0]);
      ItemsRead(sc, caps, name, items[1..]);
      var all := EncodeItems(sc, caps, name, items).value;
      assert all[1..] == EncodeItems(sc, caps, name, items[1..]).value;
      var objs := BuildItems(sc[name].dw, sc[name].pc, all);
      assert objs[1..] == BuildItems(sc[name].dw, sc[name].pc, all[1..]);
    }
  }

  lemma {:induction false} StructReads(sc: Schema, caps: Caps, name: string, v: Val)
    requires SchemaOk(sc) && CapsOk(caps) && Typed(sc, name, v)
    ensures Encode(sc, caps, name, v).Some?
    ensures Decode(sc, caps, name, Build(sc[name].dw, sc[name].pc, Encode(sc, caps, name, v).value))
            == Some(Norm(sc, true, name, v))
    decreases v, 2
  {
    var d := sc[name];
    if IsUnion(d) {
      UnionReads(sc, caps, name, v);
    } else {
      FieldsRead(sc, caps, d, v, Keep(d.fields, false));
      FieldsRead(sc, caps, d, v, Keep(d.fields, true));
    }
  }

  lemma {:induction false} UnionReads(sc: Schema, caps: Caps, name: string, v: Val)
    requires SchemaOk(sc) && CapsOk(caps) && Typed(sc, name, v) && IsUnion(sc[name])
    ensures Encode(sc, caps, name, v).Some?
    ensures Decode(sc, caps, name, Build(sc[name].dw, sc[name].pc, Encode(sc, caps, name, v).value))
            == Some(Norm(sc, true, name, v))
    decreases v, 1
  {
    var d := sc[name];
    var f := MemberOf(d.fields, v.member).value;
    MemberEncodes(sc, caps, d, d.fields, v);
    var own := if f.ty == Void then [] else EncodeTy(sc, caps, f.ty, f.off, v.value.value).value;
    var o := Build(d.dw, d.pc, [SetRaw(U16, d.discOff, f.disc.value)] + own);
    if f.ty != Void {
      TyEncodes(sc, caps, f.ty, f.off, v.value.value);
    }
    UnionSlots(d, f, own);
    if f.ty != Void {
      if own == [] {
        ZeroReadsAbsent(caps, f.ty, f.off, o, d.dw, d.pc);
      } else {
        TyReads(sc, caps, f.ty, f.off, v.value.value, o);
      }
    }
    MemberFound(sc, caps, d.fields, f, v.member, o);
  }

  /** The discriminant and the one member of a union do not disturb each other. */
  lemma UnionSlots(d: StructDef, f: Field, own: seq<Op>)
    requires LayoutOk(d) && IsUnion(d) && f in d.fields && |own| <= 1
    requires forall op :: op in own ==> SlotOf(op) == FieldSlot(f)
    ensures var o := Build(d.dw, d.pc, [SetRaw(U16, d.discOff, f.disc.value)] + own);
            && GetRaw(U16, o, d.discOff) == f.disc.value
            && Peek(o, FieldSlot(f))
               == if own == [] then Peek(ZeroObj(d.dw, d.pc), FieldSlot(f)) else ContentOf(own[0])
  {
    var disc := SetRaw(U16, d.discOff, f.disc.value);
    var o := Build(d.dw, d.pc, [disc] + own);
    RawRoundTrip(U16, d.discOff, f.disc.value, o);
    assert SlotOf(disc) == DiscSlot(d);
    TwoSlots(d.dw, d.pc, disc, own, FieldSlot(f));
    assert Peek(o, RawSlot(U16, d.discOff)) == ContentOf(disc);
  }

  lemma TwoSlots(dw: nat, pc: nat, op: Op, own: seq<Op>, s: Slot)
    requires Fits(SlotOf(op), dw, pc) && Fits(s, dw, pc) && Disjoint(SlotOf(op), s) && |own| <= 1
    requires forall p :: p in own ==> SlotOf(p) == s
    ensures Peek(Build(dw, pc, [op] + own), SlotOf(op)) == ContentOf(op)
    ensures Peek(Build(dw, pc, [op] + own), s) == if own == [] then Peek(ZeroObj(dw, pc), s) else ContentOf(own[0])
  {
    assert [] + [op] + own == [op] + own && [op] + own + [] == [op] + own;
    SlotSurvives(dw, pc, [], [op], own, SlotOf(op));
    SlotSurvives(dw, pc, [op], own, [], s);
  }

  /** Distinct discriminants lead the reader to the member that was written. */
  lemma {:induction false} MemberFound(sc: Schema, caps: Caps, fields: seq<Field>, f: Field, member: string, o: Obj)
    requires MemberOf(fields, member) == Some(f)
    requires forall i, j :: 0 <= i < j < |fields| ==> fields[i].disc != fields[j].disc
    ensures DecodeMember(sc, caps, fields, f.disc.value, o)
            == if f.ty == Void then Some(VUnion(member, None))
               else match DecodeTy(sc, caps, f.ty, f.off, o)
                 case Some(x) => Some(VUnion(member, Some(x)))
                 case None => None
    decreases |fields|
  {
    if fields[0] != f {
      var i :| 0 <= i < |fields| && fields[i] == f;
      assert fields[0].disc != fields[i].disc;
      MemberFound(sc, caps, fields[1..], f, member, o);
    }
  }

  /** The emitted Python codec round trip, for every schema, layout and
      well-typed value: the decoder gives the value back in normal form, unless
      the message is longer than the reader's budget, which it rejects. */
  lemma MessageRoundTrip(sc: Schema, caps: Caps, name: string, v: Val)
    requires SchemaOk(sc) && CapsOk(caps) && Typed(sc, name, v)
    ensures EncodeMessage(sc, caps, Py, name, v).Some?
    ensures var m := EncodeMessage(sc, caps, Py, name, v).value;
            DecodeMessage(sc, caps, name, m) == if m.words > MAX_WORDS then None else Some(Norm(sc, true, name, v))
  {
    WriterMeansEncode(sc, caps, Py, name, v);
    StructReads(sc, caps, name, v);
  }

  // ---- when the promised round trip is kept ----

  /** No list of wordless structs in the value has an element. */
  predicate Intact(sc: Schema, name: string, v: Val)
    requires Typed(sc, name, v)
    decreases v, 2
  {
    if IsUnion(sc[name]) then
      var f := MemberOf(sc[name].fields, v.member).value;
      f.ty == Void || IntactTy(sc, f.ty, v.value.value)
    else forall f :: f in sc[name].fields ==> IntactField(sc, f, v)
  }

  predicate IntactField(sc: Schema, f: Field, v: Val)
    requires v.VRecord? && TypedField(sc, f, v)
    decreases v, 0
  {
    f.ty == Void || f.name !in v.fields || IntactTy(sc, f.ty, v.fields[f.name])
  }

  predicate IntactTy(sc: Schema, ty: Ty, x: Val)
    requires TypedTy(sc, ty, x)
    decreases x, 3
  {
    match ty
    case Struct(n) => Intact(sc, n, x)
    case List(StructEl(n)) =>
      assert TypedItems(sc, StructEl(n), x.items);
      if sc[n].dw + sc[n].pc == 0 then x.items == [] else IntactItems(sc, n, x.items)
    case _ => true
  }

  predicate IntactItems(sc: Schema, name: string, items: seq<Val>)
    requires TypedItems(sc, StructEl(name), items)
    decreases items, 0
  {
    items == [] ||
    (assert TypedItem(sc, StructEl(name), items[0]);
     Intact(sc, name, items[0]) && IntactItems(sc, name, items[1..]))
  }

  /** Decoding loses nothing but zero optionals exactly when the value is intact. */
  lemma {:induction false} LossyExactlyWhen(sc: Schema, name: string, v: Val)
    requires SchemaOk(sc) && Typed(sc, name, v)
    ensures Norm(sc, true, name, v) == Norm(sc, false, name, v) <==> Intact(sc, name, v)
    decreases v, 2
  {
    var d := sc[name];
    if IsUnion(d) {
      var f := MemberOf(d.fields, v.member).value;
      if f.ty != Void {
        TyLossyExactlyWhen(sc, f.ty, v.value.value);
      }
    } else {
      if f :| f in d.fields && !IntactField(sc, f, v) {
        TyLossyExactlyWhen(sc, f.ty, v.fields[f.name]);
        NormFieldAt(sc, true, d, v, f);
        NormFieldAt(sc, false, d, v, f);
      } else {
        IntactFieldsSame(sc, Keep(d.fields, false), v);
        IntactFieldsSame(sc, Keep(d.fields, true), v);
      }
    }
  }

  lemma {:induction false} TyLossyExactlyWhen(sc: Schema, ty: Ty, x: Val)
    requires SchemaOk(sc) && TypedTy(sc, ty, x)
    ensures NormTy(sc, true, ty, x) == NormTy(sc, false, ty, x) <==> IntactTy(sc, ty, x)
    decreases x, 3
  {
    match ty
    case Struct(n) => LossyExactlyWhen(sc, n, x);
    case List(StructEl(n)) =>
      assert TypedItems(sc, StructEl(n), x.items);
      ItemsLossyExactlyWhen(sc, n, x.items);
    case _ =>
  }

  lemma {:induction false} ItemsLossyExactlyWhen(sc: Schema, name: string, items: seq<Val>)
    requires SchemaOk(sc) && TypedItems(sc, StructEl(name), items)
    ensures NormItems(sc, true, name, items) == NormItems(sc, false, name, items) <==> IntactItems(sc, name, items)
    decreases items, 0
  {
    if items != [] {
      assert TypedItem(sc, StructEl(name), items[0]);
      LossyExactlyWhen(sc, name, items[0]);
      ItemsLossyExactlyWhen(sc, name, items[1..]);
      var a, b := NormItems(sc, true, name, items), NormItems(sc, false, name, items);
      assert a[1..] == NormItems(sc, true, name, items[1..]) && b[1..] == NormItems(sc, false, name, items[1..]);
      assert a == [a[0]] + a[1..] && b == [b[0]] + b[1..];
    }
  }

  lemma {:induction false} IntactFieldsSame(sc: Schema, fields: seq<Field>, v: Val)
    requires SchemaOk(sc) && v.VRecord?
    requires forall f :: f in fields ==> TypedField(sc, f, v) && IntactField(sc, f, v)
    ensures NormFields(sc, true, fields, v) == NormFields(sc, false, fields, v)
    decreases v, 1, |fields|
  {
    if fields != [] {
      var f := fields[0];
      assert TypedField(sc, f, v) && IntactField(sc, f, v);
      if f.ty != Void && f.name in v.fields {
        TyLossyExactlyWhen(sc, f.ty, v.fields[f.name]);
      }
      IntactFieldsSame(sc, fields[1..], v);
    }
  }

  /** A nested field of a record is found under its own name. */
  lemma NormFieldAt(sc: Schema, lossy: bool, d: StructDef, v: Val, f: Field)
    requires LayoutOk(d) && v.VRecord? && f in d.fields && Nested(f.ty) && f.name in v.fields
    requires forall g :: g in d.fields ==> TypedField(sc, g, v)
    ensures TypedTy(sc, f.ty, v.fields[f.name])
    ensures var all := NormFields(sc, lossy, Keep(d.fields, false), v) + NormFields(sc, lossy, Keep(d.fields, true), v);
            f.name in all && all[f.name] == NormTy(sc, lossy, f.ty, v.fields[f.name])
  {
    assert TypedField(sc, f, v);
    assert forall g :: g in d.fields && g.name == f.name ==> g == f;
    NormFieldsAt(sc, lossy, Keep(d.fields, false), v, f);
    NormFieldsAt(sc, lossy, Keep(d.fields, true), v, f);
  }

  lemma {:induction false} NormFieldsAt(sc: Schema, lossy: bool, fields: seq<Field>, v: Val, f: Field)
    requires v.VRecord? && Nested(f.ty) && f.name in v.fields && TypedTy(sc, f.ty, v.fields[f.name])
    requires forall g :: g in fields ==> TypedField(sc, g, v) && (g.name == f.name ==> g == f)
    requires !OmitWhenNull(f)
    ensures var m := NormFields(sc, lossy, fields, v);
            (f.name in m <==> f in fields) && (f in fields ==> m[f.name] == NormTy(sc, lossy, f.ty, v.fields[f.name]))
    decreases |fields|
  {
    if fields != [] {
      NormFieldsAt(sc, lossy, fields[1..], v, f);
      assert fields == [fields[0]] + fields[1..];
    }
  }

  /** The round trip the schema comments promise: within the budget, decoding an
      encoded value gives it back with zero optionals absent if and only if no
      list of wordless structs in it has an element. */
  lemma PromisedRoundTrip(sc: Schema, caps: Caps, name: string, v: Val)
    requires SchemaOk(sc) && CapsOk(caps) && Typed(sc, name, v)
    requires EncodeMessage(sc, caps, Py, name, v).Some? ==> EncodeMessage(sc, caps, Py, name, v).value.words <= MAX_WORDS
    ensures EncodeMessage(sc, caps, Py, name, v).Some?
    ensures DecodeMessage(sc, caps, name, EncodeMessage(sc, caps, Py, name, v).value) == Some(Norm(sc, false, name, v))
            <==> Intact(sc, name, v)
  {
    MessageRoundTrip(sc, caps, name, v);
    LossyExactlyWhen(sc, name, v);
  }

  const UNIT_LIST: Schema := map[
    "Unit" := StructDef(0, 0, 0, []),
    "Box" := StructDef(0, 1, 0, [Field("units", List(StructEl("Unit")), 0, None, false)])]

  /** The smallest losing value: one element of an empty struct. */
  lemma WordlessListIsLost()
    ensures var v := VRecord(map["units" := VList([VRecord(map[])])]);
            SchemaOk(UNIT_LIST) && Typed(UNIT_LIST, "Box", v) && !Intact(UNIT_LIST, "Box", v)
  {
    var v := VRecord(map["units" := VList([VRecord(map[])])]);
    var f := UNIT_LIST["Box"].fields[0];
    assert Typed(UNIT_LIST, "Unit", VRecord(map[]));
    assert TypedItem(UNIT_LIST, StructEl("Unit"), VRecord(map[]));
    assert TypedItems(UNIT_LIST, StructEl("Unit"), [VRecord(map[])]);
    assert TypedField(UNIT_LIST, f, v);
    assert !IntactField(UNIT_LIST, f, v);
  }
}
