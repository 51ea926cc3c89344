/** What the emitted codec gives back, said of the values alone: which fields
    survive a round trip, with which values, at every depth. */
module CodecExact {
  import opened Basics
  import opened Wire
  import opened Emitters
  import opened CodecRoundTrip

  // ---- the specification ----

  /** Absent, empty, or a zero of either sign. */
  predicate Blank(ty: Ty, x: Val) {
    match x
    case VNone => true
    case VText(bytes) => bytes == []
    case VData(bytes) => bytes == []
    case VInt(n) => n == 0
    case VFloat(p) =>
      || p == 0
      || (ty == Scalar(F32) && p == 0x8000_0000)
      || (ty == Scalar(F64) && p == 0x8000_0000_0000_0000)
    case _ => false
  }

  /** A field of `v` that a round trip leaves out: an absent one, or a blank one
      that is optional or a capability. */
  predicate LeftOut(f: Field, v: Val)
    requires v.VRecord?
  {
    && f.ty != Void
    && (f.name !in v.fields || ((f.optional || f.ty == Interface) && Blank(f.ty, v.fields[f.name])))
  }

  /** `d` is what a round trip makes of `v`: records keep the fields that are not
      left out, lists of wordless structs become empty, all else stays. */
  predicate Agrees(sc: Schema, name: string, v: Val, d: Val)
    requires Typed(sc, name, v)
    decreases v, 2
  {
    if IsUnion(sc[name]) then
      && d.VUnion? && d.member == v.member && (d.value.Some? <==> v.value.Some?)
      && (v.value.Some? ==> AgreesTy(sc, MemberOf(sc[name].fields, v.member).value.ty, v.value.value, d.value.value))
    else
      && d.VRecord?
      && (forall f :: f in sc[name].fields ==> AgreesField(sc, f, v, d))
      && (forall key :: key in d.fields ==> exists f :: f in sc[name].fields && f.name == key)
  }

  predicate AgreesField(sc: Schema, f: Field, v: Val, d: Val)
    requires v.VRecord? && d.VRecord? && TypedField(sc, f, v)
    decreases v, 0
  {
    && (f.name in d.fields <==> !LeftOut(f, v))
    && (f.ty == Void ==> d.fields[f.name] == VNone)
    && (f.ty != Void && f.name in d.fields && f.name in v.fields ==>
          AgreesTy(sc, f.ty, v.fields[f.name], d.fields[f.name]))
  }

  predicate AgreesTy(sc: Schema, ty: Ty, x: Val, d: Val)
    requires TypedTy(sc, ty, x)
    decreases x, 3
  {
    if ty.Struct? then Agrees(sc, ty.name, x, d)
    else if ty.List? && ty.el.StructEl? then
      assert TypedItems(sc, ty.el, x.items);
      var n := ty.el.name;
      d.VList? && if sc[n].dw + sc[n].pc == 0 then d.items == [] else AgreesItems(sc, n, x.items, d.items)
    else d == x
  }

  predicate AgreesItems(sc: Schema, name: string, items: seq<Val>, ds: seq<Val>)
    requires TypedItems(sc, StructEl(name), items)
    decreases items, 0
  {
    if items == [] then ds == []
    else
      assert TypedItem(sc, StructEl(name), items[0]);
      ds != [] && Agrees(sc, name, items[0], ds[0]) && AgreesItems(sc, name, items[1..], ds[1..])
  }

  // ---- the reader's absence test ----

  lemma SignBits()
    ensures Pow2(31) == 0x8000_0000 && Pow2(63) == 0x8000_0000_0000_0000
  {
    assert Pow2(8) == 256;
    assert Pow2(16) == 65536;
    assert Pow2(24) == 0x100_0000;
    assert Pow2(31) == 0x8000_0000;
    assert Pow2(40) == 0x100_0000_0000;
    assert Pow2(48) == 0x1_0000_0000_0000;
    assert Pow2(56) == 0x100_0000_0000_0000;
    assert Pow2(63) == 0x8000_0000_0000_0000;
  }

  /** The values a scalar field takes, by width and sign. */
  lemma ScalarDomain(k: Kind, v: Val)
    ensures InRange(k, v) <==>
              match k
              case Bool => v.VBool?
              case U16 => v.VInt? && 0 <= v.n < 0x1_0000
              case U32 => v.VInt? && 0 <= v.n < 0x1_0000_0000
              case U64 => v.VInt? && 0 <= v.n < 0x1_0000_0000_0000_0000
              case I32 => v.VInt? && -0x8000_0000 <= v.n < 0x8000_0000
              case I64 => v.VInt? && -0x8000_0000_0000_0000 <= v.n < 0x8000_0000_0000_0000
              case F32 => v.VFloat? && v.pattern < 0x1_0000_0000
              case F64 => v.VFloat? && v.pattern < 0x1_0000_0000_0000_0000
  {
    SignBits();
    assert Pow2(32) == 2 * Pow2(31) && Pow2(64) == 2 * Pow2(63) && Pow2(16) == 0x1_0000;
  }

  lemma ZeroFloat(k: Kind, p: nat)
    requires k in {F32, F64}
    ensures IsZero(Scalar(k), VFloat(p)) <==> Blank(Scalar(k), VFloat(p))
  {
    SignBits();
    if k == F32 {
      assert Width(k) - 1 == 31;
    } else {
      assert Width(k) - 1 == 63;
    }
  }

  lemma ZeroIsBlank(sc: Schema, d: StructDef, f: Field, x: Val)
    requires LayoutOk(d) && f in d.fields && OmitWhenNull(f) && f.ty != Void && TypedTy(sc, f.ty, x)
    ensures IsZero(f.ty, x) <==> Blank(f.ty, x)
  {
    if x.VFloat? {
      ZeroFloat(f.ty.kind, x.pattern);
    }
  }

  // ---- the normal form meets the specification, and nothing else does ----

  /** One field of the normal form. */
  ghost predicate NormAt(sc: Schema, f: Field, v: Val, m: map<string, Val>)
    requires v.VRecord? && TypedField(sc, f, v)
  {
    && (f.name in m <==> !LeftOut(f, v))
    && (f.ty == Void ==> m[f.name] == VNone)
    && (f.ty != Void && f.name in m ==> m[f.name] == NormTy(sc, true, f.ty, v.fields[f.name]))
  }

  lemma {:induction false} NormFieldsExactly(sc: Schema, d: StructDef, fields: seq<Field>, v: Val, f: Field)
    requires LayoutOk(d) && v.VRecord? && (forall g :: g in fields ==> g in d.fields && TypedField(sc, g, v))
    requires f in d.fields && TypedField(sc, f, v) && (forall g :: g in fields && g.name == f.name ==> g == f)
    ensures f in fields ==> NormAt(sc, f, v, NormFields(sc, true, fields, v))
    ensures f !in fields ==> f.name !in NormFields(sc, true, fields, v)
    decreases |fields|
  {
    if fields != [] {
      assert fields == [fields[0]] + fields[1..];
      NormFieldsExactly(sc, d, fields[1..], v, f);
      var g := fields[0];
      assert TypedField(sc, g, v);
      if g == f && f.ty != Void && f.name in v.fields && OmitWhenNull(f) {
        ZeroIsBlank(sc, d, f, v.fields[f.name]);
      }
    }
  }

  lemma {:induction false} NormFieldsNamed(sc: Schema, fields: seq<Field>, v: Val, key: string)
    requires v.VRecord? && (forall g :: g in fields ==> TypedField(sc, g, v))
    requires key in NormFields(sc, true, fields, v)
    ensures exists f :: f in fields && f.name == key
    decreases |fields|
  {
    assert fields == [fields[0]] + fields[1..];
    if fields[0].name != key {
      NormFieldsNamed(sc, fields[1..], v, key);
    }
  }

  ghost function NormRecord(sc: Schema, d: StructDef, v: Val): map<string, Val>
    requires v.VRecord? && forall g :: g in d.fields ==> TypedField(sc, g, v)
  {
    NormFields(sc, true, Keep(d.fields, false), v) + NormFields(sc, true, Keep(d.fields, true), v)
  }

  lemma NormRecordAt(sc: Schema, d: StructDef, v: Val, f: Field)
    requires LayoutOk(d) && v.VRecord? && (forall g :: g in d.fields ==> TypedField(sc, g, v)) && f in d.fields
    ensures NormAt(sc, f, v, NormRecord(sc, d, v))
  {
    assert forall g :: g in d.fields && g.name == f.name ==> g == f;
    NormFieldsExactly(sc, d, Keep(d.fields, false), v, f);
    NormFieldsExactly(sc, d, Keep(d.fields, true), v, f);
  }

  lemma NormRecordNamed(sc: Schema, d: StructDef, v: Val, key: string)
    requires v.VRecord? && (forall g :: g in d.fields ==> TypedField(sc, g, v)) && key in NormRecord(sc, d, v)
    ensures exists f :: f in d.fields && f.name == key
  {
    if key in NormFields(sc, true, Keep(d.fields, true), v) {
      NormFieldsNamed(sc, Keep(d.fields, true), v, key);
    } else {
      NormFieldsNamed(sc, Keep(d.fields, false), v, key);
    }
  }

  lemma {:induction false} NormAgrees(sc: Schema, name: string, v: Val, d: Val)
    requires SchemaOk(sc) && Typed(sc, name, v)
    ensures Agrees(sc, name, v, d) <==> d == Norm(sc, true, name, v)
    decreases v, 2
  {
    if IsUnion(sc[name]) {
      if v.value.Some? && d.VUnion? && d.value.Some? {
        NormAgreesTy(sc, MemberOf(sc[name].fields, v.member).value.ty, v.value.value, d.value.value);
      }
    } else if d.VRecord? {
      RecordAgrees(sc, sc[name], v, d);
    }
  }

  /** Two maps say the same under one key. */
  predicate SameAt(a: map<string, Val>, b: map<string, Val>, key: string) {
    (key in a <==> key in b) && (key in a && key in b ==> a[key] == b[key])
  }

  lemma SameEverywhere(a: map<string, Val>, b: map<string, Val>, names: set<string>)
    requires (forall key :: key in a ==> key in names) && (forall key :: key in b ==> key in names)
    ensures a == b <==> forall key :: key in names ==> SameAt(a, b, key)
  {
    if forall key :: key in names ==> SameAt(a, b, key) {
      forall key ensures key in a <==> key in b {
        if key in names { assert SameAt(a, b, key); }
      }
      forall key | key in a ensures a[key] == b[key] { assert SameAt(a, b, key); }
      assert a == b;
    }
  }

  function Names(d: StructDef): set<string> {
    set f | f in d.fields :: f.name
  }

  lemma {:induction false} FieldAgrees(sc: Schema, s: StructDef, v: Val, d: Val, f: Field)
    requires SchemaOk(sc) && LayoutOk(s) && v.VRecord? && d.VRecord? && f in s.fields
    requires forall g :: g in s.fields ==> TypedField(sc, g, v)
    ensures AgreesField(sc, f, v, d) <==> SameAt(d.fields, NormRecord(sc, s, v), f.name)
    decreases v, 0
  {
    NormRecordAt(sc, s, v, f);
    if f.ty != Void && f.name in v.fields && f.name in d.fields {
      NormAgreesTy(sc, f.ty, v.fields[f.name], d.fields[f.name]);
    }
  }

  lemma {:induction false} RecordAgrees(sc: Schema, s: StructDef, v: Val, d: Val)
    requires SchemaOk(sc) && LayoutOk(s) && v.VRecord? && d.VRecord?
    requires forall g :: g in s.fields ==> TypedField(sc, g, v)
    ensures d.fields == NormRecord(sc, s, v) <==>
              && (forall f :: f in s.fields ==> AgreesField(sc, f, v, d))
              && (forall key :: key in d.fields ==> exists f :: f in s.fields && f.name == key)
    decreases v, 1
  {
    var m := NormRecord(sc, s, v);
    forall f | f in s.fields ensures AgreesField(sc, f, v, d) <==> SameAt(d.fields, m, f.name) {
      FieldAgrees(sc, s, v, d, f);
    }
    forall key | key in m ensures key in Names(s) { NormRecordNamed(sc, s, v, key); }
    assert (forall key :: key in d.fields ==> key in Names(s)) <==>
           (forall key :: key in d.fields ==> exists f :: f in s.fields && f.name == key);
    if forall key :: key in d.fields ==> key in Names(s) {
      SameEverywhere(d.fields, m, Names(s));
    }
  }

  lemma {:induction false} NormAgreesTy(sc: Schema, ty: Ty, x: Val, d: Val)
    requires SchemaOk(sc) && TypedTy(sc, ty, x)
    ensures AgreesTy(sc, ty, x, d) <==> d == NormTy(sc, true, ty, x)
    decreases x, 3
  {
    if ty.Struct? {
      NormAgrees(sc, ty.name, x, d);
    } else if ty.List? && ty.el.StructEl? {
      NormAgreesList(sc, ty.el.name, x, d);
    } else {
      NormLeaf(sc, ty, x);
    }
  }

  lemma NormLeaf(sc: Schema, ty: Ty, x: Val)
    requires TypedTy(sc, ty, x) && !Nested(ty)
    ensures NormTy(sc, true, ty, x) == x
  {}

  lemma SameHeads(a: seq<Val>, b: seq<Val>)
    requires a != [] && b != []
    ensures a == b <==> a[0] == b[0] && a[1..] == b[1..]
  {
    assert a == [a[0]] + a[1..] && b == [b[0]] + b[1..];
  }

  lemma NormHead(sc: Schema, name: string, items: seq<Val>)
    requires TypedItems(sc, StructEl(name), items) && items != []
    ensures Typed(sc, name, items[0])
    ensures NormItems(sc, true, name, items)[0] == Norm(sc, true, name, items[0])
    ensures NormItems(sc, true, name, items)[1..] == NormItems(sc, true, name, items[1..])
  {
    assert TypedItem(sc, StructEl(name), items[0]);
  }

  lemma {:induction false} NormAgreesList(sc: Schema, name: string, x: Val, d: Val)
    requires SchemaOk(sc) && TypedTy(sc, List(StructEl(name)), x)
    ensures AgreesTy(sc, List(StructEl(name)), x, d) <==> d == NormTy(sc, true, List(StructEl(name)), x)
    decreases x, 2
  {
    assert TypedItems(sc, StructEl(name), x.items);
    if d.VList? {
      NormAgreesItems(sc, name, x.items, d.items);
    }
  }

  lemma {:induction false} NormAgreesItems(sc: Schema, name: string, items: seq<Val>, ds: seq<Val>)
    requires SchemaOk(sc) && TypedItems(sc, StructEl(name), items)
    ensures AgreesItems(sc, name, items, ds) <==> ds == NormItems(sc, true, name, items)
    decreases items, 0
  {
    if items != [] && ds != [] {
      assert TypedItem(sc, StructEl(name), items[0]);
      NormAgrees(sc, name, items[0], ds[0]);
      NormAgreesItems(sc, name, items[1..], ds[1..]);
      NormHead(sc, name, items);
      SameHeads(ds, NormItems(sc, true, name, items));
    }
  }

  // ---- the round trip ----

  /** The Python round trip: what the writer encodes, the reader decodes. */
  function RoundTrip(sc: Schema, caps: Caps, name: string, v: Val): Option<Val> {
    match EncodeMessage(sc, caps, Py, name, v)
    case Some(m) => DecodeMessage(sc, caps, name, m)
    case None => None
  }

  predicate WithinBudget(sc: Schema, caps: Caps, name: string, v: Val) {
    EncodeMessage(sc, caps, Py, name, v).Some? ==> EncodeMessage(sc, caps, Py, name, v).value.words <= MAX_WORDS
  }

  /** Within the budget a round trip gives back exactly the one value that agrees
      with the original. */
  lemma RoundTripExactly(sc: Schema, caps: Caps, name: string, v: Val, d: Val)
    requires SchemaOk(sc) && CapsOk(caps) && Typed(sc, name, v) && WithinBudget(sc, caps, name, v)
    ensures RoundTrip(sc, caps, name, v) == Some(d) <==> Agrees(sc, name, v, d)
    ensures RoundTrip(sc, caps, name, v).Some?
  {
    MessageRoundTrip(sc, caps, name, v);
    NormAgrees(sc, name, v, d);
  }

  /** Field by field: a decoded record has a field exactly when the original has it
      and it is not a blank optional or a null capability. A field that is no
      struct and no list of structs comes back with its own value. */
  lemma FieldSurvivesExactlyWhen(sc: Schema, caps: Caps, name: string, v: Val, f: Field)
    requires SchemaOk(sc) && CapsOk(caps) && Typed(sc, name, v) && WithinBudget(sc, caps, name, v)
    requires !IsUnion(sc[name]) && f in sc[name].fields && f.ty != Void
    ensures RoundTrip(sc, caps, name, v).Some? && RoundTrip(sc, caps, name, v).value.VRecord?
    ensures var d := RoundTrip(sc, caps, name, v).value;
            && (f.name in d.fields <==>
                  && f.name in v.fields
                  && !((f.optional || f.ty == Interface) && Blank(f.ty, v.fields[f.name])))
            && (f.name in d.fields && !Nested(f.ty) ==> d.fields[f.name] == v.fields[f.name])
  {
    RoundTripExactly(sc, caps, name, v, v);
    var d := RoundTrip(sc, caps, name, v).value;
    RoundTripExactly(sc, caps, name, v, d);
    assert AgreesField(sc, f, v, d);
    AgreedField(sc, v, d, f);
  }

  lemma AgreedField(sc: Schema, v: Val, d: Val, f: Field)
    requires v.VRecord? && d.VRecord? && TypedField(sc, f, v) && AgreesField(sc, f, v, d) && f.ty != Void
    ensures f.name in d.fields <==>
              f.name in v.fields && !((f.optional || f.ty == Interface) && Blank(f.ty, v.fields[f.name]))
    ensures f.name in d.fields && !Nested(f.ty) ==> d.fields[f.name] == v.fields[f.name]
  {}

  // ---- values that come back unchanged ----

  /** Every field is there under its own name and no other, none of the optional
      fields and capabilities is blank, and lists of wordless structs are empty,
      at every depth. */
  predicate Verbatim(sc: Schema, name: string, v: Val)
    requires Typed(sc, name, v)
    decreases v, 2
  {
    if IsUnion(sc[name]) then
      v.value.Some? ==> VerbatimTy(sc, MemberOf(sc[name].fields, v.member).value.ty, v.value.value)
    else
      && (forall f :: f in sc[name].fields ==> VerbatimField(sc, f, v))
      && (forall key :: key in v.fields ==> exists f :: f in sc[name].fields && f.name == key)
  }

  predicate VerbatimField(sc: Schema, f: Field, v: Val)
    requires v.VRecord? && TypedField(sc, f, v)
    decreases v, 0
  {
    if f.ty == Void then f.name in v.fields && v.fields[f.name] == VNone
    else f.name in v.fields ==>
      !((f.optional || f.ty == Interface) && Blank(f.ty, v.fields[f.name])) && VerbatimTy(sc, f.ty, v.fields[f.name])
  }

  predicate VerbatimTy(sc: Schema, ty: Ty, x: Val)
    requires TypedTy(sc, ty, x)
    decreases x, 3
  {
    if ty.Struct? then Verbatim(sc, ty.name, x)
    else if ty.List? && ty.el.StructEl? then
      assert TypedItems(sc, ty.el, x.items);
      var n := ty.el.name;
      if sc[n].dw + sc[n].pc == 0 then x.items == [] else VerbatimItems(sc, n, x.items)
    else true
  }

  predicate VerbatimItems(sc: Schema, name: string, items: seq<Val>)
    requires TypedItems(sc, StructEl(name), items)
    decreases items, 0
  {
    items == [] ||
    (assert TypedItem(sc, StructEl(name), items[0]);
     Verbatim(sc, name, items[0]) && VerbatimItems(sc, name, items[1..]))
  }

  lemma {:induction false} AgreesWithItself(sc: Schema, name: string, v: Val)
    requires Typed(sc, name, v)
    ensures Agrees(sc, name, v, v) <==> Verbatim(sc, name, v)
    decreases v, 2
  {
    if IsUnion(sc[name]) {
      if v.value.Some? {
        TyAgreesWithItself(sc, MemberOf(sc[name].fields, v.member).value.ty, v.value.value);
      }
    } else {
      forall f | f in sc[name].fields ensures AgreesField(sc, f, v, v) <==> VerbatimField(sc, f, v) {
        if f.ty != Void && f.name in v.fields {
          TyAgreesWithItself(sc, f.ty, v.fields[f.name]);
        }
      }
    }
  }

  lemma {:induction false} TyAgreesWithItself(sc: Schema, ty: Ty, x: Val)
    requires TypedTy(sc, ty, x)
    ensures AgreesTy(sc, ty, x, x) <==> VerbatimTy(sc, ty, x)
    decreases x, 3
  {
    if ty.Struct? {
      AgreesWithItself(sc, ty.name, x);
    } else if ty.List? && ty.el.StructEl? {
      assert TypedItems(sc, ty.el, x.items);
      ItemsAgreeWithThemselves(sc, ty.el.name, x.items);
    }
  }

  lemma {:induction false} ItemsAgreeWithThemselves(sc: Schema, name: string, items: seq<Val>)
    requires TypedItems(sc, StructEl(name), items)
    ensures AgreesItems(sc, name, items, items) <==> VerbatimItems(sc, name, items)
    decreases items, 0
  {
    if items != [] {
      assert TypedItem(sc, StructEl(name), items[0]);
      AgreesWithItself(sc, name, items[0]);
      ItemsAgreeWithThemselves(sc, name, items[1..]);
    }
  }

  /** A value within the budget comes back unchanged exactly when it is verbatim. */
  lemma UnchangedExactlyWhen(sc: Schema, caps: Caps, name: string, v: Val)
    requires SchemaOk(sc) && CapsOk(caps) && Typed(sc, name, v) && WithinBudget(sc, caps, name, v)
    ensures RoundTrip(sc, caps, name, v) == Some(v) <==> Verbatim(sc, name, v)
  {
    RoundTripExactly(sc, caps, name, v, v);
    AgreesWithItself(sc, name, v);
  }

  // ---- on the wire ----

  function NumberOf(x: Val): int {
    match x
    case VBool(b) => if b then 1 else 0
    case VInt(n) => n
    case VFloat(p) => p
    case _ => 0
  }

  lemma RawIs(k: Kind, x: Val)
    requires InRange(k, x)
    ensures RawOf(k, x).Some? && RawOf(k, x).value < Pow2(Width(k))
    ensures RawOf(k, x).value in {NumberOf(x), NumberOf(x) + Pow2(Width(k))}
  {
    ScalarRoundTrip(k, x);
    if k in {U16, U32, U64} {
      ModSmall(x.n, Pow2(Width(k)));
    }
  }

  /** A number at a multiple of its width, the lowest bit first. */
  ghost predicate HoldsAt(o: Obj, off: nat, k: Kind, n: int) {
    && off * Width(k) + Width(k) <= |o.data|
    && forall i: nat :: i < Width(k) ==> o.data[off * Width(k) + i] == BitOf(n, i)
  }

  /** Where and how a field lies in its message, as in the Cap'n Proto encoding:
      numbers little-endian and in two's complement, enums by position, text with a
      closing zero. */
  ghost predicate LiesIn(o: Obj, f: Field, x: Val) {
    match f.ty
    case Scalar(k) => HoldsAt(o, f.off, k, NumberOf(x))
    case Enum(table) => x.VEnum? && exists e: nat :: e < |table| && table[e] == x.name && HoldsAt(o, f.off, U16, e)
    case Text => f.off < |o.ptrs| && x.VText? && o.ptrs[f.off] == ListPtr(Bytes(x.bytes + [0]))
    case Data => f.off < |o.ptrs| && x.VData? && o.ptrs[f.off] == ListPtr(Bytes(x.bytes))
    case _ => true
  }

  lemma PeekHolds(o: Obj, off: nat, k: Kind, bits: seq<bool>, n: int)
    requires |bits| == Width(k) && forall i: nat :: i < Width(k) ==> bits[i] == BitOf(n, i)
    requires Peek(o, RawSlot(k, off)) == Bits(bits)
    ensures HoldsAt(o, off, k, n)
  {
    forall i: nat | i < Width(k)
      ensures o.data[off * Width(k) + i] == BitOf(n, i)
    {
      assert o.data[off * Width(k)..off * Width(k) + Width(k)][i] == bits[i];
    }
  }

  lemma RawHolds(o: Obj, off: nat, k: Kind, raw: nat, n: int)
    requires raw < Pow2(Width(k)) && raw in {n, n + Pow2(Width(k))}
    requires Peek(o, RawSlot(k, off)) == ContentOf(SetRaw(k, off, raw))
    ensures HoldsAt(o, off, k, n)
  {
    ModSmall(raw, Pow2(Width(k)));
    var bits := ToBits(raw, Width(k));
    forall i: nat | i < Width(k)
      ensures bits[i] == BitOf(n, i)
    {
      ToBitsAt(n, raw, Width(k), i);
    }
    PeekHolds(o, off, k, bits, n);
  }

  lemma ScalarLies(o: Obj, caps: Caps, f: Field, x: Val)
    requires f.ty.Scalar? && InRange(f.ty.kind, x)
    requires LeafOp(caps, f.ty, f.off, x).Some? && Peek(o, FieldSlot(f)) == ContentOf(LeafOp(caps, f.ty, f.off, x).value)
    ensures LiesIn(o, f, x)
  {
    RawIs(f.ty.kind, x);
    RawHolds(o, f.off, f.ty.kind, RawOf(f.ty.kind, x).value, NumberOf(x));
  }

  /** Written by its own setter call, a value lies where it should. */
  lemma LeafLies(sc: Schema, o: Obj, caps: Caps, f: Field, x: Val)
    requires f.ty != Void && !Nested(f.ty) && TyOk(f.ty) && TypedTy(sc, f.ty, x)
    requires LeafOp(caps, f.ty, f.off, x).Some? && Peek(o, FieldSlot(f)) == ContentOf(LeafOp(caps, f.ty, f.off, x).value)
    ensures LiesIn(o, f, x)
  {
    if f.ty.Scalar? {
      ScalarLies(o, caps, f, x);
    } else if f.ty.Enum? {
      var e := Find(f.ty.table, x.name).value;
      RawHolds(o, f.off, U16, e, e);
    }
  }

  /** The one call that encodes a value writes what `LiesIn` asks. */
  lemma EncodedLies(sc: Schema, o: Obj, caps: Caps, f: Field, x: Val, own: seq<Op>)
    requires f.ty != Void && TyOk(f.ty) && TypedTy(sc, f.ty, x) && EncodeTy(sc, caps, f.ty, f.off, x) == Some(own)
    requires own != [] ==> Peek(o, FieldSlot(f)) == ContentOf(own[0])
    ensures LiesIn(o, f, x)
  {
    if !Nested(f.ty) && f.ty != Interface {
      LeafLies(sc, o, caps, f, x);
    }
  }

  /** A field of a record lies in the message as the encoding specifies. */
  lemma FieldLiesIn(sc: Schema, caps: Caps, name: string, v: Val, f: Field)
    requires SchemaOk(sc) && CapsOk(caps) && Typed(sc, name, v)
    requires !IsUnion(sc[name]) && f in sc[name].fields && f.ty != Void && f.name in v.fields
    ensures Encode(sc, caps, name, v).Some?
    ensures LiesIn(Build(sc[name].dw, sc[name].pc, Encode(sc, caps, name, v).value), f, v.fields[f.name])
  {
    var d := sc[name];
    var i :| 0 <= i < |d.fields| && d.fields[i] == f;
    FieldSurvives(sc, caps, d, v, i);
    RecordLies(sc, caps, d, v, f, Build(d.dw, d.pc, EncodeFields(sc, caps, d.fields, v).value));
  }

  lemma RecordLies(sc: Schema, caps: Caps, d: StructDef, v: Val, f: Field, o: Obj)
    requires v.VRecord? && f.ty != Void && TyOk(f.ty) && f.name in v.fields && TypedField(sc, f, v)
    requires EncodeField(sc, caps, f, v).Some?
    requires var own := EncodeField(sc, caps, f, v).value;
             Peek(o, FieldSlot(f)) == if own == [] then Peek(ZeroObj(d.dw, d.pc), FieldSlot(f)) else ContentOf(own[0])
    ensures LiesIn(o, f, v.fields[f.name])
  {
    if v.fields[f.name] != VNone {
      EncodedLies(sc, o, caps, f, v.fields[f.name], EncodeField(sc, caps, f, v).value);
    }
  }

  ghost predicate MemberLies(o: Obj, discOff: nat, f: Field, x: Option<Val>) {
    && f.disc.Some? && HoldsAt(o, discOff, U16, f.disc.value)
    && (f.ty != Void ==> x.Some? && LiesIn(o, f, x.value))
  }

  /** A union tells by its 16-bit discriminant which member it holds. */
  lemma MemberLiesIn(sc: Schema, caps: Caps, name: string, v: Val)
    requires SchemaOk(sc) && CapsOk(caps) && Typed(sc, name, v) && IsUnion(sc[name])
    ensures Encode(sc, caps, name, v).Some?
    ensures var o := Build(sc[name].dw, sc[name].pc, Encode(sc, caps, name, v).value);
            exists f :: f in sc[name].fields && f.name == v.member && MemberLies(o, sc[name].discOff, f, v.value)
  {
    var d := sc[name];
    var f := MemberOf(d.fields, v.member).value;
    MemberEncodes(sc, caps, d, d.fields, v);
    var own := if f.ty == Void then [] else EncodeTy(sc, caps, f.ty, f.off, v.value.value).value;
    if f.ty != Void {
      TyEncodes(sc, caps, f.ty, f.off, v.value.value);
    }
    UnionLies(sc, caps, d, f, v.value, own);
  }

  lemma UnionLies(sc: Schema, caps: Caps, d: StructDef, f: Field, x: Option<Val>, own: seq<Op>)
    requires LayoutOk(d) && IsUnion(d) && f in d.fields
    requires if f.ty == Void then own == [] else x.Some? && TypedTy(sc, f.ty, x.value) && EncodeTy(sc, caps, f.ty, f.off, x.value) == Some(own)
    requires |own| <= 1 && forall op :: op in own ==> SlotOf(op) == FieldSlot(f)
    ensures MemberLies(Build(d.dw, d.pc, [SetRaw(U16, d.discOff, f.disc.value)] + own), d.discOff, f, x)
  {
    var disc := SetRaw(U16, d.discOff, f.disc.value);
    var o := Build(d.dw, d.pc, [disc] + own);
    UnionSlots(d, f, own);
    assert SlotOf(disc) == DiscSlot(d);
    TwoSlots(d.dw, d.pc, disc, own, FieldSlot(f));
    RawHolds(o, d.discOff, U16, f.disc.value, f.disc.value);
    if f.ty != Void {
      EncodedLies(sc, o, caps, f, x.value, own);
    }
  }
}
