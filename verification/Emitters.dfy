/** The schema-to-codec compiler: what the emitted Python and TypeScript writers
    and the emitted Python reader do, for any schema and compiler layout. */
module Emitters {
  import opened Basics
  import opened Wire

  // ---- schema, layout and author values ----

  datatype Kind = Bool | U16 | I32 | U32 | I64 | U64 | F32 | F64

  datatype El = TextEl | DataEl | BoolEl | U16El | U32El | EnumEl(table: seq<string>) | StructEl(name: string)

  datatype Ty =
    | Void | Scalar(kind: Kind) | Text | Data | Enum(table: seq<string>)
    | Struct(name: string) | Interface | List(el: El)

  /** A layout field; `optional` is the `$optional` annotation, never set on a method envelope. */
  datatype Field = Field(name: string, ty: Ty, off: nat, disc: Option<nat>, optional: bool)

  /** A layout struct with its fields in code order. */
  datatype StructDef = StructDef(dw: nat, pc: nat, discOff: nat, fields: seq<Field>)

  type Schema = map<string, StructDef>

  /** Author values: text as its UTF-8 bytes, floats as their IEEE bit patterns. */
  datatype Val =
    | VNone
    | VBool(b: bool)
    | VInt(n: int)
    | VFloat(pattern: nat)
    | VText(bytes: seq<nat>)
    | VData(bytes: seq<nat>)
    | VEnum(name: string)
    | VCap(cap: nat)
    | VList(items: seq<Val>)
    | VRecord(fields: map<string, Val>)
    | VUnion(member: string, value: Option<Val>)

  /** The transport's capability table. */
  datatype Caps = Caps(exportCap: nat -> nat, importCap: nat -> nat)

  function Width(k: Kind): nat {
    match k
    case Bool => 1
    case U16 => 16
    case I32 => 32
    case U32 => 32
    case I64 => 64
    case U64 => 64
    case F32 => 32
    case F64 => 64
  }

  /** Raw bits a setter stores; `None` when the runtime raises. */
  function RawOf(k: Kind, v: Val): Option<nat> {
    if k == Bool then if v.VBool? then Some(if v.b then 1 else 0) else None
    else if k in {F32, F64} then if v.VFloat? && v.pattern < Pow2(Width(k)) then Some(v.pattern) else None
    else if !v.VInt? then None
    else if k in {I32, I64} then
      if 0 - Pow2(Width(k) - 1) <= v.n < Pow2(Width(k) - 1)
      then Some(if v.n < 0 then v.n + Pow2(Width(k)) else v.n) else None
    else Some(v.n % Pow2(Width(k)))
  }

  function ScalarVal(k: Kind, raw: nat): Val {
    if k == Bool then VBool(raw != 0)
    else if k in {F32, F64} then VFloat(raw)
    else if k in {I32, I64} && raw >= Pow2(Width(k) - 1) then VInt(raw - Pow2(Width(k)))
    else VInt(raw)
  }

  predicate InRange(k: Kind, v: Val) {
    if k in {U16, U32, U64} then v.VInt? && 0 <= v.n < Pow2(Width(k)) else RawOf(k, v).Some?
  }

  lemma ScalarRoundTrip(k: Kind, v: Val)
    requires InRange(k, v)
    ensures RawOf(k, v).Some? && RawOf(k, v).value < Pow2(Width(k)) && ScalarVal(k, RawOf(k, v).value) == v
  {
    if k == Bool {
      assert Pow2(1) == 2;
    } else if k in {I32, I64} {
      SignedRange(Width(k), v.n);
    } else if v.VInt? {
      ModSmall(v.n, Pow2(Width(k)));
    }
  }

  lemma SignedRange(w: nat, n: int)
    requires w > 0 && 0 - Pow2(w - 1) <= n < Pow2(w - 1)
    ensures var raw := if n < 0 then n + Pow2(w) else n;
            0 <= raw < Pow2(w) && (if raw >= Pow2(w - 1) then raw - Pow2(w) else raw) == n
  {
    assert Pow2(w) == 2 * Pow2(w - 1);
  }

  lemma ModSmall(n: nat, m: nat)
    requires n < m
    ensures n % m == n
  {}

  /** Python's `== 0`, which a negative float zero satisfies too. */
  predicate IsZero(ty: Ty, v: Val) {
    match v
    case VText(b) => ty == Text && b == []
    case VData(b) => ty == Data && b == []
    case VInt(n) => ty.Scalar? && n == 0
    case VFloat(p) => ty.Scalar? && (p == 0 || p == Pow2(Width(ty.kind) - 1))
    case VNone => ty == Interface
    case _ => false
  }

  function Find(table: seq<string>, name: string): (r: Option<nat>)
    ensures r.Some? <==> name in table
    ensures r.Some? ==> r.value < |table| && table[r.value] == name
  {
    if table == [] then None
    else if table[0] == name then Some(0)
    else match Find(table[1..], name)
      case None => None
      case Some(i) => Some(i + 1)
  }

  function OmitWhenNull(f: Field): bool {
    f.optional || f.ty == Interface
  }

  predicate IsUnion(d: StructDef) {
    exists i :: 0 <= i < |d.fields| && d.fields[i].disc.Some?
  }

  // ---- runtime calls for one value ----

  function SetRaw(k: Kind, off: nat, raw: nat): Op {
    SetBits(off * Width(k), ToBits(raw % Pow2(Width(k)), Width(k)))
  }

  function TextPtr(v: Val): Option<Ptr> {
    if v.VText? then Some(ListPtr(Bytes(v.bytes + [0]))) else None
  }

  function DataPtr(v: Val): Option<Ptr> {
    if v.VData? then Some(ListPtr(Bytes(v.bytes))) else None
  }

  function AllPtrs(text: bool, items: seq<Val>): (r: Option<seq<Ptr>>)
  {
    if items == [] then Some([])
    else match (if text then TextPtr(items[0]) else DataPtr(items[0]), AllPtrs(text, items[1..]))
      case (Some(p), Some(ps)) => Some([p] + ps)
      case _ => None
  }

  function AllBools(items: seq<Val>): Option<seq<bool>> {
    if items == [] then Some([])
    else if items[0].VBool? && AllBools(items[1..]).Some? then Some([items[0].b] + AllBools(items[1..]).value)
    else None
  }

  function AllNumbers(width: nat, items: seq<Val>): Option<seq<nat>> {
    if items == [] then Some([])
    else if items[0].VInt? && 0 <= items[0].n < Pow2(width) && AllNumbers(width, items[1..]).Some?
    then Some([items[0].n] + AllNumbers(width, items[1..]).value)
    else None
  }

  function AllOrdinals(table: seq<string>, items: seq<Val>): Option<seq<nat>> {
    if items == [] then Some([])
    else if items[0].VEnum? && Find(table, items[0].name).Some? && AllOrdinals(table, items[1..]).Some?
    then Some([Find(table, items[0].name).value] + AllOrdinals(table, items[1..]).value)
    else None
  }

  predicate Nested(ty: Ty) {
    ty.Struct? || (ty.List? && ty.el.StructEl?)
  }

  /** The list setters other than the struct list. */
  function ListPtrOf(el: El, items: seq<Val>): Option<WireList>
    requires !el.StructEl?
  {
    match el
    case TextEl => (match AllPtrs(true, items) case Some(ps) => Some(Pointers(ps)) case None => None)
    case DataEl => (match AllPtrs(false, items) case Some(ps) => Some(Pointers(ps)) case None => None)
    case BoolEl => (match AllBools(items) case Some(bs) => Some(Bools(bs)) case None => None)
    case U16El => (match AllNumbers(16, items) case Some(ns) => Some(Numbers(16, ns)) case None => None)
    case U32El => (match AllNumbers(32, items) case Some(ns) => Some(Numbers(32, ns)) case None => None)
    case EnumEl(table) => (match AllOrdinals(table, items) case Some(ns) => Some(Numbers(16, ns)) case None => None)
  }

  /** The setter call for a value that needs no other codec. */
  function LeafOp(caps: Caps, ty: Ty, off: nat, x: Val): Option<Op>
    requires ty != Void && !Nested(ty)
  {
    match ty
    case Scalar(k) =>
      (match RawOf(k, x) case Some(raw) => Some(SetRaw(k, off, raw)) case None => None)
    case Enum(table) =>
      if x.VEnum? && Find(table, x.name).Some?
      then Some(SetRaw(U16, off, Find(table, x.name).value)) else None
    case Text => (match TextPtr(x) case Some(p) => Some(SetLeaf(off, p)) case None => None)
    case Data => (match DataPtr(x) case Some(p) => Some(SetLeaf(off, p)) case None => None)
    case Interface => if x.VCap? then Some(SetLeaf(off, CapPtr(caps.exportCap(x.cap)))) else None
    case List(el) =>
      if x.VList? then (match ListPtrOf(el, x.items) case Some(l) => Some(SetLeaf(off, ListPtr(l))) case None => None)
      else None
  }

  function Concat(a: Option<seq<Op>>, b: Option<seq<Op>>): Option<seq<Op>> {
    if a.Some? && b.Some? then Some(a.value + b.value) else None
  }

  // ---- the reference encoder ----

  function Encode(sc: Schema, caps: Caps, name: string, v: Val): Option<seq<Op>>
    decreases v, 2
  {
    if name !in sc then None
    else if IsUnion(sc[name]) then
      if v.VUnion? then EncodeMember(sc, caps, sc[name], sc[name].fields, v) else None
    else if v.VRecord? then EncodeFields(sc, caps, sc[name].fields, v) else None
  }

  function EncodeMember(sc: Schema, caps: Caps, d: StructDef, fields: seq<Field>, v: Val): Option<seq<Op>>
    requires v.VUnion?
    decreases v, 1, |fields|
  {
    if fields == [] then None
    else
      var f := fields[0];
      if f.disc.Some? && f.name == v.member then
        Concat(Some([SetRaw(U16, d.discOff, f.disc.value)]),
               if f.ty == Void then Some([])
               else if v.value.Some? then EncodeTy(sc, caps, f.ty, f.off, v.value.value)
               else None)
      else EncodeMember(sc, caps, d, fields[1..], v)
  }

  function EncodeFields(sc: Schema, caps: Caps, fields: seq<Field>, v: Val): Option<seq<Op>>
    requires v.VRecord?
    decreases v, 1, |fields|
  {
    if fields == [] then Some([])
    else Concat(EncodeField(sc, caps, fields[0], v), EncodeFields(sc, caps, fields[1..], v))
  }

  function EncodeField(sc: Schema, caps: Caps, f: Field, v: Val): Option<seq<Op>>
    requires v.VRecord?
    decreases v, 0
  {
    if f.ty == Void then Some([])
    else if f.name !in v.fields then if OmitWhenNull(f) then Some([]) else None
    else if OmitWhenNull(f) && v.fields[f.name] == VNone then Some([])
    else EncodeTy(sc, caps, f.ty, f.off, v.fields[f.name])
  }

  /** One slot; an absent capability stays a null pointer. */
  function EncodeTy(sc: Schema, caps: Caps, ty: Ty, off: nat, x: Val): Option<seq<Op>>
    requires ty != Void
    decreases x, 3
  {
    if ty.Struct? then
      if ty.name !in sc then None
      else match Encode(sc, caps, ty.name, x)
        case Some(body) => Some([InitStruct(off, sc[ty.name].dw, sc[ty.name].pc, body)])
        case None => None
    else if ty.List? && ty.el.StructEl? then
      if ty.el.name !in sc || !x.VList? then None
      else match EncodeItems(sc, caps, ty.el.name, x.items)
        case Some(items) => Some([InitStructList(off, sc[ty.el.name].dw, sc[ty.el.name].pc, items)])
        case None => None
    else if ty == Interface && x == VNone then Some([])
    else match LeafOp(caps, ty, off, x)
      case Some(op) => Some([op])
      case None => None
  }

  function EncodeItems(sc: Schema, caps: Caps, name: string, items: seq<Val>): (r: Option<seq<Item>>)
    ensures r.Some? ==> |r.value| == |items|
    decreases items, 0
  {
    if items == [] then Some([])
    else match (Encode(sc, caps, name, items[0]), EncodeItems(sc, caps, name, items[1..]))
      case (Some(ops), Some(rest)) => Some([Item(ops)] + rest)
      case _ => None
  }

  // ---- the emitted writers ----

  datatype Lang = Py | Ts

  /** `v["name"]` / `v.name`, or the union payload `v["value"]` / `v.value`. */
  datatype Arg = Key(name: string) | Payload

  datatype Stmt =
    | Call(ty: Ty, off: nat, arg: Arg, orDefault: bool)   // a setter, with `?? default` in TypeScript
    | IfNotNull(arg: Arg, body: seq<Stmt>)                // `is not None`, `!= null`
    | IfDefined(arg: Arg, body: seq<Stmt>)                // `!== undefined`

  datatype Program = Straight(body: seq<Stmt>) | Switch(discOff: nat, cases: seq<Case>)
  datatype Case = Case(member: string, disc: nat, body: seq<Stmt>)

  function WriteExpr(lang: Lang, ty: Ty, off: nat, arg: Arg): seq<Stmt> {
    if ty == Void then []
    else if ty == Interface || (lang == Ts && ty.Struct?) then [IfNotNull(arg, [Call(ty, off, arg, false)])]
    else [Call(ty, off, arg, lang == Ts)]
  }

  function FieldStmts(lang: Lang, f: Field): seq<Stmt> {
    var w := WriteExpr(lang, f.ty, f.off, Key(f.name));
    if lang == Py && OmitWhenNull(f) then [IfNotNull(Key(f.name), w)]
    else if lang == Ts && f.optional then [IfDefined(Key(f.name), w)]
    else w
  }

  function BodyStmts(lang: Lang, fields: seq<Field>): seq<Stmt> {
    if fields == [] then [] else FieldStmts(lang, fields[0]) + BodyStmts(lang, fields[1..])
  }

  function Cases(lang: Lang, fields: seq<Field>): seq<Case> {
    if fields == [] then []
    else if fields[0].disc.None? then Cases(lang, fields[1..])
    else [Case(fields[0].name, fields[0].disc.value, WriteExpr(lang, fields[0].ty, fields[0].off, Payload))]
         + Cases(lang, fields[1..])
  }

  function WriterOf(lang: Lang, d: StructDef): Program {
    if IsUnion(d) then Switch(d.discOff, Cases(lang, d.fields)) else Straight(BodyStmts(lang, d.fields))
  }

  lemma CasesStep(lang: Lang, fields: seq<Field>, i: nat, done: seq<Case>)
    requires i < |fields| && Cases(lang, fields) == done + Cases(lang, fields[i..])
    ensures var f := fields[i];
            Cases(lang, fields) ==
            (if f.disc.Some? then done + [Case(f.name, f.disc.value, WriteExpr(lang, f.ty, f.off, Payload))] else done)
            + Cases(lang, fields[i + 1..])
  {
    assert fields[i..][0] == fields[i] && fields[i..][1..] == fields[i + 1..];
  }

  lemma BodyStep(lang: Lang, fields: seq<Field>, i: nat, done: seq<Stmt>)
    requires i < |fields| && BodyStmts(lang, fields) == done + BodyStmts(lang, fields[i..])
    ensures BodyStmts(lang, fields) == done + FieldStmts(lang, fields[i]) + BodyStmts(lang, fields[i + 1..])
  {
    assert fields[i..][0] == fields[i] && fields[i..][1..] == fields[i + 1..];
  }

  /** The struct codec emitters: one pass over the fields, appending to a list. */
  method EmitWriter(lang: Lang, d: StructDef) returns (program: Program)
    ensures program == WriterOf(lang, d)
  {
    if IsUnion(d) {
      var cases := EmitCases(lang, d.fields);
      program := Switch(d.discOff, cases);
    } else {
      var out := EmitBody(lang, d.fields);
      program := Straight(out);
    }
  }

  method EmitCases(lang: Lang, fields: seq<Field>) returns (out: seq<Case>)
    ensures out == Cases(lang, fields)
  {
    out := [];
    for i := 0 to |fields|
      invariant Cases(lang, fields) == out + Cases(lang, fields[i..])
    {
      CasesStep(lang, fields, i, out);
      if fields[i].disc.Some? {
        out := out + [Case(fields[i].name, fields[i].disc.value, WriteExpr(lang, fields[i].ty, fields[i].off, Payload))];
      }
    }
  }

  method EmitBody(lang: Lang, fields: seq<Field>) returns (out: seq<Stmt>)
    ensures out == BodyStmts(lang, fields)
  {
    out := [];
    for i := 0 to |fields|
      invariant BodyStmts(lang, fields) == out + BodyStmts(lang, fields[i..])
    {
      BodyStep(lang, fields, i, out);
      out := out + FieldStmts(lang, fields[i]);
    }
  }

  // ---- running the emitted writers ----

  function Lookup(v: Val, a: Arg): (r: Option<Val>)
    ensures r.Some? ==> r.value < v
  {
    match a
    case Key(n) => if v.VRecord? && n in v.fields then Some(v.fields[n]) else None
    case Payload => if v.VUnion? && v.value.Some? then Some(v.value.value) else None
  }

  /** What TypeScript's `?? default` writes. */
  function DefaultOps(sc: Schema, caps: Caps, ty: Ty, off: nat): Option<seq<Op>>
    requires ty != Void
  {
    match ty
    case Scalar(k) => Some([SetRaw(k, off, 0)])
    case Text => Some([SetLeaf(off, ListPtr(Bytes([0])))])
    case Data => Some([SetLeaf(off, ListPtr(Bytes([])))])
    case Enum(table) => if table == [] then None else Some([SetRaw(U16, off, 0)])
    case List(StructEl(n)) => if n in sc then Some([InitStructList(off, sc[n].dw, sc[n].pc, [])]) else None
    case List(el) =>
      (match ListPtrOf(el, []) case Some(l) => Some([SetLeaf(off, ListPtr(l))]) case None => None)
    case _ => None
  }

  function RunWriter(sc: Schema, caps: Caps, lang: Lang, name: string, v: Val): Option<seq<Op>>
    decreases v, 1
  {
    if name !in sc then None
    else match WriterOf(lang, sc[name])
      case Straight(body) => if v.VRecord? then Exec(sc, caps, lang, body, v) else None
      case Switch(discOff, cases) => if v.VUnion? then ExecCase(sc, caps, lang, discOff, cases, v) else None
  }

  function ExecCase(sc: Schema, caps: Caps, lang: Lang, discOff: nat, cases: seq<Case>, v: Val): Option<seq<Op>>
    requires v.VUnion?
    decreases v, 0, cases
  {
    if cases == [] then None
    else if cases[0].member == v.member
    then Concat(Some([SetRaw(U16, discOff, cases[0].disc)]), Exec(sc, caps, lang, cases[0].body, v))
    else ExecCase(sc, caps, lang, discOff, cases[1..], v)
  }

  function Exec(sc: Schema, caps: Caps, lang: Lang, stmts: seq<Stmt>, v: Val): Option<seq<Op>>
    decreases v, 0, stmts
  {
    if stmts == [] then Some([])
    else Concat(ExecOne(sc, caps, lang, stmts[0], v), Exec(sc, caps, lang, stmts[1..], v))
  }

  function ExecOne(sc: Schema, caps: Caps, lang: Lang, st: Stmt, v: Val): Option<seq<Op>>
    decreases v, 0, st
  {
    match st
    case IfNotNull(a, body) =>
      // Python reads the payload with `v["value"]`, which raises when the key is missing
      if Lookup(v, a).None? then if lang == Py && a.Payload? then None else Some([])
      else if Lookup(v, a).value == VNone then Some([])
      else Exec(sc, caps, lang, body, v)
    case IfDefined(a, body) => if Lookup(v, a).Some? then Exec(sc, caps, lang, body, v) else Some([])
    case Call(ty, off, a, orDefault) =>
      var x := Lookup(v, a);
      if ty == Void then Some([])
      else if orDefault && (x.None? || x.value == VNone) then DefaultOps(sc, caps, ty, off)
      else if x.None? then None
      else CallOps(sc, caps, lang, ty, off, x.value)
  }

  function CallOps(sc: Schema, caps: Caps, lang: Lang, ty: Ty, off: nat, x: Val): Option<seq<Op>>
    requires ty != Void
    decreases x, 2
  {
    if ty.Struct? then
      if ty.name !in sc then None
      else match RunWriter(sc, caps, lang, ty.name, x)
        case Some(body) => Some([InitStruct(off, sc[ty.name].dw, sc[ty.name].pc, body)])
        case None => None
    else if ty.List? && ty.el.StructEl? then
      if ty.el.name !in sc || !x.VList? then None
      else match RunItems(sc, caps, lang, ty.el.name, x.items)
        case Some(items) => Some([InitStructList(off, sc[ty.el.name].dw, sc[ty.el.name].pc, items)])
        case None => None
    else match LeafOp(caps, ty, off, x)
      case Some(op) => Some([op])
      case None => None
  }

  function RunItems(sc: Schema, caps: Caps, lang: Lang, name: string, items: seq<Val>): Option<seq<Item>>
    decreases items, 0
  {
    if items == [] then Some([])
    else match (RunWriter(sc, caps, lang, name, items[0]), RunItems(sc, caps, lang, name, items[1..]))
      case (Some(ops), Some(rest)) => Some([Item(ops)] + rest)
      case _ => None
  }

  // ---- the emitted Python reader ----

  function GetRaw(k: Kind, o: Obj, off: nat): nat {
    if (off + 1) * Width(k) <= |o.data| then FromBits(o.data[off * Width(k)..(off + 1) * Width(k)]) else 0
  }

  function GetPtr(o: Obj, i: nat): Ptr {
    if i < |o.ptrs| then o.ptrs[i] else Null
  }

  function ReadText(p: Ptr): Option<Val> {
    match p
    case Null => Some(VText([]))
    case ListPtr(Bytes(b)) => Some(VText(if b != [] && b[|b| - 1] == 0 then b[..|b| - 1] else b))
    case _ => None
  }

  function ReadData(p: Ptr): Option<Val> {
    match p
    case Null => Some(VData([]))
    case ListPtr(Bytes(b)) => Some(VData(b))
    case _ => None
  }

  function ReadPtrs(text: bool, ps: seq<Ptr>): Option<seq<Val>> {
    if ps == [] then Some([])
    else match (if text then ReadText(ps[0]) else ReadData(ps[0]), ReadPtrs(text, ps[1..]))
      case (Some(x), Some(xs)) => Some([x] + xs)
      case _ => None
  }

  function ReadEnums(table: seq<string>, ns: seq<nat>): Option<seq<Val>> {
    if ns == [] then Some([])
    else if ns[0] < |table| && ReadEnums(table, ns[1..]).Some?
    then Some([VEnum(table[ns[0]])] + ReadEnums(table, ns[1..]).value)
    else None
  }

  function Ints(ns: seq<nat>): seq<Val> {
    seq(|ns|, i requires 0 <= i < |ns| => VInt(ns[i]))
  }

  function Bits(bs: seq<bool>): seq<Val> {
    seq(|bs|, i requires 0 <= i < |bs| => VBool(bs[i]))
  }

  function ReadList(el: El, p: Ptr): Option<seq<Val>>
    requires !el.StructEl?
  {
    match (el, p)
    case (_, Null) => Some([])
    case (TextEl, ListPtr(Pointers(ps))) => ReadPtrs(true, ps)
    case (DataEl, ListPtr(Pointers(ps))) => ReadPtrs(false, ps)
    case (BoolEl, ListPtr(Bools(bs))) => Some(Bits(bs))
    case (U16El, ListPtr(Numbers(16, ns))) => Some(Ints(ns))
    case (U32El, ListPtr(Numbers(32, ns))) => Some(Ints(ns))
    case (EnumEl(table), ListPtr(Numbers(16, ns))) => ReadEnums(table, ns)
    case _ => None
  }

  function DecodeLeaf(caps: Caps, ty: Ty, off: nat, o: Obj): Option<Val>
    requires !Nested(ty)
  {
    match ty
    case Void => Some(VNone)
    case Scalar(k) => Some(ScalarVal(k, GetRaw(k, o, off)))
    case Enum(table) =>
      var i := GetRaw(U16, o, off); if i < |table| then Some(VEnum(table[i])) else None
    case Text => ReadText(GetPtr(o, off))
    case Data => ReadData(GetPtr(o, off))
    case Interface =>
      (match GetPtr(o, off)
       case Null => Some(VNone)
       case CapPtr(i) => Some(VCap(caps.importCap(i)))
       case _ => None)
    case List(el) => (match ReadList(el, GetPtr(o, off)) case Some(xs) => Some(VList(xs)) case None => None)
  }

  /** The fields the reader puts in the literal, and those it tests for absence. */
  function Keep(fields: seq<Field>, omit: bool): (r: seq<Field>)
    ensures forall f :: f in r <==> f in fields && OmitWhenNull(f) == omit
  {
    if fields == [] then []
    else (if OmitWhenNull(fields[0]) == omit then [fields[0]] else []) + Keep(fields[1..], omit)
  }

  function Decode(sc: Schema, caps: Caps, name: string, o: Obj): Option<Val>
    decreases o, 2
  {
    if name !in sc then None
    else if IsUnion(sc[name]) then DecodeMember(sc, caps, sc[name].fields, GetRaw(U16, o, sc[name].discOff), o)
    else match (DecodeFields(sc, caps, Keep(sc[name].fields, false), o), DecodeFields(sc, caps, Keep(sc[name].fields, true), o))
      case (Some(a), Some(b)) => Some(VRecord(a + b))
      case _ => None
  }

  function DecodeMember(sc: Schema, caps: Caps, fields: seq<Field>, disc: nat, o: Obj): Option<Val>
    decreases o, 1, |fields|
  {
    if fields == [] then None
    else if fields[0].disc == Some(disc) then
      if fields[0].ty == Void then Some(VUnion(fields[0].name, None))
      else match DecodeTy(sc, caps, fields[0].ty, fields[0].off, o)
        case Some(x) => Some(VUnion(fields[0].name, Some(x)))
        case None => None
    else DecodeMember(sc, caps, fields[1..], disc, o)
  }

  function DecodeFields(sc: Schema, caps: Caps, fields: seq<Field>, o: Obj): Option<map<string, Val>>
    decreases o, 1, |fields|
  {
    if fields == [] then Some(map[])
    else match (DecodeTy(sc, caps, fields[0].ty, fields[0].off, o), DecodeFields(sc, caps, fields[1..], o))
      case (Some(x), Some(rest)) =>
        Some(if OmitWhenNull(fields[0]) && IsZero(fields[0].ty, x) then rest else rest[fields[0].name := x])
      case _ => None
  }

  function DecodeTy(sc: Schema, caps: Caps, ty: Ty, off: nat, o: Obj): Option<Val>
    decreases o, 0
  {
    if ty.Struct? then
      match GetPtr(o, off)
      case Null => DecodeDefault(sc, caps, ty.name, {})
      case StructPtr(sub) => Decode(sc, caps, ty.name, sub)
      case _ => None
    else if ty.List? && ty.el.StructEl? then
      match GetPtr(o, off)
      case Null => Some(VList([]))
      case ListPtr(Composite(words, elems)) =>
        if words == 0 then Some(VList([]))
        else (match DecodeItems(sc, caps, ty.el.name, elems) case Some(xs) => Some(VList(xs)) case None => None)
      case _ => None
    else DecodeLeaf(caps, ty, off, o)
  }

  function DecodeItems(sc: Schema, caps: Caps, name: string, elems: seq<Obj>): Option<seq<Val>>
    decreases elems, 0
  {
    if elems == [] then Some([])
    else match (Decode(sc, caps, name, elems[0]), DecodeItems(sc, caps, name, elems[1..]))
      case (Some(x), Some(xs)) => Some([x] + xs)
      case _ => None
  }

  /** A null struct pointer reads as an all-default struct. Meeting the same
      struct again on the way down is Python's unbounded recursion, which raises. */
  function DecodeDefault(sc: Schema, caps: Caps, name: string, seen: set<string>): Option<Val>
    decreases sc.Keys - seen, 1
  {
    if name !in sc || name in seen then None
    else if IsUnion(sc[name]) then DefaultMember(sc, caps, sc[name].fields, seen + {name})
    else match (DefaultFields(sc, caps, Keep(sc[name].fields, false), seen + {name}),
                DefaultFields(sc, caps, Keep(sc[name].fields, true), seen + {name}))
      case (Some(a), Some(b)) => Some(VRecord(a + b))
      case _ => None
  }

  function DefaultMember(sc: Schema, caps: Caps, fields: seq<Field>, seen: set<string>): Option<Val>
    decreases sc.Keys - seen, 3, |fields|
  {
    if fields == [] then None
    else if fields[0].disc == Some(0) then
      if fields[0].ty == Void then Some(VUnion(fields[0].name, None))
      else match DefaultTy(sc, caps, fields[0].ty, seen)
        case Some(x) => Some(VUnion(fields[0].name, Some(x)))
        case None => None
    else DefaultMember(sc, caps, fields[1..], seen)
  }

  function DefaultFields(sc: Schema, caps: Caps, fields: seq<Field>, seen: set<string>): Option<map<string, Val>>
    decreases sc.Keys - seen, 4, |fields|
  {
    if fields == [] then Some(map[])
    else match (DefaultTy(sc, caps, fields[0].ty, seen), DefaultFields(sc, caps, fields[1..], seen))
      case (Some(x), Some(rest)) =>
        Some(if OmitWhenNull(fields[0]) && IsZero(fields[0].ty, x) then rest else rest[fields[0].name := x])
      case _ => None
  }

  function DefaultTy(sc: Schema, caps: Caps, ty: Ty, seen: set<string>): Option<Val>
    decreases sc.Keys - seen, 2, 1
  {
    if ty.Struct? then DecodeDefault(sc, caps, ty.name, seen)
    else if Nested(ty) then Some(VList([]))
    else DecodeLeaf(caps, ty, 0, Obj([], []))
  }

  /** `_decode_message`: a segment over the traversal budget is rejected. */
  function DecodeMessage(sc: Schema, caps: Caps, name: string, m: Message): Option<Val> {
    if m.words > MAX_WORDS then None else Decode(sc, caps, name, m.root)
  }

  function EncodeMessage(sc: Schema, caps: Caps, lang: Lang, name: string, v: Val): Option<Message> {
    if name !in sc then None
    else match RunWriter(sc, caps, lang, name, v)
      case Some(ops) => Some(Finish(sc[name].dw, sc[name].pc, ops))
      case None => None
  }
}
