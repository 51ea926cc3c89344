/** The message the generated codecs write to and read from: bit-addressed data
    sections and typed pointers, as in the Cap'n Proto encoding specification
    (structs, lists, capabilities). Offsets inside the segment are abstracted to
    a tree; the number of words is kept because the reader bounds it. */
module Wire {
  import opened Basics

  // ---- bits ----

  function Pow2(n: nat): (r: nat)
    ensures r > 0
  {
    if n == 0 then 1 else 2 * Pow2(n - 1)
  }

  function ToBits(v: nat, n: nat): (r: seq<bool>)
    ensures |r| == n
  {
    if n == 0 then [] else [v % 2 == 1] + ToBits(v / 2, n - 1)
  }

  function FromBits(b: seq<bool>): (r: nat)
    ensures r < Pow2(|b|)
  {
    if b == [] then 0 else (if b[0] then 1 else 0) + 2 * FromBits(b[1..])
  }

  lemma {:induction false} BitsRoundTrip(v: nat, n: nat)
    requires v < Pow2(n)
    ensures FromBits(ToBits(v, n)) == v
  {
    if n > 0 {
      BitsRoundTrip(v / 2, n - 1);
      assert ToBits(v, n)[1..] == ToBits(v / 2, n - 1);
    }
  }

  lemma {:induction false} ZeroBits(b: seq<bool>)
    requires forall i :: 0 <= i < |b| ==> !b[i]
    ensures FromBits(b) == 0
  {
    if b != [] {
      ZeroBits(b[1..]);
    }
  }

  /** Bit `i` of a number in two's complement, since `/` rounds down. */
  predicate BitOf(n: int, i: nat) {
    n / Pow2(i) % 2 == 1
  }

  lemma HalfFirst(v: int, p: nat)
    requires p > 0
    ensures v / 2 / p == v / (2 * p)
  {
    var q, r := v / 2 / p, v / 2 % p;
    assert v == 2 * p * q + (2 * r + v % 2) by {
      assert v / 2 == p * q + r;
      assert 2 * (p * q) == 2 * p * q;
    }
    QuotientIs(v, 2 * p, q, 2 * r + v % 2);
  }

  lemma QuotientIs(v: int, d: nat, q: int, r: int)
    requires v == d * q + r && 0 <= r < d
    ensures v / d == q
  {
    var q', r' := v / d, v % d;
    assert v == d * q' + r';
    assert q' < q ==> d * (q' + 1) <= d * q;
    assert q < q' ==> d * (q + 1) <= d * q';
  }

  predicate BitByHalving(n: int, i: nat)
    decreases i
  {
    if i == 0 then n % 2 == 1 else BitByHalving(n / 2, i - 1)
  }

  lemma {:induction false} HalvingFindsBit(n: int, i: nat)
    ensures BitByHalving(n, i) <==> BitOf(n, i)
    decreases i
  {
    if i > 0 {
      HalvingFindsBit(n / 2, i - 1);
      HalfFirst(n, Pow2(i - 1));
    }
  }

  lemma {:induction false} HalvingWraps(v: int, n: nat, i: nat)
    requires i < n
    ensures BitByHalving(v + Pow2(n), i) <==> BitByHalving(v, i)
    decreases i
  {
    assert Pow2(n) == 2 * Pow2(n - 1);
    if i > 0 {
      HalvingWraps(v / 2, n - 1, i - 1);
      assert (v + Pow2(n)) / 2 == v / 2 + Pow2(n - 1);
    }
  }

  lemma {:induction false} HalvingIsToBits(v: nat, n: nat, i: nat)
    requires i < n
    ensures ToBits(v, n)[i] <==> BitByHalving(v, i)
  {
    if i > 0 {
      HalvingIsToBits(v / 2, n - 1, i - 1);
    }
  }

  /** Bits come lowest first, and adding the whole range changes none of them. */
  lemma ToBitsAt(n: int, raw: nat, w: nat, i: nat)
    requires i < w && raw in {n, n + Pow2(w)}
    ensures ToBits(raw, w)[i] <==> BitOf(n, i)
  {
    HalvingIsToBits(raw, w, i);
    HalvingWraps(n, w, i);
    HalvingFindsBit(n, i);
  }

  // ---- messages ----

  datatype Obj = Obj(data: seq<bool>, ptrs: seq<Ptr>)

  datatype Ptr = Null | StructPtr(obj: Obj) | ListPtr(list: WireList) | CapPtr(index: nat)

  /** `Composite` carries the payload length of the list pointer next to the
      element count of the tag word: the reader looks at both. */
  datatype WireList =
    | Bools(bits: seq<bool>)
    | Bytes(bytes: seq<nat>)
    | Numbers(width: nat, numbers: seq<nat>)
    | Pointers(ptrs: seq<Ptr>)
    | Composite(payloadWords: nat, elems: seq<Obj>)

  function ZeroObj(dw: nat, pc: nat): Obj {
    Obj(seq(dw * 64, _ => false), seq(pc, _ => Null))
  }

  /** The runtime calls an encoder makes, nested as its allocations nest. */
  datatype Op =
    | SetBits(pos: nat, bits: seq<bool>)
    | SetLeaf(slot: nat, ptr: Ptr)
    | InitStruct(slot: nat, dw: nat, pc: nat, body: seq<Op>)
    | InitStructList(slot: nat, dw: nat, pc: nat, items: seq<Item>)

  datatype Item = Item(ops: seq<Op>)

  function Build(dw: nat, pc: nat, ops: seq<Op>): Obj
    decreases ops, 1
  {
    ApplyAll(ZeroObj(dw, pc), ops)
  }

  function ApplyAll(o: Obj, ops: seq<Op>): Obj
    decreases ops, 0
  {
    if ops == [] then o else ApplyAll(Apply(o, ops[0]), ops[1..])
  }

  function Apply(o: Obj, op: Op): Obj
    decreases op, 1
  {
    if op.SetBits? then
      if op.pos + |op.bits| <= |o.data|
      then o.(data := o.data[..op.pos] + op.bits + o.data[op.pos + |op.bits|..]) else o
    else if op.slot < |o.ptrs| then o.(ptrs := o.ptrs[op.slot := PtrOf(op)]) else o
  }

  function PtrOf(op: Op): Ptr
    requires !op.SetBits?
    decreases op, 0
  {
    match op
    case SetLeaf(_, ptr) => ptr
    case InitStruct(_, dw, pc, body) => StructPtr(Build(dw, pc, body))
    case InitStructList(_, dw, pc, items) => ListPtr(Composite(|items| * (dw + pc), BuildItems(dw, pc, items)))
  }

  function BuildItems(dw: nat, pc: nat, items: seq<Item>): (r: seq<Obj>)
    ensures |r| == |items|
    ensures forall i :: 0 <= i < |items| ==> r[i] == Build(dw, pc, items[i].ops)
    decreases items, 0
  {
    if items == [] then [] else [Build(dw, pc, items[0].ops)] + BuildItems(dw, pc, items[1..])
  }

  // ---- slots ----

  datatype Slot = DataSlot(lo: nat, hi: nat) | PtrSlot(index: nat)

  predicate Disjoint(a: Slot, b: Slot) {
    match (a, b)
    case (DataSlot(lo, hi), DataSlot(lo', hi')) => hi <= lo' || hi' <= lo
    case (PtrSlot(i), PtrSlot(j)) => i != j
    case _ => true
  }

  predicate Fits(s: Slot, dw: nat, pc: nat) {
    match s
    case DataSlot(lo, hi) => lo <= hi <= dw * 64
    case PtrSlot(i) => i < pc
  }

  function SlotOf(op: Op): Slot {
    if op.SetBits? then DataSlot(op.pos, op.pos + |op.bits|) else PtrSlot(op.slot)
  }

  /** What a reader sees at a slot. */
  datatype Content = Bits(bits: seq<bool>) | Pointer(ptr: Ptr) | Outside

  function Peek(o: Obj, s: Slot): Content {
    match s
    case DataSlot(lo, hi) => if lo <= hi <= |o.data| then Bits(o.data[lo..hi]) else Outside
    case PtrSlot(i) => if i < |o.ptrs| then Pointer(o.ptrs[i]) else Outside
  }

  function ContentOf(op: Op): Content {
    if op.SetBits? then Bits(op.bits) else Pointer(PtrOf(op))
  }

  lemma ApplyOther(o: Obj, op: Op, s: Slot)
    requires Disjoint(SlotOf(op), s)
    ensures Peek(Apply(o, op), s) == Peek(o, s)
  {}

  lemma {:induction false} ApplyAllOther(o: Obj, ops: seq<Op>, s: Slot)
    requires forall op :: op in ops ==> Disjoint(SlotOf(op), s)
    ensures Peek(ApplyAll(o, ops), s) == Peek(o, s)
    decreases |ops|
  {
    if ops != [] {
      ApplyOther(o, ops[0], s);
      ApplyAllOther(Apply(o, ops[0]), ops[1..], s);
    }
  }

  predicate Shaped(o: Obj, dw: nat, pc: nat) {
    |o.data| == dw * 64 && |o.ptrs| == pc
  }

  lemma ApplyOwn(o: Obj, op: Op, dw: nat, pc: nat)
    requires Shaped(o, dw, pc) && Fits(SlotOf(op), dw, pc)
    ensures Peek(Apply(o, op), SlotOf(op)) == ContentOf(op) && Shaped(Apply(o, op), dw, pc)
  {}

  lemma {:induction false} ApplyAllShape(o: Obj, ops: seq<Op>, dw: nat, pc: nat)
    requires Shaped(o, dw, pc)
    ensures Shaped(ApplyAll(o, ops), dw, pc)
    decreases |ops|
  {
    if ops != [] {
      ApplyAllShape(Apply(o, ops[0]), ops[1..], dw, pc);
    }
  }

  lemma {:induction false} ApplyAllAppend(o: Obj, a: seq<Op>, b: seq<Op>)
    ensures ApplyAll(o, a + b) == ApplyAll(ApplyAll(o, a), b)
    decreases |a|
  {
    if a == [] {
      assert a + b == b;
    } else {
      assert (a + b)[1..] == a[1..] + b && (a + b)[0] == a[0];
      ApplyAllAppend(Apply(o, a[0]), a[1..], b);
    }
  }

  /** Writing one slot among disjoint others: its own write is what is read back,
      and an unwritten slot reads as the zero it was allocated with. */
  lemma SlotSurvives(dw: nat, pc: nat, before: seq<Op>, own: seq<Op>, after: seq<Op>, s: Slot)
    requires Fits(s, dw, pc) && |own| <= 1
    requires forall op :: op in before + after ==> Disjoint(SlotOf(op), s)
    requires forall op :: op in own ==> SlotOf(op) == s
    ensures Peek(Build(dw, pc, before + own + after), s)
            == if own == [] then Peek(ZeroObj(dw, pc), s) else ContentOf(own[0])
  {
    var z := ZeroObj(dw, pc);
    ApplyAllAppend(z, before + own, after);
    ApplyAllAppend(z, before, own);
    var o := ApplyAll(z, before);
    ApplyAllShape(z, before, dw, pc);
    forall op | op in before ensures Disjoint(SlotOf(op), s) { assert op in before + after; }
    forall op | op in after ensures Disjoint(SlotOf(op), s) { assert op in before + after; }
    ApplyAllOther(z, before, s);
    ApplyAllOther(ApplyAll(o, own), after, s);
    if own != [] {
      ApplyOwn(o, own[0], dw, pc);
      assert own[1..] == [];
      assert ApplyAll(o, own) == Apply(o, own[0]);
    }
  }

  // ---- size ----

  const MAX_WORDS: nat := 65536

  function OpWords(op: Op): nat
    decreases op, 0
  {
    match op
    case SetBits(_, _) => 0
    case SetLeaf(_, ptr) => LeafWords(ptr)
    case InitStruct(_, dw, pc, body) => dw + pc + OpsWords(body)
    case InitStructList(_, dw, pc, items) => 1 + |items| * (dw + pc) + ItemsWords(items)
  }

  function OpsWords(ops: seq<Op>): nat
    decreases ops, 0
  {
    if ops == [] then 0 else OpWords(ops[0]) + OpsWords(ops[1..])
  }

  function ItemsWords(items: seq<Item>): nat
    decreases items, 0
  {
    if items == [] then 0 else OpsWords(items[0].ops) + ItemsWords(items[1..])
  }

  function LeafWords(p: Ptr): nat
    decreases p, 0
  {
    match p
    case ListPtr(Bools(b)) => (|b| + 63) / 64
    case ListPtr(Bytes(b)) => (|b| + 7) / 8
    case ListPtr(Numbers(w, ns)) => (|ns| * w + 63) / 64
    case ListPtr(Pointers(ps)) => |ps| + PtrsWords(ps)
    case _ => 0
  }

  function PtrsWords(ps: seq<Ptr>): nat
    decreases ps, 0
  {
    if ps == [] then 0 else LeafWords(ps[0]) + PtrsWords(ps[1..])
  }

  /** A finished message: the segment length and its root struct. */
  datatype Message = Message(words: nat, root: Obj)

  function Finish(dw: nat, pc: nat, ops: seq<Op>): Message {
    Message(1 + dw + pc + OpsWords(ops), Build(dw, pc, ops))
  }
}
