/** Conversions to MP3 as interleaved steps over one reservation ledger, one
    object store and one library. Byte counts are `u64`; the ledger column is `i64`. */
module Convert {
  import opened Basics
  import opened Keys

  const U64_MAX: nat := 0xFFFF_FFFF_FFFF_FFFF
  const I64_MAX: nat := 0x7FFF_FFFF_FFFF_FFFF

  type ConvId = nat     // owning job and work directory: distinct per conversion
  type BookId = nat

  function SatAdd(a: nat, b: nat): nat { if a + b > U64_MAX then U64_MAX else a + b }
  function SatSub(a: nat, b: nat): nat { if a < b then 0 else a - b }
  function Min(a: nat, b: nat): nat { if a < b then a else b }

  // ---- keys ----

  predicate Convertible(key: Key) {
    Lower(Ext(key)) in {"m4b", "m4a"}
  }

  /** `swap_audio_extension(key, "mp3")`. */
  function Mp3Key(key: Key): Key {
    (if AfterLast(key, '.') > 0 then key[..AfterLast(key, '.')] else key + ".") + "mp3"
  }

  /** Audio in an MP4 container is converted, however its extension is written. */
  lemma ConvertibleExactlyWhen(stem: string, ext: string)
    requires '.' !in ext
    ensures Convertible(stem + "." + ext) <==> Lower(ext) == "m4b" || Lower(ext) == "m4a"
  {
    StemAppend(stem, ext);
  }

  /** No conversion ever writes a key that another conversion would delete. */
  lemma Mp3IsNotConvertible(key: Key)
    ensures Ext(Mp3Key(key)) == "mp3" && !Convertible(Mp3Key(key))
  {
    var i := AfterLast(key, '.');
    var stem := if i > 0 then key[..i - 1] else key;
    assert Mp3Key(key) == stem + "." + "mp3";
    StemAppend(stem, "mp3");
    assert Lower("mp3")[2] == '3';
  }

  /** Two keys share their MP3 exactly when they differ in the extension alone. */
  lemma Mp3ClashExactlyWhen(a: Key, b: Key)
    ensures Mp3Key(a) == Mp3Key(b) <==> Stem(a) == Stem(b)
  {
    assert Mp3Key(a) == Stem(a) + ".mp3" && Mp3Key(b) == Stem(b) + ".mp3";
    assert Mp3Key(a)[..|Mp3Key(a)| - 4] == Stem(a) && Mp3Key(b)[..|Mp3Key(b)| - 4] == Stem(b);
  }

  // ---- one conversion ----

  datatype Pc =
    | Opening
    | Reserving
    | Copying
    | ReservingOutput
    | Encoding
    | Putting
    | Recording
    | Deleting
    | Cleaning
    | Dropping
    | Releasing
    | Done

  datatype Conv = Conv(
    book: BookId, source: Key, owned: bool, limit: Option<nat>,
    pc: Pc, size: nat, copied: nat, allowance: nat,
    inBytes: nat, outBytes: nat, reserved: bool)

  function Quota(c: Conv): nat {
    if c.limit.Some? then c.limit.value else U64_MAX
  }

  function Disk(c: Conv): nat {
    c.inBytes + c.outBytes
  }

  function FirstReserve(c: Conv): nat {
    if c.size > 0 then Min(Min(2 * c.size, U64_MAX), Quota(c)) else Quota(c)
  }

  /** How many bytes the copy loop lets through: the advertised size, if any, and the quota. */
  function CopyBound(c: Conv): nat {
    if c.size > 0 then Min(c.size, Quota(c)) else Quota(c)
  }

  /** `encoder_output_allowance`; `None` is the error. */
  function Allowance(copied: nat, quota: nat, unlimited: bool): Option<nat> {
    if unlimited then Some(U64_MAX)
    else if SatSub(quota, copied) == 0 then None
    else Some(SatSub(quota, copied))
  }

  /** What a conversion does by itself, with the outcome the environment chose. */
  datatype Action =
    | Open(size: nat)
    | Chunk(n: nat)
    | PartialChunk(n: nat)                       // a write that failed midway
    | Eof
    | EncoderWrites(total: nat)
    | EncoderEnds
    | Abort                                      // an error or a cancellation
    | Clean(gone: bool, leftIn: nat, leftOut: nat)
    | Drop(leftIn: nat, leftOut: nat)            // the armed scratch guard
    | Crash

  predicate CanAct(c: Conv, a: Action) {
    match a
    case Open(size) => c.pc == Opening && size <= U64_MAX
    case Chunk(n) => c.pc == Copying && 0 < n
    case PartialChunk(n) => c.pc == Copying && SatAdd(c.copied, n) <= CopyBound(c)
    case Eof => c.pc == Copying
    case EncoderWrites(_) => c.pc == Encoding
    case EncoderEnds => c.pc == Encoding
    case Abort => c.pc in {Opening, Reserving, Copying, ReservingOutput, Encoding, Putting, Recording}
    case Clean(gone, leftIn, leftOut) =>
      c.pc == Cleaning && leftIn <= c.inBytes && leftOut <= c.outBytes && (gone ==> leftIn == leftOut == 0)
    case Drop(leftIn, leftOut) => c.pc == Dropping && leftIn <= c.inBytes && leftOut <= c.outBytes
    case Crash => true
  }

  function Act(c: Conv, a: Action): Conv {
    match a
    case Open(size) => c.(size := size, pc := if size > Quota(c) then Cleaning else Reserving)
    case Chunk(n) =>
      var next := SatAdd(c.copied, n);
      if next > CopyBound(c) then c.(pc := Cleaning) else c.(copied := next, inBytes := next)
    case PartialChunk(n) => c.(inBytes := SatAdd(c.copied, n), pc := Cleaning)
    case Eof =>
      var a := Allowance(c.copied, Quota(c), c.limit.None?);
      if (c.size > 0 && c.copied != c.size) || c.copied == 0 || a.None? then c.(pc := Cleaning)
      else c.(allowance := a.value, pc := ReservingOutput)
    case EncoderWrites(total) => c.(outBytes := total)
    case EncoderEnds => c.(pc := if c.outBytes > c.allowance then Cleaning else Putting)
    case Abort => c.(pc := Cleaning)
    case Clean(gone, leftIn, leftOut) =>
      c.(inBytes := leftIn, outBytes := leftOut,
         pc := if !gone then Dropping else if c.reserved then Releasing else Done)
    case Drop(leftIn, leftOut) => c.(inBytes := leftIn, outBytes := leftOut, pc := Done)
    case Crash => c.(pc := Done)
  }

  // ---- the shared state ----

  /** The extension tests and key rewriting of `convert_book`. */
  datatype Naming = Naming(convertible: Key -> bool, mp3: Key -> Key)

  const NAMING := Naming(Convertible, Mp3Key)

  ghost predicate NamingOk(n: Naming) {
    forall key :: !n.convertible(n.mp3(key))
  }

  lemma NamingIsOk()
    ensures NamingOk(NAMING)
  {
    forall key ensures !NAMING.convertible(NAMING.mp3(key)) { Mp3IsNotConvertible(key); }
  }

  datatype State = State(
    naming: Naming,
    convs: map<ConvId, Conv>,
    ledger: map<ConvId, nat>,
    objects: set<Key>,
    library: map<BookId, Key>)

  function Row(s: State, id: ConvId): nat {
    if id in s.ledger then s.ledger[id] else 0
  }

  ghost function Sum(m: map<ConvId, nat>): nat
    decreases |m|
  {
    if m == map[] then 0
    else
      var k :| k in m;
      m[k] + Sum(m - {k})
  }

  /** `reserve_job_temp_path`: admitted when the other rows plus the new size fit. */
  ghost predicate Admits(s: State, id: ConvId, bytes: nat, quota: nat) {
    SatAdd(SatSub(Min(Sum(s.ledger), U64_MAX), Row(s, id)), bytes) <= quota
  }

  datatype Event =
    | Begin(id: ConvId, book: BookId, owned: bool, limit: Option<nat>)
    | Shortcut(book: BookId)                     // the MP3 is already stored
    | Move(id: ConvId, action: Action)
    | Reserve(id: ConvId)
    | ReserveOutput(id: ConvId)
    | Put(id: ConvId)
    | Record(id: ConvId)
    | DeleteSource(id: ConvId, works: bool)
    | Release(id: ConvId, works: bool)

  predicate At(s: State, id: ConvId, pc: Pc) {
    id in s.convs && s.convs[id].pc == pc
  }

  predicate Enabled(s: State, e: Event) {
    match e
    case Begin(id, book, _, limit) =>
      && id !in s.convs && id !in s.ledger && (limit.Some? ==> limit.value <= U64_MAX)
      && book in s.library && s.naming.convertible(s.library[book])
    case Shortcut(book) =>
      book in s.library && s.naming.convertible(s.library[book]) && s.naming.mp3(s.library[book]) in s.objects
    case Move(id, a) => id in s.convs && CanAct(s.convs[id], a)
    case Reserve(id) => At(s, id, Reserving)
    case ReserveOutput(id) => At(s, id, ReservingOutput)
    case Put(id) => At(s, id, Putting)
    case Record(id) => At(s, id, Recording)
    case DeleteSource(id, _) => At(s, id, Deleting)
    case Release(id, _) => At(s, id, Releasing)
  }

  function With(s: State, id: ConvId, c: Conv): State {
    s.(convs := s.convs[id := c])
  }

  /** A reservation call: the row is rewritten when admitted, the conversion fails otherwise. */
  ghost function Reserved(s: State, id: ConvId, bytes: nat, next: Pc): State
    requires id in s.convs
  {
    var c := s.convs[id];
    if Admits(s, id, bytes, Quota(c))
    then With(s.(ledger := s.ledger[id := Min(bytes, I64_MAX)]), id, c.(reserved := true, pc := next))
    else With(s, id, c.(pc := Cleaning))
  }

  ghost function Step(s: State, e: Event): State
    requires Enabled(s, e)
  {
    match e
    case Begin(id, book, owned, limit) =>
      With(s, id, Conv(book, s.library[book], owned, limit, Opening, 0, 0, 0, 0, 0, false))
    case Shortcut(book) => s.(library := s.library[book := s.naming.mp3(s.library[book])])
    case Move(id, a) => With(s, id, Act(s.convs[id], a))
    case Reserve(id) =>
      var c := s.convs[id];
      if c.owned then Reserved(s, id, FirstReserve(c), Copying) else With(s, id, c.(pc := Copying))
    case ReserveOutput(id) =>
      var c := s.convs[id];
      if c.limit.Some? && c.owned then Reserved(s, id, SatAdd(c.copied, c.allowance), Encoding)
      else With(s, id, c.(pc := Encoding))
    case Put(id) =>
      var c := s.convs[id];
      With(s.(objects := s.objects + {s.naming.mp3(c.source)}), id, c.(pc := Recording))
    case Record(id) =>
      var c := s.convs[id];
      With(s.(library := s.library[c.book := s.naming.mp3(c.source)]), id, c.(pc := Deleting))
    case DeleteSource(id, works) =>
      var c := s.convs[id];
      With(s.(objects := if works then s.objects - {c.source} else s.objects), id, c.(pc := Cleaning))
    case Release(id, works) =>
      With(s.(ledger := if works then s.ledger - {id} else s.ledger), id, s.convs[id].(pc := Done))
  }

  ghost predicate ValidRun(s: State, es: seq<Event>)
    decreases |es|
  {
    es == [] || (Enabled(s, es[0]) && ValidRun(Step(s, es[0]), es[1..]))
  }

  ghost function Run(s: State, es: seq<Event>): State
    requires ValidRun(s, es)
    decreases |es|
  {
    if es == [] then s else Run(Step(s, es[0]), es[1..])
  }

  // ---- sums over the ledger ----

  lemma {:induction false} SumSplit(m: map<ConvId, nat>, k: ConvId)
    requires k in m
    ensures Sum(m) == m[k] + Sum(m - {k})
    decreases |m|
  {
    assert m != map[];
    var j :| j in m && Sum(m) == m[j] + Sum(m - {j});
    if j != k {
      SumSplit(m - {j}, k);
      SumSplit(m - {k}, j);
      assert m - {j} - {k} == m - {k} - {j};
    }
  }

  lemma SumUpdate(m: map<ConvId, nat>, k: ConvId, v: nat)
    ensures Sum(m[k := v]) == Sum(m) - (if k in m then m[k] else 0) + v
  {
    SumSplit(m[k := v], k);
    if k in m {
      SumSplit(m, k);
      assert m[k := v] - {k} == m - {k};
    } else {
      assert m[k := v] - {k} == m;
    }
  }

  lemma {:induction false} SumMonotone(a: map<ConvId, nat>, b: map<ConvId, nat>)
    requires forall k :: k in a && a[k] > 0 ==> k in b && a[k] <= b[k]
    ensures Sum(a) <= Sum(b)
    decreases |a|
  {
    if a != map[] {
      var k :| k in a && Sum(a) == a[k] + Sum(a - {k});
      if k in b {
        SumSplit(b, k);
        SumMonotone(a - {k}, b - {k});
      } else {
        SumMonotone(a - {k}, b);
      }
    }
  }

  // ---- the shared quota ----

  /** The encoder stays within the allowance it was given. */
  predicate Obeys(c: Conv, a: Action) {
    a.EncoderWrites? ==> a.total <= c.allowance
  }

  /** Every conversion belongs to a job, was given the quota `q`, and runs an obedient encoder. */
  predicate Good(s: State, e: Event, q: nat) {
    && (e.Begin? ==> e.owned && e.limit == Some(q))
    && (e.Move? && e.id in s.convs ==> Obeys(s.convs[e.id], e.action))
  }

  /** A conversion stays within its ledger row `row`. */
  predicate ConvWithin(c: Conv, row: nat, q: nat) {
    && c.owned && c.limit == Some(q)
    && Disk(c) <= row
    && (c.pc in {Opening, Reserving, Copying, ReservingOutput, Encoding} ==> c.inBytes == c.copied)
    && (c.pc in {Opening, Reserving} ==> c.copied == 0)
    && (c.pc in {Opening, Reserving, Copying, ReservingOutput} ==> c.outBytes == 0)
    && (c.pc in {Reserving, Copying} ==> c.size <= q)
    && (c.pc == Copying ==> c.copied <= CopyBound(c) <= row)
    && (c.pc == ReservingOutput ==> c.copied + c.allowance == q)
    && (c.pc == Encoding ==> c.copied + c.allowance == q == row)
    && (c.pc == Releasing ==> Disk(c) == 0)
  }

  lemma ActWithin(c: Conv, a: Action, row: nat, q: nat)
    requires ConvWithin(c, row, q) && CanAct(c, a) && Obeys(c, a) && q <= I64_MAX
    ensures ConvWithin(Act(c, a), row, q)
  {}

  ghost predicate Within(s: State, q: nat) {
    && s.ledger.Keys <= s.convs.Keys
    && Sum(s.ledger) <= q
    && (forall id :: id in s.convs ==> ConvWithin(s.convs[id], Row(s, id), q))
  }

  /** Only one conversion and its own row changed. */
  lemma WithinLocally(s: State, s': State, q: nat, id: ConvId)
    requires Within(s, q) && id in s'.convs && s'.convs == s.convs[id := s'.convs[id]]
    requires forall k :: k != id ==> (k in s'.ledger <==> k in s.ledger) && Row(s', k) == Row(s, k)
    requires Sum(s'.ledger) <= q && ConvWithin(s'.convs[id], Row(s', id), q)
    ensures Within(s', q)
  {}

  /** An admitted reservation keeps the ledger within the quota. */
  lemma AdmittedFits(ledger: map<ConvId, nat>, id: ConvId, row: nat, bytes: nat, q: nat)
    requires Sum(ledger) <= q <= I64_MAX && row == if id in ledger then ledger[id] else 0
    requires SatAdd(SatSub(Min(Sum(ledger), U64_MAX), row), bytes) <= q
    ensures bytes <= q && Min(bytes, I64_MAX) == bytes && Sum(ledger[id := bytes]) <= q
  {
    SumUpdate(ledger, id, bytes);
    if id in ledger {
      SumSplit(ledger, id);
    }
  }

  lemma AdmittedWithin(s: State, q: nat, id: ConvId, bytes: nat, next: Pc)
    requires Within(s, q) && q <= I64_MAX && id in s.convs && Admits(s, id, bytes, Quota(s.convs[id]))
    requires bytes <= q ==> ConvWithin(s.convs[id].(reserved := true, pc := next), bytes, q)
    ensures Within(Reserved(s, id, bytes, next), q)
  {
    var c := s.convs[id];
    assert ConvWithin(c, Row(s, id), q);
    AdmittedFits(s.ledger, id, Row(s, id), bytes, q);
    var s' := With(s.(ledger := s.ledger[id := bytes]), id, c.(reserved := true, pc := next));
    WithinLocally(s, s', q, id);
  }

  lemma ReservedWithin(s: State, q: nat, id: ConvId, bytes: nat, next: Pc)
    requires Within(s, q) && q <= I64_MAX && id in s.convs
    requires bytes <= q ==> ConvWithin(s.convs[id].(reserved := true, pc := next), bytes, q)
    ensures Within(Reserved(s, id, bytes, next), q)
  {
    if Admits(s, id, bytes, Quota(s.convs[id])) {
      AdmittedWithin(s, q, id, bytes, next);
    } else {
      assert ConvWithin(s.convs[id].(pc := Cleaning), Row(s, id), q);
      WithinLocally(s, With(s, id, s.convs[id].(pc := Cleaning)), q, id);
    }
  }

  lemma FirstReserveFits(c: Conv, row: nat, q: nat)
    requires ConvWithin(c, row, q) && q <= I64_MAX && c.pc == Reserving
    ensures FirstReserve(c) <= q && ConvWithin(c.(reserved := true, pc := Copying), FirstReserve(c), q)
  {}

  lemma OutputReserveFits(c: Conv, row: nat, q: nat)
    requires ConvWithin(c, row, q) && q <= I64_MAX && c.pc == ReservingOutput
    ensures SatAdd(c.copied, c.allowance) == q && ConvWithin(c.(reserved := true, pc := Encoding), q, q)
  {}

  lemma ReserveWithin(s: State, q: nat, e: Event)
    requires Within(s, q) && q <= I64_MAX && Enabled(s, e) && (e.Reserve? || e.ReserveOutput?)
    ensures Within(Step(s, e), q)
  {
    var c := s.convs[e.id];
    if e.Reserve? {
      FirstReserveFits(c, Row(s, e.id), q);
      ReservedWithin(s, q, e.id, FirstReserve(c), Copying);
    } else {
      OutputReserveFits(c, Row(s, e.id), q);
      ReservedWithin(s, q, e.id, q, Encoding);
    }
  }

  lemma ReleaseWithin(s: State, q: nat, e: Event)
    requires Within(s, q) && Enabled(s, e) && e.Release?
    ensures Within(Step(s, e), q)
  {
    assert ConvWithin(s.convs[e.id], Row(s, e.id), q);
    if e.id in s.ledger {
      SumSplit(s.ledger, e.id);
    } else {
      assert s.ledger - {e.id} == s.ledger;
    }
    WithinLocally(s, Step(s, e), q, e.id);
  }

  lemma StepWithin(s: State, q: nat, e: Event)
    requires Within(s, q) && q <= I64_MAX && Enabled(s, e) && Good(s, e, q)
    ensures Within(Step(s, e), q)
  {
    match e
    case Begin(id, _, _, _) => WithinLocally(s, Step(s, e), q, id);
    case Shortcut(_) =>
    case Move(id, a) =>
      ActWithin(s.convs[id], a, Row(s, id), q);
      WithinLocally(s, Step(s, e), q, id);
    case Reserve(_) => ReserveWithin(s, q, e);
    case ReserveOutput(_) => ReserveWithin(s, q, e);
    case Release(_, _) => ReleaseWithin(s, q, e);
    case Put(id) => WithinLocally(s, Step(s, e), q, id);
    case Record(id) => WithinLocally(s, Step(s, e), q, id);
    case DeleteSource(id, _) => WithinLocally(s, Step(s, e), q, id);
  }

  ghost predicate GoodRun(s: State, es: seq<Event>, q: nat)
    requires ValidRun(s, es)
    decreases |es|
  {
    es == [] || (Good(s, es[0], q) && GoodRun(Step(s, es[0]), es[1..], q))
  }

  function Usage(s: State): map<ConvId, nat> {
    map id | id in s.convs :: Disk(s.convs[id])
  }

  /** Over every interleaving, crashes and failed clean-ups included: each
      conversion's scratch bytes stay within its own reservation, so the scratch
      of all of them together stays within the quota. */
  lemma {:induction false} ScratchWithinQuota(s: State, es: seq<Event>, q: nat)
    requires Within(s, q) && q <= I64_MAX && ValidRun(s, es) && GoodRun(s, es, q)
    ensures var s' := Run(s, es);
            && (forall id :: id in s'.convs ==> Disk(s'.convs[id]) <= Row(s', id))
            && Sum(Usage(s')) <= Sum(s'.ledger) <= q
    decreases |es|
  {
    if es == [] {
      SumMonotone(Usage(s), s.ledger);
    } else {
      StepWithin(s, q, es[0]);
      ScratchWithinQuota(Step(s, es[0]), es[1..], q);
    }
  }

  /** The second reservation takes the whole quota, so while one conversion
      encodes no other conversion can hold a byte of scratch. */
  lemma EncodingIsExclusive(s: State, q: nat, id: ConvId, other: ConvId)
    requires Within(s, q) && At(s, id, Encoding) && other in s.convs && other != id
    ensures Row(s, other) == 0 && Disk(s.convs[other]) == 0
  {
    assert ConvWithin(s.convs[id], Row(s, id), q) && ConvWithin(s.convs[other], Row(s, other), q);
    if other in s.ledger {
      SumSplit(s.ledger, other);
      if id in s.ledger {
        SumSplit(s.ledger - {other}, id);
      }
    }
  }

  /** Past the `i64` range the stored row is clamped, and a stream without an
      advertised size outgrows it. So the bound holds exactly up to `I64_MAX`. */
  lemma ClampedRowIsExceeded(s: State, id: ConvId, book: BookId, q: nat)
    requires I64_MAX < q <= U64_MAX && s.ledger == map[]
    requires Enabled(s, Begin(id, book, true, Some(q)))
    ensures var es := [Begin(id, book, true, Some(q))] + ([Move(id, Open(0))] + ([Reserve(id)] + ([Move(id, Chunk(I64_MAX + 1))] + [])));
            && ValidRun(s, es) && GoodRun(s, es, q)
            && id in Run(s, es).convs && Disk(Run(s, es).convs[id]) > Row(Run(s, es), id)
  {
    var s1 := Step(s, Begin(id, book, true, Some(q)));
    var s2 := Step(s1, Move(id, Open(0)));
    ClampedReservation(s2, id, q);
    var s3 := Step(s2, Reserve(id));
    var last := Move(id, Chunk(I64_MAX + 1));
    RunCons(s3, last, [], q);
    RunCons(s2, Reserve(id), [last] + [], q);
    RunCons(s1, Move(id, Open(0)), [Reserve(id)] + ([last] + []), q);
    RunCons(s, Begin(id, book, true, Some(q)), [Move(id, Open(0))] + ([Reserve(id)] + ([last] + [])), q);
  }

  lemma ClampedReservation(s: State, id: ConvId, q: nat)
    requires I64_MAX < q <= U64_MAX && s.ledger == map[] && At(s, id, Reserving)
    requires s.convs[id].owned && s.convs[id].limit == Some(q) && s.convs[id].size == 0
    ensures var s' := Step(s, Reserve(id));
            && s'.ledger == map[id := I64_MAX] && s'.convs == s.convs[id := s.convs[id].(reserved := true, pc := Copying)]
  {
    assert Admits(s, id, q, q);
  }

  lemma RunCons(s: State, e: Event, es: seq<Event>, q: nat)
    requires Enabled(s, e) && ValidRun(Step(s, e), es)
    ensures ValidRun(s, [e] + es) && Run(s, [e] + es) == Run(Step(s, e), es)
    ensures GoodRun(s, [e] + es, q) <==> Good(s, e, q) && GoodRun(Step(s, e), es, q)
  {
    assert ([e] + es)[1..] == es;
  }

  // ---- objects and library rows ----

  /** What the byte counts of a conversion say at each step. */
  predicate CountsSafe(c: Conv) {
    && (c.pc in {ReservingOutput, Encoding, Putting, Recording, Deleting} ==>
          && 0 < c.copied && (c.size > 0 ==> c.copied == c.size)
          && (c.limit.Some? ==> c.copied + c.allowance <= c.limit.value))
    && (c.pc in {Putting, Recording, Deleting} ==> c.outBytes <= c.allowance)
    && (c.pc in {Opening, Reserving, Copying} && c.limit.Some? ==> c.copied <= c.limit.value)
    && (c.pc == Releasing ==> Disk(c) == 0)
  }

  lemma ActCounts(c: Conv, a: Action)
    requires CountsSafe(c) && CanAct(c, a)
    ensures CountsSafe(Act(c, a))
    ensures Act(c, a).book == c.book && Act(c, a).source == c.source && Act(c, a).pc !in {Recording, Deleting}
  {}

  /** What the keys of a conversion say at each step; with `apart`, no two rows
      share a convertible key. */
  predicate KeysSafe(s: State, c: Conv, apart: bool) {
    && s.naming.convertible(c.source)
    && c.book in s.library
    && (c.pc in {Recording, Deleting} ==> s.naming.mp3(c.source) in s.objects)
    && (c.pc == Deleting ==> !s.naming.convertible(s.library[c.book]))
    && (apart ==> forall b :: b in s.library && b != c.book ==> s.library[b] != c.source)
  }

  /** No two rows name one convertible object. */
  predicate Unshared(s: State) {
    forall b, b' :: b in s.library && b' in s.library && b != b' && s.naming.convertible(s.library[b])
      ==> s.library[b] != s.library[b']
  }

  /** Every library row names a stored object. */
  predicate Intact(s: State) {
    forall b :: b in s.library ==> s.library[b] in s.objects
  }

  /** Rows off their source are stored whatever the library looks like; all rows are when the sources are apart. */
  ghost predicate Safe(s: State, apart: bool) {
    && NamingOk(s.naming)
    && (forall b :: b in s.library && (apart || !s.naming.convertible(s.library[b])) ==> s.library[b] in s.objects)
    && (apart ==> Unshared(s))
    && (forall id :: id in s.convs ==> CountsSafe(s.convs[id]) && KeysSafe(s, s.convs[id], apart))
  }

  /** A step that touches neither objects nor library rows. */
  lemma SafeMoved(s: State, s': State, id: ConvId, apart: bool)
    requires Safe(s, apart) && id in s'.convs && s'.convs == s.convs[id := s'.convs[id]]
    requires s'.naming == s.naming && s'.objects == s.objects && s'.library == s.library
    requires CountsSafe(s'.convs[id]) && KeysSafe(s, s'.convs[id], apart)
    ensures Safe(s', apart)
  {}

  /** A reservation call moves the conversion to its next step or to its clean-up. */
  lemma ReserveMoves(s: State, e: Event)
    requires Enabled(s, e) && (e.Reserve? || e.ReserveOutput?)
    ensures var s' := Step(s, e);
            && s'.naming == s.naming && s'.objects == s.objects && s'.library == s.library
            && e.id in s'.convs && s'.convs == s.convs[e.id := s'.convs[e.id]]
            && (exists reserved, next {:trigger s.convs[e.id].(reserved := reserved, pc := next)} ::
                  && s'.convs[e.id] == s.convs[e.id].(reserved := reserved, pc := next)
                  && next in {Cleaning, if e.Reserve? then Copying else Encoding})
  {}

  lemma ReserveSafe(s: State, e: Event, apart: bool)
    requires Safe(s, apart) && Enabled(s, e) && (e.Reserve? || e.ReserveOutput?)
    ensures Safe(Step(s, e), apart)
  {
    ReserveMoves(s, e);
    SafeMoved(s, Step(s, e), e.id, apart);
  }

  lemma PutSafe(s: State, e: Event, apart: bool)
    requires Safe(s, apart) && Enabled(s, e) && e.Put?
    ensures Safe(Step(s, e), apart)
  {}

  /** Recording an MP3 key, by a conversion or by the existing-MP3 shortcut. */
  lemma RecordSafe(s: State, e: Event, apart: bool)
    requires Safe(s, apart) && Enabled(s, e) && (e.Record? || e.Shortcut?)
    ensures Safe(Step(s, e), apart)
  {
    var s' := Step(s, e);
    var book := if e.Record? then s.convs[e.id].book else e.book;
    var key := if e.Record? then s.convs[e.id].source else s.library[e.book];
    forall k | k in s'.convs
      ensures CountsSafe(s'.convs[k]) && KeysSafe(s', s'.convs[k], apart)
    {
      RecordKeysSafe(s, s', s.convs[k], book, s.naming.mp3(key), apart);
    }
  }

  lemma RecordKeysSafe(s: State, s': State, c: Conv, book: BookId, mp3: Key, apart: bool)
    requires KeysSafe(s, c, apart) && s'.naming == s.naming && s'.library == s.library[book := mp3] && s'.objects == s.objects
    requires !s.naming.convertible(mp3)
    ensures KeysSafe(s', c, apart)
    ensures c.book == book && s.naming.mp3(c.source) in s.objects ==> KeysSafe(s', c.(pc := Deleting), apart)
  {}

  lemma DeleteSafe(s: State, e: Event, apart: bool)
    requires Safe(s, apart) && Enabled(s, e) && e.DeleteSource?
    ensures Safe(Step(s, e), apart)
  {
    var s' := Step(s, e);
    forall k | k in s'.convs
      ensures CountsSafe(s'.convs[k]) && KeysSafe(s', s'.convs[k], apart)
    {
      assert KeysSafe(s, s.convs[k], apart) && KeysSafe(s, s.convs[e.id], apart);
    }
  }

  lemma StepSafe(s: State, e: Event, apart: bool)
    requires Safe(s, apart) && Enabled(s, e)
    ensures Safe(Step(s, e), apart)
  {
    match e
    case Begin(id, _, _, _) => SafeMoved(s, Step(s, e), id, apart);
    case Shortcut(_) => RecordSafe(s, e, apart);
    case Move(id, a) =>
      ActCounts(s.convs[id], a);
      SafeMoved(s, Step(s, e), id, apart);
    case Reserve(_) => ReserveSafe(s, e, apart);
    case ReserveOutput(_) => ReserveSafe(s, e, apart);
    case Put(_) => PutSafe(s, e, apart);
    case Record(_) => RecordSafe(s, e, apart);
    case DeleteSource(_, _) => DeleteSafe(s, e, apart);
    case Release(id, _) => SafeMoved(s, Step(s, e), id, apart);
  }

  lemma {:induction false} RunSafe(s: State, es: seq<Event>, apart: bool)
    requires Safe(s, apart) && ValidRun(s, es)
    ensures Safe(Run(s, es), apart)
    decreases |es|
  {
    if es != [] {
      StepSafe(s, es[0], apart);
      RunSafe(Step(s, es[0]), es[1..], apart);
    }
  }

  /** Before any conversion, with every library key stored. */
  ghost predicate Initial(s: State) {
    s.naming == NAMING && s.convs == map[] && Intact(s)
  }

  lemma InitialRunSafe(s: State, es: seq<Event>)
    requires Initial(s) && ValidRun(s, es)
    ensures Safe(Run(s, es), Unshared(s))
  {
    NamingIsOk();
    RunSafe(s, es, Unshared(s));
  }

  /** A publication happens only for a non-empty input of the advertised length
      whose bytes and output fit a configured quota together. */
  lemma PublishIsJustified(s: State, es: seq<Event>, id: ConvId)
    requires Initial(s) && ValidRun(s, es) && At(Run(s, es), id, Putting)
    ensures var c := Run(s, es).convs[id];
            && 0 < c.copied && (c.size > 0 ==> c.copied == c.size)
            && (c.limit.Some? ==> c.copied + c.outBytes <= c.limit.value)
  {
    InitialRunSafe(s, es);
    assert CountsSafe(Run(s, es).convs[id]);
  }

  /** The source object is removed only after the MP3 is stored and the library
      row moved off the source. */
  lemma SourceDeletedLast(s: State, es: seq<Event>, id: ConvId)
    requires Initial(s) && ValidRun(s, es) && At(Run(s, es), id, Deleting)
    ensures var s' := Run(s, es);
            var c := s'.convs[id];
            && s'.naming.mp3(c.source) in s'.objects
            && c.book in s'.library && s'.library[c.book] != c.source && s'.library[c.book] in s'.objects
  {
    InitialRunSafe(s, es);
    assert KeysSafe(Run(s, es), Run(s, es).convs[id], Unshared(s));
  }

  /** A row leaves the ledger only when its conversion has no scratch left. */
  lemma ReleasedOnlyWhenGone(s: State, es: seq<Event>, e: Event, id: ConvId)
    requires Initial(s) && ValidRun(s, es) && Enabled(Run(s, es), e)
    requires id in Run(s, es).ledger && id !in Step(Run(s, es), e).ledger
    ensures id in Run(s, es).convs && Disk(Run(s, es).convs[id]) == 0
  {
    InitialRunSafe(s, es);
    OnlyReleaseDrops(Run(s, es), e, id);
    assert CountsSafe(Run(s, es).convs[id]);
  }

  lemma OnlyReleaseDrops(s: State, e: Event, id: ConvId)
    requires Enabled(s, e) && id in s.ledger && id !in Step(s, e).ledger
    ensures At(s, id, Releasing)
  {}

  // ---- when library rows stay intact ----

  lemma {:induction false} RunAppend(s: State, es: seq<Event>, fs: seq<Event>)
    requires ValidRun(s, es) && ValidRun(Run(s, es), fs)
    ensures ValidRun(s, es + fs) && Run(s, es + fs) == Run(Run(s, es), fs)
    decreases |es|
  {
    if es == [] {
      assert es + fs == fs;
    } else {
      RunAppend(Step(s, es[0]), es[1..], fs);
      assert (es + fs)[1..] == es[1..] + fs;
    }
  }

  lemma RunOne(s: State, e: Event)
    requires Enabled(s, e)
    ensures ValidRun(s, [e]) && Run(s, [e]) == Step(s, e)
  {
    assert ValidRun(Step(s, e), [e][1..]);
  }

  /** A new conversion of one book, without an owner or a quota. */
  function Started(book: BookId, source: Key, pc: Pc, size: nat, copied: nat, allowance: nat): Conv {
    Conv(book, source, false, None, pc, size, copied, allowance, copied, 0, false)
  }

  /** One event of that conversion. */
  lemma Moved(s: State, id: ConvId, c: Conv, es: seq<Event>, e: Event, c': Conv)
    requires ValidRun(s, es) && Run(s, es) == With(s, id, c)
    requires Enabled(With(s, id, c), e) && Step(With(s, id, c), e) == With(With(s, id, c), id, c')
    ensures ValidRun(s, es + [e]) && Run(s, es + [e]) == With(s, id, c')
  {
    RunOne(With(s, id, c), e);
    RunAppend(s, es, [e]);
    assert s.convs[id := c][id := c'] == s.convs[id := c'];
  }

  /** A one-byte object goes all the way to publication. */
  lemma Encodes(s: State, id: ConvId, book: BookId) returns (es: seq<Event>)
    requires Enabled(s, Begin(id, book, false, None))
    ensures ValidRun(s, es) && Run(s, es) == With(s, id, Started(book, s.library[book], Putting, 1, 1, U64_MAX))
  {
    var key := s.library[book];
    es := [Begin(id, book, false, None)];
    RunOne(s, es[0]);
    var c := Started(book, key, Opening, 0, 0, 0);
    Moved(s, id, c, es, Move(id, Open(1)), Started(book, key, Reserving, 1, 0, 0));
    es, c := es + [Move(id, Open(1))], Started(book, key, Reserving, 1, 0, 0);
    Moved(s, id, c, es, Reserve(id), Started(book, key, Copying, 1, 0, 0));
    es, c := es + [Reserve(id)], Started(book, key, Copying, 1, 0, 0);
    Moved(s, id, c, es, Move(id, Chunk(1)), Started(book, key, Copying, 1, 1, 0));
    es, c := es + [Move(id, Chunk(1))], Started(book, key, Copying, 1, 1, 0);
    Moved(s, id, c, es, Move(id, Eof), Started(book, key, ReservingOutput, 1, 1, U64_MAX));
    es, c := es + [Move(id, Eof)], Started(book, key, ReservingOutput, 1, 1, U64_MAX);
    Moved(s, id, c, es, ReserveOutput(id), Started(book, key, Encoding, 1, 1, U64_MAX));
    es, c := es + [ReserveOutput(id)], Started(book, key, Encoding, 1, 1, U64_MAX);
    Moved(s, id, c, es, Move(id, EncoderEnds), Started(book, key, Putting, 1, 1, U64_MAX));
    es := es + [Move(id, EncoderEnds)];
  }

  /** Publication, the library row, and the removal of the source. */
  lemma Finishes(s: State, id: ConvId)
    requires At(s, id, Putting)
    ensures var es := [Put(id), Record(id), DeleteSource(id, true)];
            var c := s.convs[id];
            && ValidRun(s, es)
            && Run(s, es).library == s.library[c.book := s.naming.mp3(c.source)]
            && c.source !in Run(s, es).objects
  {
    var s1 := Step(s, Put(id));
    var s2 := Step(s1, Record(id));
    RunOne(s, Put(id));
    RunOne(s1, Record(id));
    RunOne(s2, DeleteSource(id, true));
    RunAppend(s, [Put(id)], [Record(id)]);
    RunAppend(s, [Put(id)] + [Record(id)], [DeleteSource(id, true)]);
    assert [Put(id)] + [Record(id)] + [DeleteSource(id, true)] == [Put(id), Record(id), DeleteSource(id, true)];
  }

  /** Two rows naming one convertible object: converting one book to the end,
      without a failure anywhere, leaves the other book's row dangling. */
  lemma SharedSourceDangles(s: State, book: BookId, other: BookId) returns (es: seq<Event>)
    requires Initial(s) && book in s.library && other in s.library && book != other
    requires s.library[book] == s.library[other] && s.naming.convertible(s.library[book])
    ensures ValidRun(s, es) && other in Run(s, es).library
    ensures Run(s, es).library[other] == s.library[other] && s.library[other] !in Run(s, es).objects
  {
    var id := Unused(s.ledger.Keys);
    es := Encodes(s, id, book);
    var last := [Put(id), Record(id), DeleteSource(id, true)];
    Finishes(Run(s, es), id);
    RunAppend(s, es, last);
    es := es + last;
  }

  /** No interleaving of conversions, errors, cancellations and crashes ever
      leaves a library row naming a missing object, exactly when no two rows
      named one convertible object to begin with. */
  lemma LibraryNeverDangles(s: State)
    requires Initial(s)
    ensures (forall es :: ValidRun(s, es) ==> Intact(Run(s, es))) <==> Unshared(s)
  {
    if Unshared(s) {
      forall es | ValidRun(s, es) ensures Intact(Run(s, es)) { InitialRunSafe(s, es); }
    } else {
      var b, b' :| b in s.library && b' in s.library && b != b' && s.naming.convertible(s.library[b])
                   && s.library[b] == s.library[b'];
      var es := SharedSourceDangles(s, b, b');
    }
  }
}
