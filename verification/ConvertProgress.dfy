/** Conversions give back what they took: when the ledger is empty again, and
    that a conversion which fits its quota goes all the way. */
module ConvertProgress {
  import opened Basics
  import opened Keys
  import opened Convert

  // ---- the ledger follows the conversions ----

  /** No crash, no clean-up that leaves files behind, no release that fails. */
  predicate Tidy(e: Event) {
    && !(e.Move? && e.action.Crash?)
    && !(e.Move? && e.action.Clean? && !e.action.gone)
    && !(e.Release? && !e.works)
  }

  predicate TidyRun(es: seq<Event>) {
    forall i :: 0 <= i < |es| ==> Tidy(es[i])
  }

  /** A conversion holds a ledger row exactly from its first admitted reservation until it is done. */
  predicate Holding(s: State, id: ConvId) {
    id in s.convs && s.convs[id].reserved && s.convs[id].pc != Done
  }

  ghost predicate Tracks(s: State) {
    && (forall id :: id in s.ledger <==> Holding(s, id))
    && (forall id :: id in s.convs ==> s.convs[id].pc != Dropping && (s.convs[id].pc == Releasing ==> s.convs[id].reserved))
  }

  /** A conversion's own action keeps what it holds. */
  lemma ActTracks(c: Conv, a: Action)
    requires CanAct(c, a) && a != Crash && (a.Clean? ==> a.gone) && c.pc != Dropping && (c.pc == Releasing ==> c.reserved)
    ensures var c' := Act(c, a);
            && c'.reserved == c.reserved && c'.pc != Dropping && (c'.pc == Releasing ==> c'.reserved)
            && c.pc != Done && (c'.pc == Done ==> !c.reserved)
  {}

  /** Only conversion `id` and its row changed. */
  lemma TracksLocally(s: State, s': State, id: ConvId)
    requires Tracks(s) && id in s'.convs && s'.convs == s.convs[id := s'.convs[id]]
    requires forall k :: k != id ==> (k in s'.ledger <==> k in s.ledger)
    requires id in s'.ledger <==> Holding(s', id)
    requires s'.convs[id].pc != Dropping && (s'.convs[id].pc == Releasing ==> s'.convs[id].reserved)
    ensures Tracks(s')
  {
    forall k ensures k in s'.ledger <==> Holding(s', k) {
      if k != id { assert k in s.ledger <==> Holding(s, k); }
    }
  }

  lemma ReserveTracks(s: State, e: Event)
    requires Tracks(s) && Enabled(s, e) && (e.Reserve? || e.ReserveOutput?)
    ensures Tracks(Step(s, e))
  {
    assert e.id in s.ledger <==> Holding(s, e.id);
    TracksLocally(s, Step(s, e), e.id);
  }

  lemma StepTracks(s: State, e: Event)
    requires Tracks(s) && Enabled(s, e) && Tidy(e)
    ensures Tracks(Step(s, e))
  {
    match e
    case Begin(id, _, _, _) => TracksLocally(s, Step(s, e), id);
    case Shortcut(_) =>
      forall k ensures k in Step(s, e).ledger <==> Holding(Step(s, e), k) { assert k in s.ledger <==> Holding(s, k); }
    case Move(id, a) =>
      ActTracks(s.convs[id], a);
      assert id in s.ledger <==> Holding(s, id);
      TracksLocally(s, Step(s, e), id);
    case Reserve(_) => ReserveTracks(s, e);
    case ReserveOutput(_) => ReserveTracks(s, e);
    case Put(id) =>
      assert id in s.ledger <==> Holding(s, id);
      TracksLocally(s, Step(s, e), id);
    case Record(id) =>
      assert id in s.ledger <==> Holding(s, id);
      TracksLocally(s, Step(s, e), id);
    case DeleteSource(id, _) =>
      assert id in s.ledger <==> Holding(s, id);
      TracksLocally(s, Step(s, e), id);
    case Release(id, _) => TracksLocally(s, Step(s, e), id);
  }

  lemma {:induction false} RunTracks(s: State, es: seq<Event>)
    requires Tracks(s) && ValidRun(s, es) && TidyRun(es)
    ensures Tracks(Run(s, es))
    decreases |es|
  {
    if es != [] {
      StepTracks(s, es[0]);
      assert forall i :: 0 <= i < |es[1..]| ==> es[1..][i] == es[i + 1];
      RunTracks(Step(s, es[0]), es[1..]);
    }
  }

  /** From an empty ledger, over every interleaving without a crash, a failed
      clean-up or a failed release, a row is there exactly while its conversion
      has reserved and is not done. Once all are done the ledger is empty. */
  lemma LedgerIsGivenBack(s: State, es: seq<Event>)
    requires s.convs == map[] && s.ledger == map[] && ValidRun(s, es) && TidyRun(es)
    ensures var s' := Run(s, es);
            && (forall id :: id in s'.ledger <==> Holding(s', id))
            && ((forall id :: id in s'.convs ==> s'.convs[id].pc == Done) ==> s'.ledger == map[])
  {
    RunTracks(s, es);
    var s' := Run(s, es);
    if forall id :: id in s'.convs ==> s'.convs[id].pc == Done {
      forall id ensures id !in s'.ledger {}
      assert s'.ledger == map[];
    }
  }

  // ---- a conversion that fits goes all the way ----

  /** A job-owned conversion under quota `q`, with `copied` bytes read and `out` written. */
  function Owned(book: BookId, source: Key, q: nat, pc: Pc, size: nat, copied: nat, allowance: nat, out: nat, reserved: bool): Conv {
    Conv(book, source, true, Some(q), pc, size, copied, allowance, copied, out, reserved)
  }

  /** State `s` but for conversion `id` and its ledger row. */
  function Stage(s: State, id: ConvId, c: Conv, ledger: map<ConvId, nat>): State {
    s.(convs := s.convs[id := c], ledger := ledger)
  }

  /** A tidy run from `s` to `now`. */
  ghost predicate Leads(s: State, es: seq<Event>, now: State) {
    ValidRun(s, es) && TidyRun(es) && Run(s, es) == now
  }

  lemma Then(s: State, es: seq<Event>, now: State, e: Event, next: State)
    requires Leads(s, es, now) && Enabled(now, e) && Tidy(e) && Step(now, e) == next
    ensures Leads(s, es + [e], next)
  {
    RunOne(now, e);
    RunAppend(s, es, [e]);
  }

  /** The conversion acts by itself. */
  lemma Acts(s: State, id: ConvId, c: Conv, ledger: map<ConvId, nat>, es: seq<Event>, a: Action)
    requires Leads(s, es, Stage(s, id, c, ledger)) && CanAct(c, a) && Tidy(Move(id, a))
    ensures Leads(s, es + [Move(id, a)], Stage(s, id, Act(c, a), ledger))
  {
    assert s.convs[id := c][id := Act(c, a)] == s.convs[id := Act(c, a)];
    Then(s, es, Stage(s, id, c, ledger), Move(id, a), Stage(s, id, Act(c, a), ledger));
  }

  /** A reservation is admitted when the ledger holds no row but the conversion's own. */
  lemma AloneIsAdmitted(s: State, id: ConvId, bytes: nat, q: nat)
    requires (s.ledger == map[] || s.ledger.Keys == {id}) && bytes <= q <= U64_MAX
    ensures Admits(s, id, bytes, q)
  {
    if s.ledger.Keys == {id} {
      SumSplit(s.ledger, id);
      assert s.ledger - {id} == map[];
    }
  }

  /** Such a reservation call. */
  lemma ReservesAlone(s: State, id: ConvId, c: Conv, ledger: map<ConvId, nat>, es: seq<Event>, e: Event, bytes: nat, next: Pc)
    requires Leads(s, es, Stage(s, id, c, ledger)) && (ledger == map[] || ledger.Keys == {id})
    requires c.owned && c.limit.Some? && c.limit.value <= U64_MAX && bytes <= c.limit.value
    requires (e == Reserve(id) && c.pc == Reserving && bytes == FirstReserve(c) && next == Copying)
             || (e == ReserveOutput(id) && c.pc == ReservingOutput && bytes == SatAdd(c.copied, c.allowance) && next == Encoding)
    ensures Leads(s, es + [e], Stage(s, id, c.(reserved := true, pc := next), map[id := Min(bytes, I64_MAX)]))
  {
    var at := Stage(s, id, c, ledger);
    var c' := c.(reserved := true, pc := next);
    AloneIsAdmitted(at, id, bytes, Quota(c));
    assert ledger[id := Min(bytes, I64_MAX)] == map[id := Min(bytes, I64_MAX)];
    assert s.convs[id := c][id := c'] == s.convs[id := c'];
    Then(s, es, at, e, Stage(s, id, c', map[id := Min(bytes, I64_MAX)]));
  }

  /** What a conversion that fits does between its two reservations. */
  lemma FittingActs(book: BookId, key: Key, q: nat, advertised: nat, size: nat)
    requires 0 < size < q <= U64_MAX && (advertised == 0 || advertised == size)
    ensures var c := Owned(book, key, q, Opening, 0, 0, 0, 0, false);
            CanAct(c, Open(advertised)) && Act(c, Open(advertised)) == Owned(book, key, q, Reserving, advertised, 0, 0, 0, false)
    ensures FirstReserve(Owned(book, key, q, Reserving, advertised, 0, 0, 0, false)) <= q
    ensures var c := Owned(book, key, q, Copying, advertised, 0, 0, 0, true);
            CanAct(c, Chunk(size)) && Act(c, Chunk(size)) == Owned(book, key, q, Copying, advertised, size, 0, 0, true)
    ensures var c := Owned(book, key, q, Copying, advertised, size, 0, 0, true);
            CanAct(c, Eof) && Act(c, Eof) == Owned(book, key, q, ReservingOutput, advertised, size, q - size, 0, true)
  {}

  /** The source is copied: opened, reserved for, and read to its end. */
  lemma Copies(s: State, id: ConvId, book: BookId, q: nat, advertised: nat, size: nat) returns (es: seq<Event>, row: nat)
    requires s.ledger == map[] && Enabled(s, Begin(id, book, true, Some(q)))
    requires 0 < size < q && (advertised == 0 || advertised == size)
    ensures Leads(s, es, Stage(s, id, Owned(book, s.library[book], q, ReservingOutput, advertised, size, q - size, 0, true), map[id := row]))
  {
    var key := s.library[book];
    FittingActs(book, key, q, advertised, size);
    var c := Owned(book, key, q, Opening, 0, 0, 0, 0, false);
    Then(s, [], s, Begin(id, book, true, Some(q)), Stage(s, id, c, map[]));
    es := [] + [Begin(id, book, true, Some(q))];
    Acts(s, id, c, map[], es, Open(advertised));
    es, c := es + [Move(id, Open(advertised))], Act(c, Open(advertised));
    row := Min(FirstReserve(c), I64_MAX);
    ReservesAlone(s, id, c, map[], es, Reserve(id), FirstReserve(c), Copying);
    es, c := es + [Reserve(id)], c.(reserved := true, pc := Copying);
    Acts(s, id, c, map[id := row], es, Chunk(size));
    es, c := es + [Move(id, Chunk(size))], Act(c, Chunk(size));
    Acts(s, id, c, map[id := row], es, Eof);
    es := es + [Move(id, Eof)];
  }

  /** The copy is encoded within its allowance. */
  lemma Encoded(s: State, id: ConvId, book: BookId, q: nat, advertised: nat, size: nat, out: nat) returns (es: seq<Event>, row: nat)
    requires s.ledger == map[] && Enabled(s, Begin(id, book, true, Some(q)))
    requires 0 < size < q && size + out <= q && (advertised == 0 || advertised == size)
    ensures Leads(s, es, Stage(s, id, Owned(book, s.library[book], q, Putting, advertised, size, q - size, out, true), map[id := row]))
  {
    var before;
    es, before := Copies(s, id, book, q, advertised, size);
    var c := Owned(book, s.library[book], q, ReservingOutput, advertised, size, q - size, 0, true);
    row := Min(q, I64_MAX);
    FittingEncodes(book, s.library[book], q, advertised, size, out);
    ReservesAlone(s, id, c, map[id := before], es, ReserveOutput(id), q, Encoding);
    es, c := es + [ReserveOutput(id)], Owned(book, s.library[book], q, Encoding, advertised, size, q - size, 0, true);
    Acts(s, id, c, map[id := row], es, EncoderWrites(out));
    es, c := es + [Move(id, EncoderWrites(out))], Act(c, EncoderWrites(out));
    Acts(s, id, c, map[id := row], es, EncoderEnds);
    es := es + [Move(id, EncoderEnds)];
  }

  lemma FittingEncodes(book: BookId, key: Key, q: nat, advertised: nat, size: nat, out: nat)
    requires 0 < size < q <= U64_MAX && size + out <= q
    ensures var c := Owned(book, key, q, ReservingOutput, advertised, size, q - size, 0, true);
            SatAdd(c.copied, c.allowance) == q
            && c.(reserved := true, pc := Encoding) == Owned(book, key, q, Encoding, advertised, size, q - size, 0, true)
    ensures var c := Owned(book, key, q, Encoding, advertised, size, q - size, 0, true);
            CanAct(c, EncoderWrites(out)) && Act(c, EncoderWrites(out)) == Owned(book, key, q, Encoding, advertised, size, q - size, out, true)
    ensures var c := Owned(book, key, q, Encoding, advertised, size, q - size, out, true);
            CanAct(c, EncoderEnds) && Act(c, EncoderEnds) == Owned(book, key, q, Putting, advertised, size, q - size, out, true)
  {}

  /** Publication, the library row, and the removal of the source. */
  lemma Publishes(s: State, id: ConvId) returns (es: seq<Event>)
    requires At(s, id, Putting)
    ensures var c, mp3 := s.convs[id], s.naming.mp3(s.convs[id].source);
            Leads(s, es, State(s.naming, s.convs[id := c.(pc := Cleaning)], s.ledger, s.objects + {mp3} - {c.source}, s.library[c.book := mp3]))
  {
    var c, mp3 := s.convs[id], s.naming.mp3(s.convs[id].source);
    var s1 := State(s.naming, s.convs[id := c.(pc := Recording)], s.ledger, s.objects + {mp3}, s.library);
    var s2 := State(s.naming, s.convs[id := c.(pc := Deleting)], s.ledger, s.objects + {mp3}, s.library[c.book := mp3]);
    var s3 := State(s.naming, s.convs[id := c.(pc := Cleaning)], s.ledger, s.objects + {mp3} - {c.source}, s.library[c.book := mp3]);
    Then(s, [], s, Put(id), s1);
    Then(s, [] + [Put(id)], s1, Record(id), s2);
    Then(s, [] + [Put(id)] + [Record(id)], s2, DeleteSource(id, true), s3);
    es := [] + [Put(id)] + [Record(id)] + [DeleteSource(id, true)];
  }

  /** The clean-up, and the release of the row. */
  lemma Cleans(s: State, id: ConvId) returns (es: seq<Event>)
    requires At(s, id, Cleaning) && s.convs[id].reserved && s.ledger.Keys == {id}
    ensures Leads(s, es, s.(convs := s.convs[id := s.convs[id].(pc := Done, inBytes := 0, outBytes := 0)], ledger := map[]))
  {
    var c := s.convs[id];
    var s1 := s.(convs := s.convs[id := c.(pc := Releasing, inBytes := 0, outBytes := 0)]);
    var s2 := s.(convs := s.convs[id := c.(pc := Done, inBytes := 0, outBytes := 0)], ledger := map[]);
    assert s.ledger - {id} == map[];
    Then(s, [], s, Move(id, Clean(true, 0, 0)), s1);
    Then(s, [] + [Move(id, Clean(true, 0, 0))], s1, Release(id, true), s2);
    es := [] + [Move(id, Clean(true, 0, 0))] + [Release(id, true)];
  }

  lemma LeadsOn(s: State, es: seq<Event>, mid: State, more: seq<Event>, end: State)
    requires Leads(s, es, mid) && Leads(mid, more, end)
    ensures Leads(s, es + more, end)
  {
    RunAppend(s, es, more);
  }

  /** With an empty ledger, a job-owned conversion of `size` bytes to `out` bytes that
      fit the quota together, with something left for the output, has a run without
      any failure to its end: the MP3 is stored and recorded, the source is gone,
      the scratch is gone, and the ledger is empty again. */
  lemma FittingConversionCompletes(s: State, id: ConvId, book: BookId, q: nat, advertised: nat, size: nat, out: nat)
      returns (es: seq<Event>)
    requires Initial(s) && s.ledger == map[] && Enabled(s, Begin(id, book, true, Some(q)))
    requires 0 < size < q && size + out <= q && (advertised == 0 || advertised == size)
    ensures ValidRun(s, es) && TidyRun(es)
    ensures var s', mp3 := Run(s, es), s.naming.mp3(s.library[book]);
            && At(s', id, Done) && Disk(s'.convs[id]) == 0 && s'.ledger == map[]
            && s'.library == s.library[book := mp3]
            && s'.objects == s.objects + {mp3} - {s.library[book]} && mp3 in s'.objects && s.library[book] !in s'.objects
  {
    var row;
    es, row := Encoded(s, id, book, q, advertised, size, out);
    var s1 := Run(s, es);
    var published := Publishes(s1, id);
    var s2 := Run(s1, published);
    var cleaned := Cleans(s2, id);
    LeadsOn(s, es, s1, published, s2);
    LeadsOn(s, es + published, s2, cleaned, Run(s2, cleaned));
    NamingIsOk();
    es := es + published + cleaned;
  }

  /** Whatever a conversion is at, unless it failed to clean up, it can be ended
      and its row given back: from before the deletion by an abort. */
  lemma EveryConversionCanEnd(s: State, id: ConvId) returns (es: seq<Event>)
    requires Tracks(s) && id in s.convs && s.convs[id].pc != Done
    ensures ValidRun(s, es) && TidyRun(es)
    ensures At(Run(s, es), id, Done) && id !in Run(s, es).ledger
  {
    assert id in s.ledger <==> Holding(s, id);
    var pc := s.convs[id].pc;
    if pc in {Cleaning, Releasing} {
      es := CleaningEnds(s, id);
    } else {
      var e := if pc == Deleting then DeleteSource(id, false) else Move(id, Abort);
      var s1 := Step(s, e);
      StepTracks(s, e);
      Then(s, [], s, e, s1);
      var rest := CleaningEnds(s1, id);
      LeadsOn(s, [] + [e], s1, rest, Run(s1, rest));
      es := [] + [e] + rest;
    }
  }

  lemma CleaningEnds(s: State, id: ConvId) returns (es: seq<Event>)
    requires Tracks(s) && id in s.convs && s.convs[id].pc in {Cleaning, Releasing}
    ensures ValidRun(s, es) && Leads(s, es, Run(s, es)) && At(Run(s, es), id, Done) && id !in Run(s, es).ledger
  {
    assert id in s.ledger <==> Holding(s, id);
    if s.convs[id].pc == Releasing {
      Then(s, [], s, Release(id, true), Step(s, Release(id, true)));
      es := [] + [Release(id, true)];
    } else {
      var e := Move(id, Clean(true, 0, 0));
      var s1 := Step(s, e);
      Then(s, [], s, e, s1);
      es := [] + [e];
      if s.convs[id].reserved {
        Then(s, es, s1, Release(id, true), Step(s1, Release(id, true)));
        es := es + [Release(id, true)];
      }
    }
  }

  // ---- who holds rows, and how much ----

  ghost predicate OwnedRows(s: State) {
    forall id :: id in s.ledger ==> id in s.convs && s.convs[id].owned
  }

  lemma StepOwned(s: State, e: Event)
    requires OwnedRows(s) && Enabled(s, e)
    ensures OwnedRows(Step(s, e))
  {}

  /** Over every run, failures and crashes included, only job-owned conversions hold ledger rows. */
  lemma {:induction false} OnlyOwnedHold(s: State, es: seq<Event>)
    requires OwnedRows(s) && ValidRun(s, es)
    ensures OwnedRows(Run(s, es))
    decreases |es|
  {
    if es != [] {
      StepOwned(s, es[0]);
      OnlyOwnedHold(Step(s, es[0]), es[1..]);
    }
  }

  /** An owned conversion about to reserve for a source of `size` bytes. */
  predicate Waiting(s: State, id: ConvId, q: nat, size: nat) {
    At(s, id, Reserving) && s.convs[id].owned && s.convs[id].limit == Some(q) && s.convs[id].size == size
  }

  /** Two conversions copy at once exactly when twice both sources fit the quota. */
  lemma TogetherExactlyWhen(s: State, id: ConvId, other: ConvId, q: nat, a: nat, b: nat)
    requires s.ledger == map[] && id != other && 0 < a <= q && 0 < b <= q <= I64_MAX
    requires Waiting(s, id, q, a) && Waiting(s, other, q, b)
    ensures var s1 := Step(s, Reserve(id));
            && At(s1, id, Copying) && Enabled(s1, Reserve(other))
            && var s2 := Step(s1, Reserve(other));
               && At(s2, id, Copying)
               && At(s2, other, if 2 * a + 2 * b <= q then Copying else Cleaning)
  {
    var first := FirstReserve(s.convs[id]);
    AloneIsAdmitted(s, id, first, q);
    var s1 := Step(s, Reserve(id));
    assert s1.ledger == map[id := first];
    SumSplit(s1.ledger, id);
    assert s1.ledger - {id} == map[];
  }

  /** One of unknown size copies alone. */
  lemma UnknownSizeIsAlone(s: State, id: ConvId, other: ConvId, q: nat, b: nat)
    requires s.ledger == map[] && id != other && 0 < q <= I64_MAX && b <= q
    requires Waiting(s, id, q, 0) && Waiting(s, other, q, b)
    ensures var s1 := Step(s, Reserve(id));
            At(s1, id, Copying) && Enabled(s1, Reserve(other)) && At(Step(s1, Reserve(other)), other, Cleaning)
  {
    AloneIsAdmitted(s, id, q, q);
    var s1 := Step(s, Reserve(id));
    assert s1.ledger == map[id := q];
    SumSplit(s1.ledger, id);
    assert s1.ledger - {id} == map[];
  }
}
