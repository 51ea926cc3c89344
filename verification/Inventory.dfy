/** The scan and the reconcile lookups together: what a finished scan of
    unchanged storage lets reconcile find. */
module Inventory {
  import opened Basics
  import opened Keys
  import opened Lookup
  import opened StorageScan
  import opened Reconcile

  /** The rows `page_scan` writes for a key when metadata is not probed. */
  function RowsFor(key: Key): set<Row> {
    {ObjectRow(key)} + if IsAudio(key) then set id | id in Ids(key) :: IdentityRow(id, key) else {}
  }

  predicate OwnRow(row: Row) {
    row in RowsFor(row.key)
  }

  const SCAN := Rules(IsHidden, RowsFor, OwnRow)

  lemma ScanIsKeysOnly()
    ensures KeysOnly(SCAN)
  {}

  /** What reconcile sees through a scan generation when the probes of some keys fail. */
  function SeenWith(rows: set<Row>, live: set<Key>, broken: set<Key>, plans: string -> Plans): World {
    World(rows, live, broken, plans, Better, Less, Upper)
  }

  function Seen(rows: set<Row>, live: set<Key>, plans: string -> Plans): World {
    SeenWith(rows, live, {}, plans)
  }

  lemma SeenIsOk(rows: set<Row>, live: set<Key>, broken: set<Key>, plans: string -> Plans)
    ensures WorldOk(SeenWith(rows, live, broken, plans))
  {
    BetterIsTotalOrder();
    LessIsTotalOrder();
  }

  /** The finished scan of a store that did not change since its generation was minted. */
  ghost predicate Complete(es: seq<Event>, g: GenId) {
    && ValidRun(SCAN, Init, es) && CleanRun(SCAN, Init, es)
    && var s := Run(SCAN, Init, es);
       g in s.gens && s.gens[g].complete && Quiet(s, g)
  }

  ghost function Store(es: seq<Event>, g: GenId): set<Key>
    requires Complete(es, g)
  {
    var s := Run(SCAN, Init, es);
    Objects(s, s.lives[g].site)
  }

  ghost function Scanned(es: seq<Event>, g: GenId): set<Row>
    requires Complete(es, g)
  {
    Rows(Run(SCAN, Init, es), g)
  }

  predicate Carries(key: Key, id: string) {
    !IsHidden(key) && IsAudio(key) && Upper(id) in Ids(key)
  }

  function Carriers(store: set<Key>, id: string): set<Key> {
    set k | k in store && Carries(k, id)
  }

  /** Membership of one row in a finished scan, by the key alone. */
  lemma ScannedExactly(es: seq<Event>, g: GenId, row: Row)
    requires Complete(es, g)
    ensures row in Scanned(es, g) <==> row.key in Store(es, g) && !IsHidden(row.key) && row in RowsFor(row.key)
  {
    ScanIsKeysOnly();
    QuietInventory(SCAN, es, g, row);
  }

  /** Crashes, resumes and restarts leave no trace: two finished scans of equal
      stores hold equal rows, so lookups through either agree. */
  lemma ScansAgree(es: seq<Event>, g: GenId, es': seq<Event>, g': GenId)
    requires Complete(es, g) && Complete(es', g') && Store(es, g) == Store(es', g')
    ensures Scanned(es, g) == Scanned(es', g')
  {
    forall row ensures row in Scanned(es, g) <==> row in Scanned(es', g') {
      ScannedExactly(es, g, row);
      ScannedExactly(es', g', row);
    }
  }

  /** An identity lookup succeeds exactly when some visible audio object carries
      the upper-cased id in its path, and then returns the best such object. */
  lemma IdentityFoundExactlyWhen(es: seq<Event>, g: GenId, plans: string -> Plans, id: string)
    requires Complete(es, g)
    ensures var w := Seen(Scanned(es, g), Store(es, g), plans);
            && WorldOk(w)
            && IdentityKeys(w, id) == Carriers(Store(es, g), id)
            && (Least(w.better, IdentityKeys(w, id)).Some? <==> exists k :: k in Store(es, g) && Carries(k, id))
  {
    var w := Seen(Scanned(es, g), Store(es, g), plans);
    SeenIsOk(Scanned(es, g), Store(es, g), {}, plans);
    forall k
      ensures k in IdentityKeys(w, id) <==> k in Store(es, g) && Carries(k, id)
    {
      ScannedExactly(es, g, IdentityRow(Upper(id), k));
      IdentityRowOf(Upper(id), k);
      assert k in IdentityKeys(w, id) <==> IdentityRow(Upper(id), k) in w.rows && k in w.live by {
        assert IdentityRow(Upper(id), k).key == k;
      }
    }
    assert Least(w.better, IdentityKeys(w, id)).Some? <==> IdentityKeys(w, id) != {};
  }

  lemma IdentityRowOf(id: string, key: Key)
    ensures IdentityRow(id, key) in RowsFor(key) <==> IsAudio(key) && id in Ids(key)
  {}

  /** An id that is not in canonical form once upper-cased, such as a hyphenated
      ISBN, is never found, however many objects carry it. */
  lemma UncanonicalIdIsNeverFound(es: seq<Event>, g: GenId, plans: string -> Plans, id: string)
    requires Complete(es, g) && !Canonical(Upper(id))
    ensures IdentityKeys(Seen(Scanned(es, g), Store(es, g), plans), id) == {}
  {
    IdentityFoundExactlyWhen(es, g, plans, id);
    forall k | k in Store(es, g) ensures !Carries(k, id) {
      if Upper(id) in Ids(k) {
        IdsAreCanonical(k, Upper(id));
      }
    }
  }

  lemma HyphenatedIsbnIsNotCanonical(id: string, i: nat)
    requires i < |id| && id[i] == '-'
    ensures !Canonical(Upper(id))
  {
    assert Upper(id)[i] == '-';
  }

  /** A book one of whose ids some visible audio object carries is never cleared,
      not even when existence probes fail. Outside clear-only mode, unless its own
      lookup failed, it ends Acquired at a key that exists. */
  lemma CarriedBookIsKept(es: seq<Event>, g: GenId, broken: set<Key>, plans: string -> Plans, o: Options, b: Book, id: string, key: Key)
    requires Complete(es, g) && KnownBy(b, id) && key in Store(es, g) && Carries(key, id)
    ensures var w := SeenWith(Scanned(es, g), Store(es, g), broken, plans);
            && WorldOk(w)
            && var (after, outcome) := Verdict(w, o, b);
               && outcome != Cleared && (b.status == Acquired ==> after.status == Acquired)
               && (Selected(o, b) && !o.onlyClearMissing && outcome != LookupFailed ==>
                     after.status == Acquired && after.storageKey.Some? && after.storageKey.value in Store(es, g))
               && (broken == {} ==> outcome != LookupFailed)
  {
    var w := SeenWith(Scanned(es, g), Store(es, g), broken, plans);
    SeenIsOk(Scanned(es, g), Store(es, g), broken, plans);
    ScannedExactly(es, g, IdentityRow(Upper(id), key));
    IdentityRowOf(Upper(id), key);
    IdentityRowIsEnough(w, b, id, key);
    FoundIsLive(w, b);
  }

  /** The same for the library as a whole, whatever probes fail and even when the
      run stops: no such row is cleared, and one that was handled outside
      clear-only mode is Acquired at a key that exists. */
  lemma CarriedBooksAreKept(es: seq<Event>, g: GenId, broken: set<Key>, plans: string -> Plans, o: Options,
                            books: seq<Book>, upto: Option<int>, i: nat, id: string, key: Key)
    requires Complete(es, g) && i < |books|
    requires KnownBy(books[i], id) && key in Store(es, g) && Carries(key, id)
    ensures var w := SeenWith(Scanned(es, g), Store(es, g), broken, plans);
            && WorldOk(w)
            && KeptRow(w, o, books[i], o.account.None? || o.account == Some(books[i].account), Reconciled(w, o, books)[i])
            && KeptRow(w, o, books[i], Due(o, upto, books[i]), Done(w, o, upto, books)[i])
  {
    CarriedBookIsKept(es, g, broken, plans, o, books[i], id, key);
  }

  /** An Acquired row stays Acquired; a row that was handled becomes Acquired at a key that exists. */
  ghost predicate KeptRow(w: World, o: Options, before: Book, handled: bool, after: Book)
    requires WorldOk(w)
  {
    && (before.status == Acquired ==> after.status == Acquired)
    && (handled && Selected(o, before) && !o.onlyClearMissing && Verdict(w, o, before).1 != LookupFailed ==>
          after.status == Acquired && after.storageKey.Some? && after.storageKey.value in w.live)
  }

  /** What a vanished generation costs: through an index without rows, an Acquired
      row is cleared whenever neither its stored key nor a planned path exists,
      whatever audio of the book is stored. */
  lemma EmptyIndexClears(store: set<Key>, plans: string -> Plans, o: Options, b: Book)
    ensures var w := Seen({}, store, plans);
            var p := plans(b.uuid);
            && WorldOk(w)
            && (Verdict(w, o, b).1 == Cleared <==>
                  && Selected(o, b) && b.status == Acquired && o.clearMissing && !o.onlyMarkFound
                  && (b.storageKey.Some? ==> b.storageKey.value !in store)
                  && (forall k :: k in p.exact || k in p.rawExact ==> k !in store))
  {
    var w := Seen({}, store, plans);
    SeenIsOk({}, store, {}, plans);
    ClearedOnlyWhenUnfindable(w, o, b);
    assert Answers(w) == store;
  }

  lemma ScanRowsArePlain(key: Key)
    requires !IsHidden(key)
    ensures Plain(SCAN, key)
  {
    assert ObjectRow(key) in RowsFor(key);
  }

  /** Such an index exists: a scan whose generation is deleted while it runs returns
      one, so a book is cleared although its audio never left the store. */
  lemma DeletedScanClearsCarried(site: Site, key: Key, id: string, plans: string -> Plans, o: Options, b: Book)
      returns (es: seq<Event>)
    requires Carries(key, id) && KnownBy(b, id)
    requires Selected(o, b) && b.status == Acquired && o.clearMissing && !o.onlyMarkFound
    requires b.storageKey != Some(key) && key !in plans(b.uuid).exact && key !in plans(b.uuid).rawExact
    ensures ValidRun(SCAN, Init, es)
    ensures var s := Run(SCAN, Init, es);
            && At(s, 0, Finished) && s.workers[0].site == site && Objects(s, site) == {key}
            && var w := Seen(Rows(s, s.workers[0].state.gen), Objects(s, site), plans);
               WorldOk(w) && Verdict(w, o, b).1 == Cleared
  {
    ScanRowsArePlain(key);
    es := DeletedMidScan(SCAN, site, key);
    EmptyIndexClears({key}, plans, o, b);
  }

  /** Reconciling twice over one unchanged store, each time through a scan of its
      own with its own history of crashes, does nothing the second time. */
  lemma RescanChangesNothing(es: seq<Event>, g: GenId, es': seq<Event>, g': GenId, plans: string -> Plans,
                             o: Options, books: seq<Book>)
    requires Complete(es, g) && Complete(es', g') && Store(es, g) == Store(es', g')
    ensures var w := Seen(Scanned(es, g), Store(es, g), plans);
            var w' := Seen(Scanned(es', g'), Store(es', g'), plans);
            && WorldOk(w) && WorldOk(w')
            && var again := Reconciled(w, o, books);
               && Reconciled(w', o, again) == again
               && Reported(w', o, again).matched == 0 && Reported(w', o, again).cleared == 0
  {
    ScansAgree(es, g, es', g');
    SeenIsOk(Scanned(es, g), Store(es, g), {}, plans);
    SecondRunChangesNothing(Seen(Scanned(es, g), Store(es, g), plans), o, books);
  }

  /** The indexed lookup returns what the plain search over the live listing
      returns, the best of all holders, exactly when that is nothing or a visible
      audio object. */
  lemma IndexAgreesExactlyWhen(es: seq<Event>, g: GenId, plans: string -> Plans, id: string)
    requires Complete(es, g)
    ensures TotalOrder(Better)
    ensures var w := Seen(Scanned(es, g), Store(es, g), plans);
            var plain := Least(Better, Holders(Store(es, g), id));
            && WorldOk(w)
            && (Least(w.better, IdentityKeys(w, id)) == plain <==> plain.None? || Carries(plain.value, id))
  {
    var w := Seen(Scanned(es, g), Store(es, g), plans);
    BetterIsTotalOrder();
    var plain := Least(Better, Holders(Store(es, g), id));
    IdentityFoundExactlyWhen(es, g, plans, id);
    if plain.None? || Carries(plain.value, id) {
      BestCarrier(Store(es, g), id, plain);
      LeastIsUnique(w.better, IdentityKeys(w, id), plain);
    }
  }

  lemma BestCarrier(store: set<Key>, id: string, plain: Option<Key>)
    requires IsLeast(Better, Holders(store, id), plain) && (plain.Some? ==> Carries(plain.value, id))
    ensures IsLeast(Better, Carriers(store, id), plain)
  {
    forall k | k in store && Carries(k, id) ensures k in Holders(store, id) {}
  }

  /** Audio outranks everything else that has an extension, so one visible audio
      holder settles it when no internal and no extensionless key holds the id. */
  lemma AudioHolderWins(store: set<Key>, id: string, plain: Option<Key>, key: Key)
    requires IsLeast(Better, Holders(store, id), plain) && key in store && Carries(key, id)
    requires forall k :: k in Holders(store, id) ==> !IsHidden(k) && '.' in k
    ensures plain.Some? && Carries(plain.value, id)
  {
    assert key in Holders(store, id);
    AudioByRank(key);
    AudioByRank(plain.value);
  }
}
