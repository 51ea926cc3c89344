/** Matching library rows to stored objects, and the reconcile loop that marks
    and clears them. */
module Reconcile {
  import opened Basics
  import opened Keys
  import opened Lookup
  import opened StorageScan
  import opened Overlay

  datatype Status = NotAcquired | Acquired | Other(name: string)

  datatype Book = Book(
    id: int, account: string, uuid: string, productId: string,
    asin: Option<string>, isbn: Option<string>,
    status: Status, storageKey: Option<Key>)

  /** A planned path with wildcards; `prefix` is its text before the first one. */
  datatype Pattern = Pattern(prefix: string, matches: Key -> bool)

  /** What the path planner proposes for a title, in the order it is tried. The
      raw lists are empty unless a folder or file template is configured. */
  datatype Plans = Plans(exact: seq<Key>, wild: seq<Pattern>, rawExact: seq<Key>, rawWild: seq<Pattern>)

  /** What a lookup sees: the rows of the scan, the keys that exist now, the keys
      whose existence probe fails, the planner, the two row orders and the case
      folding of identities. */
  datatype World = World(
    rows: set<Row>, live: set<Key>, broken: set<Key>, plans: string -> Plans,
    better: Order, byKey: Order, fold: string -> string)

  /** Keys whose probe ends a search: with a hit, or with an error. */
  function Answers(w: World): set<Key> {
    w.live + w.broken
  }

  ghost predicate WorldOk(w: World) {
    TotalOrder(w.better) && TotalOrder(w.byKey)
  }

  // ---- the lookup, as a function ----

  function OrElse(a: Option<Key>, b: Option<Key>): Option<Key> {
    if a.Some? then a else b
  }

  function FirstPresent(keys: seq<Key>, live: set<Key>): Option<Key> {
    if keys == [] then None
    else if keys[0] in live then Some(keys[0])
    else FirstPresent(keys[1..], live)
  }

  function PatternKeys(w: World, p: Pattern): set<Key> {
    set row | row in w.rows && row.ObjectRow? && row.key in Answers(w) && p.prefix <= row.key && p.matches(row.key) :: row.key
  }

  function IdentityKeys(w: World, id: string): set<Key> {
    set row | row in w.rows && row.IdentityRow? && row.id == w.fold(id) && row.key in Answers(w) :: row.key
  }

  ghost function FirstMatch(w: World, patterns: seq<Pattern>): Option<Key>
    requires WorldOk(w)
  {
    if patterns == [] then None
    else OrElse(Least(w.byKey, PatternKeys(w, patterns[0])), FirstMatch(w, patterns[1..]))
  }

  ghost function FirstIdentity(w: World, ids: seq<string>): Option<Key>
    requires WorldOk(w)
  {
    if ids == [] then None
    else OrElse(Least(w.better, IdentityKeys(w, ids[0])), FirstIdentity(w, ids[1..]))
  }

  function AsinOrIsbn(b: Book): string {
    if b.asin.Some? then b.asin.value else if b.isbn.Some? then b.isbn.value else b.productId
  }

  function BookIds(b: Book): seq<string> {
    [b.productId]
    + (if b.asin.Some? then [b.asin.value] else [])
    + (if b.isbn.Some? then [b.isbn.value] else [])
    + [AsinOrIsbn(b)]
  }

  /** An identity under which the library knows the book. */
  predicate KnownBy(b: Book, id: string) {
    id == b.productId || b.asin == Some(id) || b.isbn == Some(id)
  }

  /** The searched identities are exactly those, in that order, the last one again. */
  lemma BookIdsExactly(b: Book, id: string)
    ensures id in BookIds(b) <==> KnownBy(b, id)
  {}

  /** `find_existing_for_request`, then the remaining identities of the book. */
  ghost function FindUnstored(w: World, b: Book): Option<Key>
    requires WorldOk(w)
  {
    var p := w.plans(b.uuid);
    OrElse(FirstPresent(p.exact, Answers(w)),
    OrElse(FirstMatch(w, p.wild),
    OrElse(FirstPresent(p.rawExact, Answers(w)),
    OrElse(FirstMatch(w, p.rawWild),
    OrElse(FirstIdentity(w, [b.productId]), FirstIdentity(w, BookIds(b)))))))
  }

  /** The key at which `find_existing_for_book` stops searching. */
  ghost function FindExisting(w: World, b: Book): Option<Key>
    requires WorldOk(w)
  {
    if b.storageKey.Some? && b.storageKey.value in Answers(w) then b.storageKey else FindUnstored(w, b)
  }

  /** `find_existing_for_book`: a failing probe is an error, never a miss. */
  ghost function Found(w: World, b: Book): Result<Option<Key>, Key>
    requires WorldOk(w)
  {
    var at := FindExisting(w, b);
    if at.Some? && at.value in w.broken then Err(at.value) else Ok(at)
  }

  // ---- the lookup, as it runs against the database ----

  /** The two scan queries: object rows under a prefix in key order, identity
      rows in (rank, key) order. */
  datatype Db = Db(objectTable: string -> seq<Key>, identityTable: string -> seq<Key>)

  ghost predicate DbOf(db: Db, w: World) {
    && (forall p :: Sorted(w.byKey, db.objectTable(p))
                    && forall k :: k in db.objectTable(p) <==> ObjectRow(k) in w.rows && p <= k)
    && (forall id :: Sorted(w.better, db.identityTable(id))
                     && forall k :: k in db.identityTable(id) <==> IdentityRow(w.fold(id), k) in w.rows)
  }

  const IDENTITY_PAGE: nat := 8
  const OBJECT_PAGE: nat := 32
  const BOOK_PAGE: nat := 64

  /** The paged identity lookup returns exactly the (rank, key)-least live candidate. */
  method FirstLiveIdentity(db: Db, w: World, id: string) returns (r: Option<Key>)
    requires WorldOk(w) && DbOf(db, w)
    ensures r == Least(w.better, IdentityKeys(w, id))
  {
    var table := db.identityTable(id);
    r := FirstLive(w.better, table, IDENTITY_PAGE, _ => true, Answers(w));
    IdentityTableKeys(db, w, id);
    LeastIsUnique(w.better, IdentityKeys(w, id), r);
  }

  /** `best_identity`: the overlay's candidate when its probe answers, else the scan's. */
  method BestIdentity(index: StorageIndex, db: Db, w: World, id: string) returns (r: Option<Key>)
    requires index.Valid() && WorldOk(w) && DbOf(db, w)
    ensures exists cached :: BestInserted(index.inserted, id, cached)
              && r == if cached.Some? && cached.value in Answers(w) then cached else Least(w.better, IdentityKeys(w, id))
    ensures index.inserted == [] ==> r == Least(w.better, IdentityKeys(w, id))
  {
    var cached := index.BestKeyForAsin(id);
    if cached.Some? && cached.value in Answers(w) {
      return cached;
    }
    r := FirstLiveIdentity(db, w, id);
  }

  lemma IdentityTableKeys(db: Db, w: World, id: string)
    requires DbOf(db, w)
    ensures Passing(db.identityTable(id), _ => true) * Answers(w) == IdentityKeys(w, id)
  {
    forall k
      ensures k in Passing(db.identityTable(id), _ => true) * Answers(w) <==> k in IdentityKeys(w, id)
    {
      assert IdentityRow(w.fold(id), k).key == k;
    }
  }

  /** The paged pattern lookup returns exactly the key-least live match. */
  method FindPattern(db: Db, w: World, p: Pattern) returns (r: Option<Key>)
    requires WorldOk(w) && DbOf(db, w)
    ensures r == Least(w.byKey, PatternKeys(w, p))
  {
    var table := db.objectTable(p.prefix);
    r := FirstLive(w.byKey, table, OBJECT_PAGE, p.matches, Answers(w));
    PatternTableKeys(db, w, p);
    LeastIsUnique(w.byKey, PatternKeys(w, p), r);
  }

  lemma PatternTableKeys(db: Db, w: World, p: Pattern)
    requires DbOf(db, w)
    ensures Passing(db.objectTable(p.prefix), p.matches) * Answers(w) == PatternKeys(w, p)
  {
    forall k
      ensures k in Passing(db.objectTable(p.prefix), p.matches) * Answers(w) <==> k in PatternKeys(w, p)
    {
      assert ObjectRow(k).key == k;
    }
  }

  method SearchPresent(keys: seq<Key>, live: set<Key>) returns (r: Option<Key>)
    ensures r == FirstPresent(keys, live)
  {
    for i := 0 to |keys|
      invariant FirstPresent(keys, live) == FirstPresent(keys[i..], live)
    {
      assert keys[i..][0] == keys[i] && keys[i..][1..] == keys[i + 1..];
      if keys[i] in live {
        return Some(keys[i]);
      }
    }
    return None;
  }

  method SearchPatterns(db: Db, w: World, patterns: seq<Pattern>) returns (r: Option<Key>)
    requires WorldOk(w) && DbOf(db, w)
    ensures r == FirstMatch(w, patterns)
  {
    for i := 0 to |patterns|
      invariant FirstMatch(w, patterns) == FirstMatch(w, patterns[i..])
    {
      assert patterns[i..][0] == patterns[i] && patterns[i..][1..] == patterns[i + 1..];
      r := FindPattern(db, w, patterns[i]);
      if r.Some? {
        return;
      }
    }
    return None;
  }

  method SearchIdentities(db: Db, w: World, ids: seq<string>) returns (r: Option<Key>)
    requires WorldOk(w) && DbOf(db, w)
    ensures r == FirstIdentity(w, ids)
  {
    for i := 0 to |ids|
      invariant FirstIdentity(w, ids) == FirstIdentity(w, ids[i..])
    {
      assert ids[i..][0] == ids[i] && ids[i..][1..] == ids[i + 1..];
      r := FirstLiveIdentity(db, w, ids[i]);
      if r.Some? {
        return;
      }
    }
    return None;
  }

  method FindExistingForBook(db: Db, w: World, b: Book) returns (r: Result<Option<Key>, Key>)
    requires WorldOk(w) && DbOf(db, w)
    ensures r == Found(w, b)
  {
    var at := StopAt(db, w, b);
    if at.Some? && at.value in w.broken {
      return Err(at.value);
    }
    return Ok(at);
  }

  /** The searches in order; the first probe that answers ends them. */
  method StopAt(db: Db, w: World, b: Book) returns (r: Option<Key>)
    requires WorldOk(w) && DbOf(db, w)
    ensures r == FindExisting(w, b)
  {
    if b.storageKey.Some? && b.storageKey.value in Answers(w) {
      return b.storageKey;
    }
    var p := w.plans(b.uuid);
    r := SearchPresent(p.exact, Answers(w));
    if r.Some? { return; }
    r := SearchPatterns(db, w, p.wild);
    if r.Some? { return; }
    r := SearchPresent(p.rawExact, Answers(w));
    if r.Some? { return; }
    r := SearchPatterns(db, w, p.rawWild);
    if r.Some? { return; }
    r := SearchIdentities(db, w, [b.productId]);
    if r.Some? { return; }
    r := SearchIdentities(db, w, BookIds(b));
  }

  // ---- one book ----

  datatype Options = Options(
    account: Option<string>, clearMissing: bool, asins: seq<string>,
    onlyMarkFound: bool, onlyClearMissing: bool)

  datatype Summary = Summary(matched: nat, cleared: nat, untouched: nat)

  datatype Outcome = Skipped | Matched | Cleared | Unchanged | LookupFailed

  function Tallied(s: Summary, o: Outcome): Summary {
    match o
    case Skipped => s
    case LookupFailed => s
    case Matched => s.(matched := s.matched + 1)
    case Cleared => s.(cleared := s.cleared + 1)
    case Unchanged => s.(untouched := s.untouched + 1)
  }

  predicate Named(b: Book, name: string) {
    || Lower(name) == Lower(b.uuid) || Lower(name) == Lower(b.productId)
    || (b.isbn.Some? && Lower(name) == Lower(b.isbn.value))
    || (b.asin.Some? && Lower(name) == Lower(b.asin.value))
  }

  predicate Selected(o: Options, b: Book) {
    o.asins == [] || exists i :: 0 <= i < |o.asins| && Named(b, o.asins[i])
  }

  /** What becomes of one listed book. */
  ghost function Verdict(w: World, o: Options, b: Book): (Book, Outcome)
    requires WorldOk(w)
  {
    if !Selected(o, b) then (b, Skipped)
    else
      var found := Found(w, b);
      if found.Err? then (b, LookupFailed)
      else if found.value.Some? then
        var kept := b.(status := Acquired, storageKey := found.value);
        if o.onlyClearMissing || kept == b then (b, Unchanged) else (kept, Matched)
      else if !o.onlyMarkFound && o.clearMissing && b.status == Acquired then
        (b.(status := NotAcquired, storageKey := None), Cleared)
      else (b, Unchanged)
  }

  method ReconcileOne(db: Db, w: World, o: Options, b: Book) returns (after: Book, outcome: Outcome)
    requires WorldOk(w) && DbOf(db, w)
    ensures (after, outcome) == Verdict(w, o, b)
  {
    if o.asins != [] && !Selected(o, b) {
      return b, Skipped;
    }
    var result := FindExistingForBook(db, w, b);
    if result.Err? {
      return b, LookupFailed;
    }
    match result.value
    case Some(key) =>
      if o.onlyClearMissing {
        return b, Unchanged;
      }
      if b.status != Acquired || b.storageKey != Some(key) {
        return b.(status := Acquired, storageKey := Some(key)), Matched;
      }
      return b, Unchanged;
    case None =>
      if o.onlyMarkFound {
        return b, Unchanged;
      }
      if o.clearMissing && b.status == Acquired {
        var stillThere := b.storageKey.Some? && b.storageKey.value in w.live;
        if stillThere {
          return b, Unchanged;
        }
        return b.(status := NotAcquired, storageKey := None), Cleared;
      }
      return b, Unchanged;
  }

  // ---- what a lookup returns ----

  lemma {:induction false} FirstPresentAnswers(keys: seq<Key>, live: set<Key>)
    ensures FirstPresent(keys, live).Some? ==> FirstPresent(keys, live).value in live
  {
    if keys != [] {
      FirstPresentAnswers(keys[1..], live);
    }
  }

  lemma {:induction false} FirstMatchAnswers(w: World, patterns: seq<Pattern>)
    requires WorldOk(w)
    ensures FirstMatch(w, patterns).Some? ==> FirstMatch(w, patterns).value in Answers(w)
  {
    if patterns != [] {
      FirstMatchAnswers(w, patterns[1..]);
    }
  }

  lemma {:induction false} FirstIdentityAnswers(w: World, ids: seq<string>)
    requires WorldOk(w)
    ensures FirstIdentity(w, ids).Some? ==> FirstIdentity(w, ids).value in Answers(w)
  {
    if ids != [] {
      FirstIdentityAnswers(w, ids[1..]);
    }
  }

  /** Whatever rule matched, the returned key exists. */
  lemma FoundIsLive(w: World, b: Book)
    requires WorldOk(w)
    ensures Found(w, b).Ok? && Found(w, b).value.Some? ==> Found(w, b).value.value in w.live
    ensures FindExisting(w, b).Some? ==> FindExisting(w, b).value in Answers(w)
  {
    var p := w.plans(b.uuid);
    FirstPresentAnswers(p.exact, Answers(w));
    FirstMatchAnswers(w, p.wild);
    FirstPresentAnswers(p.rawExact, Answers(w));
    FirstMatchAnswers(w, p.rawWild);
    FirstIdentityAnswers(w, [b.productId]);
    FirstIdentityAnswers(w, BookIds(b));
  }

  lemma {:induction false} FirstIdentityFinds(w: World, ids: seq<string>, id: string)
    requires WorldOk(w) && id in ids && IdentityKeys(w, id) != {}
    ensures FirstIdentity(w, ids).Some?
  {
    if ids[0] != id {
      FirstIdentityFinds(w, ids[1..], id);
    }
  }

  /** One live identity row for any of its identities is enough to find a book. */
  lemma IdentityRowIsEnough(w: World, b: Book, id: string, key: Key)
    requires WorldOk(w) && KnownBy(b, id) && key in Answers(w) && IdentityRow(w.fold(id), key) in w.rows
    ensures FindExisting(w, b).Some?
  {
    BookIdsExactly(b, id);
    assert IdentityRow(w.fold(id), key).key in IdentityKeys(w, id);
    FirstIdentityFinds(w, BookIds(b), id);
  }

  /** Marking or clearing a row does not disturb what the next lookup finds. */
  lemma VerdictIsStable(w: World, o: Options, b: Book)
    requires WorldOk(w)
    ensures var (b', _) := Verdict(w, o, b);
            Verdict(w, o, b') ==
              (b', if !Selected(o, b) then Skipped else if Verdict(w, o, b).1 == LookupFailed then LookupFailed else Unchanged)
  {
    FoundIsLive(w, b);
    var (b', _) := Verdict(w, o, b);
    assert FindUnstored(w, b') == FindUnstored(w, b);
  }

  // ---- the whole library ----

  predicate Listed(o: Options, b: Book) {
    o.account.None? || b.account == o.account.value
  }

  /** Rows in id order, as the database returns them. */
  predicate Library(books: seq<Book>) {
    forall i, j :: 0 <= i < j < |books| ==> books[i].id < books[j].id
  }

  /** `list_books_page`. */
  function BooksAfter(books: seq<Book>, o: Options, after: Option<int>): seq<Book> {
    if books == [] then []
    else (if Listed(o, books[0]) && (after.None? || after.value < books[0].id) then [books[0]] else [])
         + BooksAfter(books[1..], o, after)
  }

  function BooksPage(books: seq<Book>, o: Options, after: Option<int>, limit: nat): seq<Book> {
    var rest := BooksAfter(books, o, after);
    if |rest| <= limit then rest else rest[..limit]
  }

  /** `set_acquire_status` finds its row by the title's own id. */
  function Updated(books: seq<Book>, b: Book): seq<Book> {
    seq(|books|, i requires 0 <= i < |books| => if books[i].id == b.id then b else books[i])
  }

  predicate Due(o: Options, upto: Option<int>, b: Book) {
    Listed(o, b) && upto.Some? && b.id <= upto.value
  }

  /** The library once every listed book up to an id has been handled. */
  ghost function Done(w: World, o: Options, upto: Option<int>, books: seq<Book>): seq<Book>
    requires WorldOk(w)
  {
    seq(|books|, i requires 0 <= i < |books| => if Due(o, upto, books[i]) then Verdict(w, o, books[i]).0 else books[i])
  }

  ghost function Tally(w: World, o: Options, upto: Option<int>, books: seq<Book>): Summary
    requires WorldOk(w)
  {
    if books == [] then Summary(0, 0, 0)
    else
      var rest := Tally(w, o, upto, books[..|books| - 1]);
      var b := books[|books| - 1];
      if Due(o, upto, b) then Tallied(rest, Verdict(w, o, b).1) else rest
  }

  /** Every listed book handled, and what the run reports. */
  ghost function Reconciled(w: World, o: Options, books: seq<Book>): seq<Book>
    requires WorldOk(w)
  {
    seq(|books|, i requires 0 <= i < |books| => if Listed(o, books[i]) then Verdict(w, o, books[i]).0 else books[i])
  }

  ghost function Reported(w: World, o: Options, books: seq<Book>): Summary
    requires WorldOk(w)
  {
    if books == [] then Summary(0, 0, 0)
    else
      var rest := Reported(w, o, books[..|books| - 1]);
      var b := books[|books| - 1];
      if Listed(o, b) then Tallied(rest, Verdict(w, o, b).1) else rest
  }

  // ---- paging through the library ----

  /** The rest of the listing: exactly the listed books beyond the cursor, in id order. */
  ghost predicate RestOf(rest: seq<Book>, books: seq<Book>, o: Options, after: Option<int>) {
    && Library(rest)
    && (forall b :: b in rest <==> b in books && Listed(o, b) && (after.None? || after.value < b.id))
  }

  lemma {:induction false} BooksAfterMembers(books: seq<Book>, o: Options, after: Option<int>, b: Book)
    ensures b in BooksAfter(books, o, after) <==> b in books && Listed(o, b) && (after.None? || after.value < b.id)
  {
    if books != [] {
      BooksAfterMembers(books[1..], o, after, b);
      assert books == [books[0]] + books[1..];
    }
  }

  lemma {:induction false} BooksAfterIsRest(books: seq<Book>, o: Options, after: Option<int>)
    requires Library(books)
    ensures RestOf(BooksAfter(books, o, after), books, o, after)
  {
    forall b { BooksAfterMembers(books, o, after, b); }
    if books != [] {
      BooksAfterIsRest(books[1..], o, after);
      var tail := BooksAfter(books[1..], o, after);
      forall i | 0 <= i < |tail| ensures books[0].id < tail[i].id {
        assert tail[i] in tail && tail[i] in books[1..];
        var j :| 0 <= j < |books[1..]| && books[1..][j] == tail[i];
        assert books[j + 1] == tail[i];
      }
    }
  }

  /** Handled rows lie behind the cursor, so a page read later equals one read at the start. */
  lemma {:induction false} LaterPage(w: World, o: Options, after: Option<int>, books: seq<Book>)
    requires WorldOk(w)
    ensures BooksAfter(Done(w, o, after, books), o, after) == BooksAfter(books, o, after)
  {
    if books != [] {
      var done := Done(w, o, after, books);
      assert done[1..] == Done(w, o, after, books[1..]);
      LaterPage(w, o, after, books[1..]);
    }
  }

  /** `next` is the next listed book after `upto`. */
  ghost predicate Next(books: seq<Book>, o: Options, upto: Option<int>, next: Book) {
    && next in books && Listed(o, next) && (upto.None? || upto.value < next.id)
    && (forall b :: b in books && Listed(o, b) && (upto.None? || upto.value < b.id) ==> b == next || next.id < b.id)
  }

  lemma DoneNext(w: World, o: Options, upto: Option<int>, books: seq<Book>, next: Book)
    requires WorldOk(w) && Library(books) && Next(books, o, upto, next)
    ensures Done(w, o, Some(next.id), books) == Updated(Done(w, o, upto, books), Verdict(w, o, next).0)
  {
    var was, now := Done(w, o, upto, books), Done(w, o, Some(next.id), books);
    forall i | 0 <= i < |books|
      ensures now[i] == Updated(was, Verdict(w, o, next).0)[i]
    {
      assert books[i] in books;
      var n :| 0 <= n < |books| && books[n] == next;
      assert was[i].id == books[i].id;
      assert i != n ==> books[i].id != next.id;
    }
  }

  /** What the last row adds to the two tallies. */
  lemma TallyLast(w: World, o: Options, upto: Option<int>, books: seq<Book>, b: Book)
    requires WorldOk(w)
    ensures Tally(w, o, upto, books + [b]) ==
            if Due(o, upto, b) then Tallied(Tally(w, o, upto, books), Verdict(w, o, b).1) else Tally(w, o, upto, books)
  {
    assert (books + [b])[..|books|] == books;
  }

  lemma {:induction false} TallyNext(w: World, o: Options, upto: Option<int>, books: seq<Book>, next: Book)
    requires WorldOk(w) && Library(books)
    requires Listed(o, next) && (upto.None? || upto.value < next.id)
    requires forall b :: b in books && Listed(o, b) && (upto.None? || upto.value < b.id) ==> b == next || next.id < b.id
    ensures Tally(w, o, Some(next.id), books) ==
            if next in books then Tallied(Tally(w, o, upto, books), Verdict(w, o, next).1) else Tally(w, o, upto, books)
  {
    if books != [] {
      var n := |books| - 1;
      var b := books[n];
      assert b in books;
      assert books == books[..n] + [b];
      if b == next {
        assert next !in books[..n];
      }
      TallyNext(w, o, upto, books[..n], next);
      TallyLast(w, o, upto, books[..n], b);
      TallyLast(w, o, Some(next.id), books[..n], b);
      TalliedTwice(Tally(w, o, upto, books[..n]), Verdict(w, o, next).1, Verdict(w, o, b).1);
    }
  }

  lemma TalliedTwice(s: Summary, a: Outcome, b: Outcome)
    ensures Tallied(Tallied(s, a), b) == Tallied(Tallied(s, b), a)
  {}

  /** Nothing is listed beyond the last id handled. */
  lemma {:induction false} AllDone(w: World, o: Options, upto: Option<int>, books: seq<Book>)
    requires WorldOk(w)
    requires forall b :: b in books && Listed(o, b) ==> upto.Some? && b.id <= upto.value
    ensures Done(w, o, upto, books) == Reconciled(w, o, books)
    ensures Tally(w, o, upto, books) == Reported(w, o, books)
  {
    if books != [] {
      var n := |books| - 1;
      assert books == books[..n] + [books[n]] && books[n] in books;
      AllDone(w, o, upto, books[..n]);
      forall i | 0 <= i < |books|
        ensures Done(w, o, upto, books)[i] == Reconciled(w, o, books)[i]
      {
        assert books[i] in books;
      }
    }
  }

  lemma {:induction false} NothingDone(w: World, o: Options, books: seq<Book>)
    requires WorldOk(w)
    ensures Done(w, o, None, books) == books && Tally(w, o, None, books) == Summary(0, 0, 0)
  {
    if books != [] {
      NothingDone(w, o, books[..|books| - 1]);
    }
  }

  /** Every listed book up to `upto` is handled, and no other. */
  ghost predicate Handled(w: World, o: Options, books: seq<Book>, upto: Option<int>, library: seq<Book>, s: Summary)
    requires WorldOk(w)
  {
    library == Done(w, o, upto, books) && s == Tally(w, o, upto, books)
  }

  /** Handling the next entry of the listing. */
  lemma HandledNext(w: World, o: Options, books: seq<Book>, rest: seq<Book>, start: Option<int>, i: nat, upto: Option<int>,
                    library: seq<Book>, s: Summary)
    requires WorldOk(w) && Library(books) && RestOf(rest, books, o, start) && i < |rest|
    requires upto == (if i == 0 then start else Some(rest[i - 1].id)) && Handled(w, o, books, upto, library, s)
    ensures var (next, outcome) := Verdict(w, o, rest[i]);
            Handled(w, o, books, Some(rest[i].id), Updated(library, next), Tallied(s, outcome))
  {
    PageNext(rest, books, o, start, i);
    DoneNext(w, o, upto, books, rest[i]);
    TallyNext(w, o, upto, books, rest[i]);
  }

  /** The listing still to come, as a page read now shows it; when it is empty, all is done. */
  lemma HandledRest(w: World, o: Options, books: seq<Book>, upto: Option<int>, library: seq<Book>, s: Summary)
    requires WorldOk(w) && Library(books) && Handled(w, o, books, upto, library, s)
    ensures var rest := BooksAfter(books, o, upto);
            && RestOf(rest, books, o, upto) && BooksAfter(library, o, upto) == rest
            && (rest == [] ==> library == Reconciled(w, o, books) && s == Reported(w, o, books))
  {
    LaterPage(w, o, upto, books);
    BooksAfterIsRest(books, o, upto);
    if BooksAfter(books, o, upto) == [] {
      AllDone(w, o, upto, books);
    }
  }

  /** A run that stopped before `bad`, whose lookup failed. */
  ghost predicate StoppedAt(w: World, o: Options, books: seq<Book>, upto: Option<int>, bad: Book)
    requires WorldOk(w)
  {
    Next(books, o, upto, bad) && Verdict(w, o, bad).1 == LookupFailed
  }

  /** No book handled so far failed. */
  ghost predicate NoneFailed(w: World, o: Options, books: seq<Book>, upto: Option<int>)
    requires WorldOk(w)
  {
    forall b :: b in books && Due(o, upto, b) ==> Verdict(w, o, b).1 != LookupFailed
  }

  lemma NoneFailedNext(w: World, o: Options, books: seq<Book>, upto: Option<int>, next: Book)
    requires WorldOk(w) && NoneFailed(w, o, books, upto) && Next(books, o, upto, next) && Verdict(w, o, next).1 != LookupFailed
    ensures NoneFailed(w, o, books, Some(next.id))
  {
    forall b | b in books && Due(o, Some(next.id), b) ensures Verdict(w, o, b).1 != LookupFailed {
      if !Due(o, upto, b) {
        assert b == next;
      }
    }
  }

  /** One page of books, each handled and written back, up to the first failure. */
  method ReconcilePage(db: Db, w: World, o: Options, page: seq<Book>, library: seq<Book>, summary: Summary,
                       ghost books: seq<Book>, ghost rest: seq<Book>, ghost start: Option<int>)
      returns (ok: bool, library': seq<Book>, summary': Summary, ghost upto: Option<int>, ghost bad: Book)
    requires WorldOk(w) && DbOf(db, w) && Library(books) && RestOf(rest, books, o, start)
    requires 0 < |page| <= |rest| && page == rest[..|page|]
    requires Handled(w, o, books, start, library, summary) && NoneFailed(w, o, books, start)
    ensures Handled(w, o, books, upto, library', summary') && NoneFailed(w, o, books, upto)
    ensures ok ==> upto == Some(page[|page| - 1].id)
    ensures !ok ==> StoppedAt(w, o, books, upto, bad)
  {
    ok, library', summary', upto, bad := true, library, summary, start, page[0];
    for i := 0 to |page|
      invariant upto == if i == 0 then start else Some(page[i - 1].id)
      invariant Handled(w, o, books, upto, library', summary') && NoneFailed(w, o, books, upto)
    {
      PageNext(rest, books, o, start, i);
      var next, outcome := ReconcileOne(db, w, o, page[i]);
      if outcome == LookupFailed {
        ok, bad := false, page[i];
        return;
      }
      HandledNext(w, o, books, rest, start, i, upto, library', summary');
      NoneFailedNext(w, o, books, upto, page[i]);
      library', summary' := Updated(library', next), Tallied(summary', outcome);
      upto := Some(page[i].id);
    }
  }

  /** `reconcile_library` after its scan. A failing lookup ends the run before its
      book is touched; the books before it keep their verdicts. */
  method ReconcileLibrary(db: Db, w: World, o: Options, books: seq<Book>)
      returns (ok: bool, library: seq<Book>, summary: Summary, ghost upto: Option<int>, ghost bad: Option<Book>)
    requires WorldOk(w) && DbOf(db, w) && Library(books)
    ensures ok ==> library == Reconciled(w, o, books) && summary == Reported(w, o, books)
    ensures !ok ==> library == Done(w, o, upto, books) && bad.Some? && StoppedAt(w, o, books, upto, bad.value)
    ensures NoneFailed(w, o, books, upto)
  {
    ok, library, summary, bad := true, books, Summary(0, 0, 0), None;
    var after: Option<int> := None;
    upto := None;
    NothingDone(w, o, books);
    while true
      invariant upto == after && ok
      invariant Handled(w, o, books, after, library, summary) && NoneFailed(w, o, books, after)
      decreases |BooksAfter(books, o, after)|
    {
      var page := BooksPage(library, o, after, BOOK_PAGE);
      ghost var rest := BooksAfter(books, o, after);
      HandledRest(w, o, books, after, library, summary);
      if page == [] {
        return;
      }
      ghost var stopped;
      ok, library, summary, upto, stopped := ReconcilePage(db, w, o, page, library, summary, books, rest, after);
      if !ok {
        bad := Some(stopped);
        return;
      }
      RestShrinks(books, o, after, Some(page[|page| - 1].id), |page|);
      after := Some(page[|page| - 1].id);
    }
  }

  /** A failing probe never clears a row: a run that stops has left every row
      either as it was or as its own completed lookup decided. */
  lemma StoppedRunKeepsRows(w: World, o: Options, books: seq<Book>, upto: Option<int>, bad: Book, i: nat)
    requires WorldOk(w) && StoppedAt(w, o, books, upto, bad) && NoneFailed(w, o, books, upto) && i < |books|
    ensures Done(w, o, upto, books)[i] != books[i] ==>
              && Found(w, books[i]).Ok? && books[i].id < bad.id
              && Done(w, o, upto, books)[i] == Verdict(w, o, books[i]).0
  {
    assert books[i] in books;
  }

  /** Entry `i` of the listing comes next once entry `i - 1` is handled. */
  lemma PageNext(rest: seq<Book>, books: seq<Book>, o: Options, start: Option<int>, i: nat)
    requires RestOf(rest, books, o, start) && i < |rest|
    ensures Next(books, o, if i == 0 then start else Some(rest[i - 1].id), rest[i])
  {
    assert rest[i] in rest;
    assert i > 0 ==> rest[i - 1] in rest;
    var upto := if i == 0 then start else Some(rest[i - 1].id);
    forall b | b in books && Listed(o, b) && (upto.None? || upto.value < b.id)
      ensures b == rest[i] || rest[i].id < b.id
    {
      assert b in rest;
      var j :| 0 <= j < |rest| && rest[j] == b;
      assert i <= j;
    }
  }

  lemma RestShrinks(books: seq<Book>, o: Options, start: Option<int>, after: Option<int>, n: nat)
    requires Library(books)
    requires var rest := BooksAfter(books, o, start); 0 < n <= |rest| && after == Some(rest[n - 1].id)
    ensures |BooksAfter(books, o, after)| < |BooksAfter(books, o, start)|
  {
    BooksAfterIsRest(books, o, start);
    var first := BooksAfter(books, o, start)[0];
    assert first in BooksAfter(books, o, start);
    ShrinkBy(books, o, start, after, first);
  }

  lemma {:induction false} ShrinkBy(books: seq<Book>, o: Options, start: Option<int>, after: Option<int>, first: Book)
    requires after.Some? && (start.None? || start.value < after.value)
    requires Listed(o, first) && (start.None? || start.value < first.id) && first.id <= after.value
    ensures |BooksAfter(books, o, after)| + (if first in books then 1 else 0) <= |BooksAfter(books, o, start)|
  {
    if books != [] {
      assert books == [books[0]] + books[1..];
      ShrinkBy(books[1..], o, start, after, first);
    }
  }

  // ---- what reconcile promises ----

  function Counted(o: Options, books: seq<Book>): nat {
    if books == [] then 0
    else Counted(o, books[..|books| - 1])
         + if Listed(o, books[|books| - 1]) && Selected(o, books[|books| - 1]) then 1 else 0
  }

  /** The three counters add up to the number of books that pass the filters. */
  lemma {:induction false} CountersAddUp(w: World, o: Options, books: seq<Book>)
    requires WorldOk(w) && w.broken == {}
    ensures var s := Reported(w, o, books); s.matched + s.cleared + s.untouched == Counted(o, books)
  {
    if books != [] {
      CountersAddUp(w, o, books[..|books| - 1]);
    }
  }

  /** A second run over unchanged storage changes no row and reports nothing done. */
  lemma {:induction false} SecondRunChangesNothing(w: World, o: Options, books: seq<Book>)
    requires WorldOk(w)
    ensures var again := Reconciled(w, o, books);
            && Reconciled(w, o, again) == again
            && Reported(w, o, again).matched == 0 && Reported(w, o, again).cleared == 0
  {
    var again := Reconciled(w, o, books);
    forall i | 0 <= i < |books|
      ensures Reconciled(w, o, again)[i] == again[i]
    {
      VerdictIsStable(w, o, books[i]);
    }
    if books != [] {
      var n := |books| - 1;
      SecondRunChangesNothing(w, o, books[..n]);
      assert again[..n] == Reconciled(w, o, books[..n]);
      VerdictIsStable(w, o, books[n]);
    }
  }

  /** No key that exists or cannot be probed is the book's stored key, one of its
      planned paths, a scanned match of one of its patterns, or scanned under one
      of its identities. */
  ghost predicate Unfindable(w: World, b: Book) {
    var p := w.plans(b.uuid);
    && (b.storageKey.Some? ==> b.storageKey.value !in Answers(w))
    && (forall k :: k in p.exact || k in p.rawExact ==> k !in Answers(w))
    && (forall i :: 0 <= i < |p.wild| ==> NoMatch(w, p.wild[i]))
    && (forall i :: 0 <= i < |p.rawWild| ==> NoMatch(w, p.rawWild[i]))
    && (forall id, k :: KnownBy(b, id) && IdentityRow(w.fold(id), k) in w.rows ==> k !in Answers(w))
  }

  ghost predicate NoMatch(w: World, p: Pattern) {
    forall k :: ObjectRow(k) in w.rows && p.prefix <= k && p.matches(k) ==> k !in Answers(w)
  }

  lemma {:induction false} NonePresent(keys: seq<Key>, live: set<Key>)
    ensures FirstPresent(keys, live).None? <==> forall k :: k in keys ==> k !in live
  {
    if keys != [] {
      NonePresent(keys[1..], live);
      assert keys == [keys[0]] + keys[1..];
    }
  }

  lemma NoPatternKeys(w: World, p: Pattern)
    ensures PatternKeys(w, p) == {} <==> NoMatch(w, p)
  {
    forall k ensures k in PatternKeys(w, p) <==> ObjectRow(k) in w.rows && p.prefix <= k && p.matches(k) && k in Answers(w) {
      assert ObjectRow(k).key == k;
    }
  }

  lemma {:induction false} NoneMatches(w: World, patterns: seq<Pattern>)
    requires WorldOk(w)
    ensures FirstMatch(w, patterns).None? <==> forall i :: 0 <= i < |patterns| ==> NoMatch(w, patterns[i])
  {
    if patterns != [] {
      NoPatternKeys(w, patterns[0]);
      NoneMatches(w, patterns[1..]);
      assert forall i :: 0 < i < |patterns| ==> patterns[i] == patterns[1..][i - 1];
    }
  }

  lemma {:induction false} NoneIdentified(w: World, ids: seq<string>)
    requires WorldOk(w)
    ensures FirstIdentity(w, ids).None? <==>
              forall id, k :: id in ids && IdentityRow(w.fold(id), k) in w.rows ==> k !in Answers(w)
  {
    if ids != [] {
      forall k ensures k in IdentityKeys(w, ids[0]) <==> IdentityRow(w.fold(ids[0]), k) in w.rows && k in Answers(w) {
        assert IdentityRow(w.fold(ids[0]), k).key == k;
      }
      NoneIdentified(w, ids[1..]);
      assert ids == [ids[0]] + ids[1..];
    }
  }

  /** A lookup that ends with nothing has ruled out every key there is. */
  lemma NothingFoundExactlyWhen(w: World, b: Book)
    requires WorldOk(w)
    ensures Found(w, b) == Ok(None) <==> Unfindable(w, b)
  {
    var p := w.plans(b.uuid);
    NonePresent(p.exact, Answers(w));
    NoneMatches(w, p.wild);
    NonePresent(p.rawExact, Answers(w));
    NoneMatches(w, p.rawWild);
    NoneIdentified(w, [b.productId]);
    NoneIdentified(w, BookIds(b));
    assert b.productId == BookIds(b)[0];
    forall id { BookIdsExactly(b, id); }
  }

  /** A row is cleared exactly when a full reconcile was asked to clear, the row was
      Acquired, and no key that exists or cannot be probed could be its book. */
  lemma ClearedOnlyWhenUnfindable(w: World, o: Options, b: Book)
    requires WorldOk(w)
    ensures Verdict(w, o, b).1 == Cleared <==>
              && Selected(o, b) && b.status == Acquired && o.clearMissing && !o.onlyMarkFound
              && Unfindable(w, b)
    ensures Verdict(w, o, b).1 == Cleared ==> Verdict(w, o, b).0 == b.(status := NotAcquired, storageKey := None)
  {
    NothingFoundExactlyWhen(w, b);
  }

  // ---- which of several candidates is returned ----

  /** Key `k` answers as entry `pos` of rule `rule`: the stored key, the planned
      paths, their patterns, the raw template's paths and patterns, and then the
      product id, the ASIN and the ISBN. */
  ghost predicate Tried(w: World, b: Book, rule: nat, pos: nat, k: Key) {
    var p := w.plans(b.uuid);
    && k in Answers(w)
    && match rule
       case 0 => pos == 0 && b.storageKey == Some(k)
       case 1 => pos < |p.exact| && p.exact[pos] == k
       case 2 => pos < |p.wild| && ScannedMatch(w, p.wild[pos], k)
       case 3 => pos < |p.rawExact| && p.rawExact[pos] == k
       case 4 => pos < |p.rawWild| && ScannedMatch(w, p.rawWild[pos], k)
       case 5 => pos == 0 && IdentityRow(w.fold(b.productId), k) in w.rows
       case 6 => pos == 0 && b.asin.Some? && IdentityRow(w.fold(b.asin.value), k) in w.rows
       case 7 => pos == 0 && b.isbn.Some? && IdentityRow(w.fold(b.isbn.value), k) in w.rows
       case _ => false
  }

  predicate ScannedMatch(w: World, p: Pattern, k: Key) {
    ObjectRow(k) in w.rows && p.prefix <= k && p.matches(k)
  }

  predicate Earlier(rule: nat, pos: nat, rule': nat, pos': nat) {
    rule < rule' || (rule == rule' && pos < pos')
  }

  lemma {:induction false} FirstPresentAt(keys: seq<Key>, live: set<Key>) returns (pos: nat)
    requires FirstPresent(keys, live).Some?
    ensures pos < |keys| && FirstPresent(keys, live) == Some(keys[pos]) && keys[pos] in live
    ensures forall i :: 0 <= i < pos ==> keys[i] !in live
  {
    if keys[0] in live {
      pos := 0;
    } else {
      var rest := FirstPresentAt(keys[1..], live);
      pos := rest + 1;
      assert forall i :: 0 < i < pos ==> keys[i] == keys[1..][i - 1];
    }
  }

  lemma PatternKeysExactly(w: World, p: Pattern, k: Key)
    ensures k in PatternKeys(w, p) <==> k in Answers(w) && ScannedMatch(w, p, k)
  {
    assert ObjectRow(k).key == k;
  }

  lemma IdentityKeysExactly(w: World, id: string, k: Key)
    ensures k in IdentityKeys(w, id) <==> k in Answers(w) && IdentityRow(w.fold(id), k) in w.rows
  {
    assert IdentityRow(w.fold(id), k).key == k;
  }

  lemma {:induction false} FirstMatchAt(w: World, patterns: seq<Pattern>) returns (pos: nat)
    requires WorldOk(w) && FirstMatch(w, patterns).Some?
    ensures pos < |patterns| && IsLeast(w.byKey, PatternKeys(w, patterns[pos]), FirstMatch(w, patterns))
    ensures forall i :: 0 <= i < pos ==> PatternKeys(w, patterns[i]) == {}
  {
    if Least(w.byKey, PatternKeys(w, patterns[0])).Some? {
      pos := 0;
    } else {
      var rest := FirstMatchAt(w, patterns[1..]);
      pos := rest + 1;
      assert forall i :: 0 < i < |patterns| ==> patterns[i] == patterns[1..][i - 1];
    }
  }

  /** The identities one by one. */
  lemma IdentitiesInTurn(w: World, b: Book)
    requires WorldOk(w)
    ensures OrElse(FirstIdentity(w, [b.productId]), FirstIdentity(w, BookIds(b))) ==
            OrElse(Least(w.better, IdentityKeys(w, b.productId)),
            OrElse(if b.asin.Some? then Least(w.better, IdentityKeys(w, b.asin.value)) else None,
                   if b.isbn.Some? then Least(w.better, IdentityKeys(w, b.isbn.value)) else None))
  {
    var last := [AsinOrIsbn(b)];
    var isbns := (if b.isbn.Some? then [b.isbn.value] else []) + last;
    var asins := (if b.asin.Some? then [b.asin.value] else []) + isbns;
    assert last[1..] == [] && [b.productId][1..] == [];
    assert b.isbn.Some? ==> isbns[1..] == last;
    assert b.asin.Some? ==> asins[1..] == isbns;
    assert BookIds(b) == [b.productId] + asins && BookIds(b)[1..] == asins;
    assert FirstIdentity(w, BookIds(b)) ==
           OrElse(Least(w.better, IdentityKeys(w, b.productId)), FirstIdentity(w, asins));
    assert FirstIdentity(w, last) == Least(w.better, IdentityKeys(w, AsinOrIsbn(b)));
    assert FirstIdentity(w, isbns) ==
           OrElse(if b.isbn.Some? then Least(w.better, IdentityKeys(w, b.isbn.value)) else None, FirstIdentity(w, last));
    assert FirstIdentity(w, asins) ==
           OrElse(if b.asin.Some? then Least(w.better, IdentityKeys(w, b.asin.value)) else None, FirstIdentity(w, isbns));
  }

  function PathsOf(p: Plans, rule: nat): seq<Key> {
    if rule == 1 then p.exact else p.rawExact
  }

  function PatternsOf(p: Plans, rule: nat): seq<Pattern> {
    if rule == 2 then p.wild else p.rawWild
  }

  lemma NoneTriedPresent(w: World, b: Book, rule: nat)
    requires rule in {1, 3} && FirstPresent(PathsOf(w.plans(b.uuid), rule), Answers(w)).None?
    ensures forall pos, k :: !Tried(w, b, rule, pos, k)
  {
    NonePresent(PathsOf(w.plans(b.uuid), rule), Answers(w));
  }

  lemma NoneTriedMatching(w: World, b: Book, rule: nat)
    requires rule in {2, 4} && WorldOk(w) && FirstMatch(w, PatternsOf(w.plans(b.uuid), rule)).None?
    ensures forall pos, k :: !Tried(w, b, rule, pos, k)
  {
    var patterns := PatternsOf(w.plans(b.uuid), rule);
    NoneMatches(w, patterns);
    forall pos: nat, k ensures !Tried(w, b, rule, pos, k) {
      if pos < |patterns| {
        assert NoMatch(w, patterns[pos]);
      }
    }
  }

  /** Nothing answers before entry `pos` of rule `rule`, and `k` is the best that does there. */
  ghost predicate FirstTried(w: World, b: Book, rule: nat, pos: nat, k: Key) {
    && Tried(w, b, rule, pos, k)
    && (forall rule', pos', k' :: Earlier(rule', pos', rule, pos) ==> !Tried(w, b, rule', pos', k'))
    && (forall k' :: Tried(w, b, rule, pos, k') ==> k' == k || (if rule <= 4 then w.byKey else w.better)(k, k'))
  }

  ghost predicate NoneBefore(w: World, b: Book, rule: nat) {
    forall rule': nat, pos: nat, k :: rule' < rule ==> !Tried(w, b, rule', pos, k)
  }

  lemma NoneBeforeNext(w: World, b: Book, rule: nat)
    requires NoneBefore(w, b, rule) && forall pos, k :: !Tried(w, b, rule, pos, k)
    ensures NoneBefore(w, b, rule + 1)
  {
    forall rule': nat, pos, k | rule' < rule + 1 ensures !Tried(w, b, rule', pos, k) {
      if rule' == rule {
        assert !Tried(w, b, rule, pos, k);
      }
    }
  }

  lemma PresentAt(w: World, b: Book, rule: nat) returns (pos: nat)
    requires rule in {1, 3} && FirstPresent(PathsOf(w.plans(b.uuid), rule), Answers(w)).Some? && NoneBefore(w, b, rule)
    ensures FirstTried(w, b, rule, pos, FirstPresent(PathsOf(w.plans(b.uuid), rule), Answers(w)).value)
  {
    pos := FirstPresentAt(PathsOf(w.plans(b.uuid), rule), Answers(w));
  }

  lemma MatchAt(w: World, b: Book, rule: nat) returns (pos: nat)
    requires rule in {2, 4} && WorldOk(w) && FirstMatch(w, PatternsOf(w.plans(b.uuid), rule)).Some? && NoneBefore(w, b, rule)
    ensures FirstTried(w, b, rule, pos, FirstMatch(w, PatternsOf(w.plans(b.uuid), rule)).value)
  {
    var patterns := PatternsOf(w.plans(b.uuid), rule);
    pos := FirstMatchAt(w, patterns);
    forall i: nat, k | i <= pos ensures Tried(w, b, rule, i, k) <==> k in PatternKeys(w, patterns[i]) {
      PatternKeysExactly(w, patterns[i], k);
    }
  }

  lemma IdentityAt(w: World, b: Book) returns (rule: nat)
    requires WorldOk(w) && OrElse(FirstIdentity(w, [b.productId]), FirstIdentity(w, BookIds(b))).Some?
    requires NoneBefore(w, b, 5)
    ensures FirstTried(w, b, rule, 0, OrElse(FirstIdentity(w, [b.productId]), FirstIdentity(w, BookIds(b))).value)
  {
    IdentitiesInTurn(w, b);
    forall k ensures Tried(w, b, 5, 0, k) <==> k in IdentityKeys(w, b.productId) { IdentityKeysExactly(w, b.productId, k); }
    forall k ensures Tried(w, b, 6, 0, k) <==> b.asin.Some? && k in IdentityKeys(w, b.asin.value) {
      if b.asin.Some? { IdentityKeysExactly(w, b.asin.value, k); }
    }
    forall k ensures Tried(w, b, 7, 0, k) <==> b.isbn.Some? && k in IdentityKeys(w, b.isbn.value) {
      if b.isbn.Some? { IdentityKeysExactly(w, b.isbn.value, k); }
    }
    rule := if IdentityKeys(w, b.productId) != {} then 5
            else if b.asin.Some? && IdentityKeys(w, b.asin.value) != {} then 6 else 7;
  }

  /** A lookup stops at the first entry of the first rule that answers at all, and
      there at the best key. */
  lemma FoundByFirstRule(w: World, b: Book) returns (rule: nat, pos: nat)
    requires WorldOk(w) && FindExisting(w, b).Some?
    ensures FirstTried(w, b, rule, pos, FindExisting(w, b).value)
  {
    var p := w.plans(b.uuid);
    rule, pos := 0, 0;
    if !(b.storageKey.Some? && b.storageKey.value in Answers(w)) {
      assert NoneBefore(w, b, 0);
      NoneBeforeNext(w, b, 0);
      rule, pos := FoundUnstored(w, b);
    }
  }

  lemma FoundUnstored(w: World, b: Book) returns (rule: nat, pos: nat)
    requires WorldOk(w) && FindUnstored(w, b).Some? && NoneBefore(w, b, 1)
    ensures FirstTried(w, b, rule, pos, FindUnstored(w, b).value)
  {
    var p := w.plans(b.uuid);
    rule, pos := 1, 0;
    while rule < 5
      invariant 1 <= rule <= 5 && NoneBefore(w, b, rule)
      invariant rule > 1 ==> FirstPresent(p.exact, Answers(w)).None?
      invariant rule > 2 ==> FirstMatch(w, p.wild).None?
      invariant rule > 3 ==> FirstPresent(p.rawExact, Answers(w)).None?
      invariant rule > 4 ==> FirstMatch(w, p.rawWild).None?
    {
      if rule in {1, 3} {
        if FirstPresent(PathsOf(p, rule), Answers(w)).Some? {
          pos := PresentAt(w, b, rule);
          return;
        }
        NoneTriedPresent(w, b, rule);
      } else {
        if FirstMatch(w, PatternsOf(p, rule)).Some? {
          pos := MatchAt(w, b, rule);
          return;
        }
        NoneTriedMatching(w, b, rule);
      }
      NoneBeforeNext(w, b, rule);
      rule := rule + 1;
    }
    rule := IdentityAt(w, b);
    pos := 0;
  }

  /** A filter entry selects a book by any of its ids, in any case. */
  lemma SelectedExactlyWhen(o: Options, b: Book)
    ensures Selected(o, b) <==>
              o.asins == [] || exists entry, id :: entry in o.asins && (id == b.uuid || KnownBy(b, id)) && Lower(entry) == Lower(id)
  {
    if o.asins != [] && Selected(o, b) {
      var i :| 0 <= i < |o.asins| && Named(b, o.asins[i]);
      var id := if Lower(o.asins[i]) == Lower(b.uuid) then b.uuid
                else if Lower(o.asins[i]) == Lower(b.productId) then b.productId
                else if b.isbn.Some? && Lower(o.asins[i]) == Lower(b.isbn.value) then b.isbn.value
                else b.asin.value;
      assert o.asins[i] in o.asins && (id == b.uuid || KnownBy(b, id)) && Lower(o.asins[i]) == Lower(id);
    }
  }
}
