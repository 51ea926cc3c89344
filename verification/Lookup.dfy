/** Ordered lookups: the least live candidate, and the paged searches that find
    it in a database table or in a storage listing. */
module Lookup {
  import opened Basics
  import opened Keys

  type Order = (Key, Key) -> bool

  ghost predicate TotalOrder(lt: Order) {
    && (forall a :: !lt(a, a))
    && (forall a, b :: a == b || lt(a, b) || lt(b, a))
    && (forall a, b, c :: lt(a, b) && lt(b, c) ==> lt(a, c))
  }

  /** Better media first, ties in key order: the order of the identity rows. */
  predicate Better(a: Key, b: Key) {
    MediaRank(a) < MediaRank(b) || (MediaRank(a) == MediaRank(b) && Less(a, b))
  }

  lemma LessIsTotalOrder()
    ensures TotalOrder(Less)
  {
    forall a ensures !Less(a, a) { LessIrreflexive(a); }
    forall a, b ensures a == b || Less(a, b) || Less(b, a) { LessTotal(a, b); }
    forall a, b, c | Less(a, b) && Less(b, c) ensures Less(a, c) { LessTransitive(a, b, c); }
  }

  lemma BetterIsTotalOrder()
    ensures TotalOrder(Better)
  {
    ByRankIsTotalOrder(MediaRank);
    forall a, b ensures Better(a, b) == ByRank(MediaRank)(a, b) {}
    LessIsTotalOrder();
  }

  function ByRank(rank: Key -> nat): Order {
    (a, b) => rank(a) < rank(b) || (rank(a) == rank(b) && Less(a, b))
  }

  lemma ByRankIsTotalOrder(rank: Key -> nat)
    ensures TotalOrder(ByRank(rank))
  {
    LessIsTotalOrder();
  }

  // ---- the specification: the least element of a set ----

  ghost predicate IsLeast(lt: Order, s: set<Key>, r: Option<Key>) {
    match r
    case None => s == {}
    case Some(k) => k in s && forall j :: j in s ==> j == k || lt(k, j)
  }

  ghost function Least(lt: Order, s: set<Key>): (r: Option<Key>)
    requires TotalOrder(lt)
    ensures IsLeast(lt, s, r)
    decreases |s|
  {
    if s == {} then None
    else
      var k :| k in s;
      var rest := Least(lt, s - {k});
      assert forall j :: j in s ==> j == k || j in s - {k};
      if rest.None? || lt(k, rest.value) then Some(k) else rest
  }

  lemma LeastIsUnique(lt: Order, s: set<Key>, r: Option<Key>)
    requires TotalOrder(lt) && IsLeast(lt, s, r)
    ensures r == Least(lt, s)
  {}

  function Passing(t: seq<Key>, passes: Key -> bool): set<Key> {
    set k | k in t && passes(k)
  }

  // ---- a table in index order, read in pages ----

  ghost predicate Sorted(lt: Order, t: seq<Key>) {
    forall i, j :: 0 <= i < j < |t| ==> lt(t[i], t[j])
  }

  /** Rows strictly after the cursor, as the database filters them. */
  function After(lt: Order, t: seq<Key>, cursor: Option<Key>): seq<Key> {
    if t == [] then []
    else (if cursor.None? || lt(cursor.value, t[0]) then [t[0]] else []) + After(lt, t[1..], cursor)
  }

  function Page(lt: Order, t: seq<Key>, cursor: Option<Key>, limit: nat): seq<Key> {
    var rest := After(lt, t, cursor);
    if |rest| <= limit then rest else rest[..limit]
  }

  lemma {:induction false} AfterNone(lt: Order, t: seq<Key>)
    ensures After(lt, t, None) == t
  {
    if t != [] {
      AfterNone(lt, t[1..]);
    }
  }

  lemma {:induction false} AfterAll(lt: Order, t: seq<Key>, c: Key)
    requires forall k :: k in t ==> lt(c, k)
    ensures After(lt, t, Some(c)) == t
  {
    if t != [] {
      AfterAll(lt, t[1..], c);
    }
  }

  /** In a sorted table the rows after row `n - 1` are the rows from `n` on. */
  lemma {:induction false} AfterRow(lt: Order, t: seq<Key>, n: nat)
    requires TotalOrder(lt) && Sorted(lt, t) && 0 < n <= |t|
    ensures After(lt, t, Some(t[n - 1])) == t[n..]
  {
    if n == 1 {
      AfterAll(lt, t[1..], t[0]);
    } else {
      assert lt(t[0], t[n - 1]);
      AfterRow(lt, t[1..], n - 1);
      assert t[1..][n - 2] == t[n - 1];
    }
  }

  /** `first_live_scan_identity` and `find_pattern_in_scan`: page through the
      table and return the first row that passes the test and still exists. */
  method FirstLive(lt: Order, table: seq<Key>, limit: nat, passes: Key -> bool, live: set<Key>) returns (r: Option<Key>)
    requires TotalOrder(lt) && Sorted(lt, table) && 0 < limit
    ensures IsLeast(lt, Passing(table, passes) * live, r)
  {
    var after: Option<Key> := None;
    ghost var n := 0;
    while true
      invariant 0 <= n <= |table|
      invariant after == if n == 0 then None else Some(table[n - 1])
      invariant forall i :: 0 <= i < n ==> !(passes(table[i]) && table[i] in live)
      decreases |table| - n
    {
      var page := Page(lt, table, after, limit);
      assert After(lt, table, after) == table[n..] by {
        if n == 0 { AfterNone(lt, table); } else { AfterRow(lt, table, n); }
      }
      if page == [] {
        return None;
      }
      var i := 0;
      ghost var start := n;
      while i < |page|
        invariant 0 <= i <= |page| && n == start + i <= |table|
        invariant after == if n == 0 then None else Some(table[n - 1])
        invariant forall j :: 0 <= j < n ==> !(passes(table[j]) && table[j] in live)
      {
        var key := page[i];
        assert key == table[start..][i] == table[n];
        if passes(key) && key in live {
          return Some(key);
        }
        after := Some(key);
        i, n := i + 1, n + 1;
      }
      if |page| < limit {
        return None;
      }
    }
  }

  // ---- plain search, without an index ----

  /** Where the page after cursor `n` ends, when the backend puts `cut(n)` keys on it. */
  function PageEnd(cut: nat -> nat, size: nat, n: nat): nat {
    if n + cut(n) < size then n + cut(n) else size
  }

  function Position(cursor: Option<nat>): nat {
    if cursor.Some? then cursor.value else 0
  }

  /** The listing can be read to its end in at most `hops` pages, and no page
      returns the cursor it was asked for. */
  predicate Readable(cut: nat -> nat, size: nat, cursor: Option<nat>, hops: nat)
    decreases hops
  {
    && hops > 0
    && var stop := PageEnd(cut, size, Position(cursor));
       stop == size || (cursor != Some(stop) && Readable(cut, size, Some(stop), hops - 1))
  }

  /** A backend that puts a key on every page is read within as many pages as there are keys. */
  lemma {:induction false} SmallIsReadable(cut: nat -> nat, size: nat, cursor: Option<nat>, hops: nat)
    requires forall n: nat :: n < size ==> cut(n) > 0
    requires hops > 0 && size <= Position(cursor) + hops
    ensures Readable(cut, size, cursor, hops)
    decreases hops
  {
    var stop := PageEnd(cut, size, Position(cursor));
    if stop != size {
      SmallIsReadable(cut, size, Some(stop), hops - 1);
    }
  }

  const MAX_HOPS: nat := 1_000_000

  /** `stream_identity`: walk the whole listing, keep the best rank seen so far,
      stop early on the best rank there is. It fails when the listing cannot be
      read to the end, unless such an early stop comes first. */
  method StreamSearch(rank: Key -> nat, listing: seq<Key>, cut: nat -> nat, carries: Key -> bool)
      returns (r: Result<Option<Key>, string>)
    requires Sorted(Less, listing)
    ensures r.Ok? ==> IsLeast(ByRank(rank), Passing(listing, carries), r.value)
    ensures Readable(cut, |listing|, None, MAX_HOPS) ==> r.Ok?
    ensures r.Ok? && !Readable(cut, |listing|, None, MAX_HOPS) ==> r.value.Some? && rank(r.value.value) == 0
  {
    LessIsTotalOrder();
    var best: Option<Key> := None;
    var cursor: Option<nat> := None;
    var hops := 0;
    while true
      invariant Position(cursor) <= |listing| && hops <= MAX_HOPS
      invariant Readable(cut, |listing|, None, MAX_HOPS) <==> Readable(cut, |listing|, cursor, MAX_HOPS - hops)
      invariant IsLeast(ByRank(rank), Passing(listing[..Position(cursor)], carries), best)
      invariant best.Some? ==> rank(best.value) != 0
      decreases MAX_HOPS - hops
    {
      if hops == MAX_HOPS {
        return Err("identity list made no progress");
      }
      hops := hops + 1;
      var i := Position(cursor);
      var stop := PageEnd(cut, |listing|, i);
      while i < stop
        invariant Position(cursor) <= i <= stop <= |listing|
        invariant IsLeast(ByRank(rank), Passing(listing[..i], carries), best)
        invariant best.Some? ==> rank(best.value) != 0
      {
        var key := listing[i];
        Extend(rank, listing, carries, i, best);
        if carries(key) {
          if rank(key) == 0 {
            ZeroIsLeast(rank, listing, carries, i, best);
            return Ok(Some(key));
          }
          if best.None? || rank(key) < rank(best.value) {
            best := Some(key);
          }
        }
        i := i + 1;
      }
      if stop == |listing| {
        assert listing[..stop] == listing;
        return Ok(best);
      }
      if cursor == Some(stop) {
        return Err("identity list cursor did not advance");
      }
      cursor := Some(stop);
    }
  }

  /** `find_pattern_remote`: the first key of a listing that passes, in listing order. */
  method StreamFirst(listing: seq<Key>, cut: nat -> nat, passes: Key -> bool) returns (r: Result<Option<Key>, string>)
    requires Sorted(Less, listing)
    ensures r.Ok? ==> IsLeast(Less, Passing(listing, passes), r.value)
    ensures Readable(cut, |listing|, None, MAX_HOPS) ==> r.Ok?
  {
    var cursor: Option<nat> := None;
    var hops := 0;
    while true
      invariant Position(cursor) <= |listing| && hops <= MAX_HOPS
      invariant Readable(cut, |listing|, None, MAX_HOPS) <==> Readable(cut, |listing|, cursor, MAX_HOPS - hops)
      invariant forall i :: 0 <= i < Position(cursor) ==> !passes(listing[i])
      decreases MAX_HOPS - hops
    {
      if hops == MAX_HOPS {
        return Err("reconcile list made no progress");
      }
      hops := hops + 1;
      var stop := PageEnd(cut, |listing|, Position(cursor));
      for i := Position(cursor) to stop
        invariant forall j :: 0 <= j < i ==> !passes(listing[j])
      {
        if passes(listing[i]) {
          return Ok(Some(listing[i]));
        }
      }
      if stop == |listing| {
        return Ok(None);
      }
      if cursor == Some(stop) {
        return Err("reconcile list cursor did not advance");
      }
      cursor := Some(stop);
    }
  }

  /** `eq_ignore_ascii_case` against the ids of a path. */
  predicate HoldsId(key: Key, id: string) {
    exists found :: found in Ids(key) && Upper(found) == Upper(id)
  }

  /** Extracted ids are in upper case, so the comparison is membership of the upper-cased id. */
  lemma HoldsIdByUpper(key: Key, id: string)
    ensures HoldsId(key, id) <==> Upper(id) in Ids(key)
  {
    forall found | found in Ids(key) ensures Upper(found) == found { IdsAreCanonical(key, found); }
    assert Upper(Upper(id)) == Upper(id);
  }

  function KeysOf(listing: seq<Key>): set<Key> {
    set k | k in listing
  }

  /** The keys of a listing that the plain search considers, internal names and non-audio included. */
  function Holders(store: set<Key>, id: string): set<Key> {
    set k | k in store && Upper(id) in Ids(k)
  }

  /** The plain search for an identity over the whole store. */
  method StreamIdentity(listing: seq<Key>, cut: nat -> nat, id: string) returns (r: Result<Option<Key>, string>)
    requires Sorted(Less, listing)
    ensures TotalOrder(Better) && (r.Ok? ==> r.value == Least(Better, Holders(KeysOf(listing), id)))
    ensures Readable(cut, |listing|, None, MAX_HOPS) ==> r.Ok?
  {
    r := StreamSearch(MediaRank, listing, cut, key => HoldsId(key, id));
    BetterIsTotalOrder();
    forall k ensures HoldsId(k, id) <==> Upper(id) in Ids(k) { HoldsIdByUpper(k, id); }
    assert Passing(listing, key => HoldsId(key, id)) == Holders(KeysOf(listing), id);
    if r.Ok? {
      assert IsLeast(Better, Holders(KeysOf(listing), id), r.value);
      LeastIsUnique(Better, Holders(KeysOf(listing), id), r.value);
    }
  }

  /** How the best candidate changes with the next key in listing order. */
  lemma Extend(rank: Key -> nat, listing: seq<Key>, carries: Key -> bool, i: nat, best: Option<Key>)
    requires Sorted(Less, listing) && i < |listing|
    requires IsLeast(ByRank(rank), Passing(listing[..i], carries), best)
    ensures var key := listing[i];
            IsLeast(ByRank(rank), Passing(listing[..i + 1], carries),
                    if carries(key) && (best.None? || rank(key) < rank(best.value)) then Some(key) else best)
  {
    var key := listing[i];
    var old', new' := Passing(listing[..i], carries), Passing(listing[..i + 1], carries);
    assert listing[..i + 1] == listing[..i] + [key];
    assert new' == if carries(key) then old' + {key} else old';
    forall k | k in old' ensures Less(k, key) {
      var j :| 0 <= j < i && listing[..i][j] == k;
      assert listing[j] == k;
    }
  }

  /** Nothing later in key order beats a key of rank 0. */
  lemma ZeroIsLeast(rank: Key -> nat, listing: seq<Key>, carries: Key -> bool, i: nat, best: Option<Key>)
    requires Sorted(Less, listing) && i < |listing| && carries(listing[i]) && rank(listing[i]) == 0
    requires IsLeast(ByRank(rank), Passing(listing[..i], carries), best)
    requires best.Some? ==> rank(best.value) != 0
    ensures IsLeast(ByRank(rank), Passing(listing, carries), Some(listing[i]))
  {
    var key := listing[i];
    forall k | k in listing && carries(k) && k != key
      ensures ByRank(rank)(key, k)
    {
      var j :| 0 <= j < |listing| && listing[j] == k;
      if j < i {
        assert listing[..i][j] == k && k in Passing(listing[..i], carries);
        assert rank(best.value) <= rank(k);
      } else {
        assert Less(key, k);
      }
    }
  }
}
