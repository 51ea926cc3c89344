/** The in-process overlay of keys written since the scan. */
module Overlay {
  import opened Basics
  import opened Keys

  /** The inserted keys that carry an identity, in insertion order. */
  function Holding(inserted: seq<Key>, id: string): seq<Key> {
    if inserted == [] then []
    else
      var n := |inserted| - 1;
      Holding(inserted[..n], id) + if id in Ids(inserted[n]) then [inserted[n]] else []
  }

  lemma {:induction false} HoldingMembers(inserted: seq<Key>, id: string, key: Key)
    ensures key in Holding(inserted, id) <==> key in inserted && id in Ids(key)
  {
    if inserted != [] {
      var n := |inserted| - 1;
      HoldingMembers(inserted[..n], id, key);
      assert inserted == inserted[..n] + [inserted[n]];
    }
  }

  /** `best` is the earliest entry of least rank. */
  ghost predicate EarliestBest(rank: Key -> nat, candidates: seq<Key>, best: Option<Key>) {
    match best
    case None => candidates == []
    case Some(k) =>
      exists i :: 0 <= i < |candidates| && candidates[i] == k
        && (forall j :: 0 <= j < |candidates| ==> rank(k) <= rank(candidates[j]))
        && (forall j :: 0 <= j < i ==> rank(k) < rank(candidates[j]))
  }

  /** `pick_best_media_key`. */
  method PickBest(rank: Key -> nat, candidates: seq<Key>) returns (best: Option<Key>)
    ensures EarliestBest(rank, candidates, best)
  {
    if candidates == [] {
      return None;
    }
    var at := 0;
    for i := 1 to |candidates|
      invariant 0 <= at < i
      invariant forall j :: 0 <= j < i ==> rank(candidates[at]) <= rank(candidates[j])
      invariant forall j :: 0 <= j < at ==> rank(candidates[at]) < rank(candidates[j])
    {
      if rank(candidates[i]) < rank(candidates[at]) {
        at := i;
      }
    }
    return Some(candidates[at]);
  }

  /** The identity a lookup of `asin` ends up reading: the upper-cased id when
      some key carries it, else the digits of an ISBN in any notation. */
  function LookupId(inserted: seq<Key>, asin: string): Option<string> {
    if Holding(inserted, Upper(asin)) != [] then Some(Upper(asin)) else NormalizeIsbn13(asin)
  }

  /** What a lookup of `asin` over the inserted keys returns. */
  ghost predicate BestInserted(inserted: seq<Key>, asin: string, r: Option<Key>) {
    match LookupId(inserted, asin)
    case None => r == None
    case Some(id) => EarliestBest(MediaRank, Holding(inserted, id), r)
  }

  method Push(byAsin: map<string, seq<Key>>, ids: set<string>, key: Key) returns (r: map<string, seq<Key>>)
    ensures forall id :: id in r <==> id in byAsin || id in ids
    ensures forall id :: id in r ==>
              r[id] == (if id in byAsin then byAsin[id] else []) + if id in ids then [key] else []
  {
    r := byAsin;
    var todo := ids;
    while todo != {}
      invariant todo <= ids
      invariant forall id :: id in r <==> id in byAsin || id in ids - todo
      invariant forall id :: id in r ==>
                  r[id] == (if id in byAsin then byAsin[id] else []) + if id in ids - todo then [key] else []
      decreases todo
    {
      var id :| id in todo;
      r := r[id := (if id in r then r[id] else []) + [key]];
      todo := todo - {id};
    }
  }

  class StorageIndex {
    var byAsin: map<string, seq<Key>>
    var allKeys: set<Key>
    ghost var inserted: seq<Key>

    ghost predicate Valid()
      reads this
    {
      && (forall k :: k in allKeys <==> k in inserted)
      && (forall id :: id in byAsin <==> Holding(inserted, id) != [])
      && (forall id :: id in byAsin ==> byAsin[id] == Holding(inserted, id))
    }

    constructor ()
      ensures Valid() && inserted == []
    {
      byAsin, allKeys, inserted := map[], {}, [];
    }

    /** `insert_key`: the key joins the candidates of every identity in its path. */
    method InsertKey(key: Key)
      requires Valid()
      modifies this
      ensures Valid() && inserted == old(inserted) + [key]
    {
      allKeys := allKeys + {key};
      byAsin := Push(byAsin, Ids(key), key);
      assert (inserted + [key])[..|inserted|] == inserted;
      inserted := inserted + [key];
    }

    /** `best_key_for_asin`: the earliest inserted key of least rank among those
        that carry the identity. */
    method BestKeyForAsin(asin: string) returns (r: Option<Key>)
      requires Valid()
      ensures BestInserted(inserted, asin, r)
    {
      var upper := Upper(asin);
      if upper in byAsin {
        r := PickBest(MediaRank, byAsin[upper]);
        return;
      }
      match NormalizeIsbn13(asin)
      case None => return None;
      case Some(isbn) =>
        if isbn !in byAsin {
          return None;
        }
        r := PickBest(MediaRank, byAsin[isbn]);
    }
  }

  /** Unlike the scan rows, the overlay also answers for an ISBN in any notation:
      a lookup finds a key exactly when one carries the id it normalises to. */
  lemma OverlayFindsExactlyWhen(inserted: seq<Key>, asin: string, r: Option<Key>)
    requires BestInserted(inserted, asin, r)
    ensures r.Some? <==> exists k :: k in inserted && (Upper(asin) in Ids(k)
                                       || (NormalizeIsbn13(asin).Some? && NormalizeIsbn13(asin).value in Ids(k)))
  {
    var upper, isbn := Upper(asin), NormalizeIsbn13(asin);
    forall k ensures k in Holding(inserted, upper) <==> k in inserted && upper in Ids(k) {
      HoldingMembers(inserted, upper, k);
    }
    if isbn.Some? {
      forall k ensures k in Holding(inserted, isbn.value) <==> k in inserted && isbn.value in Ids(k) {
        HoldingMembers(inserted, isbn.value, k);
      }
    }
    if r.Some? {
      assert r.value in Holding(inserted, LookupId(inserted, asin).value);
    }
  }
}
