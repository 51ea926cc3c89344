/** Wrappers and the string order shared by every model in this project. */
module Basics {

  datatype Option<+T> = None | Some(value: T)

  datatype Result<+T, +E> = Ok(value: T) | Err(error: E)

  /** Strict lexicographic order on character numbers, the order in which
      storage pages, database pages and upload names are compared. */
  predicate Less(a: string, b: string) {
    b != "" && (a == "" || a[0] < b[0] || (a[0] == b[0] && Less(a[1..], b[1..])))
  }

  lemma {:induction false} LessIrreflexive(a: string)
    ensures !Less(a, a)
  {
    if a != "" {
      LessIrreflexive(a[1..]);
    }
  }

  lemma {:induction false} LessTransitive(a: string, b: string, c: string)
    requires Less(a, b) && Less(b, c)
    ensures Less(a, c)
  {
    if a != "" && a[0] == b[0] && b[0] == c[0] {
      LessTransitive(a[1..], b[1..], c[1..]);
    }
  }

  lemma {:induction false} LessTotal(a: string, b: string)
    ensures Less(a, b) || a == b || Less(b, a)
  {
    if a != "" && b != "" && a[0] == b[0] {
      LessTotal(a[1..], b[1..]);
      assert a == [a[0]] + a[1..] && b == [b[0]] + b[1..];
    }
  }

  lemma LessAsymmetric(a: string, b: string)
    requires Less(a, b)
    ensures !Less(b, a)
  {
    if Less(b, a) {
      LessTransitive(a, b, a);
      LessIrreflexive(a);
    }
  }

  /** The strings agree up to `i`, where `a` ends or has the smaller character. */
  predicate SmallerAt(a: string, b: string, i: nat) {
    i <= |a| && i < |b| && (forall j :: 0 <= j < i ==> a[j] == b[j]) && (i == |a| || a[i] < b[i])
  }

  lemma {:induction false} LessAt(a: string, b: string) returns (i: nat)
    requires Less(a, b)
    ensures SmallerAt(a, b, i)
  {
    i := 0;
    if a != "" && a[0] == b[0] {
      var rest := LessAt(a[1..], b[1..]);
      i := rest + 1;
      forall j | 0 <= j < i ensures a[j] == b[j] {
        if j > 0 { assert a[1..][j - 1] == b[1..][j - 1]; }
      }
    }
  }

  lemma {:induction false} SmallerIsLess(a: string, b: string, i: nat)
    requires SmallerAt(a, b, i)
    ensures Less(a, b)
  {
    if i > 0 {
      assert forall j :: 0 <= j < i - 1 ==> a[1..][j] == a[j + 1] && b[1..][j] == b[j + 1];
      SmallerIsLess(a[1..], b[1..], i - 1);
    }
  }

  /** The order of a dictionary: a proper prefix comes first, and otherwise the
      first character that differs decides. */
  lemma LessExactlyWhen(a: string, b: string)
    ensures Less(a, b) <==> exists i :: SmallerAt(a, b, i)
  {
    if Less(a, b) {
      var i := LessAt(a, b);
    }
    if i :| SmallerAt(a, b, i) {
      SmallerIsLess(a, b, i);
    }
  }

  /** A number that is not in use. */
  lemma Unused(ids: set<nat>) returns (id: nat)
    ensures id !in ids
  {
    id := Above(ids);
  }

  lemma {:induction false} Above(ids: set<nat>) returns (bound: nat)
    ensures forall id :: id in ids ==> id < bound
    decreases |ids|
  {
    if ids == {} {
      bound := 0;
    } else {
      var id :| id in ids;
      var rest := Above(ids - {id});
      bound := if id < rest then rest else id + 1;
      assert forall k :: k in ids ==> k == id || k in ids - {id};
    }
  }
}
