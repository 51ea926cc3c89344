/** Chapter trees: flattening them, and rebasing them after a brand trim. */
module Cue {
  import opened Basics
  import Keys

  datatype Chapter = Chapter(title: string, start: nat)

  /** A JSON number field: absent, an integer, or anything else. */
  datatype Number = Missing | Int(value: int) | Other

  /** A chapter node. `nested` says whether it has a `chapters` array, `Scalar`
      is any JSON value that is not an object. */
  datatype Node =
    | Scalar
    | Node(title: Option<string>, snake: Number, camel: Number, nested: bool, kids: seq<Node>)

  function ClampMs(n: int): nat { if n < 0 then 0 else n }

  /** `start_offset_ms` when it is an integer, else `startOffsetMs`, else 0. */
  function Start(n: Node): nat {
    if n.Scalar? then 0
    else if n.snake.Int? then ClampMs(n.snake.value)
    else if n.camel.Int? then ClampMs(n.camel.value)
    else 0
  }

  /** The chapter a node itself contributes, if its title is not blank. */
  function Own(n: Node): seq<Chapter> {
    if n.Node? && n.title.Some? && Keys.Trim(n.title.value) != "" then [Chapter(Keys.Trim(n.title.value), Start(n))] else []
  }

  /** A node contributes a chapter exactly when its title shows something, and an
      integer start that is not negative is that chapter's start. */
  lemma ContributesExactlyWhen(n: Node)
    ensures Own(n) != [] <==> n.Node? && n.title.Some? && exists i :: 0 <= i < |n.title.value| && !Keys.Space(n.title.value[i])
    ensures Own(n) != [] ==>
              && (n.snake.Int? && n.snake.value >= 0 ==> Own(n)[0].start == n.snake.value)
              && (!n.snake.Int? && n.camel.Int? && n.camel.value >= 0 ==> Own(n)[0].start == n.camel.value)
              && (Own(n)[0].start > 0 ==> n.snake == Int(Own(n)[0].start) || n.camel == Int(Own(n)[0].start))
  {
    if n.Node? && n.title.Some? {
      Keys.TrimIsBlank(n.title.value);
    }
  }

  function Kids(n: Node): seq<Node> {
    if n.Node? && n.nested then n.kids else []
  }

  /** Depth-first, children before their parent. */
  function Collect(nodes: seq<Node>): seq<Chapter> {
    if nodes == [] then []
    else (if nodes[0].Node? && nodes[0].nested then Collect(nodes[0].kids) else []) + Own(nodes[0]) + Collect(nodes[1..])
  }

  lemma CollectStep(nodes: seq<Node>, i: nat)
    requires i < |nodes|
    ensures Collect(nodes[i..]) == Collect(Kids(nodes[i])) + Own(nodes[i]) + Collect(nodes[i + 1..])
  {
    assert nodes[i..][0] == nodes[i] && nodes[i..][1..] == nodes[i + 1..];
  }

  lemma Appended(out: seq<Chapter>, done: seq<Chapter>, a: seq<Chapter>, b: seq<Chapter>, rest: seq<Chapter>)
    ensures out + done + a + b == out + (done + (a + b))
    ensures out + done + [] + b == out + (done + ([] + b))
    ensures done + (a + b + rest) == done + (a + b) + rest
  {}

  /** `flatten_chapter_nodes`, pushing into `out`. */
  method FlattenNodes(nodes: seq<Node>, out: seq<Chapter>) returns (out': seq<Chapter>)
    ensures out' == out + Collect(nodes)
    decreases nodes
  {
    out' := out;
    ghost var done: seq<Chapter> := [];
    for i := 0 to |nodes|
      invariant out' == out + done && Collect(nodes) == done + Collect(nodes[i..])
    {
      var node := nodes[i];
      CollectStep(nodes, i);
      var pushed := out';
      if node.Node? && node.nested {
        pushed := FlattenNodes(node.kids, pushed);
      }
      Appended(out, done, Collect(Kids(node)), Own(node), Collect(nodes[i + 1..]));
      out' := pushed + Own(node);
      done := done + (Collect(Kids(node)) + Own(node));
    }
    assert nodes[|nodes|..] == [];
  }

  // ---- post-order ----

  /** The child positions that lead to a node. */
  type Path = seq<nat>

  /** The node at `path`, below siblings numbered from `from` on, contributes `c`. */
  predicate TitledAt(nodes: seq<Node>, from: nat, path: Path, c: Chapter)
    decreases |path|
  {
    && path != [] && from <= path[0] < from + |nodes|
    && var n := nodes[path[0] - from];
       if |path| == 1 then Own(n) == [c] else TitledAt(Kids(n), 0, path[1..], c)
  }

  /** A descendant comes before its ancestor, an earlier sibling's before a later one's. */
  predicate PostBefore(p: Path, q: Path)
    decreases |p|
  {
    && p != []
    && (q == [] || p[0] < q[0] || (p[0] == q[0] && PostBefore(p[1..], q[1..])))
  }

  function Count(nodes: seq<Node>): nat { |Collect(nodes)| }

  lemma CountStep(nodes: seq<Node>)
    requires nodes != []
    ensures Count(nodes) == Count(Kids(nodes[0])) + |Own(nodes[0])| + Count(nodes[1..])
  {}

  /** The path of the `i`-th collected chapter. */
  function PathOf(nodes: seq<Node>, from: nat, i: nat): Path
    requires i < Count(nodes)
    decreases nodes
  {
    CountStep(nodes);
    var kids, own := Count(Kids(nodes[0])), |Own(nodes[0])|;
    if i < kids then [from] + PathOf(nodes[0].kids, 0, i)
    else if i < kids + own then [from]
    else PathOf(nodes[1..], from + 1, i - kids - own)
  }

  lemma CollectAt(nodes: seq<Node>, i: nat)
    requires i < Count(nodes)
    ensures var kids, own, rest := Collect(Kids(nodes[0])), Own(nodes[0]), Collect(nodes[1..]);
            && Count(nodes) == |kids| + |own| + |rest|
            && Collect(nodes)[i] == if i < |kids| then kids[i] else if i < |kids| + |own| then own[i - |kids|] else rest[i - |kids| - |own|]
  {
    assert Collect(nodes) == Collect(Kids(nodes[0])) + Own(nodes[0]) + Collect(nodes[1..]);
  }

  lemma LaterSibling(nodes: seq<Node>, from: nat, path: Path, c: Chapter)
    requires nodes != []
    ensures TitledAt(nodes[1..], from + 1, path, c) <==> TitledAt(nodes, from, path, c) && path[0] != from
  {}

  /** Each path leads to its chapter. */
  lemma {:induction false} PathLeads(nodes: seq<Node>, from: nat, i: nat)
    requires i < Count(nodes)
    ensures TitledAt(nodes, from, PathOf(nodes, from, i), Collect(nodes)[i])
    decreases nodes
  {
    var kids, own := Count(Kids(nodes[0])), |Own(nodes[0])|;
    CollectAt(nodes, i);
    if i < kids {
      PathLeads(nodes[0].kids, 0, i);
      assert PathOf(nodes, from, i)[1..] == PathOf(nodes[0].kids, 0, i);
    } else if i >= kids + own {
      PathLeads(nodes[1..], from + 1, i - kids - own);
      LaterSibling(nodes, from, PathOf(nodes, from, i), Collect(nodes)[i]);
    }
  }

  ghost predicate Met(nodes: seq<Node>, from: nat, path: Path) {
    exists i: nat :: i < Count(nodes) && PathOf(nodes, from, i) == path
  }

  lemma MetLater(nodes: seq<Node>, from: nat, path: Path)
    requires nodes != [] && Met(nodes[1..], from + 1, path)
    ensures Met(nodes, from, path)
  {
    CountStep(nodes);
    var i: nat :| i < Count(nodes[1..]) && PathOf(nodes[1..], from + 1, i) == path;
    assert PathOf(nodes, from, Count(Kids(nodes[0])) + |Own(nodes[0])| + i) == path;
  }

  lemma PathBelow(nodes: seq<Node>, from: nat, i: nat)
    requires nodes != [] && i < Count(Kids(nodes[0]))
    ensures i < Count(nodes) && PathOf(nodes, from, i) == [from] + PathOf(nodes[0].kids, 0, i)
  {
    CountStep(nodes);
  }

  lemma MetBelow(nodes: seq<Node>, from: nat, path: Path)
    requires nodes != [] && Met(Kids(nodes[0]), 0, path)
    ensures Met(nodes, from, [from] + path)
  {
    var i: nat :| i < Count(Kids(nodes[0])) && PathOf(Kids(nodes[0]), 0, i) == path;
    PathBelow(nodes, from, i);
  }

  lemma MetHere(nodes: seq<Node>, from: nat)
    requires nodes != [] && Own(nodes[0]) != []
    ensures Met(nodes, from, [from])
  {
    CountStep(nodes);
    assert PathOf(nodes, from, Count(Kids(nodes[0]))) == [from];
  }

  /** No titled node is missed. */
  lemma {:induction false} TitledIsMet(nodes: seq<Node>, from: nat, path: Path, c: Chapter)
    requires TitledAt(nodes, from, path, c)
    ensures Met(nodes, from, path)
    decreases nodes
  {
    if path[0] != from {
      LaterSibling(nodes, from, path, c);
      TitledIsMet(nodes[1..], from + 1, path, c);
      MetLater(nodes, from, path);
    } else if |path| > 1 {
      TitledIsMet(nodes[0].kids, 0, path[1..], c);
      MetBelow(nodes, from, path[1..]);
      assert [from] + path[1..] == path;
    } else {
      MetHere(nodes, from);
      assert path == [from];
    }
  }

  lemma {:induction false} PathStarts(nodes: seq<Node>, from: nat, i: nat)
    requires i < Count(nodes)
    ensures PathOf(nodes, from, i) != [] && PathOf(nodes, from, i)[0] >= from
    decreases nodes
  {
    CountStep(nodes);
    var before := Count(Kids(nodes[0])) + |Own(nodes[0])|;
    if i >= before {
      PathStarts(nodes[1..], from + 1, i - before);
    }
  }

  lemma SameBranch(at: nat, p: Path, q: Path)
    requires PostBefore(p, q)
    ensures PostBefore([at] + p, [at] + q)
  {
    assert ([at] + p)[1..] == p && ([at] + q)[1..] == q;
  }

  predicate InOrderAt(nodes: seq<Node>, from: nat, i: nat, j: nat)
    requires i < j < Count(nodes)
  {
    PostBefore(PathOf(nodes, from, i), PathOf(nodes, from, j))
  }

  lemma OrderBelow(nodes: seq<Node>, from: nat, i: nat, j: nat)
    requires nodes != [] && i < j < Count(Kids(nodes[0])) && InOrderAt(nodes[0].kids, 0, i, j)
    ensures j < Count(nodes) && InOrderAt(nodes, from, i, j)
  {
    PathBelow(nodes, from, i);
    PathBelow(nodes, from, j);
    SameBranch(from, PathOf(nodes[0].kids, 0, i), PathOf(nodes[0].kids, 0, j));
  }

  lemma OrderHere(nodes: seq<Node>, from: nat, i: nat, j: nat)
    requires nodes != [] && i < Count(Kids(nodes[0])) <= j < Count(Kids(nodes[0])) + |Own(nodes[0])|
    ensures j < Count(nodes) && InOrderAt(nodes, from, i, j)
  {
    CountStep(nodes);
    PathBelow(nodes, from, i);
    PathStarts(nodes[0].kids, 0, i);
    SameBranch(from, PathOf(nodes[0].kids, 0, i), []);
    assert [from] + [] == [from];
  }

  lemma PathLater(nodes: seq<Node>, from: nat, i: nat)
    requires nodes != [] && i < Count(nodes[1..])
    ensures var j := Count(Kids(nodes[0])) + |Own(nodes[0])| + i;
            j < Count(nodes) && PathOf(nodes, from, j) == PathOf(nodes[1..], from + 1, i)
  {
    CountStep(nodes);
  }

  lemma OrderLater(nodes: seq<Node>, from: nat, i: nat, j: nat)
    requires nodes != [] && i < j < Count(nodes[1..]) && InOrderAt(nodes[1..], from + 1, i, j)
    ensures var before := Count(Kids(nodes[0])) + |Own(nodes[0])|;
            before + j < Count(nodes) && InOrderAt(nodes, from, before + i, before + j)
  {
    PathLater(nodes, from, i);
    PathLater(nodes, from, j);
  }

  lemma PathFirst(nodes: seq<Node>, from: nat, i: nat)
    requires nodes != [] && i < Count(Kids(nodes[0])) + |Own(nodes[0])|
    ensures i < Count(nodes) && PathOf(nodes, from, i) != [] && PathOf(nodes, from, i)[0] == from
  {
    CountStep(nodes);
  }

  lemma OrderAcross(nodes: seq<Node>, from: nat, i: nat, j: nat)
    requires nodes != [] && i < Count(Kids(nodes[0])) + |Own(nodes[0])| && j < Count(nodes[1..])
    ensures var before := Count(Kids(nodes[0])) + |Own(nodes[0])|;
            before + j < Count(nodes) && InOrderAt(nodes, from, i, before + j)
  {
    PathFirst(nodes, from, i);
    PathLater(nodes, from, j);
    PathStarts(nodes[1..], from + 1, j);
  }

  lemma {:induction false} PathsInOrder(nodes: seq<Node>, from: nat, i: nat, j: nat)
    requires i < j < Count(nodes)
    ensures InOrderAt(nodes, from, i, j)
    decreases nodes
  {
    CountStep(nodes);
    var kids, before := Count(Kids(nodes[0])), Count(Kids(nodes[0])) + |Own(nodes[0])|;
    if i >= before {
      PathsInOrder(nodes[1..], from + 1, i - before, j - before);
      OrderLater(nodes, from, i - before, j - before);
    } else if j >= before {
      OrderAcross(nodes, from, i, j - before);
    } else if j < kids {
      PathsInOrder(nodes[0].kids, 0, i, j);
      OrderBelow(nodes, from, i, j);
    } else {
      OrderHere(nodes, from, i, j);
    }
  }

  /** The collected chapters are those of all titled nodes, one for each, in post-order. */
  lemma CollectedInPostOrder(nodes: seq<Node>) returns (paths: seq<Path>)
    ensures |paths| == |Collect(nodes)|
    ensures forall i :: 0 <= i < |paths| ==> TitledAt(nodes, 0, paths[i], Collect(nodes)[i])
    ensures forall path, c :: TitledAt(nodes, 0, path, c) ==> path in paths
    ensures forall i, j :: 0 <= i < j < |paths| ==> PostBefore(paths[i], paths[j])
  {
    paths := seq(Count(nodes), i requires 0 <= i < Count(nodes) => PathOf(nodes, 0, i));
    forall i | 0 <= i < |paths| ensures TitledAt(nodes, 0, paths[i], Collect(nodes)[i]) { PathLeads(nodes, 0, i); }
    forall path, c | TitledAt(nodes, 0, path, c) ensures path in paths {
      TitledIsMet(nodes, 0, path, c);
      var i: nat :| i < Count(nodes) && PathOf(nodes, 0, i) == path;
      assert paths[i] == path;
    }
    forall i, j | 0 <= i < j < |paths| ensures PostBefore(paths[i], paths[j]) { PathsInOrder(nodes, 0, i, j); }
  }

  // ---- rebasing ----

  /** A start behind the intro, scaled. */
  function Shift(s: nat, intro: nat, scale: nat -> nat): nat {
    scale(if s < intro then 0 else s - intro)
  }

  /** `rebase_tree_nodes`. */
  function Rebase(nodes: seq<Node>, intro: nat, end: nat, scale: nat -> nat): seq<Node> {
    if nodes == [] then []
    else if Start(nodes[0]) >= end then Rebase(nodes[1..], intro, end, scale)
    else
      var kids := if nodes[0].Node? && nodes[0].nested then Rebase(nodes[0].kids, intro, end, scale) else [];
      [Rebased(nodes[0], kids, intro, scale)] + Rebase(nodes[1..], intro, end, scale)
  }

  /** Both spellings of the start are written; an empty child list is removed. */
  function Rebased(node: Node, kids: seq<Node>, intro: nat, scale: nat -> nat): Node {
    if node.Scalar? then node
    else
      var start := Int(Shift(Start(node), intro, scale));
      Node(node.title, start, start, node.nested && kids != [], kids)
  }

  lemma RebaseStep(nodes: seq<Node>, i: nat, intro: nat, end: nat, scale: nat -> nat)
    requires i < |nodes|
    ensures Rebase(nodes[i..], intro, end, scale) ==
            (if Start(nodes[i]) >= end then []
             else [Rebased(nodes[i], Rebase(Kids(nodes[i]), intro, end, scale), intro, scale)])
            + Rebase(nodes[i + 1..], intro, end, scale)
    ensures Start(nodes[i]) >= end ==> Rebase(nodes[i..], intro, end, scale) == Rebase(nodes[i + 1..], intro, end, scale)
  {
    assert nodes[i..][0] == nodes[i] && nodes[i..][1..] == nodes[i + 1..];
  }

  method RebaseNodes(nodes: seq<Node>, intro: nat, end: nat, scale: nat -> nat) returns (out: seq<Node>)
    ensures out == Rebase(nodes, intro, end, scale)
    decreases nodes
  {
    out := [];
    for i := 0 to |nodes|
      invariant Rebase(nodes, intro, end, scale) == out + Rebase(nodes[i..], intro, end, scale)
    {
      var node := nodes[i];
      RebaseStep(nodes, i, intro, end, scale);
      if Start(node) < end {
        var kids := [];
        if node.Node? && node.nested {
          kids := RebaseNodes(node.kids, intro, end, scale);
        }
        AppendedNode(out, Rebased(node, kids, intro, scale), Rebase(nodes[i + 1..], intro, end, scale));
        out := out + [Rebased(node, kids, intro, scale)];
      }
    }
    assert nodes[|nodes|..] == [];
  }

  lemma AppendedNode(out: seq<Node>, node: Node, rest: seq<Node>)
    ensures out + ([node] + rest) == out + [node] + rest
  {}

  /** The flat list counterpart: drop what starts in the outro, shift the rest. */
  function Shifted(cs: seq<Chapter>, intro: nat, end: nat, scale: nat -> nat): seq<Chapter> {
    if cs == [] then []
    else (if cs[0].start < end then [Chapter(cs[0].title, Shift(cs[0].start, intro, scale))] else [])
         + Shifted(cs[1..], intro, end, scale)
  }

  lemma {:induction false} ShiftedConcat(a: seq<Chapter>, b: seq<Chapter>, intro: nat, end: nat, scale: nat -> nat)
    ensures Shifted(a + b, intro, end, scale) == Shifted(a, intro, end, scale) + Shifted(b, intro, end, scale)
  {
    if a == [] {
      assert a + b == b;
    } else {
      assert (a + b)[1..] == a[1..] + b;
      ShiftedConcat(a[1..], b, intro, end, scale);
    }
  }

  /** No titled descendant that starts before the outro hangs under a node that does not. */
  predicate NothingLost(nodes: seq<Node>, end: nat) {
    nodes == [] ||
    (&& (if Start(nodes[0]) >= end then NoneBefore(Collect(Kids(nodes[0])), end)
         else nodes[0].Node? && nodes[0].nested ==> NothingLost(nodes[0].kids, end))
     && NothingLost(nodes[1..], end))
  }

  predicate NoneBefore(cs: seq<Chapter>, end: nat) {
    forall i :: 0 <= i < |cs| ==> cs[i].start >= end
  }

  lemma {:induction false} NoneBeforeIsEmpty(cs: seq<Chapter>, intro: nat, end: nat, scale: nat -> nat)
    ensures NoneBefore(cs, end) <==> Shifted(cs, intro, end, scale) == []
  {
    if cs != [] {
      NoneBeforeIsEmpty(cs[1..], intro, end, scale);
      assert NoneBefore(cs, end) <==> cs[0].start >= end && NoneBefore(cs[1..], end);
    }
  }

  /** How the two sides grow by one node. */
  lemma ShiftedHead(nodes: seq<Node>, intro: nat, end: nat, scale: nat -> nat)
    requires nodes != []
    ensures Shifted(Collect(nodes), intro, end, scale) ==
            Shifted(Collect(Kids(nodes[0])), intro, end, scale) + Shifted(Own(nodes[0]), intro, end, scale)
            + Shifted(Collect(nodes[1..]), intro, end, scale)
  {
    var head, own := Collect(Kids(nodes[0])), Own(nodes[0]);
    ShiftedConcat(head + own, Collect(nodes[1..]), intro, end, scale);
    ShiftedConcat(head, own, intro, end, scale);
  }

  lemma RebasedOwn(node: Node, kids: seq<Node>, intro: nat, end: nat, scale: nat -> nat)
    requires Start(node) < end
    ensures Own(Rebased(node, kids, intro, scale)) == Shifted(Own(node), intro, end, scale)
  {
    var own := Own(node);
    if own != [] {
      assert own[1..] == [] && Shifted(own[1..], intro, end, scale) == [];
    }
  }

  lemma RebasedHead(nodes: seq<Node>, intro: nat, end: nat, scale: nat -> nat)
    requires nodes != [] && Start(nodes[0]) < end
    ensures Collect(Rebase(nodes, intro, end, scale)) ==
            Collect(Rebase(Kids(nodes[0]), intro, end, scale)) + Shifted(Own(nodes[0]), intro, end, scale)
            + Collect(Rebase(nodes[1..], intro, end, scale))
  {
    var node := nodes[0];
    var rebased := Rebase(nodes, intro, end, scale);
    assert rebased[1..] == Rebase(nodes[1..], intro, end, scale);
    var kids := Rebase(Kids(node), intro, end, scale);
    RebasedOwn(node, kids, intro, end, scale);
    CollectStep(rebased, 0);
    assert rebased[0..] == rebased;
    assert Collect(Kids(rebased[0])) == Collect(kids);
  }

  lemma CollectHead(nodes: seq<Node>, intro: nat, end: nat, scale: nat -> nat)
    requires nodes != []
    ensures Shifted(Collect(nodes), intro, end, scale) ==
            Shifted(Collect(Kids(nodes[0])), intro, end, scale) + Shifted(Own(nodes[0]), intro, end, scale)
            + Shifted(Collect(nodes[1..]), intro, end, scale)
    ensures Collect(Rebase(nodes, intro, end, scale)) ==
            (if Start(nodes[0]) >= end then []
             else Collect(Rebase(Kids(nodes[0]), intro, end, scale)) + Shifted(Own(nodes[0]), intro, end, scale))
            + Collect(Rebase(nodes[1..], intro, end, scale))
  {
    ShiftedHead(nodes, intro, end, scale);
    if Start(nodes[0]) < end {
      RebasedHead(nodes, intro, end, scale);
    }
  }

  /** Rebasing never keeps more than the flat list does. */
  lemma {:induction false} RebaseKeepsNoMore(nodes: seq<Node>, intro: nat, end: nat, scale: nat -> nat)
    ensures |Collect(Rebase(nodes, intro, end, scale))| <= |Shifted(Collect(nodes), intro, end, scale)|
    ensures |Collect(Rebase(nodes, intro, end, scale))| == |Shifted(Collect(nodes), intro, end, scale)| ==> NothingLost(nodes, end)
    decreases nodes
  {
    if nodes != [] {
      CollectHead(nodes, intro, end, scale);
      RebaseKeepsNoMore(nodes[1..], intro, end, scale);
      if Start(nodes[0]) >= end {
        NoneBeforeIsEmpty(Collect(Kids(nodes[0])), intro, end, scale);
      } else if nodes[0].Node? && nodes[0].nested {
        RebaseKeepsNoMore(nodes[0].kids, intro, end, scale);
      }
    }
  }

  lemma {:induction false} RebaseKeepsAll(nodes: seq<Node>, intro: nat, end: nat, scale: nat -> nat)
    requires NothingLost(nodes, end)
    ensures Collect(Rebase(nodes, intro, end, scale)) == Shifted(Collect(nodes), intro, end, scale)
    decreases nodes
  {
    if nodes != [] {
      CollectHead(nodes, intro, end, scale);
      RebaseKeepsAll(nodes[1..], intro, end, scale);
      if Start(nodes[0]) >= end {
        NoneBeforeIsEmpty(Collect(Kids(nodes[0])), intro, end, scale);
        assert Shifted(Own(nodes[0]), intro, end, scale) == [];
      } else if nodes[0].Node? && nodes[0].nested {
        RebaseKeepsAll(nodes[0].kids, intro, end, scale);
      }
    }
  }

  /** Collecting the rebased tree is shifting the collected list, exactly when no
      titled descendant is lost under a dropped node. */
  lemma RebaseCommutesExactlyWhen(nodes: seq<Node>, intro: nat, end: nat, scale: nat -> nat)
    ensures Collect(Rebase(nodes, intro, end, scale)) == Shifted(Collect(nodes), intro, end, scale) <==> NothingLost(nodes, end)
  {
    RebaseKeepsNoMore(nodes, intro, end, scale);
    if NothingLost(nodes, end) {
      RebaseKeepsAll(nodes, intro, end, scale);
    }
  }

  /** No child starts before its parent. */
  predicate WellNested(nodes: seq<Node>, from: nat) {
    nodes == [] ||
    (&& Start(nodes[0]) >= from
     && (nodes[0].Node? && nodes[0].nested ==> WellNested(nodes[0].kids, Start(nodes[0])))
     && WellNested(nodes[1..], from))
  }

  lemma {:induction false} WellNestedFrom(nodes: seq<Node>, from: nat)
    requires WellNested(nodes, from)
    ensures NoneBefore(Collect(nodes), from)
    decreases nodes
  {
    if nodes != [] {
      WellNestedFrom(nodes[1..], from);
      if nodes[0].Node? && nodes[0].nested {
        WellNestedFrom(nodes[0].kids, Start(nodes[0]));
      }
    }
  }

  lemma {:induction false} WellNestedLosesNothing(nodes: seq<Node>, from: nat, end: nat)
    requires WellNested(nodes, from)
    ensures NothingLost(nodes, end)
    decreases nodes
  {
    if nodes != [] {
      WellNestedLosesNothing(nodes[1..], from, end);
      if nodes[0].Node? && nodes[0].nested {
        WellNestedLosesNothing(nodes[0].kids, Start(nodes[0]), end);
        WellNestedFrom(nodes[0].kids, Start(nodes[0]));
      }
    }
  }

  /** The promised case: in a tree where no child starts before its parent,
      rebasing and flattening commute. */
  lemma RebaseCommutes(nodes: seq<Node>, intro: nat, end: nat, scale: nat -> nat)
    requires WellNested(nodes, 0)
    ensures Collect(Rebase(nodes, intro, end, scale)) == Shifted(Collect(nodes), intro, end, scale)
  {
    WellNestedLosesNothing(nodes, 0, end);
    RebaseKeepsAll(nodes, intro, end, scale);
  }

  /** The chapters that start before the outro. */
  function Kept(cs: seq<Chapter>, end: nat): seq<Chapter> {
    if cs == [] then [] else (if cs[0].start < end then [cs[0]] else []) + Kept(cs[1..], end)
  }

  lemma {:induction false} KeptMembers(cs: seq<Chapter>, end: nat, c: Chapter)
    ensures c in Kept(cs, end) <==> c in cs && c.start < end
  {
    if cs != [] {
      KeptMembers(cs[1..], end, c);
      assert cs == [cs[0]] + cs[1..];
    }
  }

  lemma {:induction false} ShiftedLength(cs: seq<Chapter>, intro: nat, end: nat, scale: nat -> nat)
    ensures |Shifted(cs, intro, end, scale)| == |Kept(cs, end)|
  {
    if cs != [] {
      ShiftedLength(cs[1..], intro, end, scale);
    }
  }

  lemma {:induction false} ShiftedAt(cs: seq<Chapter>, intro: nat, end: nat, scale: nat -> nat, i: nat)
    requires i < |Kept(cs, end)|
    ensures i < |Shifted(cs, intro, end, scale)|
    ensures var old', new' := Kept(cs, end)[i], Shifted(cs, intro, end, scale)[i];
            new'.title == old'.title && new'.start == scale(if old'.start < intro then 0 else old'.start - intro)
  {
    if cs[0].start < end {
      if i > 0 {
        ShiftedAt(cs[1..], intro, end, scale, i - 1);
      }
    } else {
      ShiftedAt(cs[1..], intro, end, scale, i);
    }
  }

  /** Chapter by chapter: rebasing keeps, in order and with their titles, the
      chapters before the outro, and moves each to the front by the intro. Without
      scaling the distances between chapters behind the intro stay. */
  lemma RebasedChapters(nodes: seq<Node>, intro: nat, end: nat, scale: nat -> nat)
    requires WellNested(nodes, 0)
    ensures var was, now := Kept(Collect(nodes), end), Collect(Rebase(nodes, intro, end, scale));
            && |now| == |was|
            && (forall i :: 0 <= i < |was| ==> now[i].title == was[i].title)
            && (forall i :: 0 <= i < |was| && was[i].start >= intro ==> now[i].start == scale(was[i].start - intro))
            && (forall i :: 0 <= i < |was| && was[i].start < intro ==> now[i].start == scale(0))
            && ((forall n :: scale(n) == n) ==>
                  forall i, j :: 0 <= i < |was| && 0 <= j < |was| && was[i].start >= intro && was[j].start >= intro ==>
                    now[i].start - now[j].start == was[i].start - was[j].start)
  {
    RebaseCommutes(nodes, intro, end, scale);
    ShiftedLength(Collect(nodes), intro, end, scale);
    forall i | 0 <= i < |Kept(Collect(nodes), end)| { ShiftedAt(Collect(nodes), intro, end, scale, i); }
  }

  /** A child before its parent: dropping the parent drops a chapter the flat list keeps. */
  lemma EarlyChildIsLost(title: string, parent: nat, child: nat, intro: nat, end: nat, scale: nat -> nat)
    requires child < end <= parent && Keys.Trim(title) != ""
    ensures var leaf := Node(Some(title), Int(child), Missing, false, []);
            var tree := [Node(None, Int(parent), Missing, true, [leaf])];
            && Collect(Rebase(tree, intro, end, scale)) == []
            && Shifted(Collect(tree), intro, end, scale) == [Chapter(Keys.Trim(title), Shift(child, intro, scale))]
  {
    var leaf := Node(Some(title), Int(child), Missing, false, []);
    var tree := [Node(None, Int(parent), Missing, true, [leaf])];
    assert Collect([leaf]) == Own(leaf) + Collect([leaf][1..]);
    assert Collect(tree) == Collect([leaf]) + Own(tree[0]) + Collect(tree[1..]);
  }

  // ---- flattening ----

  /** Earlier entries of the same start come first. */
  function StableInsert(cs: seq<Chapter>, c: Chapter): seq<Chapter> {
    if cs == [] then [c]
    else if c.start < cs[0].start then [c] + cs
    else [cs[0]] + StableInsert(cs[1..], c)
  }

  function StableSort(cs: seq<Chapter>): seq<Chapter> {
    if cs == [] then [] else StableInsert(StableSort(cs[..|cs| - 1]), cs[|cs| - 1])
  }

  /** Of each run of equal starts the first entry stays. */
  function Dedup(cs: seq<Chapter>): seq<Chapter> {
    if |cs| <= 1 then cs
    else
      var init := Dedup(cs[..|cs| - 1]);
      if init != [] && init[|init| - 1].start == cs[|cs| - 1].start then init else init + [cs[|cs| - 1]]
  }

  /** The entries with a given start, earliest first. */
  function WithStart(cs: seq<Chapter>, t: nat): seq<Chapter> {
    if cs == [] then [] else (if cs[0].start == t then [cs[0]] else []) + WithStart(cs[1..], t)
  }

  predicate Sorted(cs: seq<Chapter>) {
    forall i, j :: 0 <= i < j < |cs| ==> cs[i].start <= cs[j].start
  }

  predicate Increasing(cs: seq<Chapter>) {
    forall i, j :: 0 <= i < j < |cs| ==> cs[i].start < cs[j].start
  }

  /** Strictly increasing starts, the same starts, and the earliest entry of each. */
  ghost predicate IsFlat(cs: seq<Chapter>, r: seq<Chapter>) {
    && Increasing(r)
    && (forall t :: WithStart(r, t) == [] <==> WithStart(cs, t) == [])
    && (forall i :: 0 <= i < |r| ==> Earliest(cs, r[i]))
  }

  predicate Earliest(cs: seq<Chapter>, c: Chapter) {
    WithStart(cs, c.start) != [] && WithStart(cs, c.start)[0] == c
  }

  lemma {:induction false} WithStartConcat(a: seq<Chapter>, b: seq<Chapter>, t: nat)
    ensures WithStart(a + b, t) == WithStart(a, t) + WithStart(b, t)
  {
    if a == [] {
      assert a + b == b;
    } else {
      assert (a + b)[1..] == a[1..] + b && (a + b)[0] == a[0];
      WithStartConcat(a[1..], b, t);
      Regroup(if a[0].start == t then [a[0]] else [], WithStart(a[1..], t), WithStart(b, t));
    }
  }

  lemma Regroup(a: seq<Chapter>, b: seq<Chapter>, c: seq<Chapter>)
    ensures a + (b + c) == a + b + c
  {}

  lemma WithStartSnoc(cs: seq<Chapter>, c: Chapter, t: nat)
    ensures WithStart(cs + [c], t) == WithStart(cs, t) + if c.start == t then [c] else []
  {
    WithStartConcat(cs, [c], t);
    assert [c][1..] == [];
  }

  lemma {:induction false} WithStartAbsent(cs: seq<Chapter>, t: nat)
    requires forall i :: 0 <= i < |cs| ==> cs[i].start != t
    ensures WithStart(cs, t) == []
  {
    if cs != [] {
      WithStartAbsent(cs[1..], t);
    }
  }

  lemma {:induction false} WithStartPresent(cs: seq<Chapter>, i: nat)
    requires i < |cs|
    ensures WithStart(cs, cs[i].start) != []
  {
    if i > 0 {
      WithStartPresent(cs[1..], i - 1);
    }
  }

  lemma {:induction false} WithStartFound(cs: seq<Chapter>, t: nat)
    requires WithStart(cs, t) != []
    ensures exists i :: 0 <= i < |cs| && cs[i].start == t
  {
    if cs[0].start != t {
      WithStartFound(cs[1..], t);
      var i :| 0 <= i < |cs[1..]| && cs[1..][i].start == t;
      assert cs[i + 1].start == t;
    }
  }

  // ---- the sort is stable ----

  lemma {:induction false} InsertKeeps(cs: seq<Chapter>, c: Chapter, t: nat)
    requires Sorted(cs)
    ensures WithStart(StableInsert(cs, c), t) == WithStart(cs, t) + if c.start == t then [c] else []
  {
    if cs != [] && c.start < cs[0].start {
      assert ([c] + cs)[1..] == cs;
      if c.start == t {
        assert forall i :: 0 < i < |cs| ==> cs[0].start <= cs[i].start;
        WithStartAbsent(cs, t);
      }
    } else if cs != [] {
      InsertKeeps(cs[1..], c, t);
      assert StableInsert(cs, c)[1..] == StableInsert(cs[1..], c);
    }
  }

  lemma {:induction false} InsertSorts(cs: seq<Chapter>, c: Chapter)
    requires Sorted(cs)
    ensures Sorted(StableInsert(cs, c))
    ensures forall x :: x in StableInsert(cs, c) ==> x == c || x in cs
  {
    if cs != [] && c.start >= cs[0].start {
      InsertSorts(cs[1..], c);
      var rest := StableInsert(cs[1..], c);
      forall i | 0 <= i < |rest| ensures cs[0].start <= rest[i].start {
        assert rest[i] in rest;
        if rest[i] != c {
          var j :| 0 <= j < |cs[1..]| && cs[1..][j] == rest[i];
          assert cs[j + 1] == rest[i];
        }
      }
    }
  }

  /** Sorted by start, and equal starts keep their order. */
  lemma {:induction false} SortIsStable(cs: seq<Chapter>, t: nat)
    ensures Sorted(StableSort(cs)) && WithStart(StableSort(cs), t) == WithStart(cs, t)
  {
    if cs != [] {
      var n := |cs| - 1;
      SortIsStable(cs[..n], t);
      InsertSorts(StableSort(cs[..n]), cs[n]);
      InsertKeeps(StableSort(cs[..n]), cs[n], t);
      WithStartSnoc(cs[..n], cs[n], t);
      assert cs == cs[..n] + [cs[n]];
    }
  }

  // ---- deduplication ----

  lemma EarliestSnoc(cs: seq<Chapter>, c: Chapter, x: Chapter)
    requires Earliest(cs, x)
    ensures Earliest(cs + [c], x)
  {
    WithStartSnoc(cs, c, x.start);
  }

  /** A start that was there before adds nothing. */
  lemma FlatSame(cs: seq<Chapter>, r: seq<Chapter>, c: Chapter)
    requires IsFlat(cs, r) && WithStart(cs, c.start) != []
    ensures IsFlat(cs + [c], r)
  {
    forall t ensures WithStart(r, t) == [] <==> WithStart(cs + [c], t) == [] { WithStartSnoc(cs, c, t); }
    forall i | 0 <= i < |r| ensures Earliest(cs + [c], r[i]) { EarliestSnoc(cs, c, r[i]); }
  }

  /** A strictly later start joins the result. */
  lemma FlatLater(cs: seq<Chapter>, r: seq<Chapter>, c: Chapter)
    requires IsFlat(cs, r) && (forall i :: 0 <= i < |cs| ==> cs[i].start < c.start)
    requires forall i :: 0 <= i < |r| ==> r[i].start < c.start
    ensures IsFlat(cs + [c], r + [c])
  {
    WithStartAbsent(cs, c.start);
    forall t ensures WithStart(r + [c], t) == [] <==> WithStart(cs + [c], t) == [] {
      WithStartSnoc(cs, c, t);
      WithStartSnoc(r, c, t);
    }
    forall i | 0 <= i < |r + [c]| ensures Earliest(cs + [c], (r + [c])[i]) {
      if i < |r| {
        EarliestSnoc(cs, c, r[i]);
      } else {
        WithStartSnoc(cs, c, c.start);
      }
    }
  }

  lemma FlatSingle(cs: seq<Chapter>)
    requires |cs| == 1
    ensures IsFlat(cs, cs)
  {
    assert cs[1..] == [];
  }

  lemma DedupStep(cs: seq<Chapter>, r: seq<Chapter>, c: Chapter, all: seq<Chapter>)
    requires all == cs + [c] && IsFlat(cs, r) && cs != [] && r != [] && r[|r| - 1].start == cs[|cs| - 1].start
    requires forall i :: 0 <= i < |cs| ==> cs[i].start <= cs[|cs| - 1].start <= c.start
    ensures IsFlat(all, if r[|r| - 1].start == c.start then r else r + [c])
  {
    if r[|r| - 1].start == c.start {
      WithStartPresent(cs, |cs| - 1);
      FlatSame(cs, r, c);
    } else {
      FlatLater(cs, r, c);
    }
  }

  lemma SortedInit(cs: seq<Chapter>)
    requires Sorted(cs) && |cs| > 1
    ensures var rest := cs[..|cs| - 1];
            Sorted(rest) && forall i :: 0 <= i < |rest| ==> rest[i].start <= rest[|rest| - 1].start <= cs[|cs| - 1].start
  {}

  lemma {:induction false} DedupLast(cs: seq<Chapter>)
    requires cs != []
    ensures Dedup(cs) != [] && Dedup(cs)[|Dedup(cs)| - 1].start == cs[|cs| - 1].start
    decreases |cs|
  {
    if |cs| > 1 {
      DedupLast(cs[..|cs| - 1]);
    }
  }

  lemma DedupUnfolds(cs: seq<Chapter>)
    requires |cs| > 1
    ensures var rest, c := cs[..|cs| - 1], cs[|cs| - 1];
            var init := Dedup(rest);
            && cs == rest + [c] && init != [] && init[|init| - 1].start == rest[|rest| - 1].start
            && Dedup(cs) == if init[|init| - 1].start == c.start then init else init + [c]
  {
    DedupLast(cs[..|cs| - 1]);
  }

  lemma {:induction false} DedupFlattens(cs: seq<Chapter>)
    requires Sorted(cs)
    ensures IsFlat(cs, Dedup(cs))
    decreases |cs|
  {
    if |cs| == 1 {
      FlatSingle(cs);
    } else if |cs| > 1 {
      var rest := cs[..|cs| - 1];
      SortedInit(cs);
      DedupUnfolds(cs);
      DedupFlattens(rest);
      DedupStep(rest, Dedup(rest), cs[|cs| - 1], cs);
    }
  }

  /** `flatten_chapters`: strictly increasing starts, exactly the starts of the
      titled nodes, and of nodes that share one the first in post-order. */
  method FlattenChapters(chapters: Option<seq<Node>>) returns (r: seq<Chapter>)
    ensures IsFlat(if chapters.Some? then Collect(chapters.value) else [], r)
  {
    var out := [];
    if chapters.Some? {
      out := FlattenNodes(chapters.value, out);
    }
    assert chapters.Some? ==> out == Collect(chapters.value);
    r := Dedup(StableSort(out));
    SortFlattens(out);
  }

  lemma SortFlattens(cs: seq<Chapter>)
    ensures IsFlat(cs, Dedup(StableSort(cs)))
  {
    SortIsStable(cs, 0);
    DedupFlattens(StableSort(cs));
    forall t ensures WithStart(StableSort(cs), t) == WithStart(cs, t) { SortIsStable(cs, t); }
  }

  lemma LastOut(a: seq<Chapter>, c: Chapter)
    requires a != [] && Increasing(a)
    ensures c in a[..|a| - 1] <==> c in a && c != a[|a| - 1]
  {
    assert a == a[..|a| - 1] + [a[|a| - 1]];
  }

  lemma HeadIsMember(a: seq<Chapter>)
    ensures a == [] || a[0] in a
  {}

  lemma SameLast(a: seq<Chapter>, b: seq<Chapter>)
    requires Increasing(a) && Increasing(b) && a != [] && b != [] && a[|a| - 1] in b && b[|b| - 1] in a
    ensures a[|a| - 1] == b[|b| - 1]
  {
    var n, m := |a| - 1, |b| - 1;
    var i :| 0 <= i < |b| && b[i] == a[n];
    var j :| 0 <= j < |a| && a[j] == b[m];
    assert b[i].start <= b[m].start && a[j].start <= a[n].start;
  }

  lemma {:induction false} SameMembersSameOrder(a: seq<Chapter>, b: seq<Chapter>)
    requires Increasing(a) && Increasing(b) && (forall c :: c in a <==> c in b)
    ensures a == b
    decreases |a|
  {
    HeadIsMember(b);
    if a != [] {
      assert a[|a| - 1] in a && a[|a| - 1] in b && b[|b| - 1] in b;
      SameLast(a, b);
      var x, y := a[..|a| - 1], b[..|b| - 1];
      forall c ensures c in x <==> c in y {
        LastOut(a, c);
        LastOut(b, c);
      }
      SameMembersSameOrder(x, y);
      SplitLast(a);
      SplitLast(b);
    }
  }

  lemma SplitLast(a: seq<Chapter>)
    requires a != []
    ensures a == a[..|a| - 1] + [a[|a| - 1]]
  {}

  lemma FlatMember(cs: seq<Chapter>, a: seq<Chapter>, b: seq<Chapter>, c: Chapter)
    requires IsFlat(cs, a) && IsFlat(cs, b) && c in a
    ensures c in b
  {
    var i :| 0 <= i < |a| && a[i] == c;
    WithStartPresent(a, i);
    WithStartFound(b, c.start);
    var j :| 0 <= j < |b| && b[j].start == c.start;
    assert Earliest(cs, a[i]) && Earliest(cs, b[j]);
  }

  /** The three conditions leave no choice: flattening has one right answer. */
  lemma FlatteningIsUnique(cs: seq<Chapter>, a: seq<Chapter>, b: seq<Chapter>)
    requires IsFlat(cs, a) && IsFlat(cs, b)
    ensures a == b
  {
    forall c ensures c in a <==> c in b {
      if c in a { FlatMember(cs, a, b, c); }
      if c in b { FlatMember(cs, b, a, c); }
    }
    SameMembersSameOrder(a, b);
  }
}
