/** Moving an audio object and the files that belong to it to a new key. */
module Relocate {
  import opened Basics
  import opened Keys
  import opened Lookup

  type Content = nat
  type Store = map<Key, Content>

  // ---- which keys go along ----

  const SIDECAR_SUFFIXES: seq<string> := [
    "jpg", "jpeg", "png", "webp", "cue", "chapters.tree.json", "chapters.flat.json", "metadata.json",
    "clips.json", "pdf", "epub", "aaxc" ]

  const FOLDER_COMPANIONS: seq<string> := [
    "metadata.json", "metadata.abs", "cover.jpg", "cover.jpeg", "cover.png", "cover.webp", "folder.jpg",
    "folder.jpeg", "folder.png", "desc.txt", "reader.txt", "author.txt", "title.txt" ]

  function SidecarKey(audio: Key, suffix: string): Key {
    Stem(audio) + "." + suffix
  }

  function MetaSidecarKey(key: Key): Key {
    key + ".bookclerk-meta.json"
  }

  function PushUnique(out: seq<Key>, key: Key): seq<Key> {
    if key in out then out else out + [key]
  }

  predicate StemCompanion(audio: Key, key: Key) {
    key == MetaSidecarKey(audio) || exists i :: 0 <= i < |SIDECAR_SUFFIXES| && key == SidecarKey(audio, SIDECAR_SUFFIXES[i])
  }

  predicate FolderCompanion(audio: Key, key: Key) {
    exists i :: 0 <= i < |FOLDER_COMPANIONS| && key == JoinKey(ParentDir(audio), FOLDER_COMPANIONS[i])
  }

  /** `accompanying_keys`: exactly the allowlisted names, each once; the bare folder
      names only for a sole audio object. */
  method AccompanyingKeys(audio: Key, sole: bool) returns (out: seq<Key>)
    ensures forall key :: key in out <==> StemCompanion(audio, key) || (sole && FolderCompanion(audio, key))
    ensures forall i, j :: 0 <= i < j < |out| ==> out[i] != out[j]
  {
    out := [];
    for i := 0 to |SIDECAR_SUFFIXES|
      invariant forall key :: key in out <==> exists j :: 0 <= j < i && key == SidecarKey(audio, SIDECAR_SUFFIXES[j])
      invariant forall m, n :: 0 <= m < n < |out| ==> out[m] != out[n]
    {
      out := PushUnique(out, SidecarKey(audio, SIDECAR_SUFFIXES[i]));
    }
    out := PushUnique(out, MetaSidecarKey(audio));
    if sole {
      for i := 0 to |FOLDER_COMPANIONS|
        invariant forall key :: key in out <==>
                    StemCompanion(audio, key) || exists j :: 0 <= j < i && key == JoinKey(ParentDir(audio), FOLDER_COMPANIONS[j])
        invariant forall m, n :: 0 <= m < n < |out| ==> out[m] != out[n]
      {
        out := PushUnique(out, JoinKey(ParentDir(audio), FOLDER_COMPANIONS[i]));
      }
    }
  }

  /** `remap_companion_key`. */
  function Remap(from: Key, to: Key, companion: Key): Key {
    if Stem(from) + "." <= companion then Stem(to) + "." + companion[|Stem(from)| + 1..]
    else if ParentDir(companion) == ParentDir(from) then JoinKey(ParentDir(to), Basename(companion))
    else companion
  }

  /** A stem-prefixed sidecar becomes the same sidecar of the new key. */
  lemma SidecarFollows(from: Key, to: Key, suffix: string)
    ensures Remap(from, to, SidecarKey(from, suffix)) == SidecarKey(to, suffix)
  {
    var key := SidecarKey(from, suffix);
    assert Stem(from) + "." <= key;
    assert key[|Stem(from)| + 1..] == suffix;
  }

  lemma SplitKey(key: Key)
    requires '.' in key
    ensures key == Stem(key) + "." + Ext(key)
  {}

  lemma SplitTail(key: Key, tail: string)
    requires '.' in key
    ensures key + tail == Stem(key) + "." + (Ext(key) + tail)
  {
    SplitKey(key);
  }

  lemma CancelHead(head: string, a: string, b: string)
    requires head + a == head + b
    ensures a == b
  {
    assert a == (head + a)[|head|..] && b == (head + b)[|head|..];
  }

  lemma CancelTail(a: string, b: string, tail: string)
    requires a + tail == b + tail
    ensures a == b
  {
    assert |a| == |b|;
    assert a == (a + tail)[..|a|] && b == (b + tail)[..|b|];
  }

  lemma MetaRemapped(from: Key, to: Key, tail: string)
    requires '.' in from
    ensures Remap(from, to, from + tail) == Stem(to) + "." + (Ext(from) + tail)
  {
    SplitKey(from);
    var key := from + tail;
    assert key == Stem(from) + "." + (Ext(from) + tail);
    assert key[|Stem(from)| + 1..] == Ext(from) + tail;
  }

  lemma TailFollowsExactlyWhen(from: Key, to: Key, tail: string)
    requires '.' in from && '.' in to
    ensures Remap(from, to, from + tail) == to + tail <==> Ext(from) == Ext(to)
  {
    MetaRemapped(from, to, tail);
    SplitTail(to, tail);
    if Remap(from, to, from + tail) == to + tail {
      CancelHead(Stem(to) + ".", Ext(from) + tail, Ext(to) + tail);
      CancelTail(Ext(from), Ext(to), tail);
    }
  }

  /** The integrity sidecar becomes that of the new key exactly when the extension stays. */
  lemma MetaFollowsExactlyWhen(from: Key, to: Key)
    requires '.' in from && '.' in to
    ensures Remap(from, to, MetaSidecarKey(from)) == MetaSidecarKey(to) <==> Ext(from) == Ext(to)
  {
    TailFollowsExactlyWhen(from, to, ".bookclerk-meta.json");
  }

  /** A bare folder file keeps its name in the new folder. */
  lemma FolderFileFollows(from: Key, to: Key, name: string)
    requires '/' !in name && !(Stem(from) + "." <= JoinKey(ParentDir(from), name))
    ensures Remap(from, to, JoinKey(ParentDir(from), name)) == JoinKey(ParentDir(to), name)
  {
    JoinThenSplit(ParentDir(from), name);
  }

  // ---- counting audio directly in a folder ----

  function Hits(listing: seq<Key>, hit: Key -> bool): nat {
    if listing == [] then 0
    else Hits(listing[..|listing| - 1], hit) + if hit(listing[|listing| - 1]) then 1 else 0
  }

  function AudioIn(listing: seq<Key>, dir: string): nat {
    Hits(listing, key => ParentDir(key) == dir && IsAudio(key))
  }

  lemma {:induction false} HitsMonotone(listing: seq<Key>, hit: Key -> bool, n: nat)
    requires n <= |listing|
    ensures Hits(listing[..n], hit) <= Hits(listing, hit)
    decreases |listing| - n
  {
    if n < |listing| {
      HitsMonotone(listing, hit, n + 1);
      assert listing[..n + 1][..n] == listing[..n];
    } else {
      assert listing[..n] == listing;
    }
  }

  const MAX_HOPS: nat := 10_000

  /** Pages through a listing, stopping at the second hit. `cut` is how many keys
      the backend puts on each page. */
  method CountHits(listing: seq<Key>, hit: Key -> bool, cut: nat -> nat) returns (r: Result<nat, string>)
    ensures r.Ok? ==> r.value == if Hits(listing, hit) <= 1 then Hits(listing, hit) else 2
    ensures Readable(cut, |listing|, None, MAX_HOPS) ==> r.Ok?
    ensures r.Ok? && !Readable(cut, |listing|, None, MAX_HOPS) ==> r.value == 2
  {
    var found, hops := 0, 0;
    var cursor: Option<nat> := None;
    while true
      invariant Position(cursor) <= |listing| && hops <= MAX_HOPS
      invariant Readable(cut, |listing|, None, MAX_HOPS) <==> Readable(cut, |listing|, cursor, MAX_HOPS - hops)
      invariant found == Hits(listing[..Position(cursor)], hit) <= 1
      decreases MAX_HOPS - hops
    {
      if hops == MAX_HOPS {
        return Err("companion directory listing did not finish");
      }
      hops := hops + 1;
      var stop := PageEnd(cut, |listing|, Position(cursor));
      for i := Position(cursor) to stop
        invariant found == Hits(listing[..i], hit) <= 1
      {
        assert listing[..i + 1][..i] == listing[..i];
        if hit(listing[i]) {
          found := found + 1;
          if found > 1 {
            HitsMonotone(listing, hit, i + 1);
            return Ok(found);
          }
        }
      }
      if stop == |listing| {
        assert listing[..stop] == listing;
        return Ok(found);
      }
      if cursor == Some(stop) {
        return Err("companion directory cursor did not advance");
      }
      cursor := Some(stop);
    }
  }

  /** `count_audio_in_dir`: exact up to one, two beyond; it fails when the folder
      listing cannot be read to its end and shows at most one audio object. */
  method CountAudio(listing: seq<Key>, dir: string, cut: nat -> nat) returns (r: Result<nat, string>)
    ensures r.Ok? ==> r.value == if AudioIn(listing, dir) <= 1 then AudioIn(listing, dir) else 2
    ensures Readable(cut, |listing|, None, MAX_HOPS) ==> r.Ok?
    ensures r.Ok? && !Readable(cut, |listing|, None, MAX_HOPS) ==> r.value == 2
  {
    r := CountHits(listing, key => ParentDir(key) == dir && IsAudio(key), cut);
  }

  /** Everything directly in a folder is under the prefix that is listed. */
  lemma InFolderIsListed(key: Key, dir: string)
    requires ParentDir(key) == dir && dir != ""
    ensures dir + "/" <= key
  {
    var i := AfterLast(key, '/');
    assert key[..i] == dir + "/";
  }

  // ---- moving ----

  /** How a rename (a copy, then a delete) ends. */
  datatype Rename = Moved | CopyOnly | NotMoved

  /** The outcomes of the calls for companion `i`. */
  datatype Faults = Faults(source: nat -> bool, target: nat -> bool, rename: nat -> Rename)

  function RenameTo(store: Store, from: Key, to: Key, how: Rename): Store
    requires from in store && from != to
  {
    match how
    case Moved => (store - {from})[to := store[from]]
    case CopyOnly => store[to := store[from]]
    case NotMoved => store
  }

  /** One pass of the companion loop; a failed existence probe reads as absent. */
  function MoveCompanion(store: Store, from: Key, to: Key, side: Key, source: bool, target: bool, how: Rename): Store {
    var there := Remap(from, to, side);
    if !(source && side in store) || there == side || (target && there in store) then store
    else RenameTo(store, side, there, how)
  }

  function MoveCompanions(store: Store, from: Key, to: Key, sides: seq<Key>, f: Faults): Store {
    if sides == [] then store
    else
      var i := |sides| - 1;
      MoveCompanion(MoveCompanions(store, from, to, sides[..i], f), from, to, sides[i], f.source(i), f.target(i), f.rename(i))
  }

  /** `relocate_with_sidecars`. `listing` is what the source folder's listing shows. */
  method RelocateWithSidecars(store: Store, from: Key, to: Key, listing: seq<Key>, cut: nat -> nat,
                              toProbe: bool, audioRename: Rename, f: Faults)
      returns (ok: bool, after: Store, ghost sides: seq<Key>)
    ensures ok && from != to ==>
              && from in store && to !in store && audioRename == Moved
              && after == MoveCompanions(RenameTo(store, from, to, Moved), from, to, sides, f)
              && (forall key :: key in sides <==>
                    StemCompanion(from, key) || (AudioIn(listing, ParentDir(from)) <= 1 && FolderCompanion(from, key)))
    ensures from == to ==> ok && after == store
    ensures !ok ==> after == store || (from in store && to !in store && from != to && after == RenameTo(store, from, to, audioRename))
    ensures !ok || ProbesWork(f) ==> Keeps(store, after)
  {
    ok, after, sides := false, store, [];
    if from == to {
      return true, store, [];
    }
    if !toProbe || to in store {
      return;
    }
    var count := CountAudio(listing, ParentDir(from), cut);
    if count.Err? {
      return;
    }
    if from !in store {
      return;
    }
    after := RenameTo(store, from, to, audioRename);
    RenameConserves(store, from, to, audioRename);
    if audioRename != Moved {
      return;
    }
    var companions := AccompanyingKeys(from, count.value <= 1);
    sides := companions;
    after := MoveAll(after, from, to, companions, f);
    if ProbesWork(f) {
      RelocationConserves(store, from, to, sides, f);
    }
    ok := true;
  }

  /** The loop over the companions. */
  method MoveAll(store: Store, from: Key, to: Key, companions: seq<Key>, f: Faults) returns (after: Store)
    ensures after == MoveCompanions(store, from, to, companions, f)
  {
    after := store;
    for i := 0 to |companions|
      invariant after == MoveCompanions(store, from, to, companions[..i], f)
    {
      assert companions[..i + 1][..i] == companions[..i];
      var side := companions[i];
      if f.source(i) && side in after {
        var there := Remap(from, to, side);
        if there != side && !(f.target(i) && there in after) {
          after := RenameTo(after, side, there, f.rename(i));
        }
      }
    }
    assert companions[..|companions|] == companions;
  }

  // ---- conservation ----

  /** The keys under which a content is stored. */
  function Copies(store: Store, c: Content): set<Key> {
    set k | k in store && store[k] == c
  }

  /** The stored objects as a multiset, regardless of their keys: none is lost. */
  ghost predicate Keeps(before: Store, after: Store) {
    forall c :: |Copies(before, c)| <= |Copies(after, c)|
  }

  /** None is lost and none is added. */
  ghost predicate Conserves(before: Store, after: Store) {
    forall c :: |Copies(before, c)| == |Copies(after, c)|
  }

  lemma MovedCopies(store: Store, from: Key, to: Key, c: Content)
    requires from in store && from != to && to !in store
    ensures |Copies(RenameTo(store, from, to, Moved), c)| == |Copies(store, c)|
  {
    var was, now := Copies(store, c), Copies(RenameTo(store, from, to, Moved), c);
    if store[from] == c {
      assert now == was - {from} + {to};
    } else {
      assert now == was;
    }
  }

  lemma CopiedCopies(store: Store, from: Key, to: Key, c: Content)
    requires from in store && from != to && to !in store
    ensures |Copies(store, c)| <= |Copies(RenameTo(store, from, to, CopyOnly), c)|
  {
    var was, now := Copies(store, c), Copies(RenameTo(store, from, to, CopyOnly), c);
    if store[from] == c {
      assert now == was + {to};
    } else {
      assert now == was;
    }
  }

  lemma RenameConserves(store: Store, from: Key, to: Key, how: Rename)
    requires from in store && from != to && to !in store
    ensures Keeps(store, RenameTo(store, from, to, how))
    ensures how != CopyOnly ==> Conserves(store, RenameTo(store, from, to, how))
  {
    match how
    case Moved => forall c { MovedCopies(store, from, to, c); }
    case CopyOnly => forall c { CopiedCopies(store, from, to, c); }
    case NotMoved =>
  }

  /** No step of the companion loop overwrites: target probes do not fail. */
  ghost predicate ProbesWork(f: Faults) {
    forall i :: f.target(i)
  }

  lemma {:induction false} CompanionsConserve(store: Store, from: Key, to: Key, sides: seq<Key>, f: Faults)
    requires ProbesWork(f)
    ensures Keeps(store, MoveCompanions(store, from, to, sides, f))
    ensures (forall i :: f.rename(i) != CopyOnly) ==> Conserves(store, MoveCompanions(store, from, to, sides, f))
  {
    if sides != [] {
      var i := |sides| - 1;
      CompanionsConserve(store, from, to, sides[..i], f);
      var now := MoveCompanions(store, from, to, sides[..i], f);
      var there := Remap(from, to, sides[i]);
      if f.source(i) && sides[i] in now && there != sides[i] && there !in now {
        RenameConserves(now, sides[i], there, f.rename(i));
      }
    }
  }

  /** While target probes work, a relocation loses no stored object, and keeps
      exactly the stored objects unless a delete failed behind a copy. */
  lemma RelocationConserves(store: Store, from: Key, to: Key, sides: seq<Key>, f: Faults)
    requires from in store && to !in store && ProbesWork(f)
    ensures var after := MoveCompanions(RenameTo(store, from, to, Moved), from, to, sides, f);
            && Keeps(store, after)
            && ((forall i :: f.rename(i) != CopyOnly) ==> Conserves(store, after))
  {
    RenameConserves(store, from, to, Moved);
    CompanionsConserve(RenameTo(store, from, to, Moved), from, to, sides, f);
  }

  /** An object that is neither the audio nor a companion keeps its key and its
      content: nothing else is moved and nothing is overwritten. */
  lemma {:induction false} OthersStay(store: Store, from: Key, to: Key, sides: seq<Key>, f: Faults, key: Key)
    requires ProbesWork(f) && key in store && key !in sides
    ensures var after := MoveCompanions(store, from, to, sides, f); key in after && after[key] == store[key]
  {
    if sides != [] {
      var i := |sides| - 1;
      assert sides == sides[..i] + [sides[i]];
      OthersStay(store, from, to, sides[..i], f, key);
    }
  }

  lemma RelocationTouchesOnlyCompanions(store: Store, from: Key, to: Key, sides: seq<Key>, f: Faults, key: Key)
    requires from in store && to !in store && ProbesWork(f) && key in store && key != from && key !in sides
    ensures var after := MoveCompanions(RenameTo(store, from, to, Moved), from, to, sides, f);
            key in after && after[key] == store[key]
  {
    OthersStay(RenameTo(store, from, to, Moved), from, to, sides, f, key);
  }

  /** One companion step loses an object exactly when its target probe fails over an
      existing object that the rename then replaces. */
  lemma StepLosesExactlyWhen(store: Store, from: Key, to: Key, side: Key, source: bool, target: bool, how: Rename)
    ensures var there := Remap(from, to, side);
            Keeps(store, MoveCompanion(store, from, to, side, source, target, how)) <==>
            !(&& source && side in store && there != side && !target && there in store
              && (how == Moved || (how == CopyOnly && store[there] != store[side])))
  {
    var there := Remap(from, to, side);
    if source && side in store && there != side && !(target && there in store) {
      if there !in store {
        RenameConserves(store, side, there, how);
      } else {
        OverwriteLoses(store, side, there, how);
      }
    }
  }

  lemma OverwriteLoses(store: Store, from: Key, to: Key, how: Rename)
    requires from in store && to in store && from != to
    ensures Keeps(store, RenameTo(store, from, to, how)) <==>
            how == NotMoved || (how == CopyOnly && store[to] == store[from])
  {
    var after := RenameTo(store, from, to, how);
    var lost := store[to];
    if how == CopyOnly && lost == store[from] {
      assert after == store;
    } else if how != NotMoved {
      var was := Copies(store, lost);
      var gone := if how == Moved && store[from] == lost then from else to;
      assert to in was && gone in was;
      assert Copies(after, lost) == was - {gone};
      assert |Copies(after, lost)| < |was|;
    }
  }

  /** Step `i` of the companion loop replaces an object behind a failed target probe. */
  predicate Replaces(store: Store, from: Key, to: Key, sides: seq<Key>, f: Faults, i: nat)
    requires i < |sides|
  {
    var now := MoveCompanions(store, from, to, sides[..i], f);
    var there := Remap(from, to, sides[i]);
    f.source(i) && sides[i] in now && there != sides[i] && !f.target(i) && there in now && f.rename(i) == Moved
  }

  predicate NoneReplaces(store: Store, from: Key, to: Key, sides: seq<Key>, f: Faults) {
    forall i :: 0 <= i < |sides| ==> !Replaces(store, from, to, sides, f, i)
  }

  lemma NoneReplacesSplit(store: Store, from: Key, to: Key, sides: seq<Key>, f: Faults)
    requires sides != []
    ensures var n := |sides| - 1;
            NoneReplaces(store, from, to, sides, f) <==>
              NoneReplaces(store, from, to, sides[..n], f) && !Replaces(store, from, to, sides, f, n)
  {
    var n := |sides| - 1;
    forall i | 0 <= i < n ensures Replaces(store, from, to, sides, f, i) == Replaces(store, from, to, sides[..n], f, i) {
      assert sides[..n][..i] == sides[..i];
    }
  }

  /** No content has more copies than before. */
  ghost predicate AddsNone(before: Store, after: Store) {
    forall c :: |Copies(after, c)| <= |Copies(before, c)|
  }

  /** Without a copy that stays behind, a step adds nothing. */
  lemma StepAddsNone(store: Store, from: Key, to: Key, side: Key, source: bool, target: bool, how: Rename)
    requires how != CopyOnly
    ensures AddsNone(store, MoveCompanion(store, from, to, side, source, target, how))
  {
    var there := Remap(from, to, side);
    if source && side in store && there != side && !(target && there in store) && how == Moved {
      forall c ensures |Copies(RenameTo(store, side, there, Moved), c)| <= |Copies(store, c)| {
        if there in store {
          OverwriteAddsNone(store, side, there, c);
        } else {
          MovedCopies(store, side, there, c);
        }
      }
    }
  }

  lemma OverwriteAddsNone(store: Store, from: Key, to: Key, c: Content)
    requires from in store && to in store && from != to
    ensures |Copies(RenameTo(store, from, to, Moved), c)| <= |Copies(store, c)|
  {
    var was, now := Copies(store, c), Copies(RenameTo(store, from, to, Moved), c);
    var rest := was - {from, to};
    assert now == if store[from] == c then rest + {to} else rest;
    if store[from] == c {
      assert rest <= was - {from};
    }
  }

  /** While every rename that copies also deletes, the companion loop keeps every
      object exactly when none of its steps replaces one. */
  lemma {:induction false} CompanionsKeepExactlyWhen(store: Store, from: Key, to: Key, sides: seq<Key>, f: Faults)
    requires forall i :: f.rename(i) != CopyOnly
    ensures AddsNone(store, MoveCompanions(store, from, to, sides, f))
    ensures Keeps(store, MoveCompanions(store, from, to, sides, f)) <==> NoneReplaces(store, from, to, sides, f)
  {
    if sides != [] {
      var n := |sides| - 1;
      CompanionsKeepExactlyWhen(store, from, to, sides[..n], f);
      NoneReplacesSplit(store, from, to, sides, f);
      var now := MoveCompanions(store, from, to, sides[..n], f);
      StepAddsNone(now, from, to, sides[n], f.source(n), f.target(n), f.rename(n));
      StepLosesExactlyWhen(now, from, to, sides[n], f.source(n), f.target(n), f.rename(n));
      KeepsThenStep(store, now, MoveCompanions(store, from, to, sides, f));
    }
  }

  /** Losses never heal when nothing is added. */
  lemma KeepsThenStep(a: Store, b: Store, c: Store)
    requires AddsNone(a, b) && AddsNone(b, c)
    ensures AddsNone(a, c) && (Keeps(a, c) <==> Keeps(a, b) && Keeps(b, c))
  {
    forall x ensures |Copies(c, x)| <= |Copies(b, x)| <= |Copies(a, x)| {}
    if Keeps(a, c) {
      forall x ensures |Copies(a, x)| == |Copies(b, x)| == |Copies(c, x)| {}
    }
  }

  /** The same for a whole relocation, whose audio move itself never replaces anything. */
  lemma RelocationKeepsExactlyWhen(store: Store, from: Key, to: Key, sides: seq<Key>, f: Faults)
    requires from in store && to !in store && forall i :: f.rename(i) != CopyOnly
    ensures var moved := RenameTo(store, from, to, Moved);
            Keeps(store, MoveCompanions(moved, from, to, sides, f)) <==> NoneReplaces(moved, from, to, sides, f)
  {
    var moved := RenameTo(store, from, to, Moved);
    RenameConserves(store, from, to, Moved);
    CompanionsKeepExactlyWhen(moved, from, to, sides, f);
    KeepsThenStep(store, moved, MoveCompanions(moved, from, to, sides, f));
  }

  // ---- where companions end up ----

  function Get(store: Store, key: Key): Option<Content> {
    if key in store then Some(store[key]) else None
  }

  /** A step moves an object to its target or leaves the store as it is. */
  lemma StepElsewhere(store: Store, side: Key, there: Key, how: Rename, key: Key)
    requires side in store && there != side && key != side && key != there
    ensures Get(RenameTo(store, side, there, how), key) == Get(store, key)
  {}

  /** Steps `lo` up to `hi` neither move `key` nor write to it. */
  ghost predicate LeftAlone(from: Key, to: Key, sides: seq<Key>, lo: nat, hi: nat, key: Key) {
    forall j :: lo <= j < hi <= |sides| ==> sides[j] != key && Remap(from, to, sides[j]) != key
  }

  lemma {:induction false} LeftAloneStays(store: Store, from: Key, to: Key, sides: seq<Key>, f: Faults, lo: nat, hi: nat, key: Key)
    requires lo <= hi <= |sides| && LeftAlone(from, to, sides, lo, hi, key)
    ensures Get(MoveCompanions(store, from, to, sides[..hi], f), key) == Get(MoveCompanions(store, from, to, sides[..lo], f), key)
    decreases hi
  {
    if lo < hi {
      var j := hi - 1;
      LeftAloneStays(store, from, to, sides, f, lo, j, key);
      CompanionStep(store, from, to, sides, f, j);
      var now, there := MoveCompanions(store, from, to, sides[..j], f), Remap(from, to, sides[j]);
      if f.source(j) && sides[j] in now && there != sides[j] && !(f.target(j) && there in now) {
        StepElsewhere(now, sides[j], there, f.rename(j), key);
      }
    }
  }

  /** Turn `j` of the companion loop. */
  lemma CompanionStep(store: Store, from: Key, to: Key, sides: seq<Key>, f: Faults, j: nat)
    requires j < |sides|
    ensures MoveCompanions(store, from, to, sides[..j + 1], f) ==
            MoveCompanion(MoveCompanions(store, from, to, sides[..j], f), from, to, sides[j], f.source(j), f.target(j), f.rename(j))
  {
    assert sides[..j + 1][..j] == sides[..j];
  }

  /** Nothing else is moved from or to a companion's old key or its target. */
  ghost predicate Apart(from: Key, to: Key, sides: seq<Key>, i: nat)
    requires i < |sides|
  {
    var side, there := sides[i], Remap(from, to, sides[i]);
    && there != side
    && LeftAlone(from, to, sides, 0, i, side) && LeftAlone(from, to, sides, i + 1, |sides|, side)
    && LeftAlone(from, to, sides, 0, i, there) && LeftAlone(from, to, sides, i + 1, |sides|, there)
  }

  /** So only its own turn decides about the two. */
  lemma OwnTurnDecides(store: Store, from: Key, to: Key, sides: seq<Key>, f: Faults, i: nat, key: Key)
    requires i < |sides| && LeftAlone(from, to, sides, 0, i, key) && LeftAlone(from, to, sides, i + 1, |sides|, key)
    ensures Get(MoveCompanions(store, from, to, sides[..i], f), key) == Get(store, key)
    ensures Get(MoveCompanions(store, from, to, sides, f), key) == Get(MoveCompanions(store, from, to, sides[..i + 1], f), key)
  {
    LeftAloneStays(store, from, to, sides, f, 0, i, key);
    LeftAloneStays(store, from, to, sides, f, i + 1, |sides|, key);
    assert sides[..0] == [] && sides[..|sides|] == sides;
  }

  /** A stored companion ends at its new key, and only there, exactly when its own
      probe and its rename work, if the target is free; a taken target that the
      probe sees keeps both objects where they were. */
  lemma CompanionArrivesExactlyWhen(store: Store, from: Key, to: Key, sides: seq<Key>, f: Faults, i: nat)
    requires i < |sides| && sides[i] in store && Apart(from, to, sides, i)
    ensures var after, side, there := MoveCompanions(store, from, to, sides, f), sides[i], Remap(from, to, sides[i]);
            && (there !in store ==>
                  (Get(after, side) == None && Get(after, there) == Get(store, side) <==> f.source(i) && f.rename(i) == Moved))
            && (there in store && f.target(i) ==> Get(after, side) == Get(store, side) && Get(after, there) == Get(store, there))
  {
    var side, there := sides[i], Remap(from, to, sides[i]);
    OwnTurnDecides(store, from, to, sides, f, i, side);
    OwnTurnDecides(store, from, to, sides, f, i, there);
    CompanionStep(store, from, to, sides, f, i);
    TurnArrives(MoveCompanions(store, from, to, sides[..i], f), from, to, side, f.source(i), f.target(i), f.rename(i));
  }

  lemma TurnArrives(store: Store, from: Key, to: Key, side: Key, source: bool, target: bool, how: Rename)
    requires side in store && Remap(from, to, side) != side
    ensures var after, there := MoveCompanion(store, from, to, side, source, target, how), Remap(from, to, side);
            && (there !in store ==> (Get(after, side) == None && Get(after, there) == Get(store, side) <==> source && how == Moved))
            && (there in store && target ==> after == store)
  {}

  /** In a whole relocation the audio stays at its new key unless a companion is moved from or to it. */
  lemma AudioArrives(store: Store, from: Key, to: Key, sides: seq<Key>, f: Faults)
    requires from in store && to !in store && LeftAlone(from, to, sides, 0, |sides|, to)
    ensures Get(MoveCompanions(RenameTo(store, from, to, Moved), from, to, sides, f), to) == Some(store[from])
  {
    LeftAloneStays(RenameTo(store, from, to, Moved), from, to, sides, f, 0, |sides|, to);
    assert sides[..0] == [] && sides[..|sides|] == sides;
  }

  /** And a stored companion that stands apart and has a free target goes along
      exactly when its own probe and rename work. */
  lemma CompanionFollowsExactlyWhen(store: Store, from: Key, to: Key, sides: seq<Key>, f: Faults, i: nat)
    requires from in store && to !in store && i < |sides| && Apart(from, to, sides, i)
    requires sides[i] in store && sides[i] != from && Remap(from, to, sides[i]) !in store && Remap(from, to, sides[i]) != to
    ensures var after := MoveCompanions(RenameTo(store, from, to, Moved), from, to, sides, f);
            (Get(after, sides[i]) == None && Get(after, Remap(from, to, sides[i])) == Some(store[sides[i]]))
              <==> f.source(i) && f.rename(i) == Moved
  {
    CompanionArrivesExactlyWhen(RenameTo(store, from, to, Moved), from, to, sides, f, i);
  }
}
