/** What storage keys say about themselves: extensions, media rank, internal
    names, and the catalogue identities embedded in a path. */
module Keys {
  import opened Basics

  type Key = string

  // ---- characters ----

  function Lower(s: string): string {
    seq(|s|, i requires 0 <= i < |s| => if 'A' <= s[i] <= 'Z' then s[i] - 'A' + 'a' else s[i])
  }

  function Upper(s: string): string {
    seq(|s|, i requires 0 <= i < |s| => if 'a' <= s[i] <= 'z' then s[i] - 'a' + 'A' else s[i])
  }

  predicate Digit(c: char) { '0' <= c <= '9' }

  predicate Alphanumeric(c: char) { Digit(c) || 'a' <= c <= 'z' || 'A' <= c <= 'Z' }

  /** The Unicode property White_Space. */
  predicate Space(c: char) {
    var n := c as int;
    || 9 <= n <= 13 || n == 32 || n == 0x85 || n == 0xA0 || n == 0x1680
    || 0x2000 <= n <= 0x200A || n == 0x2028 || n == 0x2029 || n == 0x202F || n == 0x205F || n == 0x3000
  }

  // ---- cutting a string ----

  /** The pieces between separators; never empty. */
  function Split(s: string, sep: char -> bool): (r: seq<string>)
    ensures r != []
  {
    if s == "" then [""]
    else
      var rest := Split(s[1..], sep);
      if sep(s[0]) then [""] + rest else [[s[0]] + rest[0]] + rest[1..]
  }

  function Trim(s: string): string {
    if s == "" then ""
    else if Space(s[0]) then Trim(s[1..])
    else if Space(s[|s| - 1]) then Trim(s[..|s| - 1])
    else s
  }

  function Replace(s: string, from: char, to: char): string {
    seq(|s|, i requires 0 <= i < |s| => if s[i] == from then to else s[i])
  }

  predicate Contains(s: string, part: string) {
    part <= s || (s != "" && Contains(s[1..], part))
  }

  /** Index just after the last `c`, or 0. */
  function AfterLast(s: string, c: char): (i: nat)
    ensures i <= |s|
    ensures i > 0 ==> s[i - 1] == c && c !in s[i..]
    ensures i == 0 ==> c !in s
  {
    if s == "" then 0
    else if s[|s| - 1] == c then |s|
    else
      var i := AfterLast(s[..|s| - 1], c);
      assert s == s[..|s| - 1] + [s[|s| - 1]];
      assert i > 0 ==> s[i..] == s[..|s| - 1][i..] + [s[|s| - 1]];
      i
  }

  lemma {:induction false} AfterLastAppend(a: string, c: char, b: string)
    requires c !in b
    ensures AfterLast(a + [c] + b, c) == |a| + 1
  {
    var s := a + [c] + b;
    if b == "" {
      assert s[|s| - 1] == c;
    } else {
      assert s[..|s| - 1] == a + [c] + b[..|b| - 1];
      AfterLastAppend(a, c, b[..|b| - 1]);
    }
  }

  /** All of `key` when it has no dot. */
  function Ext(key: Key): string {
    key[AfterLast(key, '.')..]
  }

  function Stem(key: Key): string {
    if AfterLast(key, '.') > 0 then key[..AfterLast(key, '.') - 1] else key
  }

  /** The part before the last slash, empty for a root-level key. */
  function ParentDir(key: Key): string {
    if AfterLast(key, '/') > 0 then key[..AfterLast(key, '/') - 1] else ""
  }

  function Basename(key: Key): string {
    key[AfterLast(key, '/')..]
  }

  function JoinKey(dir: string, name: string): Key {
    if dir == "" then name else dir + "/" + name
  }

  // ---- audio and rank ----

  const AUDIO: set<string> := {"m4b", "mp3", "m4a", "flac", "aac", "ogg", "oga"}

  predicate IsAudio(key: Key) {
    '.' in key && Lower(Ext(key)) in AUDIO
  }

  function MediaRank(key: Key): nat {
    var ext := Lower(Ext(key));
    if ext == "m4b" then 0
    else if ext == "m4a" then 1
    else if ext == "mp3" then 2
    else if ext == "flac" then 3
    else if ext == "aac" then 4
    else if ext == "ogg" || ext == "oga" then 5
    else if ext == "aaxc" || ext == "aax" then 9
    else 6
  }

  /** The rank alone tells audio from the rest, except for a key without a dot. */
  lemma AudioByRank(key: Key)
    ensures IsAudio(key) <==> MediaRank(key) <= 5 && '.' in key
  {}

  predicate HiddenPart(part: string) {
    || part == ".bookclerk-stage" || part == ".bookclerk-list-index" || part == ".bookclerk-orphans"
    || (part != "" && part[0] == '.' && Contains(part, ".bookclerk-tmp-"))
  }

  predicate IsHidden(key: Key) {
    exists part :: part in Split(key, c => c == '/') && HiddenPart(part)
  }

  // ---- identities ----

  predicate LooksLikeAsin(s: string) {
    10 <= |s| <= 12 && s[0] in {'B', 'b'} && forall i :: 0 <= i < |s| ==> Alphanumeric(s[i])
  }

  function Digits(s: string): (r: string)
    ensures forall i :: 0 <= i < |r| ==> Digit(r[i])
  {
    if s == "" then "" else (if Digit(s[0]) then [s[0]] else "") + Digits(s[1..])
  }

  function NormalizeIsbn13(s: string): Option<string> {
    if exists i :: 0 <= i < |s| && !Digit(s[i]) && s[i] != '-' && !Space(s[i]) then None
    else if |Digits(s)| == 13 then Some(Digits(s)) else None
  }

  /** `push_id_candidate`. */
  function Candidate(raw: string): Option<string> {
    var trimmed := Trim(raw);
    if LooksLikeAsin(trimmed) then Some(Upper(trimmed)) else NormalizeIsbn13(trimmed)
  }

  function Candidates(parts: seq<string>): set<string> {
    set part | part in parts && Candidate(part).Some? :: Candidate(part).value
  }

  function SegmentIds(segment: string): set<string> {
    Candidates([Stem(segment)]) + Candidates(Split(Stem(segment), c => Space(c) || c == '_' || c == '-'))
  }

  /** `extract_asins_from_key`; the sorted, duplicate-free list is used as a set. */
  function Ids(key: Key): set<string> {
    var normalized := Replace(key, '\\', '/');
    Candidates(Split(normalized, c => c == '[' || c == ']'))
    + set segment, id | segment in Split(normalized, c => c == '/') && id in SegmentIds(segment) :: id
  }

  predicate Canonical(id: string) {
    || (10 <= |id| <= 12 && id[0] == 'B' && forall i :: 0 <= i < |id| ==> Digit(id[i]) || 'A' <= id[i] <= 'Z')
    || (|id| == 13 && forall i :: 0 <= i < 13 ==> Digit(id[i]))
  }

  lemma CandidateIsCanonical(raw: string)
    requires Candidate(raw).Some?
    ensures Canonical(Candidate(raw).value) && Upper(Candidate(raw).value) == Candidate(raw).value
  {}

  /** Whatever the path looks like, an extracted identity is an upper-case ASIN or thirteen digits. */
  lemma IdsAreCanonical(key: Key, id: string)
    requires id in Ids(key)
    ensures Canonical(id) && Upper(id) == id
  {
    var normalized := Replace(key, '\\', '/');
    if id in Candidates(Split(normalized, c => c == '[' || c == ']')) {
      var part :| part in Split(normalized, c => c == '[' || c == ']') && Candidate(part) == Some(id);
      CandidateIsCanonical(part);
    } else {
      var segment :| segment in Split(normalized, c => c == '/') && id in SegmentIds(segment);
      if id in Candidates([Stem(segment)]) {
        CandidateIsCanonical(Stem(segment));
      } else {
        var part :| part in Split(Stem(segment), c => Space(c) || c == '_' || c == '-') && Candidate(part) == Some(id);
        CandidateIsCanonical(part);
      }
    }
  }

  // ---- the promised forms are recognised ----

  /** Anything between two separators is a piece. */
  lemma {:induction false} SplitFindsPiece(a: string, sep: char -> bool, piece: string, b: string)
    requires forall i :: 0 <= i < |piece| ==> !sep(piece[i])
    requires a == "" || sep(a[|a| - 1])
    requires b == "" || sep(b[0])
    ensures piece in Split(a + piece + b, sep)
  {
    if a != "" {
      assert (a + piece + b)[1..] == a[1..] + piece + b;
      SplitFindsPiece(a[1..], sep, piece, b);
      var rest := Split(a[1..] + piece + b, sep);
      if !sep(a[0]) && piece == rest[0] {
        LaterPiece(a[1..], sep, piece, b);
      }
    } else {
      assert a + piece + b == piece + b;
      SplitHead(sep, piece, b);
    }
  }

  /** Behind a separator the piece is not the first one. */
  lemma {:induction false} LaterPiece(a: string, sep: char -> bool, piece: string, b: string)
    requires a != "" && sep(a[|a| - 1])
    requires forall i :: 0 <= i < |piece| ==> !sep(piece[i])
    requires b == "" || sep(b[0])
    ensures piece in Split(a + piece + b, sep)[1..]
  {
    assert (a + piece + b)[1..] == a[1..] + piece + b;
    if |a| == 1 {
      assert a[1..] + piece + b == piece + b;
      SplitHead(sep, piece, b);
    } else {
      LaterPiece(a[1..], sep, piece, b);
    }
  }

  lemma {:induction false} SplitHead(sep: char -> bool, piece: string, b: string)
    requires forall i :: 0 <= i < |piece| ==> !sep(piece[i])
    requires b == "" || sep(b[0])
    ensures Split(piece + b, sep)[0] == piece
  {
    if piece != "" {
      assert (piece + b)[1..] == piece[1..] + b;
      SplitHead(sep, piece[1..], b);
    } else {
      assert piece + b == b;
    }
  }

  /** `p` stands in `s` between two separators or ends, and holds none itself. */
  ghost predicate Piece(s: string, sep: char -> bool, p: string) {
    exists a: string, b: string :: s == a + p + b && Bounded(a, sep, p, b)
  }

  predicate Bounded(a: string, sep: char -> bool, p: string, b: string) {
    && (forall i :: 0 <= i < |p| ==> !sep(p[i]))
    && (a == "" || sep(a[|a| - 1]))
    && (b == "" || sep(b[0]))
  }

  lemma {:induction false} SplitGivesPiece(s: string, sep: char -> bool, k: nat) returns (a: string, b: string)
    requires k < |Split(s, sep)|
    ensures s == a + Split(s, sep)[k] + b && Bounded(a, sep, Split(s, sep)[k], b) && (k == 0 <==> a == "")
    decreases |s|
  {
    if s == "" {
      a, b := "", "";
    } else if sep(s[0]) && k == 0 {
      a, b := "", s;
    } else {
      var rest;
      rest, b := SplitGivesPiece(s[1..], sep, if sep(s[0]) then k - 1 else k);
      a := if k > 0 then [s[0]] + rest else "";
      assert s == [s[0]] + s[1..];
      assert k > 0 && rest != "" ==> a[|a| - 1] == rest[|rest| - 1];
    }
  }

  /** Splitting gives exactly the pieces. */
  lemma PieceExactly(s: string, sep: char -> bool, p: string)
    ensures p in Split(s, sep) <==> Piece(s, sep, p)
  {
    if p in Split(s, sep) {
      var k :| 0 <= k < |Split(s, sep)| && Split(s, sep)[k] == p;
      var a, b := SplitGivesPiece(s, sep, k);
    }
    if Piece(s, sep, p) {
      var a: string, b: string :| s == a + p + b && Bounded(a, sep, p, b);
      SplitFindsPiece(a, sep, p, b);
    }
  }

  /** Where `raw` may stand in a key to count as an identity: between brackets, as
      the stem of a path segment, or as a word of one. */
  ghost predicate Stands(key: Key, raw: string) {
    var normalized := Replace(key, '\\', '/');
    || Piece(normalized, c => c == '[' || c == ']', raw)
    || exists segment :: Piece(normalized, c => c == '/', segment) && StemOrWord(segment, raw)
  }

  ghost predicate StemOrWord(segment: string, raw: string) {
    raw == Stem(segment) || Piece(Stem(segment), c => Space(c) || c == '_' || c == '-', raw)
  }

  lemma SegmentIdsExactly(segment: string, id: string)
    ensures id in SegmentIds(segment) <==> exists raw :: StemOrWord(segment, raw) && Candidate(raw) == Some(id)
  {
    var stem := Stem(segment);
    var words := Split(stem, c => Space(c) || c == '_' || c == '-');
    forall raw ensures raw in words <==> Piece(stem, c => Space(c) || c == '_' || c == '-', raw) {
      PieceExactly(stem, c => Space(c) || c == '_' || c == '-', raw);
    }
    assert id in Candidates([stem]) <==> Candidate(stem) == Some(id) by { assert [stem][0] == stem; }
    if id in Candidates(words) {
      var raw :| raw in words && Candidate(raw) == Some(id);
      assert StemOrWord(segment, raw);
    }
    assert StemOrWord(segment, stem);
  }

  /** The identities of a key are exactly those that stand somewhere in it. */
  lemma IdsExactlyWhen(key: Key, id: string)
    ensures id in Ids(key) <==> exists raw :: Stands(key, raw) && Candidate(raw) == Some(id)
  {
    var normalized := Replace(key, '\\', '/');
    var bracketed := Split(normalized, c => c == '[' || c == ']');
    var segments := Split(normalized, c => c == '/');
    if id in Candidates(bracketed) {
      var raw :| raw in bracketed && Candidate(raw) == Some(id);
      PieceExactly(normalized, c => c == '[' || c == ']', raw);
      assert Stands(key, raw);
    } else if id in Ids(key) {
      var segment :| segment in segments && id in SegmentIds(segment);
      PieceExactly(normalized, c => c == '/', segment);
      SegmentIdsExactly(segment, id);
      var raw :| StemOrWord(segment, raw) && Candidate(raw) == Some(id);
      assert Stands(key, raw);
    }
    if raw :| Stands(key, raw) && Candidate(raw) == Some(id) {
      StandingIsFound(key, raw, id);
    }
  }

  lemma StandingIsFound(key: Key, raw: string, id: string)
    requires Stands(key, raw) && Candidate(raw) == Some(id)
    ensures id in Ids(key)
  {
    var normalized := Replace(key, '\\', '/');
    if Piece(normalized, c => c == '[' || c == ']', raw) {
      PieceExactly(normalized, c => c == '[' || c == ']', raw);
    } else {
      var segment :| Piece(normalized, c => c == '/', segment) && StemOrWord(segment, raw);
      PieceExactly(normalized, c => c == '/', segment);
      SegmentIdsExactly(segment, id);
    }
  }

  // ---- what counts as an identity ----

  lemma TrimIsWhole(s: string)
    requires s == "" || (!Space(s[0]) && !Space(s[|s| - 1]))
    ensures Trim(s) == s
  {}

  lemma {:induction false} TrimIsBlank(s: string)
    ensures Trim(s) == "" <==> forall i :: 0 <= i < |s| ==> Space(s[i])
    decreases |s|
  {
    if s != "" {
      if Space(s[0]) {
        TrimIsBlank(s[1..]);
        assert forall i :: 1 <= i < |s| ==> s[i] == s[1..][i - 1];
      } else if Space(s[|s| - 1]) {
        TrimIsBlank(s[..|s| - 1]);
        assert s[..|s| - 1][0] == s[0];
      }
    }
  }

  /** Ten to twelve letters and digits behind a B are an ASIN, written in upper case. */
  lemma AsinIsCandidate(s: string)
    requires 10 <= |s| <= 12 && (s[0] == 'B' || s[0] == 'b')
    requires forall i :: 0 <= i < |s| ==> '0' <= s[i] <= '9' || 'a' <= s[i] <= 'z' || 'A' <= s[i] <= 'Z'
    ensures Candidate(s) == Some(Upper(s)) && Canonical(Upper(s))
  {
    TrimIsWhole(s);
  }

  lemma {:induction false} DigitsConcat(a: string, b: string)
    ensures Digits(a + b) == Digits(a) + Digits(b)
  {
    if a == "" {
      assert a + b == b;
    } else {
      assert (a + b)[1..] == a[1..] + b;
      DigitsConcat(a[1..], b);
    }
  }

  predicate Number(s: string) {
    forall i :: 0 <= i < |s| ==> '0' <= s[i] <= '9'
  }

  lemma {:induction false} DigitsOfNumber(s: string)
    requires Number(s)
    ensures Digits(s) == s
  {
    if s != "" {
      DigitsOfNumber(s[1..]);
    }
  }

  /** Thirteen digits are an ISBN, also when a hyphen or a space divides them. */
  lemma IsbnIsCandidate(a: string, gap: string, b: string)
    requires gap in {"", "-", " "} && |a| + |b| == 13 && a != "" && b != "" && Number(a) && Number(b)
    ensures Candidate(a + gap + b) == Some(a + b) && Canonical(a + b)
  {
    var s := a + gap + b;
    assert s[0] == a[0] && s[|s| - 1] == b[|b| - 1];
    TrimIsWhole(s);
    IsbnDigits(a, gap, b);
    assert forall i :: 0 <= i < |s| ==> Digit(s[i]) || s[i] == '-' || Space(s[i]);
  }

  lemma IsbnDigits(a: string, gap: string, b: string)
    requires gap in {"", "-", " "} && Number(a) && Number(b)
    ensures Digits(a + gap + b) == a + b
  {
    DigitsConcat(a + gap, b);
    DigitsConcat(a, gap);
    DigitsOfNumber(a);
    DigitsOfNumber(b);
    assert Digits(gap) == "";
    assert a + "" == a;
  }

  /** Nothing else is: between the digits there are only hyphens and spaces. */
  lemma IsbnHoldsNoLetter(raw: string, i: nat)
    requires Candidate(raw).Some? && |Candidate(raw).value| == 13 && i < |Trim(raw)|
    ensures '0' <= Trim(raw)[i] <= '9' || Trim(raw)[i] == '-' || Space(Trim(raw)[i])
  {}

  // ---- internal keys ----

  /** A key is internal exactly when a segment of its path is. */
  lemma HiddenExactlyWhen(key: Key)
    ensures IsHidden(key) <==> exists part :: Piece(key, c => c == '/', part) && InternalName(part)
  {
    var parts := Split(key, c => c == '/');
    if part :| part in parts && HiddenPart(part) {
      PieceExactly(key, c => c == '/', part);
      InternalExactly(part);
    }
    if part :| Piece(key, c => c == '/', part) && InternalName(part) {
      PieceExactly(key, c => c == '/', part);
      InternalExactly(part);
    }
  }

  /** The staging, index and orphan folders, and temporary files. */
  ghost predicate InternalName(part: string) {
    || part in {".bookclerk-stage", ".bookclerk-list-index", ".bookclerk-orphans"}
    || exists a: string, b: string :: part == a + ".bookclerk-tmp-" + b && (a == "" || a[0] == '.')
  }

  lemma {:induction false} ContainsExactly(s: string, part: string)
    ensures Contains(s, part) <==> exists a: string, b: string :: s == a + part + b
  {
    if part <= s {
      assert s == "" + part + s[|part|..];
    } else if s != "" {
      ContainsExactly(s[1..], part);
      if a: string, b: string :| s[1..] == a + part + b {
        assert s == ([s[0]] + a) + part + b;
      }
      if a: string, b: string :| s == a + part + b {
        assert s[..|a + part|] == a + part;
        assert s[1..] == a[1..] + part + b;
      }
    }
  }

  lemma InternalExactly(part: string)
    ensures HiddenPart(part) <==> InternalName(part)
  {
    ContainsExactly(part, ".bookclerk-tmp-");
    if a: string, b: string :| part == a + ".bookclerk-tmp-" + b && (a == "" || a[0] == '.') {
      assert part[0] == '.';
    }
    if HiddenPart(part) && Contains(part, ".bookclerk-tmp-") {
      var a: string, b: string :| part == a + ".bookclerk-tmp-" + b;
      assert a == "" || a[0] == part[0];
    }
  }

  // ---- preference ----

  /** Best first; "ogg" and "oga" share the last place. */
  const PREFERRED: seq<string> := ["m4b", "m4a", "mp3", "flac", "aac", "ogg"]

  /** Packaged formats are preferred in this order, before anything else, and encrypted leftovers come last. */
  lemma RankByPreference(a: string, ext: string, b: string, other: string)
    requires '.' !in ext && '.' !in other
    ensures var e, o := Lower(ext), Lower(other);
            && (forall i, j :: 0 <= i < j < |PREFERRED| && e == PREFERRED[i] && o == PREFERRED[j] ==>
                  MediaRank(a + "." + ext) < MediaRank(b + "." + other))
            && (e in PREFERRED && o !in PREFERRED && o != "oga" ==> MediaRank(a + "." + ext) < MediaRank(b + "." + other))
            && (e !in {"aax", "aaxc"} && o in {"aax", "aaxc"} ==> MediaRank(a + "." + ext) < MediaRank(b + "." + other))
  {
    StemAppend(a, ext);
    StemAppend(b, other);
  }

  lemma ReplaceConcat(a: string, b: string, from: char, to: char)
    ensures Replace(a + b, from, to) == Replace(a, from, to) + Replace(b, from, to)
  {}

  lemma ReplaceAbsent(s: string, from: char, to: char)
    requires from !in s
    ensures Replace(s, from, to) == s
  {
    assert forall i :: 0 <= i < |s| ==> s[i] in s;
  }

  /** `Title [B00EXAMPLE1].m4b`: an identity in brackets is found wherever it stands. */
  lemma BracketFormIsFound(a: string, raw: string, b: string)
    requires '[' !in raw && ']' !in raw && '\\' !in raw && Candidate(raw).Some?
    ensures Candidate(raw).value in Ids(a + "[" + raw + "]" + b)
  {
    var key := a + "[" + raw + "]" + b;
    var sep := c => c == '[' || c == ']';
    var left, right := Replace(a + "[", '\\', '/'), Replace("]" + b, '\\', '/');
    ReplaceConcat(a + "[" + raw, "]" + b, '\\', '/');
    ReplaceConcat(a + "[", raw, '\\', '/');
    ReplaceAbsent(raw, '\\', '/');
    assert key == a + "[" + raw + ("]" + b);
    assert Replace(key, '\\', '/') == left + raw + right;
    assert left[|left| - 1] == '[' && right[0] == ']';
    assert forall i :: 0 <= i < |raw| ==> raw[i] in raw;
    SplitFindsPiece(left, sep, raw, right);
    assert raw in Split(Replace(key, '\\', '/'), c => c == '[' || c == ']');
  }

  lemma StemAppend(a: string, b: string)
    requires '.' !in b
    ensures Stem(a + "." + b) == a && Ext(a + "." + b) == b
  {
    AfterLastAppend(a, '.', b);
    assert (a + "." + b)[|a| + 1..] == b && (a + "." + b)[..|a|] == a;
  }

  lemma JoinThenSplit(dir: string, name: string)
    requires '/' !in name
    ensures ParentDir(JoinKey(dir, name)) == dir && Basename(JoinKey(dir, name)) == name
  {
    if dir == "" {
      assert AfterLast(name, '/') == 0;
    } else {
      AfterLastAppend(dir, '/', name);
      assert (dir + "/" + name)[|dir| + 1..] == name && (dir + "/" + name)[..|dir|] == dir;
    }
  }

  /** The file name is a path segment of its own, with or without a folder. */
  lemma NameIsSegment(dir: string, name: string)
    requires '/' !in name && '\\' !in name
    ensures name in Split(Replace(JoinKey(dir, name), '\\', '/'), c => c == '/')
  {
    var prefix := if dir == "" then "" else dir + "/";
    var left := Replace(prefix, '\\', '/');
    var sep := c => c == '/';
    ReplaceConcat(prefix, name, '\\', '/');
    ReplaceAbsent(name, '\\', '/');
    assert prefix + name == JoinKey(dir, name);
    assert left == "" || left[|left| - 1] == '/';
    assert forall i :: 0 <= i < |name| ==> name[i] in name;
    SplitFindsPiece(left, sep, name, "");
    assert left + name + "" == Replace(JoinKey(dir, name), '\\', '/');
    assert name in Split(Replace(JoinKey(dir, name), '\\', '/'), c => c == '/');
  }

  predicate PlainName(s: string) {
    '/' !in s && '\\' !in s
  }

  lemma NameParts(stem: string, ext: string)
    requires PlainName(stem) && PlainName(ext)
    ensures PlainName(stem + "." + ext)
  {}

  /** `Author/B00EXAMPLE1.m4b` or `B00EXAMPLE1.m4b`: an identity as the file stem is found. */
  lemma StemFormIsFound(dir: string, raw: string, ext: string)
    requires PlainName(raw) && PlainName(ext) && '.' !in ext && Candidate(raw).Some?
    ensures Candidate(raw).value in Ids(JoinKey(dir, raw + "." + ext))
  {
    var name := raw + "." + ext;
    NameParts(raw, ext);
    NameIsSegment(dir, name);
    StemAppend(raw, ext);
    assert raw in [Stem(name)];
    assert Candidate(raw).value in SegmentIds(name);
  }

  predicate TokenBreak(c: char) {
    Space(c) || c == '_' || c == '-'
  }

  /** `Author/Title - B00EXAMPLE1.m4b`: an identity set apart in the file stem is found. */
  lemma TokenFormIsFound(dir: string, before: string, raw: string, after: string, ext: string)
    requires PlainName(before + raw + after) && PlainName(ext) && '.' !in ext && Candidate(raw).Some?
    requires forall i :: 0 <= i < |raw| ==> !TokenBreak(raw[i])
    requires before == "" || TokenBreak(before[|before| - 1])
    requires after == "" || TokenBreak(after[0])
    ensures Candidate(raw).value in Ids(JoinKey(dir, before + raw + after + "." + ext))
  {
    var stem := before + raw + after;
    var name := stem + "." + ext;
    NameParts(stem, ext);
    NameIsSegment(dir, name);
    StemAppend(stem, ext);
    SplitFindsPiece(before, c => Space(c) || c == '_' || c == '-', raw, after);
    assert raw in Split(Stem(name), c => Space(c) || c == '_' || c == '-');
    assert Candidate(raw).value in SegmentIds(name);
  }
}
