/** The diagnostics collector's report endpoint: a two-part cursor over uploads. */
module Delivery {
  import opened Basics

  /** One stored object. `accepted` is the version filter against the fixed
      baseline, `parses` whether its body is JSON, `upload` its listing action. */
  datatype File = File(ts: nat, name: string, upload: bool, accepted: bool, parses: bool)

  datatype Cursor = Cursor(ts: nat, name: string)

  const MAX_REPORT_FILES: nat := 100

  predicate Before(t: nat, a: string, u: nat, b: string) {
    t < u || (t == u && Less(a, b))
  }

  /** `compareUploadOrder(a, b) < 0`. */
  predicate Precedes(a: File, b: File) {
    Before(a.ts, a.name, b.ts, b.name)
  }

  /** `isAfterCursor`. */
  predicate After(f: File, c: Cursor) {
    Before(c.ts, c.name, f.ts, f.name)
  }

  /** `advanceCursor`. */
  function Advance(c: Cursor, f: File): Cursor {
    if f.ts > c.ts then Cursor(f.ts, f.name)
    else if f.ts == c.ts && Less(c.name, f.name) then Cursor(c.ts, f.name)
    else c
  }

  predicate Good(f: File) {
    f.upload && f.accepted && f.parses
  }

  lemma BeforeTransitive(t: nat, a: string, u: nat, b: string, v: nat, c: string)
    requires Before(t, a, u, b) && Before(u, b, v, c)
    ensures Before(t, a, v, c)
  {
    if t == u == v {
      LessTransitive(a, b, c);
    }
  }

  lemma BeforeTotal(t: nat, a: string, u: nat, b: string)
    ensures Before(t, a, u, b) || Before(u, b, t, a) || (t == u && a == b)
    ensures Before(t, a, u, b) ==> !Before(u, b, t, a)
    ensures !Before(t, a, t, a)
  {
    LessTotal(a, b);
    LessIrreflexive(a);
    if Less(a, b) {
      LessAsymmetric(a, b);
    }
  }

  // ---- sorting ----

  predicate InOrder(fs: seq<File>) {
    forall i, j :: 0 <= i < j < |fs| ==> Precedes(fs[i], fs[j])
  }

  /** Object names are unique in a listing. */
  predicate Distinct(fs: seq<File>) {
    forall i, j :: 0 <= i < j < |fs| ==> fs[i].name != fs[j].name
  }

  function Inserted(f: File, fs: seq<File>): (r: seq<File>)
    ensures forall x :: x in r <==> x == f || x in fs
  {
    if fs == [] then [f]
    else if Precedes(f, fs[0]) then [f] + fs
    else
      assert fs == [fs[0]] + fs[1..];
      [fs[0]] + Inserted(f, fs[1..])
  }

  function Sorted(fs: seq<File>): (r: seq<File>)
    ensures forall x :: x in r <==> x in fs
  {
    if fs == [] then []
    else
      assert fs == [fs[0]] + fs[1..];
      Inserted(fs[0], Sorted(fs[1..]))
  }

  lemma {:induction false} InsertedInOrder(f: File, fs: seq<File>)
    requires InOrder(fs) && forall x :: x in fs ==> x.name != f.name
    ensures InOrder(Inserted(f, fs))
  {
    if fs != [] {
      BeforeTotal(f.ts, f.name, fs[0].ts, fs[0].name);
      if Precedes(f, fs[0]) {
        forall i | 0 <= i < |fs| ensures Precedes(f, fs[i]) {
          if i > 0 {
            BeforeTransitive(f.ts, f.name, fs[0].ts, fs[0].name, fs[i].ts, fs[i].name);
          }
        }
      } else {
        assert fs[0] in fs;
        assert forall x :: x in fs[1..] ==> x in fs;
        InsertedInOrder(f, fs[1..]);
        var rest := Inserted(f, fs[1..]);
        forall i | 0 <= i < |rest| ensures Precedes(fs[0], rest[i]) {
          assert rest[i] in rest;
          if rest[i] != f {
            var j :| 0 <= j < |fs[1..]| && fs[1..][j] == rest[i];
            assert fs[j + 1] == rest[i];
          }
        }
      }
    }
  }

  lemma {:induction false} SortedInOrder(fs: seq<File>)
    requires Distinct(fs)
    ensures InOrder(Sorted(fs))
  {
    if fs != [] {
      SortedInOrder(fs[1..]);
      forall x | x in Sorted(fs[1..]) ensures x.name != fs[0].name {
        var i :| 0 <= i < |fs[1..]| && fs[1..][i] == x;
        assert fs[i + 1] == x;
      }
      InsertedInOrder(fs[0], Sorted(fs[1..]));
    }
  }

  function Newer(fs: seq<File>, c: Cursor): (r: seq<File>)
    ensures forall x :: x in r <==> x in fs && x.upload && After(x, c)
  {
    if fs == [] then []
    else
      assert fs == [fs[0]] + fs[1..];
      (if fs[0].upload && After(fs[0], c) then [fs[0]] else []) + Newer(fs[1..], c)
  }

  lemma {:induction false} NewerDistinct(fs: seq<File>, c: Cursor)
    requires Distinct(fs)
    ensures Distinct(Newer(fs, c))
  {
    if fs != [] {
      NewerDistinct(fs[1..], c);
      var rest := Newer(fs[1..], c);
      forall i | 0 <= i < |rest| ensures rest[i].name != fs[0].name {
        assert rest[i] in rest;
        var j :| 0 <= j < |fs[1..]| && fs[1..][j] == rest[i];
        assert fs[j + 1] == rest[i];
      }
    }
  }

  // ---- one report call ----

  /** The good files among the first `n`. */
  function GoodOf(fs: seq<File>): seq<File> {
    if fs == [] then []
    else
      var n := |fs| - 1;
      GoodOf(fs[..n]) + if Good(fs[n]) then [fs[n]] else []
  }

  lemma {:induction false} GoodOfMembers(fs: seq<File>, f: File)
    ensures f in GoodOf(fs) <==> f in fs && Good(f)
  {
    if fs != [] {
      var n := |fs| - 1;
      assert fs == fs[..n] + [fs[n]];
      GoodOfMembers(fs[..n], f);
    }
  }

  /** The files a call looks at, in the order it does. */
  function Backlog(listed: seq<File>, c: Cursor): seq<File> {
    Sorted(Newer(listed, c))
  }

  function CursorAt(backlog: seq<File>, n: nat, since: Cursor): Cursor
    requires n <= |backlog|
  {
    if n == 0 then since else Cursor(backlog[n - 1].ts, backlog[n - 1].name)
  }

  lemma BacklogInOrder(listed: seq<File>, c: Cursor)
    requires Distinct(listed)
    ensures InOrder(Backlog(listed, c))
  {
    NewerDistinct(listed, c);
    SortedInOrder(Newer(listed, c));
  }

  /** Uploads beyond the cursor, in order. */
  predicate IsBacklog(backlog: seq<File>, c: Cursor) {
    InOrder(backlog) && forall i :: 0 <= i < |backlog| ==> backlog[i].upload && After(backlog[i], c)
  }

  /** Along the backlog the cursor moves to each file in turn. */
  lemma AdvancesToNext(backlog: seq<File>, c: Cursor, i: nat)
    requires IsBacklog(backlog, c) && i < |backlog|
    ensures Advance(CursorAt(backlog, i, c), backlog[i]) == CursorAt(backlog, i + 1, c)
  {
    if i > 0 {
      assert Precedes(backlog[i - 1], backlog[i]);
    }
  }

  lemma GoodOfNext(backlog: seq<File>, i: nat)
    requires i < |backlog|
    ensures GoodOf(backlog[..i + 1]) == GoodOf(backlog[..i]) + if Good(backlog[i]) then [backlog[i]] else []
  {
    assert backlog[..i + 1][..i] == backlog[..i];
  }

  /** An accepted file behind a hundred reports: the loop stops in front of it. */
  predicate Stops(backlog: seq<File>, i: nat)
    requires i < |backlog|
  {
    backlog[i].accepted && |GoodOf(backlog[..i])| >= MAX_REPORT_FILES
  }

  /** A call that consumes the first `n` files of the backlog and no more: it stops
      early only behind a hundred reports and before another acceptable file. */
  ghost predicate Consumes(backlog: seq<File>, n: nat, reports: seq<File>) {
    && n <= |backlog| && reports == GoodOf(backlog[..n]) && |reports| <= MAX_REPORT_FILES
    && (n < |backlog| ==> |reports| == MAX_REPORT_FILES && backlog[n].accepted)
    && (forall i :: 0 <= i < n ==> !Stops(backlog, i))
  }

  ghost predicate ConsumesTo(backlog: seq<File>, n: nat) {
    n <= |backlog| && Consumes(backlog, n, GoodOf(backlog[..n]))
  }

  /** The loop over the sorted backlog; `n` counts the files it consumed, reported and skipped. */
  method Scan(newer: seq<File>, since: Cursor) returns (reports: seq<File>, next: Cursor, truncated: bool, n: nat)
    requires IsBacklog(newer, since)
    ensures Consumes(newer, n, reports) && next == CursorAt(newer, n, since)
    ensures truncated <==> n < |newer|
  {
    var cursor := since;
    var skipped := 0;
    reports, truncated, n := [], false, 0;
    var i := 0;
    while i < |newer| && !truncated
      invariant n == i <= |newer| && reports == GoodOf(newer[..i]) && |reports| <= MAX_REPORT_FILES
      invariant cursor == CursorAt(newer, i, since) && |reports| + skipped == i
      invariant truncated ==> i < |newer| && newer[i].accepted && |reports| == MAX_REPORT_FILES
      invariant forall j :: 0 <= j < i ==> !Stops(newer, j)
      decreases |newer| - i, !truncated
    {
      var f := newer[i];
      AdvancesToNext(newer, since, i);
      GoodOfNext(newer, i);
      if !f.accepted {
        cursor, skipped := Advance(cursor, f), skipped + 1;
        i, n := i + 1, n + 1;
      } else if |reports| >= MAX_REPORT_FILES {
        truncated := true;
      } else if !f.parses {
        cursor, skipped := Advance(cursor, f), skipped + 1;
        i, n := i + 1, n + 1;
      } else {
        cursor, reports := Advance(cursor, f), reports + [f];
        i, n := i + 1, n + 1;
      }
    }
    next := if reports != [] || skipped > 0 then cursor else since;
  }

  /** `handleReport`: filter, sort, scan. */
  method Report(files: seq<File>, since: Cursor) returns (reports: seq<File>, next: Cursor, truncated: bool, n: nat)
    requires Distinct(files)
    ensures Consumes(Backlog(files, since), n, reports)
    ensures next == CursorAt(Backlog(files, since), n, since)
    ensures truncated <==> n < |Backlog(files, since)|
  {
    var newer := Backlog(files, since);
    BacklogIsBacklog(files, since);
    reports, next, truncated, n := Scan(newer, since);
  }

  /** The listing that a call reads: pages of names in order, at most `MAX_PAGES`
      of them. `cut` is how many files the backend puts on each page. */
  const MAX_PAGES: nat := 500

  method ListIncoming(stored: seq<File>, cut: nat -> nat) returns (files: seq<File>, truncated: bool)
    ensures files <= stored && (truncated <==> |files| < |stored|)
    ensures truncated ==> |files| >= MAX_PAGES
  {
    files, truncated := [], true;
    for i := 0 to MAX_PAGES
      invariant files <= stored && |files| >= i && (|files| < |stored| || stored == [])
    {
      var stop := if |files| + 1 + cut(i) < |stored| then |files| + 1 + cut(i) else |stored|;
      files := stored[..stop];
      if stop == |stored| {
        return files, false;
      }
    }
  }

  // ---- whole histories ----

  datatype State = State(files: seq<File>, cursor: Cursor, delivered: seq<File>)

  datatype Event =
    | Upload(file: File)              // lands after the cursor under a new name
    | Call(listed: seq<File>, n: nat) // a successful call over this listing
    | FailedCall                      // listing or download failed: nothing returned

  ghost predicate Enabled(s: State, e: Event) {
    match e
    case Upload(f) => After(f, s.cursor) && forall x :: x in s.files ==> x.name != f.name
    case Call(listed, n) =>
      && Distinct(listed) && (forall f :: f in listed ==> f in s.files)
      && exists reports :: Consumes(Backlog(listed, s.cursor), n, reports)
    case FailedCall => true
  }

  ghost function Step(s: State, e: Event): State
    requires Enabled(s, e)
  {
    match e
    case Upload(f) => s.(files := s.files + [f])
    case Call(listed, n) =>
      var backlog := Backlog(listed, s.cursor);
      s.(cursor := CursorAt(backlog, n, s.cursor), delivered := s.delivered + GoodOf(backlog[..n]))
    case FailedCall => s
  }

  /** Nothing is missing from the listing. */
  ghost predicate Whole(s: State, e: Event) {
    e.Call? ==> forall f :: f in s.files ==> f in e.listed
  }

  ghost predicate ValidRun(s: State, es: seq<Event>)
    decreases |es|
  {
    es == [] || (Enabled(s, es[0]) && Whole(s, es[0]) && ValidRun(Step(s, es[0]), es[1..]))
  }

  ghost function Run(s: State, es: seq<Event>): State
    requires ValidRun(s, es)
    decreases |es|
  {
    if es == [] then s else Run(Step(s, es[0]), es[1..])
  }

  /** What was delivered is exactly the good files from `start` up to the cursor,
      each once, in (timestamp, name) order. */
  ghost predicate ExactlyOnce(s: State, start: Cursor) {
    && (start == s.cursor || Before(start.ts, start.name, s.cursor.ts, s.cursor.name))
    && InOrder(s.delivered)
    && (forall f :: f in s.delivered <==> f in s.files && Good(f) && After(f, start) && !After(f, s.cursor))
  }

  lemma AfterLater(f: File, c: Cursor, d: Cursor)
    requires c == d || Before(c.ts, c.name, d.ts, d.name)
    ensures After(f, d) ==> After(f, c)
  {
    if After(f, d) && c != d {
      BeforeTransitive(c.ts, c.name, d.ts, d.name, f.ts, f.name);
    }
  }

  lemma {:induction false} GoodOfInOrder(fs: seq<File>)
    requires InOrder(fs)
    ensures InOrder(GoodOf(fs))
  {
    if fs != [] {
      var n := |fs| - 1;
      GoodOfInOrder(fs[..n]);
      forall i | 0 <= i < |GoodOf(fs[..n])| ensures Precedes(GoodOf(fs[..n])[i], fs[n]) {
        assert GoodOf(fs[..n])[i] in GoodOf(fs[..n]);
        GoodOfMembers(fs[..n], GoodOf(fs[..n])[i]);
        var j :| 0 <= j < n && fs[..n][j] == GoodOf(fs[..n])[i];
        assert fs[j] == GoodOf(fs[..n])[i];
      }
    }
  }

  /** Where the cursor stands after `n` files of a backlog. */
  lemma CursorMoves(listed: seq<File>, c: Cursor, n: nat)
    requires Distinct(listed) && n <= |Backlog(listed, c)|
    ensures var d := CursorAt(Backlog(listed, c), n, c);
            c == d || Before(c.ts, c.name, d.ts, d.name)
  {
    if n > 0 {
      assert Backlog(listed, c)[n - 1] in Backlog(listed, c);
    }
  }

  /** The cursor stands between file `n - 1` and file `n`. */
  lemma AfterByIndex(backlog: seq<File>, c: Cursor, n: nat, i: nat)
    requires IsBacklog(backlog, c) && n <= |backlog| && i < |backlog|
    ensures After(backlog[i], CursorAt(backlog, n, c)) <==> n <= i
  {
    if n > 0 {
      BeforeTotal(backlog[i].ts, backlog[i].name, backlog[n - 1].ts, backlog[n - 1].name);
    }
  }

  lemma BacklogIsBacklog(listed: seq<File>, c: Cursor)
    requires Distinct(listed)
    ensures IsBacklog(Backlog(listed, c), c)
  {
    BacklogInOrder(listed, c);
    forall i | 0 <= i < |Backlog(listed, c)| ensures Backlog(listed, c)[i].upload && After(Backlog(listed, c)[i], c) {
      assert Backlog(listed, c)[i] in Backlog(listed, c);
    }
  }

  /** Exactly the consumed files lie between the old and the new cursor. */
  lemma BehindCursor(listed: seq<File>, c: Cursor, n: nat, f: File)
    requires Distinct(listed) && n <= |Backlog(listed, c)| && f in listed && f.upload
    ensures var backlog := Backlog(listed, c);
            After(f, c) && !After(f, CursorAt(backlog, n, c)) <==> f in backlog[..n]
  {
    BacklogIsBacklog(listed, c);
    if After(f, c) {
      var i :| 0 <= i < |Backlog(listed, c)| && Backlog(listed, c)[i] == f;
      PositionTells(Backlog(listed, c), c, n, i);
    } else {
      ConsumedIsListed(listed, c, n, f);
    }
  }

  lemma PositionTells(backlog: seq<File>, c: Cursor, n: nat, i: nat)
    requires IsBacklog(backlog, c) && n <= |backlog| && i < |backlog|
    ensures !After(backlog[i], CursorAt(backlog, n, c)) <==> backlog[i] in backlog[..n]
  {
    AfterByIndex(backlog, c, n, i);
    forall j | 0 <= j < n ensures backlog[j] in backlog[..n] { assert backlog[..n][j] == backlog[j]; }
    if backlog[i] in backlog[..n] {
      var j :| 0 <= j < n && backlog[..n][j] == backlog[i];
      AfterByIndex(backlog, c, n, j);
    }
  }

  lemma CallKeeps(s: State, e: Event, start: Cursor)
    requires ExactlyOnce(s, start) && Enabled(s, e) && e.Call? && Whole(s, e)
    ensures ExactlyOnce(Step(s, e), start)
  {
    var s' := Step(s, e);
    CallOrder(s, e, start);
    forall f ensures f in s'.delivered <==> f in s'.files && Good(f) && After(f, start) && !After(f, s'.cursor) {
      DeliveredByCall(s, e, start, f);
    }
  }

  /** The cursor only moves forward and deliveries stay in order, whatever the listing. */
  lemma CallOrder(s: State, e: Event, start: Cursor)
    requires ExactlyOnce(s, start) && Enabled(s, e) && e.Call?
    ensures var s' := Step(s, e);
            InOrder(s'.delivered) && (start == s'.cursor || Before(start.ts, start.name, s'.cursor.ts, s'.cursor.name))
  {
    var backlog := Backlog(e.listed, s.cursor);
    var s' := Step(s, e);
    CursorMoves(e.listed, s.cursor, e.n);
    BacklogInOrder(e.listed, s.cursor);
    GoodOfInOrder(backlog[..e.n]);
    if start != s.cursor && s.cursor != s'.cursor {
      BeforeTransitive(start.ts, start.name, s.cursor.ts, s.cursor.name, s'.cursor.ts, s'.cursor.name);
    }
    forall i, j | 0 <= i < |s.delivered| && 0 <= j < |GoodOf(backlog[..e.n])|
      ensures Precedes(s.delivered[i], GoodOf(backlog[..e.n])[j])
    {
      var good := GoodOf(backlog[..e.n]);
      assert s.delivered[i] in s.delivered && good[j] in good;
      GoodOfMembers(backlog[..e.n], good[j]);
      ConsumedIsListed(e.listed, s.cursor, e.n, good[j]);
      BehindThenAfter(s.delivered[i], GoodOf(backlog[..e.n])[j], s.cursor);
    }
  }

  lemma BehindThenAfter(a: File, b: File, c: Cursor)
    requires !After(a, c) && After(b, c)
    ensures Precedes(a, b)
  {
    BeforeTotal(c.ts, c.name, a.ts, a.name);
    if a.ts != c.ts || a.name != c.name {
      BeforeTransitive(a.ts, a.name, c.ts, c.name, b.ts, b.name);
    }
  }

  lemma DeliveredByCall(s: State, e: Event, start: Cursor, f: File)
    requires ExactlyOnce(s, start) && Enabled(s, e) && e.Call? && (f in s.files ==> f in e.listed)
    ensures f in Step(s, e).delivered <==> f in s.files && Good(f) && After(f, start) && !After(f, Step(s, e).cursor)
  {
    var backlog := Backlog(e.listed, s.cursor);
    CursorMoves(e.listed, s.cursor, e.n);
    AfterLater(f, s.cursor, Step(s, e).cursor);
    AfterLater(f, start, s.cursor);
    GoodOfMembers(backlog[..e.n], f);
    if f in s.files && f.upload {
      BehindCursor(e.listed, s.cursor, e.n, f);
    }
    ConsumedIsListed(e.listed, s.cursor, e.n, f);
  }

  lemma ConsumedIsListed(listed: seq<File>, c: Cursor, n: nat, f: File)
    requires n <= |Backlog(listed, c)|
    ensures f in Backlog(listed, c)[..n] ==> f in listed && f.upload && After(f, c)
  {
    assert forall x :: x in Backlog(listed, c)[..n] ==> x in Backlog(listed, c);
  }

  lemma StepKeeps(s: State, e: Event, start: Cursor)
    requires ExactlyOnce(s, start) && Enabled(s, e) && Whole(s, e)
    ensures ExactlyOnce(Step(s, e), start)
  {
    if e.Call? {
      CallKeeps(s, e, start);
    }
  }

  /** Over any run of uploads, calls and failed calls that feeds each returned
      cursor back, every good file up to the cursor is delivered exactly once, in
      order, and none is skipped. */
  lemma {:induction false} DeliversExactlyOnce(s: State, es: seq<Event>, start: Cursor)
    requires ValidRun(s, es) && ExactlyOnce(s, start)
    ensures ExactlyOnce(Run(s, es), start)
    decreases |es|
  {
    if es != [] {
      StepKeeps(s, es[0], start);
      DeliversExactlyOnce(Step(s, es[0]), es[1..], start);
    }
  }

  // ---- draining ----

  /** No upload is left beyond the cursor. */
  predicate Drained(s: State) {
    forall f :: f in s.files && f.upload ==> !After(f, s.cursor)
  }

  /** A successful call over the whole listing either drains the backlog or delivers a full hundred. */
  lemma CallProgress(s: State, e: Event)
    requires Enabled(s, e) && e.Call? && Whole(s, e)
    ensures Drained(Step(s, e)) || |Step(s, e).delivered| == |s.delivered| + MAX_REPORT_FILES
    ensures Drained(s) ==> Step(s, e) == s
  {
    var backlog := Backlog(e.listed, s.cursor);
    if e.n == |backlog| {
      forall f | f in s.files && f.upload ensures !After(f, Step(s, e).cursor) {
        CursorMoves(e.listed, s.cursor, e.n);
        AfterLater(f, s.cursor, Step(s, e).cursor);
        BehindCursor(e.listed, s.cursor, e.n, f);
        assert backlog[..e.n] == backlog;
      }
    }
    if Drained(s) && backlog != [] {
      assert backlog[0] in backlog;
    }
    assert backlog[..0] == [];
  }

  function Calls(es: seq<Event>): nat {
    if es == [] then 0 else (if es[0].Call? then 1 else 0) + Calls(es[1..])
  }

  lemma {:induction false} CallsProgress(s: State, es: seq<Event>)
    requires ValidRun(s, es) && forall e :: e in es ==> !e.Upload?
    ensures Drained(s) ==> Run(s, es) == s
    ensures Drained(Run(s, es)) || |Run(s, es).delivered| >= |s.delivered| + MAX_REPORT_FILES * Calls(es)
    ensures Run(s, es).files == s.files
    decreases |es|
  {
    if es != [] {
      assert es[0] in es;
      if es[0].Call? {
        CallProgress(s, es[0]);
      }
      CallsProgress(Step(s, es[0]), es[1..]);
    }
  }

  lemma {:induction false} NoRoomForMore(d: seq<File>, fs: seq<File>)
    requires InOrder(d) && forall f :: f in d ==> f in fs
    ensures |d| <= |fs|
    decreases |d|
  {
    if d != [] {
      var n := |d| - 1;
      assert d[n] in d;
      var j :| 0 <= j < |fs| && fs[j] == d[n];
      var rest := fs[..j] + fs[j + 1..];
      forall f | f in d[..n] ensures f in rest {
        var i :| 0 <= i < n && d[i] == f;
        assert d[i] in d;
        BeforeTotal(f.ts, f.name, f.ts, f.name);
        assert Precedes(d[i], d[n]);
        var k :| 0 <= k < |fs| && fs[k] == f;
        assert rest[if k < j then k else k - 1] == f;
      }
      NoRoomForMore(d[..n], rest);
    }
  }

  /** A finite backlog drains: once the calls since the last upload could have
      carried every stored file, nothing is left, failed calls in between or not. */
  lemma BacklogDrains(s: State, es: seq<Event>, start: Cursor)
    requires ValidRun(s, es) && ExactlyOnce(s, start) && (forall e :: e in es ==> !e.Upload?)
    requires |s.delivered| + MAX_REPORT_FILES * Calls(es) > |s.files|
    ensures Drained(Run(s, es))
    ensures forall f :: f in s.files && Good(f) && After(f, start) ==> f in Run(s, es).delivered
  {
    CallsProgress(s, es);
    DeliversExactlyOnce(s, es, start);
    NoRoomForMore(Run(s, es).delivered, s.files);
  }

  // ---- a truncated listing ----

  /** A good file that this call's listing left out and its cursor passes. */
  ghost predicate PassedOver(s: State, e: Event, f: File)
    requires Enabled(s, e) && e.Call?
  {
    f in s.files && f !in e.listed && Good(f) && After(f, s.cursor) && !After(f, Step(s, e).cursor)
  }

  /** The listed good files beyond the cursor that come before `f`. */
  function GoodBefore(listed: seq<File>, c: Cursor, f: File): set<File> {
    set x | x in listed && Good(x) && After(x, c) && Precedes(x, f)
  }

  /** On the listing alone: a listed upload beyond the cursor such that no accepted
      one up to it has a hundred good ones before it. */
  ghost predicate Reached(listed: seq<File>, c: Cursor, f: File) {
    && f in listed && f.upload && After(f, c)
    && forall x :: x in listed && x.upload && x.accepted && After(x, c) && !Precedes(f, x) ==>
         |GoodBefore(listed, c, x)| < MAX_REPORT_FILES
  }

  /** A good file beyond the cursor that the listing left out although it belongs
      at or before a listed file that the call reaches. */
  ghost predicate LeftBehind(s: State, listed: seq<File>, f: File) {
    && f in s.files && f !in listed && Good(f) && After(f, s.cursor)
    && exists g :: Reached(listed, s.cursor, g) && !Precedes(g, f)
  }

  lemma {:induction false} InOrderCount(fs: seq<File>)
    requires InOrder(fs)
    ensures |set x | x in fs| == |fs|
  {
    if fs != [] {
      var n := |fs| - 1;
      InOrderCount(fs[..n]);
      BeforeTotal(fs[n].ts, fs[n].name, fs[n].ts, fs[n].name);
      assert fs[n] !in fs[..n];
      assert (set x | x in fs) == (set x | x in fs[..n]) + {fs[n]};
    }
  }

  lemma GoodBeforeByIndex(listed: seq<File>, c: Cursor, i: nat)
    requires Distinct(listed) && i < |Backlog(listed, c)|
    ensures |GoodBefore(listed, c, Backlog(listed, c)[i])| == |GoodOf(Backlog(listed, c)[..i])|
  {
    var backlog := Backlog(listed, c);
    BacklogInOrder(listed, c);
    GoodOfInOrder(backlog[..i]);
    InOrderCount(GoodOf(backlog[..i]));
    forall x ensures x in GoodBefore(listed, c, backlog[i]) <==> x in GoodOf(backlog[..i]) {
      GoodOfMembers(backlog[..i], x);
      ConsumedIsListed(listed, c, i, x);
      if x in listed && Good(x) && After(x, c) {
        var j :| 0 <= j < |backlog| && backlog[j] == x;
        ComesBefore(backlog, i, j);
      }
      if x in backlog[..i] {
        var j :| 0 <= j < i && backlog[..i][j] == x;
      }
    }
    assert GoodBefore(listed, c, backlog[i]) == set x | x in GoodOf(backlog[..i]);
  }

  lemma ComesBefore(backlog: seq<File>, i: nat, j: nat)
    requires InOrder(backlog) && i < |backlog| && j < |backlog|
    ensures Precedes(backlog[j], backlog[i]) <==> j < i
    ensures j < i ==> backlog[j] in backlog[..i]
  {
    BeforeTotal(backlog[i].ts, backlog[i].name, backlog[j].ts, backlog[j].name);
    if j < i {
      assert backlog[..i][j] == backlog[j];
    }
  }

  /** The call consumes exactly the files that the listing lets it reach. */
  lemma ReachedByIndex(listed: seq<File>, c: Cursor, n: nat, i: nat)
    requires Distinct(listed) && ConsumesTo(Backlog(listed, c), n) && i < |Backlog(listed, c)|
    ensures Reached(listed, c, Backlog(listed, c)[i]) <==> i < n
  {
    var backlog := Backlog(listed, c);
    BacklogIsBacklog(listed, c);
    assert backlog[i] in backlog;
    if i < n {
      forall x | x in listed && x.upload && x.accepted && After(x, c) && !Precedes(backlog[i], x)
        ensures |GoodBefore(listed, c, x)| < MAX_REPORT_FILES
      {
        var j :| 0 <= j < |backlog| && backlog[j] == x;
        ComesBefore(backlog, j, i);
        GoodBeforeByIndex(listed, c, j);
        assert !Stops(backlog, j);
      }
    } else {
      assert backlog[n] in backlog;
      ComesBefore(backlog, n, i);
      GoodBeforeByIndex(listed, c, n);
    }
  }

  /** Behind a consumed file is behind the cursor. */
  lemma CursorCovers(backlog: seq<File>, c: Cursor, n: nat, i: nat, f: File)
    requires InOrder(backlog) && i < n <= |backlog| && !Precedes(backlog[i], f)
    ensures !After(f, CursorAt(backlog, n, c))
  {
    if Precedes(backlog[n - 1], f) && i < n - 1 {
      BeforeTransitive(backlog[i].ts, backlog[i].name, backlog[n - 1].ts, backlog[n - 1].name, f.ts, f.name);
    }
  }

  lemma LeftBehindIsPassedOver(s: State, e: Event, f: File)
    requires Enabled(s, e) && e.Call? && LeftBehind(s, e.listed, f)
    ensures PassedOver(s, e, f)
  {
    var backlog := Backlog(e.listed, s.cursor);
    BacklogInOrder(e.listed, s.cursor);
    var g :| Reached(e.listed, s.cursor, g) && !Precedes(g, f);
    var i :| 0 <= i < |backlog| && backlog[i] == g;
    ReachedByIndex(e.listed, s.cursor, e.n, i);
    CursorCovers(backlog, s.cursor, e.n, i, f);
  }

  lemma PassedOverByListing(s: State, e: Event, f: File)
    requires Enabled(s, e) && e.Call?
    ensures PassedOver(s, e, f) <==> LeftBehind(s, e.listed, f)
  {
    if PassedOver(s, e, f) {
      ReachedByIndex(e.listed, s.cursor, e.n, e.n - 1);
      assert !Precedes(Backlog(e.listed, s.cursor)[e.n - 1], f);
    }
    if LeftBehind(s, e.listed, f) {
      LeftBehindIsPassedOver(s, e, f);
    }
  }

  /** With a truncated listing exactly-once delivery survives a call exactly when
      the listing left out no good file that belongs before one the call reaches. */
  lemma TruncatedListingExactlyWhen(s: State, e: Event, start: Cursor)
    requires ExactlyOnce(s, start) && Enabled(s, e) && e.Call?
    ensures ExactlyOnce(Step(s, e), start) <==> !exists f :: LeftBehind(s, e.listed, f)
  {
    var s' := Step(s, e);
    CallOrder(s, e, start);
    forall f
      ensures (f in s'.delivered <==> f in s'.files && Good(f) && After(f, start) && !After(f, s'.cursor)) <==> !LeftBehind(s, e.listed, f)
    {
      PassedOverByListing(s, e, f);
      PassedOverIsLost(s, e, start, f);
    }
  }

  /** The one way a call can break the promise about `f` is to pass it over. */
  lemma PassedOverIsLost(s: State, e: Event, start: Cursor, f: File)
    requires ExactlyOnce(s, start) && Enabled(s, e) && e.Call?
    ensures var s' := Step(s, e);
            (f in s'.delivered <==> f in s'.files && Good(f) && After(f, start) && !After(f, s'.cursor)) <==> !PassedOver(s, e, f)
  {
    var s' := Step(s, e);
    if f in s.files ==> f in e.listed {
      DeliveredByCall(s, e, start, f);
    } else {
      CursorMoves(e.listed, s.cursor, e.n);
      AfterLater(f, s.cursor, s'.cursor);
      AfterLater(f, start, s.cursor);
      ConsumedIsListed(e.listed, s.cursor, e.n, f);
      GoodOfMembers(Backlog(e.listed, s.cursor)[..e.n], f);
    }
  }

  /** A file behind the cursor is never delivered later, however whole the later listings are. */
  lemma {:induction false} BehindIsForGood(s: State, es: seq<Event>, f: File)
    requires ValidRun(s, es) && !After(f, s.cursor) && f !in s.delivered
    ensures !After(f, Run(s, es).cursor) && f !in Run(s, es).delivered
    decreases |es|
  {
    if es != [] {
      var e := es[0];
      if e.Call? {
        CursorMoves(e.listed, s.cursor, e.n);
        AfterLater(f, s.cursor, Step(s, e).cursor);
        ConsumedIsListed(e.listed, s.cursor, e.n, f);
        GoodOfMembers(Backlog(e.listed, s.cursor)[..e.n], f);
      }
      BehindIsForGood(Step(s, e), es[1..], f);
    }
  }

  /** Every backlog has a place where the loop stops. */
  lemma CallStops(backlog: seq<File>) returns (n: nat)
    ensures ConsumesTo(backlog, n)
  {
    n := 0;
    while n < |backlog| && !Stops(backlog, n)
      invariant n <= |backlog| && |GoodOf(backlog[..n])| <= MAX_REPORT_FILES
      invariant forall i :: 0 <= i < n ==> !Stops(backlog, i)
    {
      GoodOfNext(backlog, n);
      n := n + 1;
    }
  }

  /** A store in which later names were uploaded earlier. */
  function Aging(m: nat): seq<File> {
    seq(m, i requires 0 <= i < m => File(m - i, seq(i + 1, _ => 'a'), true, true, true))
  }

  lemma AgingNames(m: nat)
    ensures Distinct(Aging(m))
    ensures forall i, j :: 0 <= i < j < m ==> Less(Aging(m)[i].name, Aging(m)[j].name)
  {
    forall i, j | 0 <= i < j < m ensures Less(Aging(m)[i].name, Aging(m)[j].name) {
      PrefixIsLess(Aging(m)[i].name, Aging(m)[j].name);
    }
    forall i, j | 0 <= i < j < m ensures Aging(m)[i].name != Aging(m)[j].name {
      assert |Aging(m)[i].name| != |Aging(m)[j].name|;
    }
  }

  lemma {:induction false} PrefixIsLess(a: string, b: string)
    requires |a| < |b| && a == b[..|a|]
    ensures Less(a, b)
  {
    if a != [] {
      assert a[0] == b[0];
      PrefixIsLess(a[1..], b[1..]);
    }
  }

  lemma AgingListed(m: nat, k: nat, g: File)
    requires k <= m && g in Aging(m)[..k]
    ensures g.ts > m - k && |g.name| <= k
  {
    var j :| 0 <= j < k && Aging(m)[..k][j] == g;
  }

  lemma AgingHead(m: nat, k: nat)
    requires 0 < k < m
    ensures Distinct(Aging(m)[..k]) && Backlog(Aging(m)[..k], Cursor(0, "")) != []
  {
    AgingNames(m);
    var head := Aging(m)[..k][0];
    assert head in Aging(m)[..k];
    assert head in Newer(Aging(m)[..k], Cursor(0, ""));
    assert head in Backlog(Aging(m)[..k], Cursor(0, ""));
  }

  lemma AgingLeftBehind(m: nat, k: nat, n: nat, i: nat)
    requires 0 < k <= i < m && ConsumesTo(Backlog(Aging(m)[..k], Cursor(0, "")), n)
    ensures LeftBehind(State(Aging(m), Cursor(0, ""), []), Aging(m)[..k], Aging(m)[i])
  {
    var listed, c, f := Aging(m)[..k], Cursor(0, ""), Aging(m)[i];
    AgingHead(m, k);
    var g := Backlog(listed, c)[0];
    assert g in Backlog(listed, c);
    AgingListed(m, k, g);
    ReachedByIndex(listed, c, n, 0);
    assert Reached(listed, c, g) && !Precedes(g, f);
    assert f !in listed by {
      if f in listed {
        AgingListed(m, k, f);
      }
    }
  }

  /** A listing cut off after `k` names, in name order, loses every file it left out
      when those were uploaded earlier: no later call delivers them. */
  lemma PrefixListingLosesOlder(m: nat, k: nat) returns (n: nat)
    requires 0 < k < m
    ensures var s, e := State(Aging(m), Cursor(0, ""), []), Call(Aging(m)[..k], n);
            && Enabled(s, e)
            && (forall i :: k <= i < m ==> PassedOver(s, e, Aging(m)[i]))
            && !ExactlyOnce(Step(s, e), s.cursor)
            && (forall i, es :: k <= i < m && ValidRun(Step(s, e), es) ==> Aging(m)[i] !in Run(Step(s, e), es).delivered)
  {
    var s := State(Aging(m), Cursor(0, ""), []);
    var listed := Aging(m)[..k];
    AgingNames(m);
    n := CallStops(Backlog(listed, s.cursor));
    var e := Call(listed, n);
    assert Enabled(s, e);
    forall i | k <= i < m ensures PassedOver(s, e, Aging(m)[i]) {
      PassedOverByListing(s, e, Aging(m)[i]);
      AgingLeftBehind(m, k, n, i);
    }
    var lost := Aging(m)[k];
    assert PassedOver(s, e, lost);
    PassedOverIsLost(s, e, s.cursor, lost);
    forall i, es | k <= i < m && ValidRun(Step(s, e), es) ensures Aging(m)[i] !in Run(Step(s, e), es).delivered {
      PassedOverIsLost(s, e, s.cursor, Aging(m)[i]);
      BehindIsForGood(Step(s, e), es, Aging(m)[i]);
    }
  }
}
