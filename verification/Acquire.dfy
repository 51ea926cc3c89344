/** Acquiring a title into several destinations: skip, sync, or fetch again. */
module Acquire {
  import opened Basics
  import opened Keys
  import opened Lookup
  import Reconcile

  type Kind = string

  /** What an object holds: a file of the title that an acquire wrote, or what was
      there before; `audio` says whether that is audio of the title. */
  datatype Content = Part(index: nat) | Other(audio: bool)

  type Store = map<Key, Content>
  type Stores = map<Kind, Store>

  datatype Mode = SyncMissing | RefetchMissing | RefetchAll

  datatype Status = Idle | Queued | Acquired | Error

  /** The destinations in order, how many files the title is stored as, its id,
      the planned paths that a lookup tries at each destination, and the keys that
      a fetch and a sync write. */
  datatype Setup = Setup(
    items: seq<Kind>, mode: Mode, parts: nat, id: string, plans: Kind -> Reconcile.Plans,
    key: (Kind, nat) -> Key, syncKey: (Kind, string) -> Key)

  datatype State = State(status: Status, stored: Stores)

  const DEST_WRITE_ATTEMPTS: nat := 3

  function At(stored: Stores, k: Kind): Store {
    if k in stored then stored[k] else map[]
  }

  predicate SetupOk(u: Setup) {
    u.items != [] && u.parts > 0 && forall i, j :: 0 <= i < j < |u.items| ==> u.items[i] != u.items[j]
  }

  // ---- the lookup at one destination, without an index ----

  predicate Fits(p: Reconcile.Pattern, key: Key) {
    p.prefix <= key && p.matches(key)
  }

  function Matching(p: Reconcile.Pattern, keys: set<Key>): set<Key> {
    set k | k in keys && Fits(p, k)
  }

  ghost function FirstMatching(patterns: seq<Reconcile.Pattern>, keys: set<Key>): Option<Key> {
    LessIsTotalOrder();
    if patterns == [] then None
    else Reconcile.OrElse(Least(Less, Matching(patterns[0], keys)), FirstMatching(patterns[1..], keys))
  }

  /** `find_existing_for_request`: planned paths, then their patterns, then the id. */
  ghost function Find(u: Setup, k: Kind, keys: set<Key>): Option<Key> {
    BetterIsTotalOrder();
    var p := u.plans(k);
    Reconcile.OrElse(Reconcile.FirstPresent(p.exact, keys),
    Reconcile.OrElse(FirstMatching(p.wild, keys),
    Reconcile.OrElse(Reconcile.FirstPresent(p.rawExact, keys),
    Reconcile.OrElse(FirstMatching(p.rawWild, keys), Least(Better, Holders(keys, u.id))))))
  }

  /** A key that the lookup takes for the title, by any of its rules. */
  predicate Accepts(u: Setup, k: Kind, key: Key) {
    var p := u.plans(k);
    || key in p.exact || key in p.rawExact
    || (exists i :: 0 <= i < |p.wild| && Fits(p.wild[i], key))
    || (exists i :: 0 <= i < |p.rawWild| && Fits(p.rawWild[i], key))
    || Upper(u.id) in Ids(key)
  }

  lemma {:induction false} FirstMatchingFinds(patterns: seq<Reconcile.Pattern>, keys: set<Key>)
    ensures var r := FirstMatching(patterns, keys);
            && (r.Some? ==> r.value in keys && exists i :: 0 <= i < |patterns| && Fits(patterns[i], r.value))
            && (r.None? ==> forall i, key :: 0 <= i < |patterns| && key in keys ==> !Fits(patterns[i], key))
  {
    LessIsTotalOrder();
    if patterns != [] {
      FirstMatchingFinds(patterns[1..], keys);
      var head := Least(Less, Matching(patterns[0], keys));
      if head.None? {
        assert forall key :: key in keys && Fits(patterns[0], key) ==> key in Matching(patterns[0], keys);
        assert forall i :: 0 < i < |patterns| ==> patterns[i] == patterns[1..][i - 1];
      }
    }
  }

  /** A lookup returns a stored key that it accepts, and there is one exactly when it returns. */
  lemma FindAccepts(u: Setup, k: Kind, keys: set<Key>)
    ensures var r := Find(u, k, keys);
            && (r.Some? ==> r.value in keys && Accepts(u, k, r.value))
            && (r.Some? <==> exists key :: key in keys && Accepts(u, k, key))
  {
    var p := u.plans(k);
    BetterIsTotalOrder();
    PresentFinds(p.exact, keys);
    FirstMatchingFinds(p.wild, keys);
    PresentFinds(p.rawExact, keys);
    FirstMatchingFinds(p.rawWild, keys);
    if Find(u, k, keys).None? {
      forall key | key in keys ensures !Accepts(u, k, key) {
        assert key !in Holders(keys, u.id);
      }
    }
  }

  lemma {:induction false} PresentFinds(list: seq<Key>, keys: set<Key>)
    ensures var r := Reconcile.FirstPresent(list, keys);
            && (r.Some? ==> r.value in keys && r.value in list)
            && (r.None? ==> forall key :: key in list ==> key !in keys)
  {
    if list != [] {
      PresentFinds(list[1..], keys);
      assert list == [list[0]] + list[1..];
    }
  }

  // ---- which of several candidates is returned ----

  /** Stored key `key` is a candidate as entry `pos` of rule `rule`: the planned
      paths, their patterns, the raw template's paths and patterns, and the id. */
  ghost predicate Tried(u: Setup, k: Kind, keys: set<Key>, rule: nat, pos: nat, key: Key) {
    var p := u.plans(k);
    && key in keys
    && match rule
       case 1 => pos < |p.exact| && p.exact[pos] == key
       case 2 => pos < |p.wild| && Fits(p.wild[pos], key)
       case 3 => pos < |p.rawExact| && p.rawExact[pos] == key
       case 4 => pos < |p.rawWild| && Fits(p.rawWild[pos], key)
       case 5 => pos == 0 && Upper(u.id) in Ids(key)
       case _ => false
  }

  ghost predicate NoneBefore(u: Setup, k: Kind, keys: set<Key>, rule: nat) {
    forall rule': nat, pos: nat, key :: rule' < rule ==> !Tried(u, k, keys, rule', pos, key)
  }

  /** Nothing is a candidate before entry `pos` of rule `rule`, and `key` is the
      best there: least in key order for a pattern, of best rank for the id. */
  ghost predicate FirstTried(u: Setup, k: Kind, keys: set<Key>, rule: nat, pos: nat, key: Key) {
    && Tried(u, k, keys, rule, pos, key)
    && NoneBefore(u, k, keys, rule)
    && (forall pos': nat, other :: pos' < pos ==> !Tried(u, k, keys, rule, pos', other))
    && (forall other :: Tried(u, k, keys, rule, pos, other) ==>
          other == key || (if rule == 5 then Better(key, other) else Less(key, other)))
  }

  lemma {:induction false} FirstMatchingAt(patterns: seq<Reconcile.Pattern>, keys: set<Key>) returns (pos: nat)
    requires FirstMatching(patterns, keys).Some?
    ensures pos < |patterns| && IsLeast(Less, Matching(patterns[pos], keys), FirstMatching(patterns, keys))
    ensures forall i, key :: 0 <= i < pos && key in keys ==> !Fits(patterns[i], key)
  {
    LessIsTotalOrder();
    if Least(Less, Matching(patterns[0], keys)).Some? {
      pos := 0;
    } else {
      var rest := FirstMatchingAt(patterns[1..], keys);
      pos := rest + 1;
      assert forall key :: key in keys && Fits(patterns[0], key) ==> key in Matching(patterns[0], keys);
      assert forall i :: 0 < i < |patterns| ==> patterns[i] == patterns[1..][i - 1];
    }
  }

  lemma NoneBeforeNext(u: Setup, k: Kind, keys: set<Key>, rule: nat)
    requires NoneBefore(u, k, keys, rule) && forall pos: nat, key :: !Tried(u, k, keys, rule, pos, key)
    ensures NoneBefore(u, k, keys, rule + 1)
  {
    forall rule': nat, pos: nat, key | rule' < rule + 1 ensures !Tried(u, k, keys, rule', pos, key) {
      if rule' == rule {
        assert !Tried(u, k, keys, rule, pos, key);
      }
    }
  }

  /** Rule 1 or 3 decides, or none of its entries is stored. */
  lemma PathRule(u: Setup, k: Kind, keys: set<Key>, rule: nat) returns (pos: nat)
    requires rule in {1, 3} && NoneBefore(u, k, keys, rule)
    ensures var found := Reconcile.FirstPresent(Reconcile.PathsOf(u.plans(k), rule), keys);
            if found.Some? then FirstTried(u, k, keys, rule, pos, found.value) else NoneBefore(u, k, keys, rule + 1)
  {
    var paths := Reconcile.PathsOf(u.plans(k), rule);
    pos := 0;
    if Reconcile.FirstPresent(paths, keys).Some? {
      pos := Reconcile.FirstPresentAt(paths, keys);
    } else {
      PresentFinds(paths, keys);
      NoneBeforeNext(u, k, keys, rule);
    }
  }

  /** Rule 2 or 4 decides, or none of its patterns matches. */
  lemma PatternRule(u: Setup, k: Kind, keys: set<Key>, rule: nat) returns (pos: nat)
    requires rule in {2, 4} && NoneBefore(u, k, keys, rule)
    ensures var found := FirstMatching(Reconcile.PatternsOf(u.plans(k), rule), keys);
            if found.Some? then FirstTried(u, k, keys, rule, pos, found.value) else NoneBefore(u, k, keys, rule + 1)
  {
    var patterns := Reconcile.PatternsOf(u.plans(k), rule);
    pos := 0;
    if FirstMatching(patterns, keys).Some? {
      pos := FirstMatchingAt(patterns, keys);
    } else {
      FirstMatchingFinds(patterns, keys);
      NoneBeforeNext(u, k, keys, rule);
    }
  }

  lemma OnlyIdFinds(u: Setup, k: Kind, keys: set<Key>)
    requires var p := u.plans(k);
             && Reconcile.FirstPresent(p.exact, keys).None? && FirstMatching(p.wild, keys).None?
             && Reconcile.FirstPresent(p.rawExact, keys).None? && FirstMatching(p.rawWild, keys).None?
    ensures IsLeast(Better, Holders(keys, u.id), Find(u, k, keys))
  {
    BetterIsTotalOrder();
  }

  /** A lookup returns the best candidate of the first entry of the first rule that has one. */
  lemma FoundByFirstRule(u: Setup, k: Kind, keys: set<Key>) returns (rule: nat, pos: nat)
    requires Find(u, k, keys).Some?
    ensures FirstTried(u, k, keys, rule, pos, Find(u, k, keys).value)
  {
    var p := u.plans(k);
    assert NoneBefore(u, k, keys, 1);
    rule := 1;
    pos := PathRule(u, k, keys, 1);
    if Reconcile.FirstPresent(p.exact, keys).None? {
      rule := 2;
      pos := PatternRule(u, k, keys, 2);
      if FirstMatching(p.wild, keys).None? {
        rule, pos := FoundByLaterRule(u, k, keys);
      }
    }
  }

  lemma FoundByLaterRule(u: Setup, k: Kind, keys: set<Key>) returns (rule: nat, pos: nat)
    requires Find(u, k, keys).Some? && NoneBefore(u, k, keys, 3)
    requires Reconcile.FirstPresent(u.plans(k).exact, keys).None? && FirstMatching(u.plans(k).wild, keys).None?
    ensures FirstTried(u, k, keys, rule, pos, Find(u, k, keys).value)
  {
    var p := u.plans(k);
    rule := 3;
    pos := PathRule(u, k, keys, 3);
    if Reconcile.FirstPresent(p.rawExact, keys).None? {
      rule := 4;
      pos := PatternRule(u, k, keys, 4);
      if FirstMatching(p.rawWild, keys).None? {
        rule, pos := 5, 0;
        OnlyIdFinds(u, k, keys);
      }
    }
  }

  /** The answer stays the same or is one of the new keys. */
  predicate SameOrNew(was: Option<Key>, now: Option<Key>, keys: set<Key>) {
    now == was || (now.Some? && now.value !in keys)
  }

  lemma {:induction false} PresentGrows(list: seq<Key>, keys: set<Key>, more: set<Key>)
    requires keys <= more
    ensures SameOrNew(Reconcile.FirstPresent(list, keys), Reconcile.FirstPresent(list, more), keys)
  {
    if list != [] {
      PresentGrows(list[1..], keys, more);
    }
  }

  lemma LeastGrows(lt: Order, some: set<Key>, all: set<Key>, keys: set<Key>)
    requires TotalOrder(lt) && some <= all && forall key :: key in all && key in keys ==> key in some
    ensures SameOrNew(Least(lt, some), Least(lt, all), keys)
  {
    var least := Least(lt, all);
    if least.Some? && least.value in keys {
      LeastIsUnique(lt, some, least);
    }
  }

  lemma {:induction false} FirstMatchingGrows(patterns: seq<Reconcile.Pattern>, keys: set<Key>, more: set<Key>)
    requires keys <= more
    ensures SameOrNew(FirstMatching(patterns, keys), FirstMatching(patterns, more), keys)
  {
    LessIsTotalOrder();
    if patterns != [] {
      LeastGrows(Less, Matching(patterns[0], keys), Matching(patterns[0], more), keys);
      FirstMatchingGrows(patterns[1..], keys, more);
    }
  }

  lemma FindGrows(u: Setup, k: Kind, keys: set<Key>, more: set<Key>)
    requires keys <= more
    ensures SameOrNew(Find(u, k, keys), Find(u, k, more), keys)
    ensures Find(u, k, keys).Some? ==> Find(u, k, more).Some?
  {
    var p := u.plans(k);
    BetterIsTotalOrder();
    PresentGrows(p.exact, keys, more);
    FirstMatchingGrows(p.wild, keys, more);
    PresentGrows(p.rawExact, keys, more);
    FirstMatchingGrows(p.rawWild, keys, more);
    LeastGrows(Better, Holders(keys, u.id), Holders(more, u.id), keys);
  }

  /** What a destination answers: its listings, its pages, and the keys whose existence probe fails. */
  datatype Backend = Backend(all: seq<Key>, under: string -> seq<Key>, cut: nat -> nat, broken: set<Key>)

  ghost predicate Shows(b: Backend, keys: set<Key>) {
    && Sorted(Less, b.all) && KeysOf(b.all) == keys
    && (forall p :: Sorted(Less, b.under(p)))
    && (forall p, key :: key in b.under(p) <==> key in keys && p <= key)
  }

  ghost predicate Healthy(b: Backend) {
    && b.broken == {} && Readable(b.cut, |b.all|, None, MAX_HOPS)
    && (forall p :: Readable(b.cut, |b.under(p)|, None, MAX_HOPS))
  }

  method ProbePresent(list: seq<Key>, b: Backend, ghost keys: set<Key>) returns (r: Result<Option<Key>, string>)
    requires Shows(b, keys)
    ensures r.Ok? ==> r.value == Reconcile.FirstPresent(list, keys)
    ensures Healthy(b) ==> r.Ok?
  {
    for i := 0 to |list|
      invariant Reconcile.FirstPresent(list, keys) == Reconcile.FirstPresent(list[i..], keys)
    {
      assert list[i..][0] == list[i] && list[i..][1..] == list[i + 1..];
      if list[i] in b.broken {
        return Err("storage probe failed");
      }
      assert list[i] in b.all <==> list[i] in KeysOf(b.all);
      if list[i] in b.all {
        return Ok(Some(list[i]));
      }
    }
    return Ok(None);
  }

  method ProbePatterns(patterns: seq<Reconcile.Pattern>, b: Backend, ghost keys: set<Key>) returns (r: Result<Option<Key>, string>)
    requires Shows(b, keys)
    ensures r.Ok? ==> r.value == FirstMatching(patterns, keys)
    ensures Healthy(b) ==> r.Ok?
  {
    LessIsTotalOrder();
    for i := 0 to |patterns|
      invariant FirstMatching(patterns, keys) == FirstMatching(patterns[i..], keys)
    {
      assert patterns[i..][0] == patterns[i] && patterns[i..][1..] == patterns[i + 1..];
      var p := patterns[i];
      r := StreamFirst(b.under(p.prefix), b.cut, p.matches);
      if r.Err? {
        return;
      }
      assert Passing(b.under(p.prefix), p.matches) == Matching(p, keys);
      LeastIsUnique(Less, Matching(p, keys), r.value);
      if r.value.Some? {
        return;
      }
    }
    return Ok(None);
  }

  method FindExistingForRequest(u: Setup, k: Kind, b: Backend, ghost keys: set<Key>) returns (r: Result<Option<Key>, string>)
    requires Shows(b, keys)
    ensures r.Ok? ==> r.value == Find(u, k, keys)
    ensures Healthy(b) ==> r.Ok?
  {
    var p := u.plans(k);
    r := ProbePresent(p.exact, b, keys);
    if r.Err? || r.value.Some? { return; }
    r := ProbePatterns(p.wild, b, keys);
    if r.Err? || r.value.Some? { return; }
    r := ProbePresent(p.rawExact, b, keys);
    if r.Err? || r.value.Some? { return; }
    r := ProbePatterns(p.rawWild, b, keys);
    if r.Err? || r.value.Some? { return; }
    r := StreamIdentity(b.all, b.cut, u.id);
  }

  // ---- the plan ----

  datatype Plan =
    | Skip
    | Sync(from: Kind, source: Key, missing: seq<Kind>)
    | Fetch(only': Option<seq<Kind>>)

  ghost predicate Hit(u: Setup, stored: Stores, k: Kind) {
    Find(u, k, At(stored, k).Keys).Some?
  }

  ghost function Missing(u: Setup, stored: Stores, items: seq<Kind>): seq<Kind> {
    if items == [] then []
    else Missing(u, stored, items[..|items| - 1])
         + if Hit(u, stored, items[|items| - 1]) then [] else [items[|items| - 1]]
  }

  /** The first destination with a hit, and the key found there. */
  ghost function FirstHit(u: Setup, stored: Stores, items: seq<Kind>): Option<(Kind, Key)> {
    if items == [] then None
    else
      var init := FirstHit(u, stored, items[..|items| - 1]);
      var k := items[|items| - 1];
      var found := Find(u, k, At(stored, k).Keys);
      if init.Some? then init else if found.Some? then Some((k, found.value)) else None
  }

  /** What the survey of the destinations calls for. */
  function Decided(mode: Mode, present: Option<(Kind, Key)>, missing: seq<Kind>): Plan {
    if missing == [] then Skip
    else if present.None? then Fetch(None)
    else match mode
      case SyncMissing => Sync(present.value.0, present.value.1, missing)
      case RefetchMissing => Fetch(Some(missing))
      case RefetchAll => Fetch(None)
  }

  /** `plan_existing_destinations`. */
  ghost function PlanOf(u: Setup, stored: Stores): Plan {
    Decided(u.mode, FirstHit(u, stored, u.items), Missing(u, stored, u.items))
  }

  lemma SurveyNext(u: Setup, stored: Stores, i: nat)
    requires i < |u.items|
    ensures var k := u.items[i];
            var found := Find(u, k, At(stored, k).Keys);
            var init := FirstHit(u, stored, u.items[..i]);
            && Missing(u, stored, u.items[..i + 1]) == Missing(u, stored, u.items[..i]) + (if found.Some? then [] else [k])
            && FirstHit(u, stored, u.items[..i + 1]) ==
                 if init.Some? then init else if found.Some? then Some((k, found.value)) else None
  {
    assert u.items[..i + 1][..i] == u.items[..i];
  }

  /** Looks at every destination in turn; a failing lookup ends it. */
  method Survey(u: Setup, stored: Stores, backends: Kind -> Backend)
      returns (r: Result<(Option<(Kind, Key)>, seq<Kind>), string>)
    requires forall k :: k in u.items ==> Shows(backends(k), At(stored, k).Keys)
    ensures r.Ok? ==> r.value == (FirstHit(u, stored, u.items), Missing(u, stored, u.items))
    ensures (forall k :: k in u.items ==> Healthy(backends(k))) ==> r.Ok?
  {
    var present: Option<(Kind, Key)> := None;
    var missing: seq<Kind> := [];
    for i := 0 to |u.items|
      invariant missing == Missing(u, stored, u.items[..i]) && present == FirstHit(u, stored, u.items[..i])
    {
      var k := u.items[i];
      SurveyNext(u, stored, i);
      var found := FindExistingForRequest(u, k, backends(k), At(stored, k).Keys);
      if found.Err? {
        return Err(found.error);
      }
      if found.value.Some? {
        present := if present.Some? then present else Some((k, found.value.value));
      } else {
        missing := missing + [k];
      }
    }
    assert u.items[..|u.items|] == u.items;
    return Ok((present, missing));
  }

  method PlanExisting(u: Setup, stored: Stores, backends: Kind -> Backend) returns (plan: Result<Plan, string>)
    requires u.items != [] && forall k :: k in u.items ==> Shows(backends(k), At(stored, k).Keys)
    ensures plan.Ok? ==> plan.value == PlanOf(u, stored)
    ensures (forall k :: k in u.items ==> Healthy(backends(k))) ==> plan.Ok?
  {
    if |u.items| == 1 {
      SurveyNext(u, stored, 0);
      assert u.items[..1] == u.items && u.items[..0] == [];
      var found := FindExistingForRequest(u, u.items[0], backends(u.items[0]), At(stored, u.items[0]).Keys);
      if found.Err? {
        return Err(found.error);
      }
      return Ok(if found.value.Some? then Skip else Fetch(None));
    }
    var survey := Survey(u, stored, backends);
    if survey.Err? {
      return Err(survey.error);
    }
    return Ok(Decided(u.mode, survey.value.0, survey.value.1));
  }

  // ---- writing ----

  /** The outcome of a series of writes to one destination. */
  datatype Written = Written(ok: bool, store: Store, tick: nat)

  /** The outcome over all destinations; `touched` are those a write was tried on. */
  datatype Outcome = Outcome(ok: bool, stored: Stores, touched: set<Kind>, tick: nat)

  /** `write_prepared_files_to_destination` from file `i` on; `put(n)` says
      whether the `n`-th write succeeds. */
  function PutFiles(u: Setup, k: Kind, i: nat, store: Store, put: nat -> bool, tick: nat): Written
    decreases u.parts - i
  {
    if i >= u.parts then Written(true, store, tick)
    else if !put(tick) then Written(false, store, tick + 1)
    else PutFiles(u, k, i + 1, store[u.key(k, i) := Part(i)], put, tick + 1)
  }

  /** The retry loop around it; files of failed tries stay. */
  function TryFiles(u: Setup, k: Kind, store: Store, put: nat -> bool, tick: nat, tries: nat): Written
    decreases tries
  {
    if tries == 0 then Written(false, store, tick)
    else
      var w := PutFiles(u, k, 0, store, put, tick);
      if w.ok then w else TryFiles(u, k, w.store, put, w.tick, tries - 1)
  }

  predicate Allowed(filter: Option<seq<Kind>>, k: Kind) {
    filter.None? || filter.value == [] || k in filter.value
  }

  /** `store_prepared_audio_files`: destination by destination, stopping at the
      first one that fails every try. */
  function StoreAll(u: Setup, items: seq<Kind>, filter: Option<seq<Kind>>, stored: Stores, put: nat -> bool, tick: nat): Outcome {
    if items == [] then Outcome(true, stored, {}, tick)
    else if !Allowed(filter, items[0]) then StoreAll(u, items[1..], filter, stored, put, tick)
    else
      var w := TryFiles(u, items[0], At(stored, items[0]), put, tick, DEST_WRITE_ATTEMPTS);
      var stored' := stored[items[0] := w.store];
      if !w.ok then Outcome(false, stored', {items[0]}, w.tick)
      else
        var rest := StoreAll(u, items[1..], filter, stored', put, w.tick);
        rest.(touched := rest.touched + {items[0]})
  }

  /** One object, up to the same number of tries. */
  function TryCopy(store: Store, key: Key, c: Content, put: nat -> bool, tick: nat, tries: nat): Written
    decreases tries
  {
    if tries == 0 then Written(false, store, tick)
    else if put(tick) then Written(true, store[key := c], tick + 1)
    else TryCopy(store, key, c, put, tick + 1, tries - 1)
  }

  /** `sync_missing_destinations`: one existing object, copied to each in turn. */
  function SyncAll(u: Setup, missing: seq<Kind>, ext: string, c: Content, stored: Stores, put: nat -> bool, tick: nat): Outcome {
    if missing == [] then Outcome(true, stored, {}, tick)
    else
      var k := missing[0];
      var w := TryCopy(At(stored, k), u.syncKey(k, ext), c, put, tick, DEST_WRITE_ATTEMPTS);
      var stored' := stored[k := w.store];
      if !w.ok then Outcome(false, stored', {k}, w.tick)
      else
        var rest := SyncAll(u, missing[1..], ext, c, stored', put, w.tick);
        rest.(touched := rest.touched + {k})
  }

  method StorePrepared(u: Setup, filter: Option<seq<Kind>>, stored: Stores, put: nat -> bool) returns (r: Outcome)
    ensures r == StoreAll(u, u.items, filter, stored, put, 0)
  {
    var now, tick := stored, 0;
    var touched: set<Kind> := {};
    for i := 0 to |u.items|
      invariant var rest := StoreAll(u, u.items[i..], filter, now, put, tick);
                StoreAll(u, u.items, filter, stored, put, 0) == rest.(touched := rest.touched + touched)
    {
      var k := u.items[i];
      assert u.items[i..][0] == k && u.items[i..][1..] == u.items[i + 1..];
      if Allowed(filter, k) {
        var w := Retry(u, k, At(now, k), put, tick);
        now, tick := now[k := w.store], w.tick;
        assert {k} + touched == touched + {k};
        if !w.ok {
          return Outcome(false, now, touched + {k}, tick);
        }
        ghost var rest := StoreAll(u, u.items[i + 1..], filter, now, put, tick);
        assert rest.touched + {k} + touched == rest.touched + (touched + {k});
        touched := touched + {k};
      }
    }
    assert {} + touched == touched;
    return Outcome(true, now, touched, tick);
  }

  method Retry(u: Setup, k: Kind, store: Store, put: nat -> bool, tick: nat) returns (w: Written)
    ensures w == TryFiles(u, k, store, put, tick, DEST_WRITE_ATTEMPTS)
  {
    w := Written(false, store, tick);
    for attempt := 0 to DEST_WRITE_ATTEMPTS
      invariant !w.ok
      invariant TryFiles(u, k, store, put, tick, DEST_WRITE_ATTEMPTS) == TryFiles(u, k, w.store, put, w.tick, DEST_WRITE_ATTEMPTS - attempt)
    {
      w := WriteFiles(u, k, w.store, put, w.tick);
      if w.ok {
        return;
      }
    }
  }

  method WriteFiles(u: Setup, k: Kind, store: Store, put: nat -> bool, tick: nat) returns (w: Written)
    ensures w == PutFiles(u, k, 0, store, put, tick)
  {
    var now := store;
    for i := 0 to u.parts
      invariant PutFiles(u, k, 0, store, put, tick) == PutFiles(u, k, i, now, put, tick + i)
    {
      if !put(tick + i) {
        return Written(false, now, tick + i + 1);
      }
      now := now[u.key(k, i) := Part(i)];
    }
    return Written(true, now, tick + u.parts);
  }

  method SyncMissingDestinations(u: Setup, missing: seq<Kind>, ext: string, c: Content, stored: Stores, put: nat -> bool)
      returns (r: Outcome)
    ensures r == SyncAll(u, missing, ext, c, stored, put, 0)
  {
    var now, tick := stored, 0;
    var touched: set<Kind> := {};
    for i := 0 to |missing|
      invariant var rest := SyncAll(u, missing[i..], ext, c, now, put, tick);
                SyncAll(u, missing, ext, c, stored, put, 0) == rest.(touched := rest.touched + touched)
    {
      var k := missing[i];
      assert missing[i..][0] == k && missing[i..][1..] == missing[i + 1..];
      var w := TryCopy(At(now, k), u.syncKey(k, ext), c, put, tick, DEST_WRITE_ATTEMPTS);
      now, tick := now[k := w.store], w.tick;
      assert {k} + touched == touched + {k};
      if !w.ok {
        return Outcome(false, now, touched + {k}, tick);
      }
      ghost var rest := SyncAll(u, missing[i + 1..], ext, c, now, put, tick);
      assert rest.touched + {k} + touched == rest.touched + (touched + {k});
      touched := touched + {k};
    }
    assert {} + touched == touched;
    return Outcome(true, now, touched, tick);
  }

  // ---- one attempt ----

  /** How the work goes: whether the store fetch and the final quota check succeed,
      how each write ends, and whether a failing attempt dies before it records
      the error. */
  datatype Work = Work(fetched: bool, quotaOk: bool, put: nat -> bool, dies: bool)

  /** What the environment decides: whether planning is bypassed, whether the
      lookups of the plan succeed, and how the work goes. */
  datatype Attempt = Attempt(force: bool, planned: bool, work: Work)

  /** A new state and the destinations that audio was written to. */
  datatype Effect = Effect(state: State, touched: set<Kind>)

  /** The extension that a synced copy gets. */
  function SyncExt(source: Key): string {
    if '.' in source then Ext(source) else "m4b"
  }

  ghost function SyncEffect(u: Setup, s: State, w: Work, plan: Plan): Effect
    requires plan.Sync? && plan.source in At(s.stored, plan.from)
  {
    var r := SyncAll(u, plan.missing, SyncExt(plan.source), At(s.stored, plan.from)[plan.source], s.stored, w.put, 0);
    Effect(State(if r.ok then Acquired else s.status, r.stored), r.touched)
  }

  function FetchEffect(u: Setup, s: State, w: Work, filter: Option<seq<Kind>>): Effect {
    var failed := if w.dies then Queued else Error;
    if !w.fetched then Effect(s.(status := failed), {})
    else
      var r := StoreAll(u, u.items, filter, s.stored, w.put, 0);
      Effect(State(if r.ok && w.quotaOk then Acquired else failed, r.stored), r.touched)
  }

  lemma {:induction false} FirstHitIsStored(u: Setup, stored: Stores, items: seq<Kind>)
    requires FirstHit(u, stored, items).Some?
    ensures var (k, key) := FirstHit(u, stored, items).value;
            k in items && key in At(stored, k) && Find(u, k, At(stored, k).Keys) == Some(key)
  {
    var n := |items| - 1;
    if FirstHit(u, stored, items[..n]).Some? {
      FirstHitIsStored(u, stored, items[..n]);
    } else {
      FindAccepts(u, items[n], At(stored, items[n]).Keys);
    }
  }

  /** `acquire_book_indexed`. */
  ghost function AttemptOf(u: Setup, s: State, a: Attempt): Effect {
    if a.force then FetchEffect(u, s, a.work, None)
    else if s.status == Acquired || !a.planned then Effect(s, {})
    else match PlanOf(u, s.stored)
      case Skip => Effect(s.(status := Acquired), {})
      case Sync(_, _, _) =>
        FirstHitIsStored(u, s.stored, u.items);
        SyncEffect(u, s, a.work, PlanOf(u, s.stored))
      case Fetch(filter) => FetchEffect(u, s, a.work, filter)
  }

  method FetchTitle(u: Setup, s: State, w: Work, filter: Option<seq<Kind>>) returns (r: Effect)
    ensures r == FetchEffect(u, s, w, filter)
  {
    var failed := if w.dies then Queued else Error;
    if !w.fetched {
      return Effect(s.(status := failed), {});
    }
    var stored := StorePrepared(u, filter, s.stored, w.put);
    return Effect(State(if stored.ok && w.quotaOk then Acquired else failed, stored.stored), stored.touched);
  }

  method SyncTitle(u: Setup, s: State, w: Work, plan: Plan) returns (r: Effect)
    requires plan.Sync? && plan.source in At(s.stored, plan.from)
    ensures r == SyncEffect(u, s, w, plan)
  {
    var content := At(s.stored, plan.from)[plan.source];
    var synced := SyncMissingDestinations(u, plan.missing, SyncExt(plan.source), content, s.stored, w.put);
    return Effect(State(if synced.ok then Acquired else s.status, synced.stored), synced.touched);
  }

  /** An attempt over real lookups: `planned` tells whether they all succeeded. */
  method AcquireBook(u: Setup, s: State, a: Attempt, backends: Kind -> Backend) returns (r: Effect, planned: bool)
    requires u.items != [] && forall k :: k in u.items ==> Shows(backends(k), At(s.stored, k).Keys)
    ensures r == AttemptOf(u, s, a.(planned := planned))
    ensures (forall k :: k in u.items ==> Healthy(backends(k))) ==> planned
  {
    planned := true;
    if a.force {
      r := FetchTitle(u, s, a.work, None);
      return;
    }
    if s.status == Acquired {
      return Effect(s, {}), true;
    }
    var plan := PlanExisting(u, s.stored, backends);
    if plan.Err? {
      return Effect(s, {}), false;
    }
    match plan.value
    case Skip => return Effect(s.(status := Acquired), {}), true;
    case Sync(_, _, _) =>
      FirstHitIsStored(u, s.stored, u.items);
      r := SyncTitle(u, s, a.work, plan.value);
    case Fetch(filter) => r := FetchTitle(u, s, a.work, filter);
  }

  // ---- what writes leave behind ----

  /** Audio of the title. */
  predicate Title(c: Content) {
    c.Part? || c.audio
  }

  predicate FileKey(u: Setup, k: Kind, key: Key) {
    exists i: nat :: i < u.parts && key == u.key(k, i)
  }

  /** Files of the title were added, or put in place of what was there. */
  ghost predicate Adds(u: Setup, k: Kind, before: Store, after: Store) {
    && before.Keys <= after.Keys
    && (forall key :: key in after ==>
          || (key in before && after[key] == before[key])
          || (FileKey(u, k, key) && after[key].Part? && after[key].index < u.parts))
  }

  /** Every file was written to its key, though a later one may have the same key. */
  ghost predicate Delivered(u: Setup, k: Kind, store: Store) {
    forall i: nat :: i < u.parts ==> u.key(k, i) in store && store[u.key(k, i)].Part?
  }

  lemma AddsKeepsDelivered(u: Setup, k: Kind, before: Store, after: Store)
    requires Adds(u, k, before, after) && Delivered(u, k, before)
    ensures Delivered(u, k, after)
  {
    forall i: nat | i < u.parts ensures u.key(k, i) in after && after[u.key(k, i)].Part? {
      assert u.key(k, i) in before.Keys;
    }
  }

  lemma {:induction false} PutFilesAdds(u: Setup, k: Kind, i: nat, store: Store, put: nat -> bool, tick: nat)
    ensures var w := PutFiles(u, k, i, store, put, tick);
            && Adds(u, k, store, w.store)
            && (w.ok ==> forall j: nat :: i <= j < u.parts ==> u.key(k, j) in w.store && w.store[u.key(k, j)].Part?)
    decreases u.parts - i
  {
    if i < u.parts && put(tick) {
      var next := store[u.key(k, i) := Part(i)];
      PutFilesAdds(u, k, i + 1, next, put, tick + 1);
      assert u.key(k, i) in next.Keys;
    }
  }

  lemma {:induction false} TryFilesAdds(u: Setup, k: Kind, store: Store, put: nat -> bool, tick: nat, tries: nat)
    ensures var w := TryFiles(u, k, store, put, tick, tries);
            Adds(u, k, store, w.store) && (w.ok ==> Delivered(u, k, w.store))
    decreases tries
  {
    if tries > 0 {
      PutFilesAdds(u, k, 0, store, put, tick);
      var w := PutFiles(u, k, 0, store, put, tick);
      if !w.ok {
        TryFilesAdds(u, k, w.store, put, w.tick, tries - 1);
      }
    }
  }

  /** A fetch only adds files of the title, only touches allowed destinations, and
      on success has delivered every file to each of them. */
  lemma {:induction false} StoreAllDelivers(u: Setup, items: seq<Kind>, filter: Option<seq<Kind>>, stored: Stores, put: nat -> bool, tick: nat, k: Kind)
    ensures var r := StoreAll(u, items, filter, stored, put, tick);
            && Adds(u, k, At(stored, k), At(r.stored, k))
            && (k in r.touched ==> k in items && Allowed(filter, k))
            && (k !in r.touched ==> At(r.stored, k) == At(stored, k))
            && (r.ok && k in items && Allowed(filter, k) ==> Delivered(u, k, At(r.stored, k)))
    decreases |items|
  {
    if items != [] {
      assert items == [items[0]] + items[1..];
      if !Allowed(filter, items[0]) {
        StoreAllDelivers(u, items[1..], filter, stored, put, tick, k);
      } else {
        var w := TryFiles(u, items[0], At(stored, items[0]), put, tick, DEST_WRITE_ATTEMPTS);
        TryFilesAdds(u, items[0], At(stored, items[0]), put, tick, DEST_WRITE_ATTEMPTS);
        var stored' := stored[items[0] := w.store];
        if w.ok {
          var rest := StoreAll(u, items[1..], filter, stored', put, w.tick);
          StoreAllDelivers(u, items[1..], filter, stored', put, w.tick, k);
          if k == items[0] {
            AddsKeepsDelivered(u, k, w.store, At(rest.stored, k));
          }
        }
      }
    }
  }

  predicate Distinct(items: seq<Kind>) {
    forall i, j :: 0 <= i < j < |items| ==> items[i] != items[j]
  }

  /** A later destination is written to only once an earlier one has everything. */
  lemma {:induction false} StoreAllInOrder(u: Setup, items: seq<Kind>, stored: Stores, put: nat -> bool, tick: nat, p: nat, q: nat)
    requires Distinct(items) && p < q < |items|
    ensures var r := StoreAll(u, items, None, stored, put, tick);
            At(r.stored, items[q]) == At(stored, items[q]) || Delivered(u, items[p], At(r.stored, items[p]))
    decreases |items|
  {
    var w := TryFiles(u, items[0], At(stored, items[0]), put, tick, DEST_WRITE_ATTEMPTS);
    var stored' := stored[items[0] := w.store];
    assert At(stored', items[q]) == At(stored, items[q]);
    if w.ok {
      if p == 0 {
        TryFilesAdds(u, items[0], At(stored, items[0]), put, tick, DEST_WRITE_ATTEMPTS);
        StoreAllDelivers(u, items[1..], None, stored', put, w.tick, items[0]);
        AddsKeepsDelivered(u, items[0], w.store, At(StoreAll(u, items[1..], None, stored', put, w.tick).stored, items[0]));
      } else {
        StoreAllInOrder(u, items[1..], stored', put, w.tick, p - 1, q - 1);
      }
    }
  }

  lemma {:induction false} TryCopyAdds(store: Store, key: Key, c: Content, put: nat -> bool, tick: nat, tries: nat)
    ensures var w := TryCopy(store, key, c, put, tick, tries);
            w.store == (if w.ok then store[key := c] else store) && (tries > 0 && (forall n :: put(n)) ==> w.ok)
    decreases tries
  {
    if tries > 0 && !put(tick) {
      TryCopyAdds(store, key, c, put, tick + 1, tries - 1);
    }
  }

  /** A sync adds at most its one object, only at missing destinations, and on
      success at all of them. */
  lemma {:induction false} SyncAllCopies(u: Setup, missing: seq<Kind>, ext: string, c: Content, stored: Stores, put: nat -> bool, tick: nat, k: Kind)
    ensures var r := SyncAll(u, missing, ext, c, stored, put, tick);
            var copied := At(stored, k)[u.syncKey(k, ext) := c];
            && (k in r.touched ==> k in missing)
            && (At(r.stored, k) == At(stored, k) || (k in missing && At(r.stored, k) == copied))
            && (r.ok && k in missing ==> At(r.stored, k) == copied)
            && ((forall n :: put(n)) ==> r.ok)
    decreases |missing|
  {
    if missing != [] {
      assert missing == [missing[0]] + missing[1..];
      var m := missing[0];
      var w := TryCopy(At(stored, m), u.syncKey(m, ext), c, put, tick, DEST_WRITE_ATTEMPTS);
      TryCopyAdds(At(stored, m), u.syncKey(m, ext), c, put, tick, DEST_WRITE_ATTEMPTS);
      if w.ok {
        SyncAllCopies(u, missing[1..], ext, c, stored[m := w.store], put, w.tick, k);
        assert w.store[u.syncKey(m, ext) := c] == w.store;
      }
    }
  }

  // ---- what planning sees ----

  lemma {:induction false} MissingExactly(u: Setup, stored: Stores, items: seq<Kind>, k: Kind)
    ensures k in Missing(u, stored, items) <==> k in items && !Hit(u, stored, k)
  {
    if items != [] {
      var n := |items| - 1;
      assert items == items[..n] + [items[n]];
      MissingExactly(u, stored, items[..n], k);
    }
  }

  lemma {:induction false} FirstHitIsFirst(u: Setup, stored: Stores, items: seq<Kind>)
    ensures FirstHit(u, stored, items).None? <==> forall k :: k in items ==> !Hit(u, stored, k)
    ensures FirstHit(u, stored, items).Some? ==>
              exists i :: 0 <= i < |items| && items[i] == FirstHit(u, stored, items).value.0 && Hit(u, stored, items[i])
                && (forall j :: 0 <= j < i ==> !Hit(u, stored, items[j]))
  {
    if items != [] {
      var n := |items| - 1;
      assert items == items[..n] + [items[n]];
      FirstHitIsFirst(u, stored, items[..n]);
      if FirstHit(u, stored, items[..n]).Some? {
        var i :| 0 <= i < n && items[..n][i] == FirstHit(u, stored, items).value.0 && Hit(u, stored, items[..n][i])
                 && (forall j :: 0 <= j < i ==> !Hit(u, stored, items[..n][j]));
        assert items[i] == items[..n][i];
        forall j | 0 <= j < i ensures !Hit(u, stored, items[j]) { assert items[j] == items[..n][j]; }
      } else if Hit(u, stored, items[n]) {
        forall j | 0 <= j < n ensures !Hit(u, stored, items[j]) { assert items[..n][j] in items[..n]; }
      }
    }
  }

  /** Planning skips exactly when every destination has a hit. */
  lemma SkipExactlyWhen(u: Setup, stored: Stores)
    ensures PlanOf(u, stored).Skip? <==> forall k :: k in u.items ==> Hit(u, stored, k)
  {
    forall k { MissingExactly(u, stored, u.items, k); }
    if Missing(u, stored, u.items) != [] {
      assert Missing(u, stored, u.items)[0] in Missing(u, stored, u.items);
    }
  }

  /** Outside refetch-all, an unforced attempt writes to no destination that already has a hit. */
  lemma HoldersAreLeftAlone(u: Setup, s: State, a: Attempt, k: Kind)
    requires !a.force && u.mode != RefetchAll && Hit(u, s.stored, k)
    ensures k !in AttemptOf(u, s, a).touched && At(AttemptOf(u, s, a).state.stored, k) == At(s.stored, k)
  {
    MissingExactly(u, s.stored, u.items, k);
    var plan := PlanOf(u, s.stored);
    if plan.Sync? {
      FirstHitIsStored(u, s.stored, u.items);
      SyncAllCopies(u, plan.missing, SyncExt(plan.source), At(s.stored, plan.from)[plan.source], s.stored, a.work.put, 0, k);
    } else if plan.Fetch? {
      StoreAllDelivers(u, u.items, plan.only', s.stored, a.work.put, 0, k);
      FirstHitIsFirst(u, s.stored, u.items);
    }
  }
}
