/** Runs of acquire attempts: what status Acquired means for the destinations. */
module AcquireRuns {
  import opened Basics
  import opened Keys
  import opened Lookup
  import opened Acquire
  import Reconcile

  ghost function Run(u: Setup, s: State, attempts: seq<Attempt>): State
    decreases |attempts|
  {
    if attempts == [] then s else Run(u, AttemptOf(u, s, attempts[0]).state, attempts[1..])
  }

  // ---- what one attempt does at one destination ----

  ghost function SyncContent(u: Setup, stored: Stores): Content
    requires PlanOf(u, stored).Sync?
  {
    FirstHitIsStored(u, stored, u.items);
    At(stored, PlanOf(u, stored).from)[PlanOf(u, stored).source]
  }

  ghost function Copied(u: Setup, stored: Stores, k: Kind): Store
    requires PlanOf(u, stored).Sync?
  {
    At(stored, k)[u.syncKey(k, SyncExt(PlanOf(u, stored).source)) := SyncContent(u, stored)]
  }

  ghost predicate Syncs(u: Setup, s: State, a: Attempt) {
    !a.force && s.status != Acquired && a.planned && PlanOf(u, s.stored).Sync?
  }

  lemma FetchAt(u: Setup, s: State, w: Work, filter: Option<seq<Kind>>, k: Kind)
    ensures var s' := FetchEffect(u, s, w, filter).state;
            && Adds(u, k, At(s.stored, k), At(s'.stored, k))
            && (s'.status == Acquired && k in u.items && Allowed(filter, k) ==> Delivered(u, k, At(s'.stored, k)))
  {
    StoreAllDelivers(u, u.items, filter, s.stored, w.put, 0, k);
  }

  lemma SyncAt(u: Setup, s: State, w: Work, k: Kind)
    requires PlanOf(u, s.stored).Sync?
    ensures var plan := PlanOf(u, s.stored);
            && plan.source in At(s.stored, plan.from)
            && var s' := SyncEffect(u, s, w, plan).state;
               && (At(s'.stored, k) == At(s.stored, k) || (k in u.items && !Hit(u, s.stored, k) && At(s'.stored, k) == Copied(u, s.stored, k)))
               && (s.status != Acquired && s'.status == Acquired && k in u.items && !Hit(u, s.stored, k) ==> At(s'.stored, k) == Copied(u, s.stored, k))
  {
    var plan := PlanOf(u, s.stored);
    FirstHitIsStored(u, s.stored, u.items);
    MissingExactly(u, s.stored, u.items, k);
    SyncAllCopies(u, plan.missing, SyncExt(plan.source), SyncContent(u, s.stored), s.stored, w.put, 0, k);
  }

  /** A destination gains files of the title, or one synced copy when it has no hit. */
  lemma AttemptAt(u: Setup, s: State, a: Attempt, k: Kind)
    ensures var now := At(AttemptOf(u, s, a).state.stored, k);
            || Adds(u, k, At(s.stored, k), now)
            || (Syncs(u, s, a) && k in u.items && !Hit(u, s.stored, k) && now == Copied(u, s.stored, k))
  {
    if Syncs(u, s, a) {
      SyncAt(u, s, a.work, k);
    } else if a.force {
      FetchAt(u, s, a.work, None, k);
    } else if PlanOf(u, s.stored).Fetch? {
      FetchAt(u, s, a.work, PlanOf(u, s.stored).only', k);
    }
  }

  /** How an attempt that ends Acquired leaves each destination. */
  lemma AcquiredAt(u: Setup, s: State, a: Attempt, k: Kind)
    requires AttemptOf(u, s, a).state.status == Acquired && k in u.items
    ensures var now := At(AttemptOf(u, s, a).state.stored, k);
            || (s.status == Acquired && !a.force && now == At(s.stored, k))
            || Delivered(u, k, now)
            || (!a.force && Hit(u, s.stored, k) && (PlanOf(u, s.stored).Skip? || u.mode != RefetchAll))
            || (Syncs(u, s, a) && now == Copied(u, s.stored, k))
  {
    MissingExactly(u, s.stored, u.items, k);
    if Syncs(u, s, a) {
      SyncAt(u, s, a.work, k);
    } else if a.force {
      FetchAt(u, s, a.work, None, k);
    } else if PlanOf(u, s.stored).Fetch? {
      FetchAt(u, s, a.work, PlanOf(u, s.stored).only', k);
    }
  }

  // ---- the unconditional part ----

  /** An acquired title has an object at every destination. */
  ghost predicate Stocked(u: Setup, s: State) {
    s.status == Acquired ==> forall k :: k in u.items ==> At(s.stored, k) != map[]
  }

  lemma AttemptGrows(u: Setup, s: State, a: Attempt, k: Kind)
    ensures At(s.stored, k).Keys <= At(AttemptOf(u, s, a).state.stored, k).Keys
  {
    AttemptAt(u, s, a, k);
  }

  lemma AttemptStocks(u: Setup, s: State, a: Attempt, k: Kind)
    requires SetupOk(u) && Stocked(u, s) && AttemptOf(u, s, a).state.status == Acquired && k in u.items
    ensures At(AttemptOf(u, s, a).state.stored, k) != map[]
  {
    var now := At(AttemptOf(u, s, a).state.stored, k);
    AttemptGrows(u, s, a, k);
    AcquiredAt(u, s, a, k);
    if Delivered(u, k, now) {
      assert u.key(k, 0) in now;
    }
    if Hit(u, s.stored, k) {
      FindAccepts(u, k, At(s.stored, k).Keys);
      assert Find(u, k, At(s.stored, k).Keys).value in now.Keys;
    }
    if Syncs(u, s, a) && now == Copied(u, s.stored, k) {
      assert u.syncKey(k, SyncExt(PlanOf(u, s.stored).source)) in now;
    }
    if now == At(s.stored, k) && At(s.stored, k) != map[] {
      var key :| key in At(s.stored, k);
      assert key in now;
    }
  }

  /** Whatever fails along the way, however keys are named: status Acquired means
      every destination stores an object, and no key ever disappears. */
  lemma {:induction false} RunStocks(u: Setup, s: State, attempts: seq<Attempt>)
    requires SetupOk(u) && Stocked(u, s)
    ensures Stocked(u, Run(u, s, attempts))
    ensures forall k :: At(s.stored, k).Keys <= At(Run(u, s, attempts).stored, k).Keys
    decreases |attempts|
  {
    if attempts != [] {
      var s1 := AttemptOf(u, s, attempts[0]).state;
      forall k { AttemptGrows(u, s, attempts[0], k); }
      if s1.status == Acquired {
        forall k | k in u.items { AttemptStocks(u, s, attempts[0], k); }
      }
      RunStocks(u, s1, attempts[1..]);
    }
  }

  // ---- holding audio of the title ----

  predicate Held(store: Store) {
    exists key :: key in store && Title(store[key])
  }

  ghost predicate AllHeld(u: Setup, stored: Stores) {
    forall k :: k in u.items ==> Held(At(stored, k))
  }

  /** Before any acquire, a key is audio of the title when the lookup accepts it
      and it is a visible audio key. */
  predicate TitleKey(u: Setup, k: Kind, key: Key) {
    Accepts(u, k, key) && !IsHidden(key) && IsAudio(key)
  }

  ghost predicate Fresh(u: Setup, stored: Stores) {
    forall k, key :: key in At(stored, k) ==> At(stored, k)[key] == Other(TitleKey(u, k, key))
  }

  /** The lookup has a hit although everything it accepts there is non-audio or internal. */
  ghost predicate Bad(u: Setup, stored: Stores, k: Kind) {
    k in u.items && Hit(u, stored, k) && forall key :: key in At(stored, k) ==> !TitleKey(u, k, key)
  }

  predicate Precedes(u: Setup, m: Kind, k: Kind) {
    exists p, q :: 0 <= p < q < |u.items| && u.items[p] == m && u.items[q] == k
  }

  /** Some file that a fetch writes there is accepted by the lookup. */
  predicate Revealed(u: Setup, m: Kind) {
    exists i: nat :: i < u.parts && Accepts(u, m, u.key(m, i))
  }

  /** A destination without a hit that a full fetch can fill before it reaches `k`. */
  ghost predicate FilledBefore(u: Setup, m: Kind, k: Kind) {
    Precedes(u, m, k) && Revealed(u, m)
  }

  /** A destination whose hit misleads, and that no full fetch is sure to repair. */
  ghost predicate Misled(u: Setup, stored: Stores, k: Kind) {
    && Bad(u, stored, k)
    && (u.mode == RefetchAll ==> forall m :: m in u.items && !Hit(u, stored, m) ==> FilledBefore(u, m, k))
  }

  /** A sync would copy an object that is not audio of the title. */
  ghost predicate MissSynced(u: Setup, stored: Stores) {
    PlanOf(u, stored).Sync? && !Title(SyncContent(u, stored))
  }

  ghost predicate Exposed(u: Setup, stored: Stores) {
    (exists k :: Misled(u, stored, k)) || MissSynced(u, stored)
  }

  // ---- how stores evolve ----

  ghost predicate EvolvedAt(u: Setup, k: Kind, was: Store, now: Store) {
    && was.Keys <= now.Keys
    && (forall key :: key in now ==>
          || (key in was && now[key] == was[key])
          || (Title(now[key]) && (u.mode == SyncMissing || FileKey(u, k, key))))
  }

  lemma EvolvedTransitive(u: Setup, k: Kind, a: Store, b: Store, c: Store)
    requires EvolvedAt(u, k, a, b) && EvolvedAt(u, k, b, c)
    ensures EvolvedAt(u, k, a, c)
  {}

  lemma HeldEvolves(u: Setup, k: Kind, was: Store, now: Store)
    requires EvolvedAt(u, k, was, now) && Held(was)
    ensures Held(now)
  {
    var key :| key in was && Title(was[key]);
    assert key in was.Keys;
  }

  lemma UnheldIsSame(u: Setup, k: Kind, was: Store, now: Store)
    requires EvolvedAt(u, k, was, now) && !Held(now)
    ensures now == was
  {
    assert forall key :: key in was ==> key in was.Keys;
  }

  lemma DeliveredIsHeld(u: Setup, k: Kind, store: Store)
    requires u.parts > 0 && Delivered(u, k, store)
    ensures Held(store)
  {
    assert u.key(k, 0) in store && Title(store[u.key(k, 0)]);
  }

  lemma FreshUnheld(u: Setup, stored: Stores, k: Kind)
    requires Fresh(u, stored)
    ensures Held(At(stored, k)) <==> exists key :: key in At(stored, k) && TitleKey(u, k, key)
    ensures Held(At(stored, k)) ==> Hit(u, stored, k)
  {
    FindAccepts(u, k, At(stored, k).Keys);
    if Held(At(stored, k)) {
      var key :| key in At(stored, k) && Title(At(stored, k)[key]);
      assert At(stored, k)[key] == Other(TitleKey(u, k, key));
    }
    if key :| key in At(stored, k) && TitleKey(u, k, key) {
      assert At(stored, k)[key] == Other(true);
    }
  }

  lemma HitEvolves(u: Setup, k: Kind, was: Store, now: Store)
    requires EvolvedAt(u, k, was, now)
    ensures Find(u, k, was.Keys).Some? ==> Find(u, k, now.Keys).Some?
    ensures SameOrNew(Find(u, k, was.Keys), Find(u, k, now.Keys), was.Keys)
  {
    FindGrows(u, k, was.Keys, now.Keys);
  }

  // ---- the invariant ----

  /** In refetch-all a destination behind a misled one is written to only once that one holds the title. */
  ghost predicate InOrder(u: Setup, first: Stores, stored: Stores) {
    forall k, m :: Bad(u, first, k) && Precedes(u, k, m) ==> Held(At(stored, k)) || At(stored, m) == At(first, m)
  }

  ghost predicate Inv(u: Setup, first: Stores, s: State) {
    && (forall k :: EvolvedAt(u, k, At(first, k), At(s.stored, k)))
    && (s.status == Acquired ==> AllHeld(u, s.stored))
    && (u.mode == RefetchAll ==> InOrder(u, first, s.stored))
  }

  /** A hit that misleads now misled at the start. */
  lemma UnheldHitIsBad(u: Setup, first: Stores, s: State, k: Kind)
    requires Fresh(u, first) && Inv(u, first, s) && k in u.items && Hit(u, s.stored, k) && !Held(At(s.stored, k))
    ensures Bad(u, first, k) && At(s.stored, k) == At(first, k)
  {
    UnheldIsSame(u, k, At(first, k), At(s.stored, k));
    FreshUnheld(u, first, k);
  }

  /** A destination that got its hit since was filled with accepted files. */
  lemma NewHitIsRevealed(u: Setup, first: Stores, s: State, m: Kind)
    requires u.mode != SyncMissing && Inv(u, first, s) && !Hit(u, first, m) && Hit(u, s.stored, m)
    ensures Revealed(u, m)
  {
    FindAccepts(u, m, At(first, m).Keys);
    FindAccepts(u, m, At(s.stored, m).Keys);
    var key := Find(u, m, At(s.stored, m).Keys).value;
    assert key in At(s.stored, m);
    assert FileKey(u, m, key);
  }

  lemma EitherOrder(u: Setup, k: Kind, m: Kind)
    requires SetupOk(u) && k in u.items && m in u.items && k != m
    ensures Precedes(u, k, m) || Precedes(u, m, k)
  {
    var p :| 0 <= p < |u.items| && u.items[p] == k;
    var q :| 0 <= q < |u.items| && u.items[q] == m;
    if p < q {
      assert Precedes(u, k, m);
    } else {
      assert Precedes(u, m, k);
    }
  }

  /** When nothing is exposed, planning that finds a title at a destination is right about it. */
  lemma HitIsHeld(u: Setup, first: Stores, s: State, k: Kind)
    requires SetupOk(u) && Fresh(u, first) && !Exposed(u, first) && Inv(u, first, s) && k in u.items && Hit(u, s.stored, k)
    requires u.mode != RefetchAll || forall m :: m in u.items ==> Hit(u, s.stored, m)
    ensures Held(At(s.stored, k))
  {
    if !Held(At(s.stored, k)) {
      UnheldHitIsBad(u, first, s, k);
      if u.mode == RefetchAll {
        forall m | m in u.items && !Hit(u, first, m) ensures FilledBefore(u, m, k) {
          NewHitIsRevealed(u, first, s, m);
          EitherOrder(u, k, m);
          assert At(s.stored, m) != At(first, m);
        }
      }
      assert Misled(u, first, k);
    }
  }

  /** When nothing is exposed, a sync copies audio of the title. */
  lemma SyncsTitle(u: Setup, first: Stores, s: State)
    requires Fresh(u, first) && !Exposed(u, first) && Inv(u, first, s) && PlanOf(u, s.stored).Sync?
    ensures Title(SyncContent(u, s.stored))
  {
    FirstHitIsStored(u, s.stored, u.items);
    var (k, key) := FirstHit(u, s.stored, u.items).value;
    if !Title(At(s.stored, k)[key]) {
      assert key in At(first, k) && At(first, k)[key] == At(s.stored, k)[key];
      SourceWasFirst(u, first, s, k, key);
    }
  }

  /** An unchanged source was already the source at the start. */
  lemma SourceWasFirst(u: Setup, first: Stores, s: State, k: Kind, key: Key)
    requires Inv(u, first, s) && PlanOf(u, s.stored).Sync? && FirstHit(u, s.stored, u.items) == Some((k, key)) && key in At(first, k)
    ensures PlanOf(u, first).Sync? && FirstHit(u, first, u.items) == Some((k, key))
  {
    FirstHitIsStored(u, s.stored, u.items);
    HitEvolves(u, k, At(first, k), At(s.stored, k));
    assert Find(u, k, At(first, k).Keys) == Some(key);
    FirstHitStays(u, first, s, k, key);
    var m := Missing(u, s.stored, u.items)[0];
    MissingExactly(u, s.stored, u.items, m);
    MissingExactly(u, first, u.items, m);
    HitEvolves(u, m, At(first, m), At(s.stored, m));
  }

  lemma FirstHitStays(u: Setup, first: Stores, s: State, k: Kind, key: Key)
    requires Inv(u, first, s) && FirstHit(u, s.stored, u.items) == Some((k, key)) && Find(u, k, At(first, k).Keys) == Some(key)
    ensures FirstHit(u, first, u.items) == Some((k, key))
  {
    FirstHitIsFirst(u, s.stored, u.items);
    FirstHitIsFirst(u, first, u.items);
    var i :| 0 <= i < |u.items| && u.items[i] == k && Hit(u, s.stored, u.items[i])
             && (forall j :: 0 <= j < i ==> !Hit(u, s.stored, u.items[j]));
    forall j | 0 <= j < i ensures !Hit(u, first, u.items[j]) {
      HitEvolves(u, u.items[j], At(first, u.items[j]), At(s.stored, u.items[j]));
    }
    FirstHitAt(u, first, u.items, i);
  }

  lemma {:induction false} FirstHitAt(u: Setup, stored: Stores, items: seq<Kind>, i: nat)
    requires i < |items| && Hit(u, stored, items[i]) && forall j :: 0 <= j < i ==> !Hit(u, stored, items[j])
    ensures FirstHit(u, stored, items) == Some((items[i], Find(u, items[i], At(stored, items[i]).Keys).value))
  {
    var n := |items| - 1;
    if i < n {
      FirstHitAt(u, stored, items[..n], i);
    } else {
      FirstHitIsFirst(u, stored, items[..n]);
    }
  }

  lemma AttemptEvolves(u: Setup, first: Stores, s: State, a: Attempt, k: Kind)
    requires Fresh(u, first) && !Exposed(u, first) && Inv(u, first, s)
    ensures EvolvedAt(u, k, At(s.stored, k), At(AttemptOf(u, s, a).state.stored, k))
    ensures EvolvedAt(u, k, At(first, k), At(AttemptOf(u, s, a).state.stored, k))
  {
    var now := At(AttemptOf(u, s, a).state.stored, k);
    AttemptAt(u, s, a, k);
    if Syncs(u, s, a) {
      SyncsTitle(u, first, s);
    }
    assert EvolvedAt(u, k, At(s.stored, k), now);
    EvolvedTransitive(u, k, At(first, k), At(s.stored, k), now);
  }

  lemma AttemptHolds(u: Setup, first: Stores, s: State, a: Attempt, k: Kind)
    requires SetupOk(u) && Fresh(u, first) && !Exposed(u, first) && Inv(u, first, s)
    requires AttemptOf(u, s, a).state.status == Acquired && k in u.items
    ensures Held(At(AttemptOf(u, s, a).state.stored, k))
  {
    var now := At(AttemptOf(u, s, a).state.stored, k);
    AttemptEvolves(u, first, s, a, k);
    AcquiredAt(u, s, a, k);
    SkipExactlyWhen(u, s.stored);
    if Delivered(u, k, now) {
      DeliveredIsHeld(u, k, now);
    } else if Syncs(u, s, a) && now == Copied(u, s.stored, k) {
      SyncsTitle(u, first, s);
      assert Title(now[u.syncKey(k, SyncExt(PlanOf(u, s.stored).source))]);
    } else {
      if s.status != Acquired || a.force {
        HitIsHeld(u, first, s, k);
      }
      HeldEvolves(u, k, At(s.stored, k), now);
    }
  }

  lemma AttemptInOrder(u: Setup, first: Stores, s: State, a: Attempt, k: Kind, m: Kind)
    requires SetupOk(u) && Fresh(u, first) && !Exposed(u, first) && Inv(u, first, s) && u.mode == RefetchAll
    requires Bad(u, first, k) && Precedes(u, k, m)
    ensures var stored := AttemptOf(u, s, a).state.stored; Held(At(stored, k)) || At(stored, m) == At(first, m)
  {
    AttemptEvolves(u, first, s, a, k);
    var r := StoreAll(u, u.items, None, s.stored, a.work.put, 0);
    var p, q :| 0 <= p < q < |u.items| && u.items[p] == k && u.items[q] == m;
    StoreAllInOrder(u, u.items, s.stored, a.work.put, 0, p, q);
    if Held(At(s.stored, k)) {
      HeldEvolves(u, k, At(s.stored, k), At(AttemptOf(u, s, a).state.stored, k));
    }
    if Delivered(u, k, At(r.stored, k)) {
      DeliveredIsHeld(u, k, At(r.stored, k));
    }
  }

  lemma AttemptKeepsInv(u: Setup, first: Stores, s: State, a: Attempt)
    requires SetupOk(u) && Fresh(u, first) && !Exposed(u, first) && Inv(u, first, s)
    ensures Inv(u, first, AttemptOf(u, s, a).state)
  {
    var s' := AttemptOf(u, s, a).state;
    forall k { AttemptEvolves(u, first, s, a, k); }
    if s'.status == Acquired {
      forall k | k in u.items { AttemptHolds(u, first, s, a, k); }
    }
    if u.mode == RefetchAll {
      forall k, m | Bad(u, first, k) && Precedes(u, k, m) { AttemptInOrder(u, first, s, a, k, m); }
    }
  }

  lemma {:induction false} RunKeepsInv(u: Setup, first: Stores, s: State, attempts: seq<Attempt>)
    requires SetupOk(u) && Fresh(u, first) && !Exposed(u, first) && Inv(u, first, s)
    ensures Inv(u, first, Run(u, s, attempts))
    decreases |attempts|
  {
    if attempts != [] {
      AttemptKeepsInv(u, first, s, attempts[0]);
      RunKeepsInv(u, first, AttemptOf(u, s, attempts[0]).state, attempts[1..]);
    }
  }

  // ---- writes that stop after a given number ----

  /** The first `n` files, written in order. */
  function Filled(u: Setup, k: Kind, store: Store, n: nat): Store {
    if n == 0 then store else Filled(u, k, store, n - 1)[u.key(k, n - 1) := Part(n - 1)]
  }

  /** Exactly the writes before number `stop` succeed. */
  ghost predicate StopsAt(put: nat -> bool, stop: nat) {
    forall n: nat :: put(n) <==> n < stop
  }

  lemma {:induction false} PutFilesUntil(u: Setup, k: Kind, i: nat, store: Store, put: nat -> bool, stop: nat, tick: nat)
    requires StopsAt(put, stop) && i <= u.parts
    ensures var w := PutFiles(u, k, i, Filled(u, k, store, i), put, tick);
            if tick + u.parts - i <= stop then w == Written(true, Filled(u, k, store, u.parts), tick + u.parts - i)
            else if tick <= stop then w == Written(false, Filled(u, k, store, i + stop - tick), stop + 1)
            else i < u.parts ==> w == Written(false, Filled(u, k, store, i), tick + 1)
    decreases u.parts - i
  {
    if i < u.parts && tick < stop {
      PutFilesUntil(u, k, i + 1, store, put, stop, tick + 1);
    }
  }

  lemma TryFilesUntil(u: Setup, k: Kind, store: Store, put: nat -> bool, stop: nat, tick: nat)
    requires StopsAt(put, stop) && u.parts > 0 && tick <= stop
    ensures var w := TryFiles(u, k, store, put, tick, DEST_WRITE_ATTEMPTS);
            if tick + u.parts <= stop then w == Written(true, Filled(u, k, store, u.parts), tick + u.parts)
            else !w.ok && w.store == Filled(u, k, store, stop - tick)
  {
    PutFilesUntil(u, k, 0, store, put, stop, tick);
    if tick + u.parts > stop {
      var now := Filled(u, k, store, stop - tick);
      PutFilesUntil(u, k, 0, now, put, stop, stop + 1);
      PutFilesUntil(u, k, 0, now, put, stop, stop + 2);
      assert TryFiles(u, k, store, put, tick, 3) == TryFiles(u, k, now, put, stop + 1, 2);
      assert TryFiles(u, k, now, put, stop + 1, 2) == TryFiles(u, k, now, put, stop + 2, 1);
      assert TryFiles(u, k, now, put, stop + 2, 1) == TryFiles(u, k, now, put, stop + 3, 0);
    }
  }

  /** The files of `n` destinations. */
  function Times(parts: nat, n: nat): nat {
    if n == 0 then 0 else parts + Times(parts, n - 1)
  }

  /** What a full fetch leaves at position `j` when it fails after `n` complete
      destinations and `rest` files of the next. */
  function Cut(u: Setup, items: seq<Kind>, stored: Stores, n: nat, rest: nat, j: nat): Store
    requires j < |items|
  {
    Filled(u, items[j], At(stored, items[j]), if j < n then u.parts else if j == n then rest else 0)
  }

  lemma {:induction false} StoreAllUntil(u: Setup, items: seq<Kind>, stored: Stores, put: nat -> bool, tick: nat, n: nat, rest: nat, j: nat)
    requires u.parts > 0 && Distinct(items) && j < |items| && n < |items| && rest < u.parts
    requires StopsAt(put, tick + Times(u.parts, n) + rest)
    ensures var r := StoreAll(u, items, None, stored, put, tick);
            !r.ok && At(r.stored, items[j]) == Cut(u, items, stored, n, rest, j)
    decreases |items|
  {
    var stop := tick + Times(u.parts, n) + rest;
    TryFilesUntil(u, items[0], At(stored, items[0]), put, stop, tick);
    var w := TryFiles(u, items[0], At(stored, items[0]), put, tick, DEST_WRITE_ATTEMPTS);
    var stored' := stored[items[0] := w.store];
    if n == 0 {
      assert Filled(u, items[j], At(stored, items[j]), 0) == At(stored, items[j]);
    } else {
      StoreAllUntil(u, items[1..], stored', put, w.tick, n - 1, rest, if j == 0 then 0 else j - 1);
      if j == 0 {
        StoreAllElsewhere(u, items[1..], stored', put, w.tick, items[0]);
      }
    }
  }

  lemma StoreAllElsewhere(u: Setup, items: seq<Kind>, stored: Stores, put: nat -> bool, tick: nat, k: Kind)
    requires k !in items
    ensures At(StoreAll(u, items, None, stored, put, tick).stored, k) == At(stored, k)
  {
    StoreAllDelivers(u, items, None, stored, put, tick, k);
  }

  lemma {:induction false} FilledHas(u: Setup, k: Kind, store: Store, n: nat, i: nat)
    requires i < n
    ensures u.key(k, i) in Filled(u, k, store, n)
  {
    if i < n - 1 {
      FilledHas(u, k, store, n - 1, i);
    }
  }

  lemma {:induction false} FilledGrows(u: Setup, k: Kind, store: Store, n: nat)
    ensures store.Keys <= Filled(u, k, store, n).Keys
  {
    if n > 0 {
      FilledGrows(u, k, store, n - 1);
    }
  }

  // ---- runs that end Acquired without the title ----

  function Unforced(put: nat -> bool): Attempt {
    Attempt(false, true, Work(true, true, put, false))
  }

  lemma RunOne(u: Setup, s: State, a: Attempt)
    ensures Run(u, s, [a]) == AttemptOf(u, s, a).state
  {
    assert [a][1..] == [];
  }

  lemma RunTwo(u: Setup, s: State, a: Attempt, b: Attempt)
    ensures Run(u, s, [a, b]) == AttemptOf(u, AttemptOf(u, s, a).state, b).state
  {
    assert [a, b][1..] == [b];
    RunOne(u, AttemptOf(u, s, a).state, b);
  }

  /** When every destination has a hit the title becomes Acquired as it is. */
  lemma AllHitIsAccepted(u: Setup, s: State, put: nat -> bool)
    requires s.status != Acquired && forall k :: k in u.items ==> Hit(u, s.stored, k)
    ensures AttemptOf(u, s, Unforced(put)) == Effect(State(Acquired, s.stored), {})
  {
    SkipExactlyWhen(u, s.stored);
  }

  /** While all writes work, a sync ends Acquired with its one object at each missing destination. */
  lemma SyncIsAccepted(u: Setup, s: State, k: Kind)
    requires s.status != Acquired && PlanOf(u, s.stored).Sync?
    ensures var s' := AttemptOf(u, s, Unforced(_ => true)).state;
            && s'.status == Acquired
            && At(s'.stored, k) == if k in u.items && !Hit(u, s.stored, k) then Copied(u, s.stored, k) else At(s.stored, k)
  {
    var plan := PlanOf(u, s.stored);
    FirstHitIsStored(u, s.stored, u.items);
    SyncAt(u, s, Unforced(_ => true).work, k);
    SyncAllCopies(u, plan.missing, SyncExt(plan.source), SyncContent(u, s.stored), s.stored, Unforced(_ => true).work.put, 0, k);
  }

  // ---- failing writes ----

  /** From `tick` on only the writes in `bad` fail. */
  ghost predicate OnlyFail(put: nat -> bool, bad: set<nat>, tick: nat) {
    forall n: nat :: n >= tick && !put(n) ==> n in bad
  }

  lemma {:induction false} PutFilesStops(u: Setup, k: Kind, i: nat, store: Store, put: nat -> bool, tick: nat)
    ensures var w := PutFiles(u, k, i, store, put, tick);
            w.tick >= tick && (!w.ok ==> w.tick > tick && !put(w.tick - 1))
    decreases u.parts - i
  {
    if i < u.parts && put(tick) {
      PutFilesStops(u, k, i + 1, store[u.key(k, i) := Part(i)], put, tick + 1);
    }
  }

  /** Fewer failing writes than tries never lose a destination. */
  lemma {:induction false} TryFilesAbsorbs(u: Setup, k: Kind, store: Store, put: nat -> bool, tick: nat, tries: nat, bad: set<nat>)
    requires OnlyFail(put, bad, tick) && |bad| < tries
    ensures var w := TryFiles(u, k, store, put, tick, tries); w.ok && w.tick >= tick
    decreases tries
  {
    var w := PutFiles(u, k, 0, store, put, tick);
    PutFilesStops(u, k, 0, store, put, tick);
    if !w.ok {
      TryFilesAbsorbs(u, k, w.store, put, w.tick, tries - 1, bad - {w.tick - 1});
    }
  }

  /** As many failures in a row as there are tries do. */
  lemma {:induction false} TryFilesGivesUp(u: Setup, k: Kind, store: Store, put: nat -> bool, tick: nat, tries: nat)
    requires u.parts > 0 && forall n :: tick <= n < tick + tries ==> !put(n)
    ensures !TryFiles(u, k, store, put, tick, tries).ok
    decreases tries
  {
    if tries > 0 {
      TryFilesGivesUp(u, k, store, put, tick + 1, tries - 1);
    }
  }

  lemma {:induction false} StoreAllAbsorbs(u: Setup, items: seq<Kind>, filter: Option<seq<Kind>>, stored: Stores, put: nat -> bool, tick: nat, bad: set<nat>)
    requires OnlyFail(put, bad, tick) && |bad| < DEST_WRITE_ATTEMPTS
    ensures StoreAll(u, items, filter, stored, put, tick).ok
    decreases |items|
  {
    if items != [] {
      if !Allowed(filter, items[0]) {
        StoreAllAbsorbs(u, items[1..], filter, stored, put, tick, bad);
      } else {
        var w := TryFiles(u, items[0], At(stored, items[0]), put, tick, DEST_WRITE_ATTEMPTS);
        TryFilesAbsorbs(u, items[0], At(stored, items[0]), put, tick, DEST_WRITE_ATTEMPTS, bad);
        StoreAllAbsorbs(u, items[1..], filter, stored[items[0] := w.store], put, w.tick, bad);
      }
    }
  }

  /** One object is copied exactly when one of its tries succeeds. */
  lemma {:induction false} CopiedExactlyWhen(store: Store, key: Key, c: Content, put: nat -> bool, tick: nat, tries: nat)
    ensures var w := TryCopy(store, key, c, put, tick, tries);
            w.tick >= tick && (w.ok <==> exists n :: tick <= n < tick + tries && put(n))
    decreases tries
  {
    if tries > 0 && !put(tick) {
      CopiedExactlyWhen(store, key, c, put, tick + 1, tries - 1);
    }
  }

  lemma FewBad(bad: set<nat>, tick: nat) returns (n: nat)
    requires |bad| < DEST_WRITE_ATTEMPTS
    ensures tick <= n < tick + DEST_WRITE_ATTEMPTS && n !in bad
  {
    if tick !in bad {
      return tick;
    }
    assert |bad - {tick}| == |bad| - 1;
    if tick + 1 !in bad {
      return tick + 1;
    }
    assert |bad - {tick} - {tick + 1}| == |bad| - 2;
    return tick + 2;
  }

  lemma {:induction false} SyncAllAbsorbs(u: Setup, missing: seq<Kind>, ext: string, c: Content, stored: Stores, put: nat -> bool, tick: nat, bad: set<nat>)
    requires OnlyFail(put, bad, tick) && |bad| < DEST_WRITE_ATTEMPTS
    ensures SyncAll(u, missing, ext, c, stored, put, tick).ok
    decreases |missing|
  {
    if missing != [] {
      var k := missing[0];
      var w := TryCopy(At(stored, k), u.syncKey(k, ext), c, put, tick, DEST_WRITE_ATTEMPTS);
      var n := FewBad(bad, tick);
      assert put(n);
      CopiedExactlyWhen(At(stored, k), u.syncKey(k, ext), c, put, tick, DEST_WRITE_ATTEMPTS);
      SyncAllAbsorbs(u, missing[1..], ext, c, stored[k := w.store], put, w.tick, bad);
    }
  }

  /** An attempt that gets its lookups, its fetch and its quota ends Acquired
      through any two failing writes, whatever it plans. */
  lemma TwoFailuresAreAbsorbed(u: Setup, s: State, a: Attempt, bad: set<nat>)
    requires a.work.fetched && a.work.quotaOk && (a.force || a.planned)
    requires OnlyFail(a.work.put, bad, 0) && |bad| <= 2
    ensures AttemptOf(u, s, a).state.status == Acquired
  {
    if a.force {
      StoreAllAbsorbs(u, u.items, None, s.stored, a.work.put, 0, bad);
    } else if s.status != Acquired {
      match PlanOf(u, s.stored)
      case Skip =>
      case Sync(_, _, _) =>
        var plan := PlanOf(u, s.stored);
        FirstHitIsStored(u, s.stored, u.items);
        SyncAllAbsorbs(u, plan.missing, SyncExt(plan.source), At(s.stored, plan.from)[plan.source], s.stored, a.work.put, 0, bad);
      case Fetch(filter) =>
        StoreAllAbsorbs(u, u.items, filter, s.stored, a.work.put, 0, bad);
    }
  }

  /** A fetch that fails, or whose result exceeds the quota, never ends Acquired: the
      title is marked as failed, or left in progress when the attempt died. */
  lemma FailedFetchIsNotAcquired(u: Setup, s: State, a: Attempt)
    requires a.force || (s.status != Acquired && a.planned && PlanOf(u, s.stored).Fetch?)
    requires !a.work.fetched || !a.work.quotaOk
    ensures var r := AttemptOf(u, s, a);
            && r.state.status == (if a.work.dies then Queued else Error)
            && (!a.work.fetched ==> r.touched == {} && r.state.stored == s.stored)
  {}

  /** Three in a row at the start of a forced fetch are not. */
  lemma ThreeFailuresAreNot(u: Setup, s: State, a: Attempt)
    requires a.force && u.items != [] && u.parts > 0
    requires !a.work.put(0) && !a.work.put(1) && !a.work.put(2)
    ensures AttemptOf(u, s, a).state.status != Acquired
  {
    TryFilesGivesUp(u, u.items[0], At(s.stored, u.items[0]), a.work.put, 0, DEST_WRITE_ATTEMPTS);
  }

  /** While all writes work, a refetch of the missing ends Acquired and leaves every hit alone. */
  lemma RefetchIsAccepted(u: Setup, s: State, k: Kind)
    requires s.status != Acquired && u.mode == RefetchMissing && PlanOf(u, s.stored).Fetch? && Hit(u, s.stored, k)
    ensures var s' := AttemptOf(u, s, Unforced(_ => true)).state;
            s'.status == Acquired && At(s'.stored, k) == At(s.stored, k)
  {
    StoreAllAbsorbs(u, u.items, PlanOf(u, s.stored).only', s.stored, _ => true, 0, {});
    HoldersAreLeftAlone(u, s, Unforced(_ => true), k);
  }

  /** A misled destination stays without the title where hits are left alone. */
  lemma MisledUnlessRefetchAll(u: Setup, first: Stores, k: Kind) returns (attempts: seq<Attempt>)
    requires Fresh(u, first) && Bad(u, first, k) && (u.mode != RefetchAll || PlanOf(u, first).Skip?)
    ensures var s := Run(u, State(Idle, first), attempts); s.status == Acquired && !Held(At(s.stored, k))
  {
    var s := State(Idle, first);
    FreshUnheld(u, first, k);
    SkipExactlyWhen(u, first);
    FirstHitIsFirst(u, first, u.items);
    attempts := [Unforced(_ => true)];
    RunOne(u, s, attempts[0]);
    if PlanOf(u, first).Sync? {
      SyncIsAccepted(u, s, k);
    } else if PlanOf(u, first).Fetch? {
      RefetchIsAccepted(u, s, k);
    }
  }

  /** A full fetch whose writes stop after `n` destinations and `rest` files. */
  lemma CutAttempt(u: Setup, stored: Stores, put: nat -> bool, n: nat, rest: nat)
    requires SetupOk(u) && PlanOf(u, stored) == Fetch(None) && n < |u.items| && rest < u.parts
    requires StopsAt(put, Times(u.parts, n) + rest)
    ensures var s := AttemptOf(u, State(Idle, stored), Unforced(put)).state;
            s.status == Error && forall j :: 0 <= j < |u.items| ==> At(s.stored, u.items[j]) == Cut(u, u.items, stored, n, rest, j)
  {
    forall j | 0 <= j < |u.items| { StoreAllUntil(u, u.items, stored, put, 0, n, rest, j); }
    StoreAllUntil(u, u.items, stored, put, 0, n, rest, 0);
  }

  /** A full fetch that fails at the misled destination after it filled those before it. */
  lemma MisledInRefetchAll(u: Setup, first: Stores, k: Kind) returns (attempts: seq<Attempt>)
    requires SetupOk(u) && Fresh(u, first) && Misled(u, first, k) && u.mode == RefetchAll && !PlanOf(u, first).Skip?
    ensures var s := Run(u, State(Idle, first), attempts); s.status == Acquired && !Held(At(s.stored, k))
  {
    var n :| 0 <= n < |u.items| && u.items[n] == k;
    var put := t => t < Times(u.parts, n);
    var s := State(Idle, first);
    var s1 := AttemptOf(u, s, Unforced(put)).state;
    CutAttempt(u, first, put, n, 0);
    forall j | 0 <= j < |u.items| ensures Hit(u, s1.stored, u.items[j]) {
      FilledIsHit(u, first, s1.stored, k, n, j);
    }
    AllHitIsAccepted(u, s1, put);
    RunTwo(u, s, Unforced(put), Unforced(put));
    attempts := [Unforced(put), Unforced(put)];
    FreshUnheld(u, first, k);
  }

  lemma FilledIsHit(u: Setup, first: Stores, stored: Stores, k: Kind, n: nat, j: nat)
    requires SetupOk(u) && Misled(u, first, k) && u.mode == RefetchAll
    requires n < |u.items| && u.items[n] == k && j < |u.items|
    requires At(stored, u.items[j]) == Cut(u, u.items, first, n, 0, j)
    ensures Hit(u, stored, u.items[j])
  {
    var m := u.items[j];
    FilledGrows(u, m, At(first, m), if j < n then u.parts else 0);
    if Hit(u, first, m) {
      FindGrows(u, m, At(first, m).Keys, At(stored, m).Keys);
    } else {
      assert FilledBefore(u, m, k);
      var p, q :| 0 <= p < q < |u.items| && u.items[p] == m && u.items[q] == k;
      assert j < n;
      var i: nat :| i < u.parts && Accepts(u, m, u.key(m, i));
      FilledHas(u, m, At(first, m), u.parts, i);
      FindAccepts(u, m, At(stored, m).Keys);
    }
  }

  lemma MissSyncedRun(u: Setup, first: Stores) returns (attempts: seq<Attempt>)
    requires Fresh(u, first) && MissSynced(u, first)
    ensures var s := Run(u, State(Idle, first), attempts); s.status == Acquired && !AllHeld(u, s.stored)
  {
    var m := Missing(u, first, u.items)[0];
    MissingExactly(u, first, u.items, m);
    FreshUnheld(u, first, m);
    SyncIsAccepted(u, State(Idle, first), m);
    attempts := [Unforced(_ => true)];
    RunOne(u, State(Idle, first), attempts[0]);
    assert !Held(Copied(u, first, m));
  }

  lemma ExposedRun(u: Setup, first: Stores) returns (attempts: seq<Attempt>)
    requires SetupOk(u) && Fresh(u, first) && Exposed(u, first)
    ensures var s := Run(u, State(Idle, first), attempts); s.status == Acquired && !AllHeld(u, s.stored)
  {
    if MissSynced(u, first) {
      attempts := MissSyncedRun(u, first);
    } else {
      var k :| Misled(u, first, k);
      if u.mode != RefetchAll || PlanOf(u, first).Skip? {
        attempts := MisledUnlessRefetchAll(u, first, k);
      } else {
        attempts := MisledInRefetchAll(u, first, k);
      }
    }
  }

  /** Over every run of attempts with whatever failures, status Acquired means that
      every destination stores audio of the title, exactly when nothing stored
      before the first attempt could mislead the lookup. */
  lemma AcquiredIsHeldExactlyWhen(u: Setup, first: Stores)
    requires SetupOk(u) && Fresh(u, first)
    ensures (forall attempts :: Run(u, State(Idle, first), attempts).status == Acquired
                ==> AllHeld(u, Run(u, State(Idle, first), attempts).stored))
            <==> !Exposed(u, first)
  {
    if Exposed(u, first) {
      var attempts := ExposedRun(u, first);
    } else {
      forall attempts | Run(u, State(Idle, first), attempts).status == Acquired
        ensures AllHeld(u, Run(u, State(Idle, first), attempts).stored)
      {
        RunKeepsInv(u, first, State(Idle, first), attempts);
      }
    }
  }

  /** A cover with the id in its name is all it takes: with `Title [B00EXAMPLE1].jpg`
      alone at every destination the title is Acquired at once, without audio. */
  lemma CoverOnlyIsAccepted(u: Setup, title: string, raw: string)
    requires SetupOk(u) && Candidate(raw).Some? && Upper(u.id) == Candidate(raw).value
    requires '[' !in raw && ']' !in raw && '\\' !in raw
    ensures var cover := title + "[" + raw + "]" + ".jpg";
            var first: Stores := map k | k in u.items :: map[cover := Other(false)];
            && Fresh(u, first)
            && var s := Run(u, State(Idle, first), [Unforced(_ => false)]);
               s.status == Acquired && s.stored == first && forall k :: k in u.items ==> !Held(At(s.stored, k))
  {
    var cover := title + "[" + raw + "]" + ".jpg";
    var first: Stores := map k | k in u.items :: map[cover := Other(false)];
    BracketFormIsFound(title, raw, ".jpg");
    CoverIsNotAudio(title + "[" + raw + "]");
    forall k | k in u.items ensures Hit(u, first, k) {
      assert cover in At(first, k).Keys;
      FindAccepts(u, k, At(first, k).Keys);
    }
    AllHitIsAccepted(u, State(Idle, first), _ => false);
    RunOne(u, State(Idle, first), Unforced(_ => false));
  }

  lemma CoverIsNotAudio(stem: string)
    ensures !IsAudio(stem + ".jpg")
  {
    assert stem + ".jpg" == stem + "." + "jpg";
    StemAppend(stem, "jpg");
    assert Lower("jpg")[0] == 'j';
  }

  // ---- titles of several files ----

  predicate HasPart(store: Store, part: nat) {
    exists key :: key in store && store[key] == Part(part)
  }

  /** Every file of the title is there. */
  ghost predicate Whole(u: Setup, store: Store) {
    forall part: nat :: part < u.parts ==> HasPart(store, part)
  }

  ghost predicate AllWhole(u: Setup, stored: Stores) {
    forall k :: k in u.items ==> Whole(u, At(stored, k))
  }

  /** Everything stored is a file of the title. */
  ghost predicate OnlyParts(u: Setup, store: Store) {
    forall key :: key in store ==> store[key].Part? && store[key].index < u.parts
  }

  lemma AttemptKeepsParts(u: Setup, s: State, a: Attempt, k: Kind)
    requires forall m :: OnlyParts(u, At(s.stored, m))
    ensures OnlyParts(u, At(AttemptOf(u, s, a).state.stored, k))
  {
    AttemptAt(u, s, a, k);
    if Syncs(u, s, a) {
      FirstHitIsStored(u, s.stored, u.items);
      assert OnlyParts(u, At(s.stored, PlanOf(u, s.stored).from));
    }
    assert OnlyParts(u, At(s.stored, k));
  }

  lemma {:induction false} RunKeepsParts(u: Setup, s: State, attempts: seq<Attempt>)
    requires forall k :: OnlyParts(u, At(s.stored, k))
    ensures forall k :: OnlyParts(u, At(Run(u, s, attempts).stored, k))
    decreases |attempts|
  {
    if attempts != [] {
      forall k { AttemptKeepsParts(u, s, attempts[0], k); }
      RunKeepsParts(u, AttemptOf(u, s, attempts[0]).state, attempts[1..]);
    }
  }

  /** For a title stored as one file, Acquired means every destination holds all of it. */
  lemma SingleFileIsWhole(u: Setup, attempts: seq<Attempt>)
    requires SetupOk(u) && u.parts == 1 && Run(u, State(Idle, map[]), attempts).status == Acquired
    ensures AllWhole(u, Run(u, State(Idle, map[]), attempts).stored)
  {
    var s := Run(u, State(Idle, map[]), attempts);
    RunStocks(u, State(Idle, map[]), attempts);
    RunKeepsParts(u, State(Idle, map[]), attempts);
    forall k | k in u.items ensures Whole(u, At(s.stored, k)) {
      var key :| key in At(s.stored, k);
      assert OnlyParts(u, At(s.stored, k));
      assert At(s.stored, k)[key] == Part(0);
    }
  }

  /** Every file that a fetch writes is accepted by the lookup. */
  ghost predicate Recognising(u: Setup) {
    forall k, i: nat :: k in u.items && i < u.parts ==> Accepts(u, k, u.key(k, i))
  }

  lemma {:induction false} FilledParts(u: Setup, k: Kind, n: nat, part: nat)
    requires n <= part
    ensures !HasPart(Filled(u, k, map[], n), part)
  {
    if n > 0 {
      FilledParts(u, k, n - 1, part);
    }
  }

  /** A write that is interrupted behind an accepted file of the last destination:
      the next attempt takes what is there for the title. */
  lemma InterruptedWriteIsAccepted(u: Setup, i: nat) returns (attempts: seq<Attempt>)
    requires SetupOk(u) && i + 1 < u.parts && Accepts(u, u.items[|u.items| - 1], u.key(u.items[|u.items| - 1], i))
    requires forall k :: k in u.items ==> Revealed(u, k)
    ensures var s := Run(u, State(Idle, map[]), attempts);
            s.status == Acquired && !HasPart(At(s.stored, u.items[|u.items| - 1]), u.parts - 1)
  {
    var put := t => t < Times(u.parts, |u.items| - 1) + (i + 1);
    InterruptedWrite(u, i, put);
    AllHitIsAccepted(u, AttemptOf(u, State(Idle, map[]), Unforced(put)).state, put);
    RunTwo(u, State(Idle, map[]), Unforced(put), Unforced(put));
    attempts := [Unforced(put), Unforced(put)];
  }

  lemma InterruptedWrite(u: Setup, i: nat, put: nat -> bool)
    requires SetupOk(u) && i + 1 < u.parts && Accepts(u, u.items[|u.items| - 1], u.key(u.items[|u.items| - 1], i))
    requires (forall k :: k in u.items ==> Revealed(u, k)) && StopsAt(put, Times(u.parts, |u.items| - 1) + (i + 1))
    ensures var s := AttemptOf(u, State(Idle, map[]), Unforced(put)).state;
            && s.status == Error && (forall k :: k in u.items ==> Hit(u, s.stored, k))
            && !HasPart(At(s.stored, u.items[|u.items| - 1]), u.parts - 1)
  {
    var n := |u.items| - 1;
    var s := AttemptOf(u, State(Idle, map[]), Unforced(put)).state;
    NothingStored(u, map[]);
    CutAttempt(u, map[], put, n, i + 1);
    forall j | 0 <= j < |u.items| ensures Hit(u, s.stored, u.items[j]) {
      CutIsHit(u, s.stored, i, j);
    }
    FilledParts(u, u.items[n], i + 1, u.parts - 1);
  }

  lemma NothingStored(u: Setup, stored: Stores)
    requires SetupOk(u) && stored == map[]
    ensures PlanOf(u, stored) == Fetch(None)
  {
    forall k ensures !Hit(u, stored, k) { FindAccepts(u, k, At(stored, k).Keys); }
    FirstHitIsFirst(u, stored, u.items);
    MissingExactly(u, stored, u.items, u.items[0]);
  }

  lemma CutIsHit(u: Setup, stored: Stores, i: nat, j: nat)
    requires SetupOk(u) && i + 1 < u.parts && Accepts(u, u.items[|u.items| - 1], u.key(u.items[|u.items| - 1], i))
    requires j < |u.items| && Revealed(u, u.items[j])
    requires At(stored, u.items[j]) == Cut(u, u.items, map[], |u.items| - 1, i + 1, j)
    ensures Hit(u, stored, u.items[j])
  {
    var m := u.items[j];
    var f: nat :| f < u.parts && Accepts(u, m, u.key(m, f)) && (j == |u.items| - 1 ==> f <= i);
    FilledHas(u, m, map[], if j < |u.items| - 1 then u.parts else i + 1, f);
    FindAccepts(u, m, At(stored, m).Keys);
  }

  /** Starting from nothing, every run that ends Acquired has every file of the title
      at every destination exactly when the title is one file. */
  lemma WholeExactlyWhen(u: Setup)
    requires SetupOk(u) && Recognising(u)
    ensures (forall attempts :: Run(u, State(Idle, map[]), attempts).status == Acquired
                ==> AllWhole(u, Run(u, State(Idle, map[]), attempts).stored))
            <==> u.parts == 1
  {
    if u.parts == 1 {
      forall attempts | Run(u, State(Idle, map[]), attempts).status == Acquired
        ensures AllWhole(u, Run(u, State(Idle, map[]), attempts).stored)
      {
        SingleFileIsWhole(u, attempts);
      }
    } else {
      var last := u.items[|u.items| - 1];
      assert last in u.items && Accepts(u, last, u.key(last, 0));
      forall k | k in u.items ensures Revealed(u, k) { assert Accepts(u, k, u.key(k, 0)); }
      var attempts := InterruptedWriteIsAccepted(u, 0);
      assert !Whole(u, At(Run(u, State(Idle, map[]), attempts).stored, last));
    }
  }

  /** A synced copy is the source's content under the source's extension. */
  lemma SyncKeepsExtension(u: Setup, s: State, a: Attempt, k: Kind, stem: string, ext: string)
    requires Syncs(u, s, a) && k in u.items && !Hit(u, s.stored, k) && AttemptOf(u, s, a).state.status == Acquired
    requires '.' !in ext && PlanOf(u, s.stored).source == stem + "." + ext
    ensures var plan, now := PlanOf(u, s.stored), At(AttemptOf(u, s, a).state.stored, k);
            && plan.source in At(s.stored, plan.from)
            && now == At(s.stored, k)[u.syncKey(k, ext) := At(s.stored, plan.from)[plan.source]]
  {
    SyncAt(u, s, a.work, k);
    StemAppend(stem, ext);
    assert (stem + "." + ext)[|stem|] == '.';
  }

  /** Nor does a sync repair it: it copies one object, however many files the title has. */
  lemma SyncCopiesOneFile(u: Setup, s: State, a: Attempt, k: Kind)
    requires u.parts >= 2 && Syncs(u, s, a) && k in u.items && !Hit(u, s.stored, k) && At(s.stored, k) == map[]
    requires AttemptOf(u, s, a).state.status == Acquired
    ensures !Whole(u, At(AttemptOf(u, s, a).state.stored, k))
  {
    SyncAt(u, s, a.work, k);
    var c := SyncContent(u, s.stored);
    assert !HasPart(At(AttemptOf(u, s, a).state.stored, k), if c == Part(0) then 1 else 0);
  }
}
