/** The crash-resumable paged storage scan as a transition system.

    Every database write of `scan_storage` is one event, so crashes, lease
    takeovers, generation reclaims and storage mutation may fall between any
    two of them. Workers, jobs, sites and generations are unbounded in number. */
module StorageScan {
  import opened Basics
  import opened Keys

  type GenId = nat      // a random UUID: a minted id was never used before
  type JobId = nat
  type WorkerId = nat

  /** What `instance_id` and `scan_placement` say about a backend. */
  datatype Site = Site(instance: string, placement: Option<string>)

  /** `ScanCheckpoint`; the namespace is always the whole store. */
  datatype Checkpoint = Checkpoint(site: Site, gen: GenId, phase: string, cursor: Option<Key>)

  /** A job payload checkpoint before `decode_prior` accepted it. */
  datatype RawCheckpoint = RawCheckpoint(schemaVersion: nat, body: Option<RawBody>)
  datatype RawBody = RawBody(v: nat, op: string, state: Checkpoint)

  /** Rows of `storage_scan_rows`. The stored rank, size and audio flag are
      those of the first insert; they do not decide which rows exist. */
  datatype Row = ObjectRow(key: Key) | IdentityRow(id: string, key: Key)

  /** Which keys are internal, which rows a listed key always gives rise to, and
      which rows it may give rise to (embedded metadata can add identities). */
  datatype Rules = Rules(hidden: Key -> bool, rowsFor: Key -> set<Row>, may: Row -> bool)

  const SCAN_VERSION: nat := 1

  /** A row of `storage_scan_generations`. */
  datatype Gen = Gen(instance: string, complete: bool)

  datatype Job = Job(lease: nat, saved: Option<Checkpoint>)

  datatype Pc =
    | Bind(resumed: bool)
    | SaveRestart
    | List
    | Put(pending: set<Row>, next: Option<Key>)
    | SaveCursor
    | Mark
    | SaveApply
    | Finished
    | Failed

  datatype Worker = Worker(
    site: Site, job: Option<JobId>, lease: nat,
    state: Checkpoint, pc: Pc, restarted: bool)

  /** History of a generation since `minter` made its id: `through` are the keys
      that were in the store the whole time, as long as the generation was not
      complete, `ever` the keys that were there at some moment, `bound` whether
      the id was ever registered. */
  datatype Life = Life(site: Site, through: set<Key>, ever: set<Key>, minter: WorkerId, bound: bool)

  datatype State = State(
    objects: map<Site, set<Key>>,
    gens: map<GenId, Gen>,
    rows: map<GenId, set<Row>>,
    jobs: map<JobId, Job>,
    workers: map<WorkerId, Worker>,
    lives: map<GenId, Life>)

  datatype Event =
    | AddKey(site: Site, key: Key)
    | RemoveKey(site: Site, key: Key)
    | NewJob(job: JobId)
    | TakeLease(job: JobId)
    | DeleteGen(gen: GenId)
    | Start(w: WorkerId, site: Site, owner: Option<JobId>, minted: GenId)
    | Crash(w: WorkerId)
    | BindGen(w: WorkerId)
    | ListPage(w: WorkerId, page: set<Key>, pending: set<Row>, next: Option<Key>)
    | BadCursor(w: WorkerId, minted: GenId)
    | PutRow(w: WorkerId, row: Row)
    | EndPage(w: WorkerId)
    | MarkComplete(w: WorkerId)
    | Save(w: WorkerId)

  const Init := State(map[], map[], map[], map[], map[], map[])

  function Objects(s: State, site: Site): set<Key> {
    if site in s.objects then s.objects[site] else {}
  }

  function Rows(s: State, g: GenId): set<Row> {
    if g in s.rows then s.rows[g] else {}
  }

  predicate AtOrBelow(k: Key, c: Option<Key>) {
    c.Some? && (k == c.value || Less(k, c.value))
  }

  function FreshCheckpoint(site: Site, gen: GenId): Checkpoint {
    Checkpoint(site, gen, "list", None)
  }

  // ---- decode_prior and the adoption decision ----

  /** What `persist` writes for a checkpoint. */
  function Encoded(c: Checkpoint): RawCheckpoint {
    RawCheckpoint(SCAN_VERSION, Some(RawBody(SCAN_VERSION, "storage_scan", c)))
  }

  function DecodePrior(raw: RawCheckpoint, instance: string): Result<Checkpoint, string> {
    if raw.schemaVersion != SCAN_VERSION then Err("unsupported storage checkpoint version")
    else match raw.body
      case None => Err("storage checkpoint json")
      case Some(body) =>
        if body.v != SCAN_VERSION || body.op != "storage_scan" then Err("not a storage_scan checkpoint")
        else if body.state.site.instance != instance then Err("bound to another instance")
        else Ok(body.state)
  }

  /** A job's checkpoint is accepted exactly when `persist` wrote it, for a scan of this instance. */
  lemma DecodesWhatPersistWrote(raw: RawCheckpoint, instance: string, c: Checkpoint)
    ensures DecodePrior(raw, instance) == Ok(c) <==> raw == Encoded(c) && c.site.instance == instance
  {}

  datatype Decision = Adopt(gen: GenId) | Resume(state: Checkpoint) | Rescan(state: Checkpoint) | Refuse

  /** The prelude of `scan_storage` up to `bind_generation`. */
  function Decide(prior: Option<RawCheckpoint>, site: Site, gens: map<GenId, Gen>, minted: GenId): Decision {
    match prior
    case None => Rescan(FreshCheckpoint(site, minted))
    case Some(raw) =>
      match DecodePrior(raw, site.instance)
      case Err(_) => Refuse
      case Ok(decoded) =>
        var state := if decoded.site.placement == site.placement then decoded else FreshCheckpoint(site, minted);
        if state.gen in gens && gens[state.gen].complete && state.phase == "apply"
           && gens[state.gen].instance == site.instance then Adopt(state.gen)
        else if state.gen in gens && state.phase == "list" && gens[state.gen].instance == site.instance
        then Resume(state)
        else Rescan(FreshCheckpoint(site, minted))
  }

  function Saved(s: State, job: Option<JobId>): Option<RawCheckpoint> {
    if job.Some? && job.value in s.jobs && s.jobs[job.value].saved.Some? then
      Some(Encoded(s.jobs[job.value].saved.value))
    else None
  }

  // ---- what each event may do ----

  predicate At(s: State, w: WorkerId, pc: Pc) {
    w in s.workers && s.workers[w].pc == pc
  }

  /** The listing contract: the page holds every current key above the cursor
      and not above the next cursor, and no key the store never held. */
  predicate PageContract(s: State, w: WorkerId, page: set<Key>, next: Option<Key>)
    requires w in s.workers
  {
    var wk := s.workers[w];
    && wk.state.gen in s.lives
    && page <= s.lives[wk.state.gen].ever
    && (forall k :: k in Objects(s, wk.site) && !AtOrBelow(k, wk.state.cursor) && (next.None? || AtOrBelow(k, next))
          ==> k in page)
    && (next.Some? ==> next != wk.state.cursor)
  }

  predicate PendingFor(r: Rules, page: set<Key>, pending: set<Row>) {
    && (forall k :: k in page && !r.hidden(k) ==> r.rowsFor(k) <= pending)
    && (forall row :: row in pending ==> row.key in page && !r.hidden(row.key) && r.may(row))
  }

  predicate Enabled(r: Rules, s: State, e: Event) {
    match e
    case AddKey(_, _) => true
    case RemoveKey(_, _) => true
    case NewJob(j) => j !in s.jobs
    case TakeLease(j) => j in s.jobs
    case DeleteGen(_) => true
    case Start(w, site, job, minted) =>
      w !in s.workers && minted !in s.lives && (job.Some? ==> job.value in s.jobs)
    case Crash(w) => w in s.workers
    case BindGen(w) => w in s.workers && s.workers[w].pc.Bind?
    case ListPage(w, page, pending, next) =>
      At(s, w, List) && PageContract(s, w, page, next) && PendingFor(r, page, pending)
    case BadCursor(w, minted) => At(s, w, List) && minted !in s.lives
    case PutRow(w, row) => w in s.workers && s.workers[w].pc.Put? && row in s.workers[w].pc.pending
    case EndPage(w) => w in s.workers && s.workers[w].pc.Put? && s.workers[w].pc.pending == {}
    case MarkComplete(w) => At(s, w, Mark)
    case Save(w) => w in s.workers && s.workers[w].pc in {SaveRestart, SaveCursor, SaveApply}
  }

  function SetPc(s: State, w: WorkerId, pc: Pc): State
    requires w in s.workers
  {
    s.(workers := s.workers[w := s.workers[w].(pc := pc)])
  }

  function Born(s: State, gen: GenId, site: Site, w: WorkerId): State {
    s.(lives := s.lives[gen := Life(site, Objects(s, site), Objects(s, site), w, false)])
  }

  predicate Open(s: State, g: GenId) {
    !(g in s.gens && s.gens[g].complete)
  }

  function Step(r: Rules, s: State, e: Event): State
    requires Enabled(r, s, e)
  {
    match e
    case AddKey(site, key) => AddedKey(s, site, key)
    case RemoveKey(site, key) => RemovedKey(s, site, key)
    case NewJob(j) => WithJob(s, j, Job(0, None))
    case TakeLease(j) => Leased(s, j)
    case DeleteGen(g) => Deleted(s, g)
    case Start(w, site, job, minted) => Started(s, w, site, job, minted)
    case Crash(w) => SetPc(s, w, Failed)
    case BindGen(w) => Bound(s, w)
    case ListPage(w, _, pending, next) => SetPc(s, w, Put(pending, next))
    case BadCursor(w, minted) => Restarted(s, w, minted)
    case PutRow(w, row) => Stored(s, w, row)
    case EndPage(w) => Ended(s, w)
    case MarkComplete(w) => Marked(s, w)
    case Save(w) => Persisted(s, w)
  }

  function WithJob(s: State, j: JobId, job: Job): State {
    s.(jobs := s.jobs[j := job])
  }

  function Leased(s: State, j: JobId): State
    requires j in s.jobs
  {
    WithJob(s, j, Job(s.jobs[j].lease + 1, s.jobs[j].saved))
  }

  function Deleted(s: State, g: GenId): State {
    s.(gens := s.gens - {g}, rows := s.rows - {g}, lives := Reopened(s, g))
  }

  /** A generation that is gone tracks only keys that are still there. */
  function Reopened(s: State, g: GenId): map<GenId, Life> {
    if g !in s.lives then s.lives
    else s.lives[g := s.lives[g].(through := s.lives[g].through * Objects(s, s.lives[g].site))]
  }

  function AddedKey(s: State, site: Site, key: Key): State {
    s.(objects := s.objects[site := Objects(s, site) + {key}],
       lives := map g | g in s.lives ::
         if s.lives[g].site == site then s.lives[g].(ever := s.lives[g].ever + {key}) else s.lives[g])
  }

  function RemovedKey(s: State, site: Site, key: Key): State {
    s.(objects := s.objects[site := Objects(s, site) - {key}],
       lives := map g | g in s.lives ::
         if s.lives[g].site == site && Open(s, g)
         then s.lives[g].(through := s.lives[g].through - {key}) else s.lives[g])
  }

  function Started(s: State, w: WorkerId, site: Site, job: Option<JobId>, minted: GenId): State
    requires job.Some? ==> job.value in s.jobs
  {
    var lease := if job.Some? then s.jobs[job.value].lease else 0;
    match Decide(Saved(s, job), site, s.gens, minted)
    case Refuse =>
      Born(s.(workers := s.workers[w := Worker(site, job, lease, FreshCheckpoint(site, minted), Failed, false)]), minted, site, w)
    case Adopt(g) =>
      s.(workers := s.workers[w := Worker(site, job, lease, Checkpoint(site, g, "apply", None), Finished, false)])
    case Resume(state) =>
      s.(workers := s.workers[w := Worker(site, job, lease, state, Bind(true), false)])
    case Rescan(state) =>
      Born(s.(workers := s.workers[w := Worker(site, job, lease, state, Bind(false), false)]), minted, site, w)
  }

  /** The one restart after an invalid cursor: the generation is dropped and a new one minted. */
  function Restarted(s: State, w: WorkerId, minted: GenId): State
    requires w in s.workers
  {
    var wk := s.workers[w];
    if wk.restarted then SetPc(s, w, Failed)
    else Born(Deleted(s, wk.state.gen).(workers :=
                s.workers[w := wk.(state := FreshCheckpoint(wk.site, minted), pc := Bind(false), restarted := true)]),
              minted, wk.site, w)
  }

  function Stored(s: State, w: WorkerId, row: Row): State
    requires w in s.workers && s.workers[w].pc.Put?
  {
    var wk := s.workers[w];
    s.(rows := s.rows[wk.state.gen := Rows(s, wk.state.gen) + {row}],
       workers := s.workers[w := wk.(pc := Put(wk.pc.pending - {row}, wk.pc.next))])
  }

  function Ended(s: State, w: WorkerId): State
    requires w in s.workers && s.workers[w].pc.Put?
  {
    var wk := s.workers[w];
    if wk.pc.next.Some?
    then s.(workers := s.workers[w := wk.(state := wk.state.(cursor := wk.pc.next), pc := SaveCursor)])
    else SetPc(s, w, Mark)
  }

  function Marked(s: State, w: WorkerId): State
    requires w in s.workers
  {
    var wk := s.workers[w];
    var g := wk.state.gen;
    s.(gens := if g in s.gens then s.gens[g := s.gens[g].(complete := true)] else s.gens,
       workers := s.workers[w := wk.(state := wk.state.(phase := "apply", cursor := None), pc := SaveApply)])
  }

  /** `storage_scan_register`: a known id keeps its row, another instance fails closed. */
  function Bound(s: State, w: WorkerId): State
    requires w in s.workers
  {
    var wk := s.workers[w];
    var g := wk.state.gen;
    var next := if wk.restarted then SaveRestart else List;
    if g in s.gens && s.gens[g].instance != wk.site.instance then SetPc(s, w, Failed)
    else if g in s.gens then SetPc(s, w, next)
    else SetPc(s.(gens := s.gens[g := Gen(wk.site.instance, false)],
                  lives := if g in s.lives then s.lives[g := s.lives[g].(bound := true)] else s.lives), w, next)
  }

  predicate LeaseHeld(s: State, wk: Worker) {
    wk.job.Some? ==> wk.job.value in s.jobs && s.jobs[wk.job.value].lease == wk.lease
  }

  /** `persist`: written only while the lease still matches; without a job it is a no-op. */
  function Persisted(s: State, w: WorkerId): State
    requires w in s.workers
  {
    var wk := s.workers[w];
    var done := SetPc(s, w, if wk.pc == SaveApply then Finished else List);
    if wk.job.None? then done
    else if LeaseHeld(s, wk)
    then done.(jobs := s.jobs[wk.job.value := s.jobs[wk.job.value].(saved := Some(wk.state))])
    else SetPc(s, w, Failed)
  }

  // ---- the invariant, generation by generation ----

  /** All that the state says about one generation. */
  datatype View = Unborn | View(life: Life, gen: Option<Gen>, rows: set<Row>)

  function ViewOf(s: State, g: GenId): View {
    if g !in s.lives then Unborn
    else View(s.lives[g], if g in s.gens then Some(s.gens[g]) else None, Rows(s, g))
  }

  predicate Finishes(v: View) {
    v.View? && v.gen.Some? && v.gen.value.complete
  }

  predicate Covers(r: Rules, v: View, c: Option<Key>)
    requires v.View?
  {
    forall k :: k in v.life.through && !r.hidden(k) && AtOrBelow(k, c) ==> r.rowsFor(k) <= v.rows
  }

  predicate CoversAll(r: Rules, v: View)
    requires v.View?
  {
    forall k :: k in v.life.through && !r.hidden(k) ==> r.rowsFor(k) <= v.rows
  }

  /** Covered up to `next` once the pending rows are stored. */
  predicate CoversWith(r: Rules, v: View, pending: set<Row>, next: Option<Key>)
    requires v.View?
  {
    forall k :: k in v.life.through && !r.hidden(k) && (next.None? || AtOrBelow(k, next))
      ==> r.rowsFor(k) <= v.rows + pending
  }

  predicate Genuine(r: Rules, life: Life, rows: set<Row>) {
    forall row :: row in rows ==> row.key in life.ever && !r.hidden(row.key) && r.may(row)
  }

  predicate GenOk(r: Rules, v: View, objects: set<Key>)
    requires v.View?
  {
    && v.life.through <= v.life.ever
    && objects <= v.life.ever
    && (Finishes(v) || v.life.through <= objects)
    && Genuine(r, v.life, v.rows)
    && (v.gen.Some? ==> v.gen.value.instance == v.life.site.instance && v.life.bound)
    && (Finishes(v) ==> CoversAll(r, v))
  }

  predicate CheckpointOk(r: Rules, v: View, c: Checkpoint) {
    && v.View?
    && v.life.site == c.site
    && c.phase in {"list", "apply"}
    && (v.gen.Some? && c.phase == "list" ==> Covers(r, v, c.cursor))
  }

  predicate WorkerOk(r: Rules, v: View, w: WorkerId, wk: Worker) {
    wk.pc != Failed ==>
      && v.View?
      && v.life.site == wk.state.site == wk.site
      && wk.state.phase in {"list", "apply"}
      && (wk.pc in {SaveApply, Finished} <==> wk.state.phase == "apply")
      && (wk.pc == Bind(false) ==> wk.state.cursor == None && v.life.minter == w)
      && (wk.pc == Bind(true) ==> !wk.restarted)
      && (v.life.bound <==> wk.pc != Bind(false))
      && (wk.pc.Put? ==> Genuine(r, v.life, wk.pc.pending))
  }

  /** The rows that are there bear out what the worker is about to rely on. */
  predicate Backed(r: Rules, v: View, wk: Worker)
    requires v.View?
  {
    match wk.pc
    case Put(pending, next) => CoversWith(r, v, pending, next)
    case Mark => CoversAll(r, v)
    case SaveApply => Finishes(v)
    case Finished => Finishes(v)
    case Failed => true
    case _ => Covers(r, v, wk.state.cursor)
  }

  predicate Secured(r: Rules, v: View, wk: Worker) {
    v.View? && v.gen.Some? ==> Backed(r, v, wk)
  }

  /** A worker that can only fail: it lost its lease and its next step is a save. */
  predicate Doomed(s: State, wk: Worker) {
    || wk.pc == Failed
    || (!LeaseHeld(s, wk) && (wk.pc in {SaveRestart, SaveCursor, SaveApply} || (wk.pc.Put? && wk.pc.next.Some?)))
  }

  predicate LeaseOk(s: State, wk: Worker) {
    wk.job.Some? ==> wk.job.value in s.jobs && wk.lease <= s.jobs[wk.job.value].lease
  }

  predicate HolderOk(r: Rules, s: State, w: WorkerId, wk: Worker) {
    var v := ViewOf(s, wk.state.gen);
    WorkerOk(r, v, w, wk) && LeaseOk(s, wk) && (Doomed(s, wk) || Secured(r, v, wk))
  }

  predicate SavedOk(r: Rules, s: State, j: JobId)
    requires j in s.jobs
  {
    s.jobs[j].saved.Some? ==>
      var c := s.jobs[j].saved.value;
      CheckpointOk(r, ViewOf(s, c.gen), c) && s.lives[c.gen].bound
  }

  predicate Inv(r: Rules, s: State) {
    && s.gens.Keys <= s.lives.Keys
    && s.rows.Keys <= s.lives.Keys
    && (forall g :: g in s.lives ==> GenOk(r, ViewOf(s, g), Objects(s, s.lives[g].site)))
    && (forall j :: j in s.jobs ==> SavedOk(r, s, j))
    && (forall w :: w in s.workers ==> HolderOk(r, s, w, s.workers[w]))
  }

  // ---- the one step that needs a condition ----

  predicate SavedFor(job: Job, g: GenId) {
    job.saved.Some? && job.saved.value.gen == g && job.saved.value.phase == "list"
  }

  /** Everyone who may still rely on generation `g` is borne out by its rows. */
  predicate Kept(r: Rules, s: State, g: GenId)
    requires g in s.lives
  {
    && (forall w :: w in s.workers && s.workers[w].state.gen == g && !Doomed(s, s.workers[w])
          ==> Backed(r, ViewOf(s, g), s.workers[w]))
    && (forall j :: j in s.jobs && SavedFor(s.jobs[j], g) ==> Covers(r, ViewOf(s, g), s.jobs[j].saved.value.cursor))
  }

  /** Registering a generation that was reused and has vanished since. */
  predicate Revives(s: State, e: Event) {
    && e.BindGen? && At(s, e.w, Bind(true))
    && s.workers[e.w].state.gen !in s.gens && s.workers[e.w].state.gen in s.lives
  }

  /** The decision to resume and the registration are two database calls. A step is
      clean unless it brings back a generation that vanished between them while
      someone relies on rows that are gone. */
  predicate Clean(r: Rules, s: State, e: Event) {
    Revives(s, e) ==> Kept(r, s, s.workers[e.w].state.gen)
  }

  // ---- what a generation may do without anyone who holds it noticing ----

  /** The generation loses tracked keys, gains rows, is completed, or vanishes. */
  predicate Evolves(v: View, v': View) {
    v == v' ||
    (v.View? && v'.View?
     && v'.life == v.life.(through := v'.life.through, ever := v'.life.ever)
     && v'.life.through <= v.life.through && v.life.ever <= v'.life.ever
     && (v'.gen.Some? ==>
           && v.gen.Some? && v.rows <= v'.rows && v'.gen.value.instance == v.gen.value.instance
           && (v.gen.value.complete ==> v'.gen.value.complete)))
  }

  lemma CheckpointStable(r: Rules, v: View, v': View, c: Checkpoint)
    requires Evolves(v, v') && CheckpointOk(r, v, c)
    ensures CheckpointOk(r, v', c)
  {}

  lemma WorkerStable(r: Rules, v: View, v': View, w: WorkerId, wk: Worker)
    requires Evolves(v, v')
    ensures WorkerOk(r, v, w, wk) ==> WorkerOk(r, v', w, wk)
    ensures Secured(r, v, wk) ==> Secured(r, v', wk)
  {}

  /** Jobs stay and leases only grow. */
  predicate JobsGrow(s: State, s': State) {
    forall j :: j in s.jobs ==> j in s'.jobs && s.jobs[j].lease <= s'.jobs[j].lease
  }

  lemma DoomedStable(s: State, s': State, wk: Worker)
    requires JobsGrow(s, s') && LeaseOk(s, wk)
    ensures LeaseOk(s', wk) && (Doomed(s, wk) ==> Doomed(s', wk))
  {}

  lemma HolderStable(r: Rules, s: State, s': State, w: WorkerId, wk: Worker)
    requires HolderOk(r, s, w, wk) && JobsGrow(s, s')
    requires Evolves(ViewOf(s, wk.state.gen), ViewOf(s', wk.state.gen))
    ensures HolderOk(r, s', w, wk)
  {
    WorkerStable(r, ViewOf(s, wk.state.gen), ViewOf(s', wk.state.gen), w, wk);
    DoomedStable(s, s', wk);
  }

  lemma SavedStable(r: Rules, s: State, s': State, j: JobId)
    requires j in s.jobs && SavedOk(r, s, j) && j in s'.jobs && s'.jobs[j].saved == s.jobs[j].saved
    requires s.jobs[j].saved.Some? ==> var g := s.jobs[j].saved.value.gen; Evolves(ViewOf(s, g), ViewOf(s', g))
    ensures SavedOk(r, s', j)
  {
    if s.jobs[j].saved.Some? {
      var c := s.jobs[j].saved.value;
      CheckpointStable(r, ViewOf(s, c.gen), ViewOf(s', c.gen), c);
    }
  }

  /** Every generation is sound, and none changed under its holders. */
  predicate GensEvolve(r: Rules, s: State, s': State) {
    && s'.gens.Keys <= s'.lives.Keys && s'.rows.Keys <= s'.lives.Keys
    && (forall g :: g in s.lives ==> Evolves(ViewOf(s, g), ViewOf(s', g)))
    && (forall g :: g in s'.lives ==> GenOk(r, ViewOf(s', g), Objects(s', s'.lives[g].site)))
  }

  /** Every holder that did not act is still fine. */
  lemma HoldersStable(r: Rules, s: State, s': State)
    requires Inv(r, s) && GensEvolve(r, s, s') && JobsGrow(s, s')
    ensures forall j :: j in s.jobs && j in s'.jobs && s'.jobs[j].saved == s.jobs[j].saved ==> SavedOk(r, s', j)
    ensures forall w :: w in s.workers ==> HolderOk(r, s', w, s.workers[w])
  {
    forall j | j in s.jobs && j in s'.jobs && s'.jobs[j].saved == s.jobs[j].saved
      ensures SavedOk(r, s', j)
    {
      assert SavedOk(r, s, j);
      SavedStable(r, s, s', j);
    }
    forall w | w in s.workers
      ensures HolderOk(r, s', w, s.workers[w])
    {
      HeldStable(r, s, s', w);
    }
  }

  lemma HeldStable(r: Rules, s: State, s': State, w: WorkerId)
    requires Inv(r, s) && GensEvolve(r, s, s') && JobsGrow(s, s') && w in s.workers
    ensures HolderOk(r, s', w, s.workers[w])
  {
    var wk := s.workers[w];
    assert HolderOk(r, s, w, wk);
    if wk.pc == Failed {
      DoomedStable(s, s', wk);
    } else {
      HolderStable(r, s, s', w, wk);
    }
  }

  /** No worker and no saved checkpoint changed. */
  lemma NobodyActed(r: Rules, s: State, s': State)
    requires Inv(r, s) && GensEvolve(r, s, s') && s'.workers == s.workers && JobsGrow(s, s')
    requires forall j :: j in s'.jobs ==> s'.jobs[j].saved == if j in s.jobs then s.jobs[j].saved else None
    ensures Inv(r, s')
  {
    HoldersStable(r, s, s');
  }

  /** Only `w` changed, and it is in order afterwards. */
  lemma WorkerActed(r: Rules, s: State, s': State, w: WorkerId, wk: Worker)
    requires Inv(r, s) && GensEvolve(r, s, s') && s'.jobs == s.jobs && s'.workers == s.workers[w := wk]
    requires HolderOk(r, s', w, wk)
    ensures Inv(r, s')
  {
    HoldersStable(r, s, s');
  }

  /** Only generation `d` changed, within what its holders can bear. */
  lemma GenActed(r: Rules, s: State, s': State, d: GenId)
    requires Inv(r, s) && s'.objects == s.objects && s'.lives == s.lives && d in s.lives
    requires forall g :: g != d ==> (g in s.gens <==> g in s'.gens) && (g in s.rows <==> g in s'.rows)
    requires forall g :: g != d && g in s.gens ==> s'.gens[g] == s.gens[g]
    requires forall g :: g != d && g in s.rows ==> s'.rows[g] == s.rows[g]
    requires Evolves(ViewOf(s, d), ViewOf(s', d)) && GenOk(r, ViewOf(s', d), Objects(s, s.lives[d].site))
    ensures GensEvolve(r, s, s')
  {
    forall g | g in s.lives && g != d
      ensures ViewOf(s', g) == ViewOf(s, g) && GenOk(r, ViewOf(s', g), Objects(s', s'.lives[g].site))
    {
      assert GenOk(r, ViewOf(s, g), Objects(s, s.lives[g].site));
    }
  }

  lemma WorkerHolds(r: Rules, s: State, w: WorkerId)
    requires Inv(r, s) && w in s.workers
    ensures HolderOk(r, s, w, s.workers[w])
    ensures s.workers[w].pc != Failed ==>
              var v := ViewOf(s, s.workers[w].state.gen);
              v.View? && GenOk(r, v, Objects(s, v.life.site))
  {}

  // ---- every event keeps the invariant ----

  lemma AddedGen(r: Rules, v: View, objects: set<Key>, key: Key)
    requires v.View? && GenOk(r, v, objects)
    ensures var v' := v.(life := v.life.(ever := v.life.ever + {key}));
            Evolves(v, v') && GenOk(r, v', objects + {key})
  {}

  lemma AddedView(r: Rules, s: State, site: Site, key: Key, g: GenId)
    requires Inv(r, s) && g in s.lives
    ensures var s' := AddedKey(s, site, key);
            Evolves(ViewOf(s, g), ViewOf(s', g)) && GenOk(r, ViewOf(s', g), Objects(s', s'.lives[g].site))
  {
    var s' := AddedKey(s, site, key);
    var v := ViewOf(s, g);
    assert GenOk(r, v, Objects(s, v.life.site));
    if v.life.site == site {
      AddedGen(r, v, Objects(s, site), key);
      assert ViewOf(s', g) == v.(life := v.life.(ever := v.life.ever + {key}));
    } else {
      assert ViewOf(s', g) == v;
    }
  }

  lemma AddKeyKeepsInv(r: Rules, s: State, site: Site, key: Key)
    requires Inv(r, s)
    ensures Inv(r, AddedKey(s, site, key))
  {
    forall g | g in s.lives { AddedView(r, s, site, key, g); }
    NobodyActed(r, s, AddedKey(s, site, key));
  }

  lemma RemovedGen(r: Rules, v: View, objects: set<Key>, key: Key)
    requires v.View? && GenOk(r, v, objects)
    ensures var v' := v.(life := v.life.(through := v.life.through - {key}));
            Evolves(v, v') && GenOk(r, v', objects - {key})
    ensures Finishes(v) ==> GenOk(r, v, objects - {key})
  {}

  lemma RemovedView(r: Rules, s: State, site: Site, key: Key, g: GenId)
    requires Inv(r, s) && g in s.lives
    ensures var s' := RemovedKey(s, site, key);
            Evolves(ViewOf(s, g), ViewOf(s', g)) && GenOk(r, ViewOf(s', g), Objects(s', s'.lives[g].site))
  {
    var s' := RemovedKey(s, site, key);
    var v := ViewOf(s, g);
    assert GenOk(r, v, Objects(s, v.life.site));
    if v.life.site == site {
      RemovedGen(r, v, Objects(s, site), key);
      assert ViewOf(s', g) == if Open(s, g) then v.(life := v.life.(through := v.life.through - {key})) else v;
    } else {
      assert ViewOf(s', g) == v;
    }
  }

  lemma RemoveKeyKeepsInv(r: Rules, s: State, site: Site, key: Key)
    requires Inv(r, s)
    ensures Inv(r, RemovedKey(s, site, key))
  {
    forall g | g in s.lives { RemovedView(r, s, site, key, g); }
    NobodyActed(r, s, RemovedKey(s, site, key));
  }

  /** Nothing but a worker or a job changed. */
  lemma SameGens(r: Rules, s: State, s': State)
    requires Inv(r, s)
    requires s'.gens == s.gens && s'.rows == s.rows && s'.lives == s.lives && s'.objects == s.objects
    ensures forall g :: ViewOf(s', g) == ViewOf(s, g)
    ensures GensEvolve(r, s, s')
  {
    forall g | g in s.lives
      ensures ViewOf(s', g) == ViewOf(s, g) && GenOk(r, ViewOf(s', g), Objects(s', s'.lives[g].site))
    {
      assert GenOk(r, ViewOf(s, g), Objects(s, s.lives[g].site));
    }
  }

  lemma JobKeepsInv(r: Rules, s: State, j: JobId, job: Job)
    requires Inv(r, s) && job.saved == if j in s.jobs then s.jobs[j].saved else None
    requires j in s.jobs ==> s.jobs[j].lease <= job.lease
    ensures Inv(r, WithJob(s, j, job))
  {
    var s' := WithJob(s, j, job);
    SameGens(r, s, s');
    NobodyActed(r, s, s');
  }

  lemma LeaseKeepsInv(r: Rules, s: State, j: JobId)
    requires Inv(r, s) && j in s.jobs
    ensures Inv(r, Leased(s, j))
  {
    var job := Job(s.jobs[j].lease + 1, s.jobs[j].saved);
    JobKeepsInv(r, s, j, job);
    assert Leased(s, j) == WithJob(s, j, job);
  }

  /** Only worker `w` changed, and it is in order afterwards. */
  lemma WorkerMoved(r: Rules, s: State, w: WorkerId, wk: Worker)
    requires Inv(r, s) && HolderOk(r, s, w, wk)
    ensures Inv(r, s.(workers := s.workers[w := wk]))
  {
    var s' := s.(workers := s.workers[w := wk]);
    SameGens(r, s, s');
    WorkerActed(r, s, s', w, wk);
  }

  lemma PcKeepsInv(r: Rules, s: State, w: WorkerId, pc: Pc)
    requires Inv(r, s) && w in s.workers && HolderOk(r, s, w, s.workers[w].(pc := pc))
    ensures Inv(r, SetPc(s, w, pc))
  {
    WorkerMoved(r, s, w, s.workers[w].(pc := pc));
  }

  lemma FailKeepsInv(r: Rules, s: State, w: WorkerId)
    requires Inv(r, s) && w in s.workers
    ensures Inv(r, SetPc(s, w, Failed))
  {
    WorkerHolds(r, s, w);
    PcKeepsInv(r, s, w, Failed);
  }

  lemma DeleteKeepsInv(r: Rules, s: State, d: GenId)
    requires Inv(r, s)
    ensures Inv(r, Deleted(s, d))
  {
    forall g | g in s.lives { DeletedView(r, s, d, g); }
    NobodyActed(r, s, Deleted(s, d));
  }

  lemma DeletedGen(r: Rules, v: View, objects: set<Key>)
    requires v.View? && GenOk(r, v, objects)
    ensures var v' := View(v.life.(through := v.life.through * objects), None, {});
            Evolves(v, v') && GenOk(r, v', objects)
  {}

  lemma DeletedShape(s: State, d: GenId, g: GenId)
    requires g in s.lives
    ensures var s' := Deleted(s, d);
            var life := s.lives[g];
            && s'.lives.Keys == s.lives.Keys && s'.lives[g].site == life.site
            && ViewOf(s', g) == if g == d then View(life.(through := life.through * Objects(s, life.site)), None, {})
                                else ViewOf(s, g)
  {}

  lemma DeletedView(r: Rules, s: State, d: GenId, g: GenId)
    requires Inv(r, s) && g in s.lives
    ensures var s' := Deleted(s, d);
            g in s'.lives && s'.lives[g].site == s.lives[g].site
            && Evolves(ViewOf(s, g), ViewOf(s', g)) && GenOk(r, ViewOf(s', g), Objects(s, s.lives[g].site))
  {
    var objects := Objects(s, s.lives[g].site);
    assert GenOk(r, ViewOf(s, g), objects);
    DeletedShape(s, d, g);
    DeletedGen(r, ViewOf(s, g), objects);
  }

  /** An accepted checkpoint is the job's own, was taken at this very site, and
      its generation is still registered. */
  lemma DecideSound(r: Rules, s: State, owner: Option<JobId>, site: Site, minted: GenId)
    requires Inv(r, s) && minted !in s.lives
    ensures var d := Decide(Saved(s, owner), site, s.gens, minted);
            && (d.Rescan? ==> d.state == FreshCheckpoint(site, minted))
            && (d.Resume? ==> CheckpointOk(r, ViewOf(s, d.state.gen), d.state) && d.state.gen in s.gens
                              && d.state.site == site && d.state.phase == "list")
            && (d.Adopt? ==> d.gen in s.gens && s.gens[d.gen].complete && s.lives[d.gen].site == site)
  {
    if Saved(s, owner).Some? {
      assert SavedOk(r, s, owner.value);
    }
  }

  lemma HeldStartKeepsInv(r: Rules, s: State, e: Event)
    requires Inv(r, s) && Enabled(r, s, e) && e.Start?
    requires Decide(Saved(s, e.owner), e.site, s.gens, e.minted).Adopt?
             || Decide(Saved(s, e.owner), e.site, s.gens, e.minted).Resume?
    ensures Inv(r, Started(s, e.w, e.site, e.owner, e.minted))
  {
    HeldStartHolder(r, s, e);
    HeldStartShape(s, e);
    WorkerMoved(r, s, e.w, Started(s, e.w, e.site, e.owner, e.minted).workers[e.w]);
  }

  lemma HeldStartHolder(r: Rules, s: State, e: Event)
    requires Inv(r, s) && Enabled(r, s, e) && e.Start?
    requires var d := Decide(Saved(s, e.owner), e.site, s.gens, e.minted); d.Adopt? || d.Resume?
    ensures var s' := Started(s, e.w, e.site, e.owner, e.minted);
            e.w in s'.workers && HolderOk(r, s, e.w, s'.workers[e.w])
  {
    DecideSound(r, s, e.owner, e.site, e.minted);
    HeldStartShape(s, e);
    var g := Started(s, e.w, e.site, e.owner, e.minted).workers[e.w].state.gen;
    assert GenOk(r, ViewOf(s, g), Objects(s, s.lives[g].site));
  }

  lemma HeldStartShape(s: State, e: Event)
    requires e.Start? && e.minted !in s.lives && (e.owner.Some? ==> e.owner.value in s.jobs)
    requires var d := Decide(Saved(s, e.owner), e.site, s.gens, e.minted); d.Adopt? || d.Resume?
    ensures var s' := Started(s, e.w, e.site, e.owner, e.minted);
            var d := Decide(Saved(s, e.owner), e.site, s.gens, e.minted);
            && e.w in s'.workers && s' == s.(workers := s.workers[e.w := s'.workers[e.w]])
            && var wk := s'.workers[e.w];
               && wk.site == e.site && !wk.restarted && LeaseOk(s, wk) && LeaseHeld(s, wk)
               && (d.Adopt? ==> wk.state == Checkpoint(e.site, d.gen, "apply", None) && wk.pc == Finished)
               && (d.Resume? ==> wk.state == d.state && wk.pc == Bind(true))
  {}

  lemma FreshStartKeepsInv(r: Rules, s: State, e: Event)
    requires Inv(r, s) && Enabled(r, s, e) && e.Start?
    requires var d := Decide(Saved(s, e.owner), e.site, s.gens, e.minted); d.Refuse? || d.Rescan?
    ensures Inv(r, Started(s, e.w, e.site, e.owner, e.minted))
  {
    MintedStartShape(s, e);
    var s' := Started(s, e.w, e.site, e.owner, e.minted);
    MintedKeepsInv(r, s, s', e.w, s'.workers[e.w], e.minted);
  }

  lemma StartKeepsInv(r: Rules, s: State, e: Event)
    requires Inv(r, s) && Enabled(r, s, e) && e.Start?
    ensures Inv(r, Step(r, s, e))
  {
    var d := Decide(Saved(s, e.owner), e.site, s.gens, e.minted);
    DecideSound(r, s, e.owner, e.site, e.minted);
    if d.Adopt? || d.Resume? {
      HeldStartKeepsInv(r, s, e);
    } else {
      FreshStartKeepsInv(r, s, e);
    }
  }

  lemma MintedStartShape(s: State, e: Event)
    requires e.Start? && e.minted !in s.lives && (e.owner.Some? ==> e.owner.value in s.jobs)
    requires var d := Decide(Saved(s, e.owner), e.site, s.gens, e.minted); d.Refuse? || d.Rescan?
    ensures var s' := Started(s, e.w, e.site, e.owner, e.minted);
            && e.w in s'.workers && var wk := s'.workers[e.w];
               && s' == Born(s.(workers := s.workers[e.w := wk]), e.minted, e.site, e.w)
               && wk.site == e.site && wk.state == FreshCheckpoint(e.site, e.minted) && !wk.restarted
               && wk.pc in {Bind(false), Failed} && LeaseOk(s, wk)
  {}

  lemma MintedView(r: Rules, s: State, s': State, w: WorkerId, wk: Worker, minted: GenId, g: GenId)
    requires Inv(r, s) && minted !in s.lives && s' == Born(s.(workers := s.workers[w := wk]), minted, wk.site, w)
    requires g in s'.lives
    ensures g in s.lives ==> ViewOf(s', g) == ViewOf(s, g)
    ensures g !in s.lives ==>
              g == minted && ViewOf(s', g) == View(Life(wk.site, Objects(s, wk.site), Objects(s, wk.site), w, false), None, {})
    ensures GenOk(r, ViewOf(s', g), Objects(s', s'.lives[g].site))
  {
    if g in s.lives {
      assert GenOk(r, ViewOf(s, g), Objects(s, s.lives[g].site));
    }
  }

  lemma MintedEvolve(r: Rules, s: State, s': State, w: WorkerId, wk: Worker, minted: GenId)
    requires Inv(r, s) && minted !in s.lives && s' == Born(s.(workers := s.workers[w := wk]), minted, wk.site, w)
    ensures GensEvolve(r, s, s')
  {
    forall g | g in s'.lives { MintedView(r, s, s', w, wk, minted, g); }
  }

  /** A worker that starts on a freshly minted generation. */
  lemma MintedKeepsInv(r: Rules, s: State, s': State, w: WorkerId, wk: Worker, minted: GenId)
    requires Inv(r, s) && minted !in s.lives && s' == Born(s.(workers := s.workers[w := wk]), minted, wk.site, w)
    requires wk.state == FreshCheckpoint(wk.site, minted) && wk.pc in {Bind(false), Failed} && LeaseOk(s, wk)
    ensures Inv(r, s')
  {
    MintedEvolve(r, s, s', w, wk, minted);
    MintedView(r, s, s', w, wk, minted, minted);
    MintedHolder(r, s', w, wk);
    WorkerActed(r, s, s', w, wk);
  }

  lemma MintedHolder(r: Rules, s: State, w: WorkerId, wk: Worker)
    requires var v := ViewOf(s, wk.state.gen);
             v.View? && v.gen.None? && v.life.site == wk.site && v.life.minter == w && !v.life.bound
    requires wk.state == FreshCheckpoint(wk.site, wk.state.gen) && wk.pc in {Bind(false), Failed} && LeaseOk(s, wk)
    ensures HolderOk(r, s, w, wk)
  {}

  lemma BindKeepsInv(r: Rules, s: State, w: WorkerId)
    requires Inv(r, s) && w in s.workers && s.workers[w].pc.Bind? && Clean(r, s, BindGen(w))
    ensures Inv(r, Bound(s, w))
  {
    var wk := s.workers[w];
    WorkerHolds(r, s, w);
    if wk.state.gen in s.gens {
      KnownBindKeepsInv(r, s, w);
    } else if wk.pc == Bind(true) {
      ReviveExactlyWhen(r, s, w);
    } else {
      FirstBindKeepsInv(r, s, w);
    }
  }

  lemma KnownBindKeepsInv(r: Rules, s: State, w: WorkerId)
    requires Inv(r, s) && At(s, w, Bind(true)) && s.workers[w].state.gen in s.gens
    ensures Inv(r, Bound(s, w)) && Bound(s, w) == SetPc(s, w, List)
  {
    WorkerHolds(r, s, w);
    PcKeepsInv(r, s, w, List);
  }

  /** The generation comes back under its old id, not complete, with the rows it has. */
  lemma RevivedView(r: Rules, s: State, w: WorkerId, h: GenId)
    requires Inv(r, s) && Revives(s, BindGen(w)) && h in s.lives
    ensures var s' := Bound(s, w);
            var g := s.workers[w].state.gen;
            && s'.lives == s.lives && s'.objects == s.objects && s'.jobs == s.jobs && s'.rows == s.rows
            && s'.workers == s.workers[w := s.workers[w].(pc := List)]
            && s'.gens == s.gens[g := Gen(s.lives[g].site.instance, false)]
            && ViewOf(s', h) == if h == g then ViewOf(s, g).(gen := Some(Gen(s.lives[g].site.instance, false))) else ViewOf(s, h)
  {
    WorkerHolds(r, s, w);
  }

  /** Bringing a vanished generation back keeps the invariant exactly when
      everyone who may still rely on it is borne out by its rows. */
  lemma ReviveExactlyWhen(r: Rules, s: State, w: WorkerId)
    requires Inv(r, s) && Revives(s, BindGen(w))
    ensures Inv(r, Bound(s, w)) <==> Kept(r, s, s.workers[w].state.gen)
  {
    if Kept(r, s, s.workers[w].state.gen) {
      KeptReviveKeepsInv(r, s, w);
    }
    if Inv(r, Bound(s, w)) {
      RevivedIsKept(r, s, w);
    }
  }

  lemma KeptReviveKeepsInv(r: Rules, s: State, w: WorkerId)
    requires Inv(r, s) && Revives(s, BindGen(w)) && Kept(r, s, s.workers[w].state.gen)
    ensures Inv(r, Bound(s, w))
  {
    RevivedView(r, s, w, s.workers[w].state.gen);
    RevivedGens(r, s, w);
    forall j | j in s.jobs { RevivedSaved(r, s, w, j); }
    forall u | u in s.workers { RevivedHolder(r, s, w, u); }
  }

  lemma RevivedGens(r: Rules, s: State, w: WorkerId)
    requires Inv(r, s) && Revives(s, BindGen(w))
    ensures forall h :: h in s.lives ==> GenOk(r, ViewOf(Bound(s, w), h), Objects(s, s.lives[h].site))
  {
    forall h | h in s.lives { RevivedGen(r, s, w, h); }
  }

  lemma RevivedIsKept(r: Rules, s: State, w: WorkerId)
    requires Inv(r, s) && Revives(s, BindGen(w)) && Inv(r, Bound(s, w))
    ensures Kept(r, s, s.workers[w].state.gen)
  {
    var g := s.workers[w].state.gen;
    RevivedView(r, s, w, g);
    forall j | j in s.jobs && SavedFor(s.jobs[j], g)
      ensures Covers(r, ViewOf(s, g), s.jobs[j].saved.value.cursor)
    {
      assert SavedOk(r, Bound(s, w), j);
    }
    forall u | u in s.workers && s.workers[u].state.gen == g && !Doomed(s, s.workers[u])
      ensures Backed(r, ViewOf(s, g), s.workers[u])
    {
      RevivedHolderBacked(r, s, w, u);
    }
  }

  lemma RevivedGen(r: Rules, s: State, w: WorkerId, h: GenId)
    requires Inv(r, s) && Revives(s, BindGen(w)) && h in s.lives
    ensures GenOk(r, ViewOf(Bound(s, w), h), Objects(s, s.lives[h].site))
  {
    WorkerHolds(r, s, w);
    RevivedView(r, s, w, h);
    assert GenOk(r, ViewOf(s, h), Objects(s, s.lives[h].site));
  }

  lemma RevivedSaved(r: Rules, s: State, w: WorkerId, j: JobId)
    requires Inv(r, s) && Revives(s, BindGen(w)) && Kept(r, s, s.workers[w].state.gen) && j in s.jobs
    ensures Bound(s, w).jobs == s.jobs && SavedOk(r, Bound(s, w), j)
  {
    RevivedView(r, s, w, s.workers[w].state.gen);
    assert SavedOk(r, s, j);
    if s.jobs[j].saved.Some? {
      RevivedView(r, s, w, s.jobs[j].saved.value.gen);
    }
  }

  lemma RevivedHolder(r: Rules, s: State, w: WorkerId, u: WorkerId)
    requires Inv(r, s) && Revives(s, BindGen(w)) && Kept(r, s, s.workers[w].state.gen) && u in s.workers
    ensures u in Bound(s, w).workers && HolderOk(r, Bound(s, w), u, Bound(s, w).workers[u])
  {
    var g := s.workers[w].state.gen;
    RevivedView(r, s, w, g);
    WorkerHolds(r, s, u);
    if s.workers[u].pc != Failed && s.workers[u].state.gen != g {
      RevivedView(r, s, w, s.workers[u].state.gen);
      HolderStable(r, s, Bound(s, w), u, s.workers[u]);
    } else if s.workers[u].pc != Failed {
      assert Doomed(s, s.workers[u]) || Backed(r, ViewOf(s, g), s.workers[u]);
      RevivedBacked(r, ViewOf(s, g), Some(Gen(s.lives[g].site.instance, false)), u, s.workers[u]);
    }
  }

  lemma RevivedBacked(r: Rules, v: View, gen: Option<Gen>, u: WorkerId, wk: Worker)
    requires v.View? && v.gen.None? && v.life.bound && WorkerOk(r, v, u, wk) && gen.Some? && !gen.value.complete
    ensures var v' := v.(gen := gen);
            && WorkerOk(r, v', u, wk) && (Secured(r, v', wk) <==> Backed(r, v, wk))
            && (wk.pc == Bind(true) ==>
                  WorkerOk(r, v', u, wk.(pc := List)) && (Secured(r, v', wk.(pc := List)) <==> Backed(r, v, wk)))
  {}

  lemma RevivedHolderBacked(r: Rules, s: State, w: WorkerId, u: WorkerId)
    requires Inv(r, s) && Revives(s, BindGen(w)) && Inv(r, Bound(s, w))
    requires u in s.workers && s.workers[u].state.gen == s.workers[w].state.gen && !Doomed(s, s.workers[u])
    ensures Backed(r, ViewOf(s, s.workers[w].state.gen), s.workers[u])
  {
    var g := s.workers[w].state.gen;
    RevivedView(r, s, w, g);
    WorkerHolds(r, s, w);
    WorkerHolds(r, s, u);
    WorkerHolds(r, Bound(s, w), u);
    RevivedBacked(r, ViewOf(s, g), Some(Gen(s.lives[g].site.instance, false)), u, s.workers[u]);
  }

  /** Nobody else holds an id that its minter has not registered yet. */
  lemma FirstBindKeepsInv(r: Rules, s: State, w: WorkerId)
    requires Inv(r, s) && w in s.workers && s.workers[w].pc == Bind(false)
    requires s.workers[w].state.gen !in s.gens
    ensures Inv(r, Bound(s, w))
  {
    var s' := Bound(s, w);
    WorkerHolds(r, s, w);
    forall h | h in s.lives
      ensures GenOk(r, ViewOf(s', h), Objects(s', s'.lives[h].site))
    {
      assert GenOk(r, ViewOf(s, h), Objects(s, s.lives[h].site));
      FirstBindView(s, w, h);
    }
    forall j | j in s'.jobs
      ensures SavedOk(r, s', j)
    {
      assert SavedOk(r, s, j);
      if s.jobs[j].saved.Some? {
        FirstBindView(s, w, s.jobs[j].saved.value.gen);
      }
    }
    forall v | v in s'.workers ensures HolderOk(r, s', v, s'.workers[v]) {
      FirstBindWorker(r, s, w, v);
    }
  }

  lemma FirstBindView(s: State, w: WorkerId, h: GenId)
    requires w in s.workers && s.workers[w].pc == Bind(false) && s.workers[w].state.gen !in s.gens
    requires h in s.lives && s.workers[w].state.gen in s.lives
    ensures var s' := Bound(s, w);
            var g := s.workers[w].state.gen;
            ViewOf(s', h) == if h == g then View(s.lives[g].(bound := true), Some(Gen(s.workers[w].site.instance, false)), Rows(s, g))
                             else ViewOf(s, h)
  {}

  lemma FirstBindShape(s: State, w: WorkerId)
    requires w in s.workers && s.workers[w].pc == Bind(false) && s.workers[w].state.gen !in s.gens
    ensures var s' := Bound(s, w);
            && s'.jobs == s.jobs
            && s'.workers == s.workers[w := s.workers[w].(pc := if s.workers[w].restarted then SaveRestart else List)]
  {}

  lemma FirstBindWorker(r: Rules, s: State, w: WorkerId, v: WorkerId)
    requires Inv(r, s) && w in s.workers && s.workers[w].pc == Bind(false)
    requires s.workers[w].state.gen !in s.gens && v in s.workers
    ensures var s' := Bound(s, w);
            v in s'.workers && HolderOk(r, s', v, s'.workers[v])
  {
    var g := s.workers[w].state.gen;
    WorkerHolds(r, s, w);
    WorkerHolds(r, s, v);
    FirstBindShape(s, w);
    if s.workers[v].pc != Failed && s.workers[v].state.gen == g {
      SoleHolder(r, ViewOf(s, g), w, s.workers[w], v, s.workers[v]);
    }
    if v == w {
      FirstBindView(s, w, g);
      FirstBoundOk(r, ViewOf(s, g), w, s.workers[w]);
    } else if s.workers[v].pc != Failed {
      FirstBindView(s, w, s.workers[v].state.gen);
      HolderStable(r, s, Bound(s, w), v, s.workers[v]);
    }
  }

  /** An unregistered id is held by its minter alone. */
  lemma SoleHolder(r: Rules, view: View, w: WorkerId, wk: Worker, v: WorkerId, vk: Worker)
    requires WorkerOk(r, view, w, wk) && wk.pc == Bind(false) && WorkerOk(r, view, v, vk) && vk.pc != Failed
    ensures v == w
  {}

  lemma FirstBoundOk(r: Rules, view: View, w: WorkerId, wk: Worker)
    requires WorkerOk(r, view, w, wk) && wk.pc == Bind(false)
    ensures view.View?
    ensures var bound := View(view.life.(bound := true), Some(Gen(wk.site.instance, false)), view.rows);
            && WorkerOk(r, bound, w, wk.(pc := List)) && WorkerOk(r, bound, w, wk.(pc := SaveRestart))
            && Secured(r, bound, wk.(pc := List)) && Secured(r, bound, wk.(pc := SaveRestart))
  {}

  lemma ListKeepsInv(r: Rules, s: State, e: Event)
    requires Inv(r, s) && Enabled(r, s, e) && e.ListPage?
    ensures Inv(r, SetPc(s, e.w, Put(e.pending, e.next)))
  {
    WorkerHolds(r, s, e.w);
    ListedPage(r, s, e);
    PcKeepsInv(r, s, e.w, Put(e.pending, e.next));
  }

  /** The page brings every tracked key between the two cursors. */
  lemma ListedPage(r: Rules, s: State, e: Event)
    requires Inv(r, s) && Enabled(r, s, e) && e.ListPage?
    ensures var v := ViewOf(s, s.workers[e.w].state.gen);
            v.View? && Genuine(r, v.life, e.pending) && (v.gen.Some? ==> CoversWith(r, v, e.pending, e.next))
  {
    WorkerHolds(r, s, e.w);
  }

  lemma BadCursorKeepsInv(r: Rules, s: State, w: WorkerId, minted: GenId)
    requires Inv(r, s) && At(s, w, List) && minted !in s.lives
    ensures Inv(r, Restarted(s, w, minted))
  {
    var wk := s.workers[w];
    if wk.restarted {
      FailKeepsInv(r, s, w);
    } else {
      WorkerHolds(r, s, w);
      DeleteKeepsInv(r, s, wk.state.gen);
      var s1 := Deleted(s, wk.state.gen);
      MintedKeepsInv(r, s1, Restarted(s, w, minted), w,
                     wk.(state := FreshCheckpoint(wk.site, minted), pc := Bind(false), restarted := true), minted);
    }
  }

  /** Storing one pending row, seen by the generation and by the worker. */
  lemma StoredGen(r: Rules, v: View, objects: set<Key>, w: WorkerId, wk: Worker, row: Row)
    requires v.View? && GenOk(r, v, objects) && WorkerOk(r, v, w, wk) && wk.pc.Put? && row in wk.pc.pending
    ensures var v' := v.(rows := v.rows + {row});
            var wk' := wk.(pc := Put(wk.pc.pending - {row}, wk.pc.next));
            && Evolves(v, v') && GenOk(r, v', objects)
            && WorkerOk(r, v', w, wk') && (Secured(r, v, wk) ==> Secured(r, v', wk'))
  {
    assert v.rows + wk.pc.pending == v.rows + {row} + (wk.pc.pending - {row});
  }

  lemma StoredShape(s: State, w: WorkerId, row: Row)
    requires w in s.workers && s.workers[w].pc.Put? && s.workers[w].state.gen in s.lives
    ensures var s' := Stored(s, w, row);
            var wk := s.workers[w];
            var g := wk.state.gen;
            && s'.objects == s.objects && s'.lives == s.lives && s'.gens == s.gens && s'.jobs == s.jobs
            && s'.rows == s.rows[g := Rows(s, g) + {row}]
            && s'.workers == s.workers[w := wk.(pc := Put(wk.pc.pending - {row}, wk.pc.next))]
            && ViewOf(s', g) == ViewOf(s, g).(rows := Rows(s, g) + {row})
  {}

  lemma PutKeepsInv(r: Rules, s: State, w: WorkerId, row: Row)
    requires Inv(r, s) && w in s.workers && s.workers[w].pc.Put? && row in s.workers[w].pc.pending
    ensures Inv(r, Stored(s, w, row))
  {
    var wk := s.workers[w];
    WorkerHolds(r, s, w);
    StoredShape(s, w, row);
    StoredGen(r, ViewOf(s, wk.state.gen), Objects(s, wk.site), w, wk, row);
    ActedOn(r, s, Stored(s, w, row), w, wk.(pc := Put(wk.pc.pending - {row}, wk.pc.next)));
  }

  /** Only `w` and the generation it works on changed. */
  lemma ActedOn(r: Rules, s: State, s': State, w: WorkerId, wk: Worker)
    requires Inv(r, s) && s'.objects == s.objects && s'.lives == s.lives && wk.state.gen in s.lives && s'.jobs == s.jobs
    requires forall g :: g != wk.state.gen ==> (g in s.gens <==> g in s'.gens) && (g in s.rows <==> g in s'.rows)
    requires forall g :: g != wk.state.gen && g in s.gens ==> s'.gens[g] == s.gens[g]
    requires forall g :: g != wk.state.gen && g in s.rows ==> s'.rows[g] == s.rows[g]
    requires var d := wk.state.gen;
             Evolves(ViewOf(s, d), ViewOf(s', d)) && GenOk(r, ViewOf(s', d), Objects(s, s.lives[d].site))
    requires s'.workers == s.workers[w := wk] && HolderOk(r, s', w, wk)
    ensures Inv(r, s')
  {
    GenActed(r, s, s', wk.state.gen);
    WorkerActed(r, s, s', w, wk);
  }

  function EndedWorker(wk: Worker): Worker
    requires wk.pc.Put?
  {
    if wk.pc.next.Some? then wk.(state := wk.state.(cursor := wk.pc.next), pc := SaveCursor) else wk.(pc := Mark)
  }

  lemma EndKeepsInv(r: Rules, s: State, w: WorkerId)
    requires Inv(r, s) && w in s.workers && s.workers[w].pc.Put? && s.workers[w].pc.pending == {}
    ensures Inv(r, Ended(s, w))
  {
    var wk := s.workers[w];
    WorkerHolds(r, s, w);
    EndWorkerOk(r, ViewOf(s, wk.state.gen), w, wk);
    WorkerMoved(r, s, w, EndedWorker(wk));
    assert Ended(s, w) == s.(workers := s.workers[w := EndedWorker(wk)]);
  }

  /** A page whose rows are all stored may be left behind. */
  lemma EndWorkerOk(r: Rules, v: View, w: WorkerId, wk: Worker)
    requires WorkerOk(r, v, w, wk) && wk.pc.Put? && wk.pc.pending == {}
    ensures WorkerOk(r, v, w, EndedWorker(wk)) && (Secured(r, v, wk) ==> Secured(r, v, EndedWorker(wk)))
    ensures forall s :: Doomed(s, wk) ==> Doomed(s, EndedWorker(wk))
  {
    assert v.rows + wk.pc.pending == v.rows;
  }

  /** Marking the generation complete, seen by the generation and by the worker. */
  lemma MarkedGen(r: Rules, v: View, objects: set<Key>, w: WorkerId, wk: Worker)
    requires v.View? && GenOk(r, v, objects) && WorkerOk(r, v, w, wk) && Secured(r, v, wk) && wk.pc == Mark
    ensures var v' := if v.gen.Some? then v.(gen := Some(v.gen.value.(complete := true))) else v;
            var wk' := MarkedWorker(wk);
            && Evolves(v, v') && GenOk(r, v', objects) && WorkerOk(r, v', w, wk') && Secured(r, v', wk')
  {}

  function MarkedWorker(wk: Worker): Worker {
    wk.(state := wk.state.(phase := "apply", cursor := None), pc := SaveApply)
  }

  lemma MarkedShape(s: State, w: WorkerId)
    requires At(s, w, Mark) && s.workers[w].state.gen in s.lives
    ensures var s' := Marked(s, w);
            var g := s.workers[w].state.gen;
            var v := ViewOf(s, g);
            && s'.objects == s.objects && s'.lives == s.lives && s'.rows == s.rows && s'.jobs == s.jobs
            && s'.gens == (if g in s.gens then s.gens[g := s.gens[g].(complete := true)] else s.gens)
            && s'.workers == s.workers[w := MarkedWorker(s.workers[w])]
            && ViewOf(s', g) == if v.gen.Some? then v.(gen := Some(v.gen.value.(complete := true))) else v
  {}

  lemma MarkKeepsInv(r: Rules, s: State, w: WorkerId)
    requires Inv(r, s) && At(s, w, Mark)
    ensures Inv(r, Marked(s, w))
  {
    var wk := s.workers[w];
    WorkerHolds(r, s, w);
    MarkedShape(s, w);
    MarkedGen(r, ViewOf(s, wk.state.gen), Objects(s, wk.site), w, wk);
    ActedOn(r, s, Marked(s, w), w, MarkedWorker(wk));
  }

  lemma PersistedKeepsInv(r: Rules, s: State, w: WorkerId)
    requires Inv(r, s) && w in s.workers && s.workers[w].pc in {SaveRestart, SaveCursor, SaveApply}
    ensures Inv(r, Persisted(s, w))
  {
    var wk := s.workers[w];
    if LeaseHeld(s, wk) {
      var next := if wk.pc == SaveApply then Finished else List;
      SavedPcKeepsInv(r, s, w, next);
      if wk.job.Some? {
        JobSavedKeepsInv(r, SetPc(s, w, next), wk.job.value, wk.state);
      }
    } else {
      FailKeepsInv(r, s, w);
    }
  }

  lemma SavedPcKeepsInv(r: Rules, s: State, w: WorkerId, next: Pc)
    requires Inv(r, s) && w in s.workers && s.workers[w].pc in {SaveRestart, SaveCursor, SaveApply}
    requires LeaseHeld(s, s.workers[w]) && next == if s.workers[w].pc == SaveApply then Finished else List
    ensures var done := SetPc(s, w, next);
            var c := s.workers[w].state;
            Inv(r, done) && CheckpointOk(r, ViewOf(done, c.gen), c) && done.lives[c.gen].bound
  {
    WorkerHolds(r, s, w);
    SavedWorkerOk(r, ViewOf(s, s.workers[w].state.gen), w, s.workers[w]);
    PcKeepsInv(r, s, w, next);
    assert ViewOf(SetPc(s, w, next), s.workers[w].state.gen) == ViewOf(s, s.workers[w].state.gen);
  }

  lemma JobSavedKeepsInv(r: Rules, s: State, j: JobId, c: Checkpoint)
    requires Inv(r, s) && j in s.jobs && CheckpointOk(r, ViewOf(s, c.gen), c) && s.lives[c.gen].bound
    ensures Inv(r, s.(jobs := s.jobs[j := s.jobs[j].(saved := Some(c))]))
  {
    var s' := s.(jobs := s.jobs[j := s.jobs[j].(saved := Some(c))]);
    SameGens(r, s, s');
    HoldersStable(r, s, s');
  }

  lemma SavedWorkerOk(r: Rules, v: View, w: WorkerId, wk: Worker)
    requires WorkerOk(r, v, w, wk) && Secured(r, v, wk) && wk.pc in {SaveRestart, SaveCursor, SaveApply}
    ensures var wk' := wk.(pc := if wk.pc == SaveApply then Finished else List);
            WorkerOk(r, v, w, wk') && Secured(r, v, wk') && CheckpointOk(r, v, wk.state) && v.life.bound
  {}

  lemma StorageKeepsInv(r: Rules, s: State, e: Event)
    requires Inv(r, s) && (e.AddKey? || e.RemoveKey?)
    ensures Inv(r, Step(r, s, e))
  {
    match e
    case AddKey(site, key) => AddKeyKeepsInv(r, s, site, key);
    case RemoveKey(site, key) => RemoveKeyKeepsInv(r, s, site, key);
  }

  lemma QueueKeepsInv(r: Rules, s: State, e: Event)
    requires Inv(r, s) && Enabled(r, s, e) && (e.NewJob? || e.TakeLease? || e.DeleteGen?)
    ensures Inv(r, Step(r, s, e))
  {
    match e
    case NewJob(j) => JobKeepsInv(r, s, j, Job(0, None));
    case TakeLease(j) => LeaseKeepsInv(r, s, j);
    case DeleteGen(g) => DeleteKeepsInv(r, s, g);
  }

  /** A running worker. */
  lemma WorkerStepKeepsInv(r: Rules, s: State, e: Event)
    requires Inv(r, s) && Enabled(r, s, e) && Clean(r, s, e)
    requires !(e.AddKey? || e.RemoveKey? || e.NewJob? || e.TakeLease? || e.DeleteGen? || e.Start?)
    ensures Inv(r, Step(r, s, e))
  {
    match e
    case Crash(w) => FailKeepsInv(r, s, w);
    case BindGen(w) => BindKeepsInv(r, s, w);
    case ListPage(_, _, _, _) => ListKeepsInv(r, s, e);
    case BadCursor(w, minted) => BadCursorKeepsInv(r, s, w, minted);
    case PutRow(w, row) => PutKeepsInv(r, s, w, row);
    case EndPage(w) => EndKeepsInv(r, s, w);
    case MarkComplete(w) => MarkKeepsInv(r, s, w);
    case Save(w) => PersistedKeepsInv(r, s, w);
  }

  lemma StepKeepsInv(r: Rules, s: State, e: Event)
    requires Inv(r, s) && Enabled(r, s, e) && Clean(r, s, e)
    ensures Inv(r, Step(r, s, e))
  {
    if e.AddKey? || e.RemoveKey? {
      StorageKeepsInv(r, s, e);
    } else if e.NewJob? || e.TakeLease? || e.DeleteGen? {
      QueueKeepsInv(r, s, e);
    } else if e.Start? {
      StartKeepsInv(r, s, e);
    } else {
      WorkerStepKeepsInv(r, s, e);
    }
  }

  // ---- whole runs ----

  predicate ValidRun(r: Rules, s: State, es: seq<Event>)
    decreases |es|
  {
    es == [] || (Enabled(r, s, es[0]) && ValidRun(r, Step(r, s, es[0]), es[1..]))
  }

  function Run(r: Rules, s: State, es: seq<Event>): State
    requires ValidRun(r, s, es)
    decreases |es|
  {
    if es == [] then s else Run(r, Step(r, s, es[0]), es[1..])
  }

  predicate CleanRun(r: Rules, s: State, es: seq<Event>)
    requires ValidRun(r, s, es)
    decreases |es|
  {
    es == [] || (Clean(r, s, es[0]) && CleanRun(r, Step(r, s, es[0]), es[1..]))
  }

  lemma {:induction false} RunKeepsInv(r: Rules, s: State, es: seq<Event>)
    requires Inv(r, s) && ValidRun(r, s, es) && CleanRun(r, s, es)
    ensures Inv(r, Run(r, s, es))
    decreases |es|
  {
    if es != [] {
      StepKeepsInv(r, s, es[0]);
      RunKeepsInv(r, Step(r, s, es[0]), es[1..]);
    }
  }

  /** A registered generation that is marked complete holds every row of every
      visible key that stayed in its store from minting to completion, and only
      rows of visible keys that its store really held. */
  lemma CompleteGenerationCovers(r: Rules, es: seq<Event>, g: GenId)
    requires ValidRun(r, Init, es) && CleanRun(r, Init, es)
    requires var s := Run(r, Init, es); g in s.gens && s.gens[g].complete
    ensures var s := Run(r, Init, es);
            && g in s.lives && s.lives[g].site.instance == s.gens[g].instance
            && (forall k :: k in s.lives[g].through && !r.hidden(k) ==> r.rowsFor(k) <= Rows(s, g))
            && (forall row :: row in Rows(s, g) ==> row.key in s.lives[g].ever && !r.hidden(row.key) && r.may(row))
  {
    RunKeepsInv(r, Init, es);
    var s := Run(r, Init, es);
    assert GenOk(r, ViewOf(s, g), Objects(s, s.lives[g].site));
  }

  /** The index a worker returned, by listing or by adoption, names a complete
      generation of the worker's own site, as long as that generation is still
      registered. `DeletedMidScan` shows that the condition is needed. */
  lemma ReturnedIndexIsComplete(r: Rules, es: seq<Event>, w: WorkerId)
    requires ValidRun(r, Init, es) && CleanRun(r, Init, es)
    requires At(Run(r, Init, es), w, Finished)
    ensures var s := Run(r, Init, es);
            var g := s.workers[w].state.gen;
            && g in s.lives && s.lives[g].site == s.workers[w].site
            && (g in s.gens ==> s.gens[g].complete)
  {
    RunKeepsInv(r, Init, es);
    WorkerHolds(r, Run(r, Init, es), w);
  }

  /** Adoption without listing happens exactly for an apply checkpoint of this
      placement whose generation is registered, complete and of this instance. */
  lemma AdoptsExactlyWhen(prior: Option<RawCheckpoint>, site: Site, gens: map<GenId, Gen>, minted: GenId, g: GenId)
    requires minted !in gens
    ensures Decide(prior, site, gens, minted) == Adopt(g) <==>
            && prior.Some? && DecodePrior(prior.value, site.instance).Ok?
            && var c := DecodePrior(prior.value, site.instance).value;
               c.gen == g && c.phase == "apply" && c.site == site
               && g in gens && gens[g] == Gen(site.instance, true)
  {}

  /** A scan is resumed where its checkpoint stands exactly for a list checkpoint of
      this site whose generation is registered for this instance. */
  lemma ResumesExactlyWhen(prior: Option<RawCheckpoint>, site: Site, gens: map<GenId, Gen>, minted: GenId, c: Checkpoint)
    requires minted !in gens
    ensures Decide(prior, site, gens, minted) == Resume(c) <==>
            && prior == Some(Encoded(c)) && c.site == site && c.phase == "list"
            && c.gen in gens && gens[c.gen].instance == site.instance
  {
    if prior.Some? {
      var decoded := DecodePrior(prior.value, site.instance);
      if decoded.Ok? {
        DecodesWhatPersistWrote(prior.value, site.instance, decoded.value);
      }
    }
  }

  /** A missing, incomplete or foreign generation is never reused: whatever was
      decoded, the scan starts at the first page of the minted generation. */
  lemma UntrustedGenerationRescans(prior: RawCheckpoint, site: Site, gens: map<GenId, Gen>, minted: GenId)
    requires minted !in gens && DecodePrior(prior, site.instance).Ok?
    requires var c := DecodePrior(prior, site.instance).value;
             || c.gen !in gens
             || gens[c.gen].instance != site.instance
             || c.site.placement != site.placement
             || (c.phase == "apply" && !gens[c.gen].complete)
    ensures Decide(Some(prior), site, gens, minted) == Rescan(FreshCheckpoint(site, minted))
  {}

  /** In every reachable state a worker that adopts gets a finished scan of its own site. */
  lemma AdoptionIsSound(r: Rules, es: seq<Event>, e: Event)
    requires ValidRun(r, Init, es) && CleanRun(r, Init, es) && e.Start?
    requires var s := Run(r, Init, es);
             Enabled(r, s, e) && Decide(Saved(s, e.owner), e.site, s.gens, e.minted).Adopt?
    ensures var s := Run(r, Init, es);
            var g := Decide(Saved(s, e.owner), e.site, s.gens, e.minted).gen;
            && g in s.gens && s.gens[g] == Gen(e.site.instance, true)
            && g in s.lives && s.lives[g].site == e.site
            && (forall k :: k in s.lives[g].through && !r.hidden(k) ==> r.rowsFor(k) <= Rows(s, g))
  {
    RunKeepsInv(r, Init, es);
    var s := Run(r, Init, es);
    DecideSound(r, s, e.owner, e.site, e.minted);
    var g := Decide(Saved(s, e.owner), e.site, s.gens, e.minted).gen;
    assert GenOk(r, ViewOf(s, g), Objects(s, s.lives[g].site));
  }

  /** Replaying rows that are already stored changes nothing in the database. */
  lemma {:induction false} ReplayAddsNothing(r: Rules, s: State, es: seq<Event>)
    requires ValidRun(r, s, es)
    requires forall i :: 0 <= i < |es| ==>
               es[i].PutRow? && es[i].w in s.workers && es[i].row in Rows(s, s.workers[es[i].w].state.gen)
    ensures var s' := Run(r, s, es);
            s'.rows == s.rows && s'.gens == s.gens && s'.jobs == s.jobs && s'.lives == s.lives
    decreases |es|
  {
    if es != [] {
      var s1 := Step(r, s, es[0]);
      var g := s.workers[es[0].w].state.gen;
      assert Rows(s, g) + {es[0].row} == Rows(s, g);
      assert g in s.rows && s1.rows == s.rows;
      ReplayAddsNothing(r, s1, es[1..]);
    }
  }

  // ---- storage that does not change ----

  predicate Quiet(s: State, g: GenId) {
    g in s.lives && s.lives[g].through == s.lives[g].ever == Objects(s, s.lives[g].site)
  }

  predicate Mutates(e: Event, site: Site) {
    (e.AddKey? || e.RemoveKey?) && e.site == site
  }

  /** A generation minted while its store did not change still describes it. */
  lemma {:induction false} QuietRun(r: Rules, s: State, es: seq<Event>, g: GenId)
    requires ValidRun(r, s, es) && (g in s.lives ==> Quiet(s, g))
    requires g in Run(r, s, es).lives
    requires forall e :: e in es ==> !Mutates(e, Run(r, s, es).lives[g].site)
    ensures Quiet(Run(r, s, es), g)
    decreases |es|
  {
    if es != [] {
      var s1 := Step(r, s, es[0]);
      LifeSiteFixed(r, s1, es[1..], g);
      QuietStep(r, s, es[0], g, Run(r, s, es).lives[g].site);
      QuietRun(r, s1, es[1..], g);
    }
  }

  lemma {:induction false} LifeSiteFixed(r: Rules, s: State, es: seq<Event>, g: GenId)
    requires ValidRun(r, s, es)
    ensures g in s.lives ==> g in Run(r, s, es).lives && Run(r, s, es).lives[g].site == s.lives[g].site
    decreases |es|
  {
    if es != [] {
      StepLife(r, s, es[0], g);
      LifeSiteFixed(r, Step(r, s, es[0]), es[1..], g);
    }
  }

  /** How one event touches the history of one generation. */
  predicate LifeStep(s: State, s': State, g: GenId, e: Event) {
    && (g in s.lives ==> g in s'.lives && s'.lives[g].site == s.lives[g].site)
    && (g in s.lives && !Mutates(e, s.lives[g].site) ==>
          && s'.lives[g].ever == s.lives[g].ever
          && (s'.lives[g].through == s.lives[g].through
              || s'.lives[g].through == s.lives[g].through * Objects(s, s.lives[g].site)))
    && (g in s'.lives && g !in s.lives ==>
          s'.lives[g].through == s'.lives[g].ever == Objects(s, s'.lives[g].site))
  }

  /** Queue and listing steps touch neither histories nor stores. */
  lemma QueueStep(r: Rules, s: State, e: Event)
    requires Enabled(r, s, e) && (e.NewJob? || e.TakeLease? || e.Crash? || e.ListPage?)
    ensures Step(r, s, e).lives == s.lives && Step(r, s, e).objects == s.objects
  {}

  lemma EndStep(s: State, w: WorkerId)
    requires w in s.workers && s.workers[w].pc.Put?
    ensures Ended(s, w).lives == s.lives && Ended(s, w).objects == s.objects
  {}

  lemma MarkStep(s: State, w: WorkerId)
    requires w in s.workers
    ensures Marked(s, w).lives == s.lives && Marked(s, w).objects == s.objects
  {}

  lemma SaveStep(s: State, w: WorkerId)
    requires w in s.workers
    ensures Persisted(s, w).lives == s.lives && Persisted(s, w).objects == s.objects
  {}

  /** Neither a registration, a deletion nor a change of the store. */
  lemma PlainStep(r: Rules, s: State, e: Event)
    requires Enabled(r, s, e)
    requires !(e.AddKey? || e.RemoveKey? || e.DeleteGen? || e.Start? || e.BindGen? || e.BadCursor?)
    ensures Step(r, s, e).lives == s.lives && Step(r, s, e).objects == s.objects
  {
    if e.NewJob? || e.TakeLease? || e.Crash? || e.ListPage? {
      QueueStep(r, s, e);
    } else if e.PutRow? {
      assert Stored(s, e.w, e.row).lives == s.lives && Stored(s, e.w, e.row).objects == s.objects;
    } else if e.EndPage? {
      EndStep(s, e.w);
    } else if e.MarkComplete? {
      MarkStep(s, e.w);
    } else {
      SaveStep(s, e.w);
    }
  }

  lemma StepLife(r: Rules, s: State, e: Event, g: GenId)
    requires Enabled(r, s, e)
    ensures LifeStep(s, Step(r, s, e), g, e)
  {
    match e
    case Start(_, _, _, _) => StartLife(s, e, g);
    case BadCursor(w, minted) => RestartLife(s, w, minted, g);
    case AddKey(_, _) =>
    case RemoveKey(_, _) =>
    case BindGen(w) => BindLife(s, w, g);
    case DeleteGen(_) =>
    case _ => PlainStep(r, s, e);
  }

  lemma StartLife(s: State, e: Event, g: GenId)
    requires e.Start? && e.minted !in s.lives && (e.owner.Some? ==> e.owner.value in s.jobs)
    ensures LifeStep(s, Started(s, e.w, e.site, e.owner, e.minted), g, e)
    ensures Started(s, e.w, e.site, e.owner, e.minted).objects == s.objects
  {
    var d := Decide(Saved(s, e.owner), e.site, s.gens, e.minted);
    if d.Adopt? || d.Resume? {
      HeldStartShape(s, e);
    } else {
      MintedStartShape(s, e);
    }
  }

  lemma RestartShape(s: State, w: WorkerId, minted: GenId)
    requires w in s.workers
    ensures var s' := Restarted(s, w, minted);
            var wk := s.workers[w];
            && s'.objects == s.objects
            && s'.lives == if wk.restarted then s.lives
                           else Reopened(s, wk.state.gen)[minted := Life(wk.site, Objects(s, wk.site), Objects(s, wk.site), w, false)]
  {}

  lemma RestartLife(s: State, w: WorkerId, minted: GenId, g: GenId)
    requires At(s, w, List) && minted !in s.lives
    ensures LifeStep(s, Restarted(s, w, minted), g, BadCursor(w, minted))
  {
    RestartShape(s, w, minted);
  }

  lemma BindLife(s: State, w: WorkerId, g: GenId)
    requires w in s.workers
    ensures LifeStep(s, Bound(s, w), g, BindGen(w))
  {}

  lemma StepObjects(r: Rules, s: State, e: Event, site: Site)
    requires Enabled(r, s, e) && !Mutates(e, site)
    ensures Objects(Step(r, s, e), site) == Objects(s, site)
  {
    match e
    case AddKey(_, _) =>
    case RemoveKey(_, _) =>
    case Start(_, _, _, minted) => StartLife(s, e, minted);
    case BindGen(w) => assert Bound(s, w).objects == s.objects;
    case BadCursor(w, minted) => RestartShape(s, w, minted);
    case DeleteGen(_) =>
    case _ => PlainStep(r, s, e);
  }

  lemma QuietStep(r: Rules, s: State, e: Event, g: GenId, site: Site)
    requires Enabled(r, s, e) && (g in s.lives ==> Quiet(s, g)) && !Mutates(e, site)
    requires g in Step(r, s, e).lives ==> Step(r, s, e).lives[g].site == site
    ensures g in Step(r, s, e).lives ==> Quiet(Step(r, s, e), g)
  {
    StepLife(r, s, e, g);
    StepObjects(r, s, e, site);
  }

  /** Without metadata probing a listed key gives rise to its own rows only. */
  ghost predicate KeysOnly(r: Rules) {
    && (forall row :: r.may(row) ==> row in r.rowsFor(row.key))
    && (forall k, row :: row in r.rowsFor(k) ==> row.key == k)
  }

  /** On unchanged storage the rows of a complete generation are those of the
      visible keys, whatever crashes and resumes produced them; without metadata
      probing, exactly those. */
  lemma QuietInventory(r: Rules, es: seq<Event>, g: GenId, row: Row)
    requires ValidRun(r, Init, es) && CleanRun(r, Init, es)
    requires var s := Run(r, Init, es); g in s.gens && s.gens[g].complete && Quiet(s, g)
    ensures var s := Run(r, Init, es);
            var visible := row.key in Objects(s, s.lives[g].site) && !r.hidden(row.key);
            && (visible && row in r.rowsFor(row.key) ==> row in Rows(s, g))
            && (row in Rows(s, g) ==> visible && r.may(row))
            && (KeysOnly(r) ==> (row in Rows(s, g) <==> visible && row in r.rowsFor(row.key)))
  {
    CompleteGenerationCovers(r, es, g);
  }

  // ---- where the guarantee ends ----

  /** What the scan promises of a state: complete generations cover what stayed
      in their store, and a returned index names a complete generation if any. */
  predicate Sound(r: Rules, s: State) {
    && (forall g :: g in s.gens && s.gens[g].complete ==> g in s.lives && CoversAll(r, ViewOf(s, g)))
    && (forall w :: w in s.workers && s.workers[w].pc == Finished && s.workers[w].state.gen in s.gens
          ==> s.gens[s.workers[w].state.gen].complete)
  }

  lemma InvIsSound(r: Rules, s: State)
    requires Inv(r, s)
    ensures Sound(r, s)
  {
    forall g | g in s.gens && s.gens[g].complete ensures g in s.lives && CoversAll(r, ViewOf(s, g)) {
      assert GenOk(r, ViewOf(s, g), Objects(s, s.lives[g].site));
    }
    forall w | w in s.workers && s.workers[w].pc == Finished && s.workers[w].state.gen in s.gens
      ensures s.gens[s.workers[w].state.gen].complete
    {
      WorkerHolds(r, s, w);
    }
  }

  /** A run without a further registration of this kind that ends in a broken promise. */
  predicate Breaks(r: Rules, s: State, es: seq<Event>) {
    ValidRun(r, s, es) && CleanRun(r, s, es) && !Sound(r, Run(r, s, es))
  }

  lemma RunCons(r: Rules, s: State, e: Event, es: seq<Event>)
    requires Enabled(r, s, e) && ValidRun(r, Step(r, s, e), es)
    ensures ValidRun(r, s, [e] + es) && Run(r, s, [e] + es) == Run(r, Step(r, s, e), es)
    ensures CleanRun(r, s, [e] + es) <==> Clean(r, s, e) && CleanRun(r, Step(r, s, e), es)
  {
    assert ([e] + es)[1..] == es;
  }

  lemma BreaksAfter(r: Rules, s: State, e: Event, es: seq<Event>)
    requires Enabled(r, s, e) && Clean(r, s, e) && Breaks(r, Step(r, s, e), es)
    ensures Breaks(r, s, [e] + es)
  {
    RunCons(r, s, e, es);
  }

  /** A visible tracked key of registered generation `g` with a missing row. */
  predicate Missing(r: Rules, s: State, g: GenId, k: Key) {
    g in s.gens && g in s.lives && k in s.lives[g].through && !r.hidden(k) && !(r.rowsFor(k) <= Rows(s, g))
  }

  lemma MissingBreaks(r: Rules, s: State, g: GenId, k: Key)
    requires Missing(r, s, g, k) && s.gens[g].complete
    ensures Breaks(r, s, [])
  {
    assert !CoversAll(r, ViewOf(s, g));
  }

  /** A worker about to complete a generation that lacks a row. */
  lemma MarkBreaks(r: Rules, s: State, u: WorkerId, k: Key) returns (es: seq<Event>)
    requires At(s, u, Mark) && Missing(r, s, s.workers[u].state.gen, k)
    ensures Breaks(r, s, es)
  {
    var g := s.workers[u].state.gen;
    MarkedShape(s, u);
    MissingBreaks(r, Marked(s, u), g, k);
    BreaksAfter(r, s, MarkComplete(u), []);
    es := [MarkComplete(u)] + [];
  }

  /** A worker past the key that lacks a row: the keys beyond its cursor leave the
      store, the last page is empty, and the generation is completed. */
  lemma {:induction false} ListBreaks(r: Rules, s: State, u: WorkerId, k: Key) returns (es: seq<Event>)
    requires At(s, u, List) && Missing(r, s, s.workers[u].state.gen, k)
    requires AtOrBelow(k, s.workers[u].state.cursor)
    ensures Breaks(r, s, es)
    decreases Objects(s, s.workers[u].site)
  {
    var site := s.workers[u].site;
    if x :| x in Objects(s, site) && !AtOrBelow(x, s.workers[u].state.cursor) {
      RemovedMissing(r, s, site, x, s.workers[u].state.gen, k);
      var rest := ListBreaks(r, RemovedKey(s, site, x), u, k);
      BreaksAfter(r, s, RemoveKey(site, x), rest);
      es := [RemoveKey(site, x)] + rest;
    } else {
      es := EmptyPageBreaks(r, s, u, k);
    }
  }

  lemma RemovedMissing(r: Rules, s: State, site: Site, x: Key, g: GenId, k: Key)
    requires Missing(r, s, g, k) && x != k
    ensures Missing(r, RemovedKey(s, site, x), g, k)
    ensures x in Objects(s, site) ==> Objects(RemovedKey(s, site, x), site) < Objects(s, site)
  {}

  lemma EmptyPageBreaks(r: Rules, s: State, u: WorkerId, k: Key) returns (es: seq<Event>)
    requires At(s, u, List) && Missing(r, s, s.workers[u].state.gen, k)
    requires forall x :: x in Objects(s, s.workers[u].site) ==> AtOrBelow(x, s.workers[u].state.cursor)
    ensures Breaks(r, s, es)
  {
    var s1 := SetPc(s, u, Put({}, None));
    var rest := EndBreaks(r, s1, u, k);
    BreaksAfter(r, s, ListPage(u, {}, {}, None), rest);
    es := [ListPage(u, {}, {}, None)] + rest;
  }

  /** A worker whose page is stored and leaves the key behind. */
  lemma EndBreaks(r: Rules, s: State, u: WorkerId, k: Key) returns (es: seq<Event>)
    requires u in s.workers && s.workers[u].pc == Put({}, None) && Missing(r, s, s.workers[u].state.gen, k)
    ensures Breaks(r, s, es)
  {
    var rest := MarkBreaks(r, Ended(s, u), u, k);
    BreaksAfter(r, s, EndPage(u), rest);
    es := [EndPage(u)] + rest;
  }

  /** A worker that still holds its lease saves and goes on listing. */
  lemma SaveBreaks(r: Rules, s: State, u: WorkerId, k: Key) returns (es: seq<Event>)
    requires u in s.workers && s.workers[u].pc in {SaveRestart, SaveCursor} && LeaseHeld(s, s.workers[u])
    requires Missing(r, s, s.workers[u].state.gen, k) && AtOrBelow(k, s.workers[u].state.cursor)
    ensures Breaks(r, s, es)
  {
    var rest := ListBreaks(r, Persisted(s, u), u, k);
    BreaksAfter(r, s, Save(u), rest);
    es := [Save(u)] + rest;
  }

  /** A worker that stores a page on which the key's rows are not pending. */
  lemma {:induction false} PutBreaks(r: Rules, s: State, u: WorkerId, k: Key) returns (es: seq<Event>)
    requires u in s.workers && s.workers[u].pc.Put? && !Doomed(s, s.workers[u])
    requires var g := s.workers[u].state.gen;
             Missing(r, s, g, k) && !(r.rowsFor(k) <= Rows(s, g) + s.workers[u].pc.pending)
    requires s.workers[u].pc.next.None? || AtOrBelow(k, s.workers[u].pc.next)
    ensures Breaks(r, s, es)
    decreases s.workers[u].pc.pending
  {
    var wk := s.workers[u];
    if row :| row in wk.pc.pending {
      assert Rows(s, wk.state.gen) + {row} + (wk.pc.pending - {row}) == Rows(s, wk.state.gen) + wk.pc.pending;
      StoredShape(s, u, row);
      var rest := PutBreaks(r, Stored(s, u, row), u, k);
      BreaksAfter(r, s, PutRow(u, row), rest);
      es := [PutRow(u, row)] + rest;
    } else if wk.pc.next.None? {
      es := EndBreaks(r, s, u, k);
    } else {
      var rest := SaveBreaks(r, Ended(s, u), u, k);
      BreaksAfter(r, s, EndPage(u), rest);
      es := [EndPage(u)] + rest;
    }
  }

  /** A worker about to bind the registered generation again. */
  lemma BindBreaks(r: Rules, s: State, u: WorkerId, k: Key) returns (es: seq<Event>)
    requires At(s, u, Bind(true)) && !s.workers[u].restarted && Missing(r, s, s.workers[u].state.gen, k)
    requires s.gens[s.workers[u].state.gen].instance == s.workers[u].site.instance
    requires AtOrBelow(k, s.workers[u].state.cursor)
    ensures Breaks(r, s, es)
  {
    var rest := ListBreaks(r, SetPc(s, u, List), u, k);
    BreaksAfter(r, s, BindGen(u), rest);
    es := [BindGen(u)] + rest;
  }

  /** A job whose saved cursor lies past the key: the next worker resumes there. */
  lemma ResumeBreaks(r: Rules, s: State, j: JobId, g: GenId, k: Key) returns (es: seq<Event>)
    requires j in s.jobs && SavedFor(s.jobs[j], g) && Missing(r, s, g, k)
    requires s.gens[g].instance == s.jobs[j].saved.value.site.instance
    requires AtOrBelow(k, s.jobs[j].saved.value.cursor)
    ensures Breaks(r, s, es)
  {
    var u := Unused(s.workers.Keys);
    var minted := Unused(s.lives.Keys);
    var c := s.jobs[j].saved.value;
    var e := Start(u, c.site, Some(j), minted);
    assert Decide(Saved(s, Some(j)), c.site, s.gens, minted) == Resume(c);
    HeldStartShape(s, e);
    var rest := BindBreaks(r, Step(r, s, e), u, k);
    BreaksAfter(r, s, e, rest);
    es := [e] + rest;
  }

  /** A worker that was done with the generation returns it although it is not complete now. */
  lemma DoneBreaks(r: Rules, s: State, u: WorkerId) returns (es: seq<Event>)
    requires u in s.workers && s.workers[u].pc in {SaveApply, Finished} && !Doomed(s, s.workers[u])
    requires s.workers[u].state.gen in s.gens && !s.gens[s.workers[u].state.gen].complete
    ensures Breaks(r, s, es)
  {
    if s.workers[u].pc == Finished {
      es := [];
    } else {
      assert At(Persisted(s, u), u, Finished);
      BreaksAfter(r, s, Save(u), []);
      es := [Save(u)] + [];
    }
  }

  /** A worker that relies on rows which the revived generation lacks. */
  lemma HolderBreaks(r: Rules, s: State, w: WorkerId, u: WorkerId) returns (es: seq<Event>)
    requires Inv(r, s) && Revives(s, BindGen(w)) && u in s.workers && s.workers[u].state.gen == s.workers[w].state.gen
    requires !Doomed(s, s.workers[u]) && !Backed(r, ViewOf(s, s.workers[w].state.gen), s.workers[u])
    ensures Breaks(r, Bound(s, w), es)
  {
    var g := s.workers[w].state.gen;
    var s' := Bound(s, w);
    RevivedView(r, s, w, g);
    WorkerHolds(r, s, w);
    WorkerHolds(r, s, u);
    var wk := s.workers[u];
    if wk.pc.Put? {
      var k :| k in s.lives[g].through && !r.hidden(k) && (wk.pc.next.None? || AtOrBelow(k, wk.pc.next))
               && !(r.rowsFor(k) <= Rows(s, g) + wk.pc.pending);
      es := PutBreaks(r, s', u, k);
    } else if wk.pc == Mark {
      var k :| k in s.lives[g].through && !r.hidden(k) && !(r.rowsFor(k) <= Rows(s, g));
      es := MarkBreaks(r, s', u, k);
    } else if wk.pc in {SaveApply, Finished} {
      es := DoneBreaks(r, s', u);
    } else {
      var k :| k in s.lives[g].through && !r.hidden(k) && AtOrBelow(k, wk.state.cursor) && !(r.rowsFor(k) <= Rows(s, g));
      es := CursorBreaks(r, s', u, k);
    }
  }

  lemma CursorBreaks(r: Rules, s: State, u: WorkerId, k: Key) returns (es: seq<Event>)
    requires u in s.workers && !Doomed(s, s.workers[u]) && Missing(r, s, s.workers[u].state.gen, k)
    requires s.workers[u].pc in {Bind(true), SaveRestart, List, SaveCursor} && AtOrBelow(k, s.workers[u].state.cursor)
    requires !(s.workers[u].pc == Bind(true) && s.workers[u].restarted)
    requires s.gens[s.workers[u].state.gen].instance == s.workers[u].site.instance
    ensures Breaks(r, s, es)
  {
    match s.workers[u].pc
    case List => es := ListBreaks(r, s, u, k);
    case Bind(_) => es := BindBreaks(r, s, u, k);
    case _ => es := SaveBreaks(r, s, u, k);
  }

  lemma SavedBreaks(r: Rules, s: State, w: WorkerId, j: JobId) returns (es: seq<Event>)
    requires Inv(r, s) && Revives(s, BindGen(w)) && j in s.jobs && SavedFor(s.jobs[j], s.workers[w].state.gen)
    requires !Covers(r, ViewOf(s, s.workers[w].state.gen), s.jobs[j].saved.value.cursor)
    ensures Breaks(r, Bound(s, w), es)
  {
    var g := s.workers[w].state.gen;
    RevivedView(r, s, w, g);
    assert SavedOk(r, s, j);
    var k :| k in s.lives[g].through && !r.hidden(k) && AtOrBelow(k, s.jobs[j].saved.value.cursor) && !(r.rowsFor(k) <= Rows(s, g));
    es := ResumeBreaks(r, Bound(s, w), j, g, k);
  }

  /** After any run of clean steps, the next step is clean exactly when the promises
      then hold on every further run of clean steps. */
  lemma CleanExactlyWhen(r: Rules, es: seq<Event>, e: Event)
    requires ValidRun(r, Init, es) && CleanRun(r, Init, es) && Enabled(r, Run(r, Init, es), e)
    ensures var s := Run(r, Init, es);
            && Sound(r, s)
            && (Clean(r, s, e) <==> !exists more :: Breaks(r, Step(r, s, e), more))
  {
    RunKeepsInv(r, Init, es);
    InvIsSound(r, Run(r, Init, es));
    CleanStepExactlyWhen(r, Run(r, Init, es), e);
  }

  lemma CleanStepExactlyWhen(r: Rules, s: State, e: Event)
    requires Inv(r, s) && Enabled(r, s, e)
    ensures Clean(r, s, e) <==> !exists es :: Breaks(r, Step(r, s, e), es)
  {
    if Clean(r, s, e) {
      forall es | ValidRun(r, Step(r, s, e), es) && CleanRun(r, Step(r, s, e), es)
        ensures Sound(r, Run(r, Step(r, s, e), es))
      {
        StepKeepsInv(r, s, e);
        RunKeepsInv(r, Step(r, s, e), es);
        InvIsSound(r, Run(r, Step(r, s, e), es));
      }
    } else {
      var es := UncleanBreaks(r, s, e);
    }
  }

  lemma UncleanBreaks(r: Rules, s: State, e: Event) returns (es: seq<Event>)
    requires Inv(r, s) && Enabled(r, s, e) && !Clean(r, s, e)
    ensures Breaks(r, Step(r, s, e), es)
  {
    var g := s.workers[e.w].state.gen;
    if u :| u in s.workers && s.workers[u].state.gen == g && !Doomed(s, s.workers[u]) && !Backed(r, ViewOf(s, g), s.workers[u]) {
      es := HolderBreaks(r, s, e.w, u);
    } else {
      var j :| j in s.jobs && SavedFor(s.jobs[j], g) && !Covers(r, ViewOf(s, g), s.jobs[j].saved.value.cursor);
      es := SavedBreaks(r, s, e.w, j);
    }
  }

  // ---- the losing runs, from the beginning ----

  ghost predicate Reaches(r: Rules, es: seq<Event>, s: State) {
    ValidRun(r, Init, es) && Run(r, Init, es) == s
  }

  lemma {:induction false} RunSnoc(r: Rules, s: State, es: seq<Event>, e: Event)
    requires ValidRun(r, s, es) && Enabled(r, Run(r, s, es), e)
    ensures ValidRun(r, s, es + [e]) && Run(r, s, es + [e]) == Step(r, Run(r, s, es), e)
    decreases |es|
  {
    if es == [] {
      assert es + [e] == [e];
      assert ValidRun(r, Step(r, s, e), [e][1..]);
    } else {
      RunSnoc(r, Step(r, s, es[0]), es[1..], e);
      assert (es + [e])[1..] == es[1..] + [e];
    }
  }

  lemma ReachesNext(r: Rules, es: seq<Event>, s: State, e: Event, s': State)
    requires Reaches(r, es, s) && Enabled(r, s, e) && Step(r, s, e) == s'
    ensures Reaches(r, es + [e], s')
  {
    RunSnoc(r, Init, es, e);
  }

  /** A visible key that gives rise to rows of its own. */
  predicate Plain(r: Rules, k: Key) {
    !r.hidden(k) && r.rowsFor(k) != {} && forall row :: row in r.rowsFor(k) ==> row.key == k && r.may(row)
  }

  function RowMap(rows: set<Row>): map<GenId, set<Row>> {
    if rows == {} then map[] else map[0 := rows]
  }

  function Scanner(site: Site, phase: string, cursor: Option<Key>, pc: Pc): Worker {
    Worker(site, Some(0), 0, Checkpoint(site, 0, phase, cursor), pc, false)
  }

  /** The workers: number 0, or number 1 after number 0 crashed at cursor `k`. */
  function Crew(second: bool, site: Site, k: Key, wk: Worker): map<WorkerId, Worker> {
    if second then map[0 := Scanner(site, "list", Some(k), Failed), 1 := wk] else map[0 := wk]
  }

  function Active(second: bool): WorkerId {
    if second then 1 else 0
  }

  /** One job, one store with the single key `k`, generation 0 minted by worker 0. */
  function OneKey(second: bool, site: Site, k: Key, gens: map<GenId, Gen>, rows: map<GenId, set<Row>>,
                  saved: Option<Checkpoint>, wk: Worker): State {
    State(map[site := {k}], gens, rows, map[0 := Job(0, saved)], Crew(second, site, k, wk),
          map[0 := Life(site, {k}, {k}, 0, wk.pc != Bind(false))])
  }

  function Registered(site: Site): map<GenId, Gen> {
    map[0 := Gen(site.instance, false)]
  }

  lemma Recrew(second: bool, site: Site, k: Key, wk: Worker, wk': Worker)
    ensures Crew(second, site, k, wk)[Active(second) := wk'] == Crew(second, site, k, wk')
    ensures Active(second) in Crew(second, site, k, wk) && Crew(second, site, k, wk)[Active(second)] == wk
  {}

  /** The active worker moves on. */
  lemma PcMoves(second: bool, site: Site, k: Key, gens: map<GenId, Gen>, rows: map<GenId, set<Row>>,
                saved: Option<Checkpoint>, wk: Worker, pc: Pc)
    requires wk.pc != Bind(false) && pc != Bind(false)
    ensures var s := OneKey(second, site, k, gens, rows, saved, wk);
            && Active(second) in s.workers && s.workers[Active(second)] == wk
            && SetPc(s, Active(second), pc) == OneKey(second, site, k, gens, rows, saved, wk.(pc := pc))
  {
    Recrew(second, site, k, wk, wk.(pc := pc));
  }

  lemma ScanStarts(site: Site, k: Key)
    ensures var s := State(map[site := {k}], map[], map[], map[0 := Job(0, None)], map[], map[]);
            Started(s, 0, site, Some(0), 0) == OneKey(false, site, k, map[], map[], None, Scanner(site, "list", None, Bind(false)))
  {
    var s := State(map[site := {k}], map[], map[], map[0 := Job(0, None)], map[], map[]);
    assert Decide(Saved(s, Some(0)), site, s.gens, 0) == Rescan(FreshCheckpoint(site, 0));
  }

  lemma ScanBinds(site: Site, k: Key)
    ensures var s := OneKey(false, site, k, map[], map[], None, Scanner(site, "list", None, Bind(false)));
            0 in s.workers && Bound(s, 0) == OneKey(false, site, k, Registered(site), map[], None, Scanner(site, "list", None, List))
  {
    var s := OneKey(false, site, k, map[], map[], None, Scanner(site, "list", None, Bind(false)));
    Recrew(false, site, k, s.workers[0], Scanner(site, "list", None, List));
    assert Bound(s, 0).lives == map[0 := Life(site, {k}, {k}, 0, true)];
    assert Bound(s, 0).gens == Registered(site);
  }

  lemma RowLands(site: Site, k: Key, done: set<Row>, pending: set<Row>, row: Row)
    requires row in pending
    ensures var s := OneKey(false, site, k, Registered(site), RowMap(done), None, Scanner(site, "list", None, Put(pending, Some(k))));
            0 in s.workers && s.workers[0].pc == Put(pending, Some(k))
            && Stored(s, 0, row) == OneKey(false, site, k, Registered(site), RowMap(done + {row}), None,
                                           Scanner(site, "list", None, Put(pending - {row}, Some(k))))
  {
    var wk := Scanner(site, "list", None, Put(pending, Some(k)));
    Recrew(false, site, k, wk, Scanner(site, "list", None, Put(pending - {row}, Some(k))));
    var s := OneKey(false, site, k, Registered(site), RowMap(done), None, wk);
    assert Rows(s, 0) == done;
    assert Stored(s, 0, row).rows == RowMap(done + {row});
  }

  /** All rows of the page are stored, one by one. */
  lemma {:induction false} RowsLand(r: Rules, es: seq<Event>, site: Site, k: Key, done: set<Row>, pending: set<Row>) returns (es': seq<Event>)
    requires Reaches(r, es, OneKey(false, site, k, Registered(site), RowMap(done), None, Scanner(site, "list", None, Put(pending, Some(k)))))
    ensures Reaches(r, es', OneKey(false, site, k, Registered(site), RowMap(done + pending), None, Scanner(site, "list", None, Put({}, Some(k)))))
    decreases pending
  {
    if row :| row in pending {
      RowLands(site, k, done, pending, row);
      ReachesNext(r, es, OneKey(false, site, k, Registered(site), RowMap(done), None, Scanner(site, "list", None, Put(pending, Some(k)))), PutRow(0, row),
                  OneKey(false, site, k, Registered(site), RowMap(done + {row}), None, Scanner(site, "list", None, Put(pending - {row}, Some(k)))));
      es' := RowsLand(r, es + [PutRow(0, row)], site, k, done + {row}, pending - {row});
      assert done + {row} + (pending - {row}) == done + pending;
    } else {
      assert pending == {} && done + pending == done;
      es' := es;
    }
  }

  lemma PageEnds(site: Site, k: Key, rows: set<Row>)
    ensures var s := OneKey(false, site, k, Registered(site), RowMap(rows), None, Scanner(site, "list", None, Put({}, Some(k))));
            0 in s.workers && s.workers[0].pc == Put({}, Some(k))
            && Ended(s, 0) == OneKey(false, site, k, Registered(site), RowMap(rows), None, Scanner(site, "list", Some(k), SaveCursor))
  {
    Recrew(false, site, k, Scanner(site, "list", None, Put({}, Some(k))), Scanner(site, "list", Some(k), SaveCursor));
  }

  lemma CursorLands(site: Site, k: Key, rows: set<Row>)
    ensures var c := Checkpoint(site, 0, "list", Some(k));
            var s := OneKey(false, site, k, Registered(site), RowMap(rows), None, Scanner(site, "list", Some(k), SaveCursor));
            0 in s.workers && s.workers[0].pc == SaveCursor
            && Persisted(s, 0) == OneKey(false, site, k, Registered(site), RowMap(rows), Some(c), Scanner(site, "list", Some(k), List))
  {
    Recrew(false, site, k, Scanner(site, "list", Some(k), SaveCursor), Scanner(site, "list", Some(k), List));
    var s := OneKey(false, site, k, Registered(site), RowMap(rows), None, Scanner(site, "list", Some(k), SaveCursor));
    assert LeaseHeld(s, s.workers[0]);
    assert Persisted(s, 0).jobs == map[0 := Job(0, Some(Checkpoint(site, 0, "list", Some(k))))];
  }

  lemma ScanResumes(site: Site, k: Key, rows: set<Row>)
    ensures var c := Checkpoint(site, 0, "list", Some(k));
            var s := OneKey(false, site, k, Registered(site), RowMap(rows), Some(c), Scanner(site, "list", Some(k), Failed));
            Started(s, 1, site, Some(0), 1)
              == OneKey(true, site, k, Registered(site), RowMap(rows), Some(c), Scanner(site, "list", Some(k), Bind(true)))
  {
    var c := Checkpoint(site, 0, "list", Some(k));
    var s := OneKey(false, site, k, Registered(site), RowMap(rows), Some(c), Scanner(site, "list", Some(k), Failed));
    assert Decide(Saved(s, Some(0)), site, s.gens, 1) == Resume(c);
    assert Crew(false, site, k, Scanner(site, "list", Some(k), Failed))[1 := Scanner(site, "list", Some(k), Bind(true))]
        == Crew(true, site, k, Scanner(site, "list", Some(k), Bind(true)));
  }

  lemma ScanVanishes(second: bool, site: Site, k: Key, rows: set<Row>, saved: Option<Checkpoint>, wk: Worker)
    requires wk.pc != Bind(false)
    ensures Deleted(OneKey(second, site, k, Registered(site), RowMap(rows), saved, wk), 0)
         == OneKey(second, site, k, map[], map[], saved, wk)
  {
    assert {k} * {k} == {k};
    assert RowMap(rows) - {0} == map[] && Registered(site) - {0} == map[];
    var s := OneKey(second, site, k, Registered(site), RowMap(rows), saved, wk);
    assert Reopened(s, 0) == s.lives;
  }

  lemma ScanRevives(site: Site, k: Key, saved: Option<Checkpoint>)
    ensures var s := OneKey(true, site, k, map[], map[], saved, Scanner(site, "list", Some(k), Bind(true)));
            1 in s.workers && s.workers[1].pc == Bind(true)
            && Bound(s, 1) == OneKey(true, site, k, Registered(site), map[], saved, Scanner(site, "list", Some(k), List))
  {
    var s := OneKey(true, site, k, map[], map[], saved, Scanner(site, "list", Some(k), Bind(true)));
    Recrew(true, site, k, s.workers[1], Scanner(site, "list", Some(k), List));
    assert Bound(s, 1).lives == s.lives;
    assert Bound(s, 1).gens == Registered(site);
  }

  /** The first page, with the key and a cursor behind it, is listed. */
  lemma PageListed(r: Rules, site: Site, k: Key) returns (es: seq<Event>)
    requires Plain(r, k)
    ensures Reaches(r, es, OneKey(false, site, k, Registered(site), map[], None, Scanner(site, "list", None, Put(r.rowsFor(k), Some(k)))))
  {
    es := ScanListing(r, site, k);
    var s := OneKey(false, site, k, Registered(site), map[], None, Scanner(site, "list", None, List));
    PcMoves(false, site, k, Registered(site), map[], None, Scanner(site, "list", None, List), Put(r.rowsFor(k), Some(k)));
    ReachesNext(r, es, s, ListPage(0, {k}, r.rowsFor(k), Some(k)), SetPc(s, 0, Put(r.rowsFor(k), Some(k))));
    es := es + [ListPage(0, {k}, r.rowsFor(k), Some(k))];
  }

  lemma ScanListing(r: Rules, site: Site, k: Key) returns (es: seq<Event>)
    ensures Reaches(r, es, OneKey(false, site, k, Registered(site), map[], None, Scanner(site, "list", None, List)))
  {
    var s1 := State(map[site := {k}], map[], map[], map[], map[], map[]);
    var s2 := State(map[site := {k}], map[], map[], map[0 := Job(0, None)], map[], map[]);
    assert {} + {k} == {k};
    assert AddedKey(Init, site, k).objects == s1.objects && AddedKey(Init, site, k).lives == map[];
    ReachesNext(r, [], Init, AddKey(site, k), s1);
    assert WithJob(s1, 0, Job(0, None)) == s2;
    ReachesNext(r, [] + [AddKey(site, k)], s1, NewJob(0), s2);
    es := [] + [AddKey(site, k)] + [NewJob(0)];
    ScanStarts(site, k);
    ReachesNext(r, es, s2, Start(0, site, Some(0), 0), Started(s2, 0, site, Some(0), 0));
    es := es + [Start(0, site, Some(0), 0)];
    ScanBinds(site, k);
    var s3 := OneKey(false, site, k, map[], map[], None, Scanner(site, "list", None, Bind(false)));
    ReachesNext(r, es, s3, BindGen(0), Bound(s3, 0));
    es := es + [BindGen(0)];
  }

  /** The first page is stored and its cursor saved. */
  lemma PageSaved(r: Rules, site: Site, k: Key) returns (es: seq<Event>)
    requires Plain(r, k)
    ensures Reaches(r, es, OneKey(false, site, k, Registered(site), RowMap(r.rowsFor(k)), Some(Checkpoint(site, 0, "list", Some(k))),
                                  Scanner(site, "list", Some(k), List)))
  {
    var es0 := PageListed(r, site, k);
    es := RowsLand(r, es0, site, k, {}, r.rowsFor(k));
    assert {} + r.rowsFor(k) == r.rowsFor(k);
    PageEnds(site, k, r.rowsFor(k));
    ReachesNext(r, es, OneKey(false, site, k, Registered(site), RowMap(r.rowsFor(k)), None, Scanner(site, "list", None, Put({}, Some(k)))), EndPage(0),
                OneKey(false, site, k, Registered(site), RowMap(r.rowsFor(k)), None, Scanner(site, "list", Some(k), SaveCursor)));
    es := es + [EndPage(0)];
    CursorLands(site, k, r.rowsFor(k));
    var s := OneKey(false, site, k, Registered(site), RowMap(r.rowsFor(k)), None, Scanner(site, "list", Some(k), SaveCursor));
    ReachesNext(r, es, s, Save(0), Persisted(s, 0));
    es := es + [Save(0)];
  }

  /** A last page without a key, listed and ended. */
  lemma LastPage(r: Rules, es: seq<Event>, second: bool, site: Site, k: Key, gens: map<GenId, Gen>, saved: Option<Checkpoint>)
    requires Reaches(r, es, OneKey(second, site, k, gens, map[], saved, Scanner(site, "list", Some(k), List)))
    ensures Reaches(r, es + [ListPage(Active(second), {}, {}, None)] + [EndPage(Active(second))],
                    OneKey(second, site, k, gens, map[], saved, Scanner(site, "list", Some(k), Mark)))
  {
    var w, wk := Active(second), Scanner(site, "list", Some(k), List);
    var s := OneKey(second, site, k, gens, map[], saved, wk);
    PcMoves(second, site, k, gens, map[], saved, wk, Put({}, None));
    ReachesNext(r, es, s, ListPage(w, {}, {}, None), SetPc(s, w, Put({}, None)));
    PcMoves(second, site, k, gens, map[], saved, wk.(pc := Put({}, None)), Mark);
    var s' := OneKey(second, site, k, gens, map[], saved, wk.(pc := Put({}, None)));
    ReachesNext(r, es + [ListPage(w, {}, {}, None)], s', EndPage(w), Ended(s', w));
  }

  /** A generation that is deleted while its scan still runs: the scan finishes and
      returns an index without a single row, though the key never left the store. */
  lemma DeletedMidScan(r: Rules, site: Site, k: Key) returns (es: seq<Event>)
    requires Plain(r, k)
    ensures ValidRun(r, Init, es)
    ensures var s := Run(r, Init, es);
            && At(s, 0, Finished) && s.workers[0].state.gen == 0 && s.workers[0].site == site
            && 0 !in s.gens && Rows(s, 0) == {}
            && Objects(s, site) == {k} && 0 in s.lives && s.lives[0].through == {k}
  {
    var saved := Some(Checkpoint(site, 0, "list", Some(k)));
    var wk := Scanner(site, "list", Some(k), List);
    es := PageSaved(r, site, k);
    ScanVanishes(false, site, k, r.rowsFor(k), saved, wk);
    ReachesNext(r, es, OneKey(false, site, k, Registered(site), RowMap(r.rowsFor(k)), saved, wk), DeleteGen(0),
                OneKey(false, site, k, map[], map[], saved, wk));
    es := es + [DeleteGen(0)];
    LastPage(r, es, false, site, k, map[], saved);
    es := es + [ListPage(0, {}, {}, None)] + [EndPage(0)];
    var s := OneKey(false, site, k, map[], map[], saved, wk.(pc := Mark));
    MarkedThenSaved(site, k, saved);
    ReachesNext(r, es, s, MarkComplete(0), Marked(s, 0));
    es := es + [MarkComplete(0)];
    ReachesNext(r, es, Marked(s, 0), Save(0), Persisted(Marked(s, 0), 0));
    es := es + [Save(0)];
  }

  lemma MarkedThenSaved(site: Site, k: Key, saved: Option<Checkpoint>)
    ensures var s := OneKey(false, site, k, map[], map[], saved, Scanner(site, "list", Some(k), Mark));
            && At(s, 0, Mark) && At(Marked(s, 0), 0, SaveApply)
            && var s' := Persisted(Marked(s, 0), 0);
               && At(s', 0, Finished) && s'.workers[0].state.gen == 0 && s'.workers[0].site == site
               && s'.gens == map[] && s'.rows == map[] && s'.objects == s.objects && s'.lives == s.lives
  {
    var s := OneKey(false, site, k, map[], map[], saved, Scanner(site, "list", Some(k), Mark));
    assert Marked(s, 0).jobs == s.jobs && Marked(s, 0).workers[0] == MarkedWorker(s.workers[0]);
    assert LeaseHeld(Marked(s, 0), MarkedWorker(s.workers[0]));
  }

  /** The other window: the scan crashes after its first page, the next worker
      decides to resume, the generation is deleted before it is registered again,
      and it ends complete without the row of a key that never left the store. */
  lemma DeletedBeforeBind(r: Rules, site: Site, k: Key) returns (es: seq<Event>)
    requires Plain(r, k)
    ensures ValidRun(r, Init, es)
    ensures var s := Run(r, Init, es);
            && 0 in s.gens && s.gens[0].complete && Rows(s, 0) == {}
            && Objects(s, site) == {k} && 0 in s.lives && s.lives[0].site == site && s.lives[0].through == {k}
  {
    var saved := Some(Checkpoint(site, 0, "list", Some(k)));
    es := ResumedThenDeleted(r, site, k);
    ScanRevives(site, k, saved);
    var s := OneKey(true, site, k, map[], map[], saved, Scanner(site, "list", Some(k), Bind(true)));
    ReachesNext(r, es, s, BindGen(1), Bound(s, 1));
    es := es + [BindGen(1)];
    LastPage(r, es, true, site, k, Registered(site), saved);
    es := es + [ListPage(1, {}, {}, None)] + [EndPage(1)];
    var s' := OneKey(true, site, k, Registered(site), map[], saved, Scanner(site, "list", Some(k), Mark));
    ReachesNext(r, es, s', MarkComplete(1), Marked(s', 1));
    es := es + [MarkComplete(1)];
  }

  lemma ResumedThenDeleted(r: Rules, site: Site, k: Key) returns (es: seq<Event>)
    requires Plain(r, k)
    ensures Reaches(r, es, OneKey(true, site, k, map[], map[], Some(Checkpoint(site, 0, "list", Some(k))),
                                  Scanner(site, "list", Some(k), Bind(true))))
  {
    var rows, saved := RowMap(r.rowsFor(k)), Some(Checkpoint(site, 0, "list", Some(k)));
    var wk := Scanner(site, "list", Some(k), List);
    es := PageSaved(r, site, k);
    PcMoves(false, site, k, Registered(site), rows, saved, wk, Failed);
    var s := OneKey(false, site, k, Registered(site), rows, saved, wk);
    ReachesNext(r, es, s, Crash(0), SetPc(s, 0, Failed));
    es := es + [Crash(0)];
    ScanResumes(site, k, r.rowsFor(k));
    var s' := OneKey(false, site, k, Registered(site), rows, saved, wk.(pc := Failed));
    ReachesNext(r, es, s', Start(1, site, Some(0), 1), Started(s', 1, site, Some(0), 1));
    es := es + [Start(1, site, Some(0), 1)];
    ScanVanishes(true, site, k, r.rowsFor(k), saved, wk.(pc := Bind(true)));
    ReachesNext(r, es, OneKey(true, site, k, Registered(site), rows, saved, wk.(pc := Bind(true))), DeleteGen(0),
                OneKey(true, site, k, map[], map[], saved, wk.(pc := Bind(true))));
    es := es + [DeleteGen(0)];
  }
}
