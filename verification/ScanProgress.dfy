/** The storage scan gets somewhere: what a start, a bad cursor and a save lead
    to, and that a worker which keeps its lease can always finish. */
module ScanProgress {
  import opened Basics
  import opened Keys
  import opened StorageScan

  /** A listed key gives rise to rows of its own. */
  ghost predicate OwnRows(r: Rules) {
    forall k, row :: row in r.rowsFor(k) ==> row.key == k && r.may(row)
  }

  /** A run that finishes worker `w` on generation `g`, which is complete then if
      it was registered, and with clean steps only if asked for. */
  ghost predicate Finishing(r: Rules, s: State, es: seq<Event>, w: WorkerId, g: GenId, registered: bool, clean: bool) {
    && ValidRun(r, s, es) && (clean ==> CleanRun(r, s, es))
    && var s' := Run(r, s, es);
       && At(s', w, Finished) && s'.workers[w].state.gen == g
       && (registered ==> g in s'.gens && s'.gens[g].complete)
  }

  lemma FinishingAfter(r: Rules, s: State, e: Event, es: seq<Event>, w: WorkerId, g: GenId, registered: bool, clean: bool)
    requires Enabled(r, s, e) && (clean ==> Clean(r, s, e)) && Finishing(r, Step(r, s, e), es, w, g, registered, clean)
    ensures Finishing(r, s, [e] + es, w, g, registered, clean)
  {
    RunCons(r, s, e, es);
  }

  /** A worker that holds its lease and whose generation saw all stored keys. */
  predicate Able(s: State, w: WorkerId) {
    && w in s.workers && LeaseHeld(s, s.workers[w])
    && s.workers[w].state.gen in s.lives
    && Objects(s, s.workers[w].site) <= s.lives[s.workers[w].state.gen].ever
  }

  lemma SaveFinishes(r: Rules, s: State, w: WorkerId, clean: bool) returns (es: seq<Event>)
    requires At(s, w, SaveApply) && Able(s, w)
    requires s.workers[w].state.gen in s.gens ==> s.gens[s.workers[w].state.gen].complete
    ensures Finishing(r, s, es, w, s.workers[w].state.gen, s.workers[w].state.gen in s.gens, clean)
  {
    var s' := Persisted(s, w);
    assert At(s', w, Finished) && s'.gens == s.gens;
    FinishingAfter(r, s, Save(w), [], w, s.workers[w].state.gen, s.workers[w].state.gen in s.gens, clean);
    es := [Save(w)] + [];
  }

  lemma MarkFinishes(r: Rules, s: State, w: WorkerId, clean: bool) returns (es: seq<Event>)
    requires At(s, w, Mark) && Able(s, w)
    ensures Finishing(r, s, es, w, s.workers[w].state.gen, s.workers[w].state.gen in s.gens, clean)
  {
    MarkedShape(s, w);
    var rest := SaveFinishes(r, Marked(s, w), w, clean);
    FinishingAfter(r, s, MarkComplete(w), rest, w, s.workers[w].state.gen, s.workers[w].state.gen in s.gens, clean);
    es := [MarkComplete(w)] + rest;
  }

  /** The last page: its rows are stored one by one. */
  lemma {:induction false} LastPutFinishes(r: Rules, s: State, w: WorkerId, clean: bool) returns (es: seq<Event>)
    requires w in s.workers && s.workers[w].pc.Put? && s.workers[w].pc.next.None? && Able(s, w)
    ensures Finishing(r, s, es, w, s.workers[w].state.gen, s.workers[w].state.gen in s.gens, clean)
    decreases s.workers[w].pc.pending
  {
    var wk := s.workers[w];
    var g := wk.state.gen;
    if row :| row in wk.pc.pending {
      StoredShape(s, w, row);
      var rest := LastPutFinishes(r, Stored(s, w, row), w, clean);
      FinishingAfter(r, s, PutRow(w, row), rest, w, g, g in s.gens, clean);
      es := [PutRow(w, row)] + rest;
    } else {
      var rest := MarkFinishes(r, SetPc(s, w, Mark), w, clean);
      FinishingAfter(r, s, EndPage(w), rest, w, g, g in s.gens, clean);
      es := [EndPage(w)] + rest;
    }
  }

  function RowsOf(r: Rules, page: set<Key>): set<Row> {
    set k, row | k in page && !r.hidden(k) && row in r.rowsFor(k) :: row
  }

  lemma ListFinishes(r: Rules, s: State, w: WorkerId, clean: bool) returns (es: seq<Event>)
    requires OwnRows(r) && At(s, w, List) && Able(s, w)
    ensures Finishing(r, s, es, w, s.workers[w].state.gen, s.workers[w].state.gen in s.gens, clean)
  {
    var g := s.workers[w].state.gen;
    var page := Objects(s, s.workers[w].site);
    var e := ListPage(w, page, RowsOf(r, page), None);
    assert PendingFor(r, page, RowsOf(r, page));
    var rest := LastPutFinishes(r, SetPc(s, w, Put(RowsOf(r, page), None)), w, clean);
    FinishingAfter(r, s, e, rest, w, g, g in s.gens, clean);
    es := [e] + rest;
  }

  lemma CursorFinishes(r: Rules, s: State, w: WorkerId, clean: bool) returns (es: seq<Event>)
    requires OwnRows(r) && w in s.workers && s.workers[w].pc in {SaveRestart, SaveCursor} && Able(s, w)
    ensures Finishing(r, s, es, w, s.workers[w].state.gen, s.workers[w].state.gen in s.gens, clean)
  {
    var g := s.workers[w].state.gen;
    SavedShape(s, w);
    var rest := ListFinishes(r, Persisted(s, w), w, clean);
    FinishingAfter(r, s, Save(w), rest, w, g, g in s.gens, clean);
    es := [Save(w)] + rest;
  }

  /** What a save under a held lease does: the worker lists again, its job has the checkpoint. */
  lemma SavedShape(s: State, w: WorkerId)
    requires w in s.workers && s.workers[w].pc in {SaveRestart, SaveCursor} && LeaseHeld(s, s.workers[w])
    ensures var s', wk := Persisted(s, w), s.workers[w];
            && s'.workers == s.workers[w := wk.(pc := List)] && LeaseHeld(s', s'.workers[w])
            && s'.gens == s.gens && s'.rows == s.rows && s'.lives == s.lives && s'.objects == s.objects
            && s'.jobs == if wk.job.None? then s.jobs
                          else s.jobs[wk.job.value := Job(s.jobs[wk.job.value].lease, Some(wk.state))]
  {}

  lemma {:induction false} PutFinishes(r: Rules, s: State, w: WorkerId, clean: bool) returns (es: seq<Event>)
    requires OwnRows(r) && w in s.workers && s.workers[w].pc.Put? && Able(s, w)
    ensures Finishing(r, s, es, w, s.workers[w].state.gen, s.workers[w].state.gen in s.gens, clean)
    decreases s.workers[w].pc.pending
  {
    var wk := s.workers[w];
    var g := wk.state.gen;
    if wk.pc.next.None? {
      es := LastPutFinishes(r, s, w, clean);
    } else if row :| row in wk.pc.pending {
      StoredShape(s, w, row);
      var rest := PutFinishes(r, Stored(s, w, row), w, clean);
      FinishingAfter(r, s, PutRow(w, row), rest, w, g, g in s.gens, clean);
      es := [PutRow(w, row)] + rest;
    } else {
      var rest := CursorFinishes(r, Ended(s, w), w, clean);
      FinishingAfter(r, s, EndPage(w), rest, w, g, g in s.gens, clean);
      es := [EndPage(w)] + rest;
    }
  }

  /** What a registration that does not fail does. */
  lemma BoundShape(s: State, w: WorkerId)
    requires w in s.workers && s.workers[w].pc.Bind? && s.workers[w].state.gen in s.lives
    requires s.workers[w].state.gen in s.gens ==> s.gens[s.workers[w].state.gen].instance == s.workers[w].site.instance
    ensures var s', wk := Bound(s, w), s.workers[w];
            var g := wk.state.gen;
            && s'.workers == s.workers[w := wk.(pc := if wk.restarted then SaveRestart else List)]
            && s'.gens == (if g in s.gens then s.gens else s.gens[g := Gen(wk.site.instance, false)])
            && s'.rows == s.rows && s'.objects == s.objects && s'.jobs == s.jobs
            && s'.lives == (if g in s.gens then s.lives else s.lives[g := s.lives[g].(bound := true)])
  {}

  lemma BindFinishes(r: Rules, s: State, w: WorkerId, clean: bool) returns (es: seq<Event>)
    requires OwnRows(r) && w in s.workers && s.workers[w].pc.Bind? && Able(s, w)
    requires s.workers[w].state.gen in s.gens ==> s.gens[s.workers[w].state.gen].instance == s.workers[w].site.instance
    requires clean ==> Clean(r, s, BindGen(w))
    ensures Finishing(r, s, es, w, s.workers[w].state.gen, true, clean)
  {
    BoundShape(s, w);
    var s' := Bound(s, w);
    var rest;
    if s.workers[w].restarted {
      rest := CursorFinishes(r, s', w, clean);
    } else {
      rest := ListFinishes(r, s', w, clean);
    }
    FinishingAfter(r, s, BindGen(w), rest, w, s.workers[w].state.gen, true, clean);
    es := [BindGen(w)] + rest;
  }

  /** In every sound state a worker that has not failed and holds its lease can
      finish on its generation by steps of its own. The generation is complete then
      if it was registered or was about to be. */
  lemma WorkerCanFinish(r: Rules, s: State, w: WorkerId, clean: bool) returns (es: seq<Event>)
    requires OwnRows(r) && Inv(r, s) && w in s.workers && s.workers[w].pc != Failed && LeaseHeld(s, s.workers[w])
    requires clean && s.workers[w].pc.Bind? ==> Clean(r, s, BindGen(w))
    ensures Finishing(r, s, es, w, s.workers[w].state.gen, s.workers[w].state.gen in s.gens || s.workers[w].pc.Bind?, clean)
  {
    WorkerHolds(r, s, w);
    var pc := s.workers[w].pc;
    if pc.Bind? {
      es := BindFinishes(r, s, w, clean);
    } else if pc.Put? {
      es := PutFinishes(r, s, w, clean);
    } else if pc == List {
      es := ListFinishes(r, s, w, clean);
    } else if pc in {SaveRestart, SaveCursor} {
      es := CursorFinishes(r, s, w, clean);
    } else if pc == Mark {
      es := MarkFinishes(r, s, w, clean);
    } else if pc == SaveApply {
      es := SaveFinishes(r, s, w, clean);
    } else {
      es := [];
    }
  }

  // ---- a start ----

  /** A worker fails at its start exactly when its job's checkpoint was taken at
      another storage instance; otherwise it can finish. */
  lemma StartCanFinish(r: Rules, es: seq<Event>, e: Event) returns (more: seq<Event>)
    requires OwnRows(r) && ValidRun(r, Init, es) && CleanRun(r, Init, es) && e.Start? && Enabled(r, Run(r, Init, es), e)
    ensures var s := Run(r, Init, es);
            var s' := Step(r, s, e);
            && e.w in s'.workers
            && (At(s', e.w, Failed) <==> Foreign(s, e.owner, e.site))
            && (!At(s', e.w, Failed) ==>
                  Finishing(r, s', more, e.w, s'.workers[e.w].state.gen, true, false))
  {
    RunKeepsInv(r, Init, es);
    var s := Run(r, Init, es);
    var s' := Step(r, s, e);
    StartKeepsInv(r, s, e);
    more := [];
    StartedWorker(r, s, e);
    if !At(s', e.w, Failed) {
      more := WorkerCanFinish(r, s', e.w, false);
    }
  }

  /** The job's checkpoint was taken at another storage instance. */
  predicate Foreign(s: State, owner: Option<JobId>, site: Site)
    requires owner.Some? ==> owner.value in s.jobs
  {
    owner.Some? && s.jobs[owner.value].saved.Some? && s.jobs[owner.value].saved.value.site.instance != site.instance
  }

  lemma RefusesExactlyWhen(s: State, owner: Option<JobId>, site: Site, minted: GenId)
    requires owner.Some? ==> owner.value in s.jobs
    ensures Decide(Saved(s, owner), site, s.gens, minted).Refuse? <==> Foreign(s, owner, site)
  {}

  lemma RefusedFails(s: State, e: Event)
    requires e.Start? && e.minted !in s.lives && (e.owner.Some? ==> e.owner.value in s.jobs)
    requires Decide(Saved(s, e.owner), e.site, s.gens, e.minted).Refuse? || Decide(Saved(s, e.owner), e.site, s.gens, e.minted).Rescan?
    ensures var s' := Started(s, e.w, e.site, e.owner, e.minted);
            && e.w in s'.workers && s'.jobs == s.jobs && LeaseHeld(s, s'.workers[e.w])
            && s'.workers[e.w].pc == if Decide(Saved(s, e.owner), e.site, s.gens, e.minted).Refuse? then Failed else Bind(false)
  {}

  lemma StartedWorker(r: Rules, s: State, e: Event)
    requires Inv(r, s) && e.Start? && Enabled(r, s, e)
    ensures var s' := Started(s, e.w, e.site, e.owner, e.minted);
            && e.w in s'.workers && LeaseHeld(s', s'.workers[e.w])
            && (s'.workers[e.w].pc == Failed <==> Foreign(s, e.owner, e.site))
            && (s'.workers[e.w].pc == Failed || s'.workers[e.w].pc.Bind? || s'.workers[e.w].state.gen in s'.gens)
  {
    var d := Decide(Saved(s, e.owner), e.site, s.gens, e.minted);
    RefusesExactlyWhen(s, e.owner, e.site, e.minted);
    if d.Adopt? || d.Resume? {
      DecideSound(r, s, e.owner, e.site, e.minted);
      HeldStartShape(s, e);
    } else {
      RefusedFails(s, e);
    }
  }

  // ---- a bad cursor ----

  /** An invalid cursor restarts the scan once: the old generation is dropped, a new
      one registered and saved as the job's checkpoint, and the worker lists again
      from the first page. A second one fails the worker and changes nothing else. */
  lemma BadCursorRestarts(r: Rules, es: seq<Event>, w: WorkerId, minted: GenId, again: GenId)
    requires ValidRun(r, Init, es) && CleanRun(r, Init, es)
    requires var s := Run(r, Init, es);
             At(s, w, List) && !s.workers[w].restarted && LeaseHeld(s, s.workers[w]) && minted !in s.lives
    ensures var s := Run(r, Init, es);
            var wk := s.workers[w];
            var restart := [BadCursor(w, minted)] + ([BindGen(w)] + ([Save(w)] + []));
            && ValidRun(r, s, restart) && CleanRun(r, s, restart)
            && var s' := Run(r, s, restart);
               && s'.workers == s.workers[w := Worker(wk.site, wk.job, wk.lease, FreshCheckpoint(wk.site, minted), List, true)]
               && s'.gens == (s.gens - {wk.state.gen})[minted := Gen(wk.site.instance, false)]
               && wk.state.gen != minted && s'.rows == s.rows - {wk.state.gen} && Rows(s', minted) == {}
               && s'.objects == s.objects
               && s'.jobs == (if wk.job.None? then s.jobs
                              else s.jobs[wk.job.value := Job(wk.lease, Some(Checkpoint(wk.site, minted, "list", None)))])
               && (again !in s'.lives ==>
                     Enabled(r, s', BadCursor(w, again)) && Step(r, s', BadCursor(w, again)) == SetPc(s', w, Failed))
  {
    RunKeepsInv(r, Init, es);
    RestartRun(r, Run(r, Init, es), w, minted);
  }

  lemma RestartRun(r: Rules, s: State, w: WorkerId, minted: GenId)
    requires Inv(r, s) && At(s, w, List) && !s.workers[w].restarted && LeaseHeld(s, s.workers[w]) && minted !in s.lives
    ensures var restart := [BadCursor(w, minted)] + ([BindGen(w)] + ([Save(w)] + []));
            && s.workers[w].state.gen in s.lives && minted !in s.rows
            && ValidRun(r, s, restart) && CleanRun(r, s, restart)
            && Relisted(s, w, minted, Run(r, s, restart))
  {
    WorkerHolds(r, s, w);
    RestartSteps(s, w, minted);
    var s1 := Restarted(s, w, minted);
    var s2 := Bound(s1, w);
    RunCons(r, s2, Save(w), []);
    RunCons(r, s1, BindGen(w), [Save(w)] + []);
    RunCons(r, s, BadCursor(w, minted), [BindGen(w)] + ([Save(w)] + []));
  }

  /** The three steps one after the other. */
  lemma RestartSteps(s: State, w: WorkerId, minted: GenId)
    requires At(s, w, List) && !s.workers[w].restarted && LeaseHeld(s, s.workers[w])
    requires minted !in s.lives && minted !in s.gens && s.workers[w].state.gen in s.lives
    ensures var s1 := Restarted(s, w, minted);
            && At(s1, w, Bind(false))
            && var s2 := Bound(s1, w);
               At(s2, w, SaveRestart) && Relisted(s, w, minted, Persisted(s2, w))
  {
    var wk := s.workers[w];
    RestartedShape(s, w, minted);
    var s1 := Restarted(s, w, minted);
    BoundShape(s1, w);
    var s2 := Bound(s1, w);
    assert s2.workers[w] == Worker(wk.site, wk.job, wk.lease, FreshCheckpoint(wk.site, minted), SaveRestart, true);
    SavedShape(s2, w);
    SetTwice(s.workers, w, s1.workers[w], s2.workers[w], Persisted(s2, w).workers[w]);
  }

  lemma SetTwice(m: map<WorkerId, Worker>, w: WorkerId, a: Worker, b: Worker, c: Worker)
    ensures m[w := a][w := b][w := c] == m[w := c]
  {}

  /** The worker lists again under the new generation. */
  ghost predicate Relisted(s: State, w: WorkerId, minted: GenId, s': State)
    requires w in s.workers && LeaseHeld(s, s.workers[w])
  {
    var wk := s.workers[w];
    && s'.workers == s.workers[w := Worker(wk.site, wk.job, wk.lease, FreshCheckpoint(wk.site, minted), List, true)]
    && s'.gens == (s.gens - {wk.state.gen})[minted := Gen(wk.site.instance, false)]
    && s'.rows == s.rows - {wk.state.gen} && s'.objects == s.objects
    && s'.jobs == (if wk.job.None? then s.jobs
                   else s.jobs[wk.job.value := Job(wk.lease, Some(Checkpoint(wk.site, minted, "list", None)))])
  }

  lemma RestartedShape(s: State, w: WorkerId, minted: GenId)
    requires w in s.workers && !s.workers[w].restarted && minted !in s.lives
    requires s.workers[w].state.gen in s.lives
    ensures var s', wk := Restarted(s, w, minted), s.workers[w];
            && s'.workers == s.workers[w := Worker(wk.site, wk.job, wk.lease, FreshCheckpoint(wk.site, minted), Bind(false), true)]
            && s'.gens == s.gens - {wk.state.gen} && s'.rows == s.rows - {wk.state.gen}
            && s'.objects == s.objects && s'.jobs == s.jobs && minted in s'.lives
  {}

  /** And after the restart the scan can be finished with the new generation complete. */
  lemma RestartCanFinish(r: Rules, es: seq<Event>, w: WorkerId, minted: GenId) returns (more: seq<Event>)
    requires OwnRows(r) && ValidRun(r, Init, es) && CleanRun(r, Init, es)
    requires var s := Run(r, Init, es);
             At(s, w, List) && !s.workers[w].restarted && LeaseHeld(s, s.workers[w]) && minted !in s.lives
    ensures var s := Run(r, Init, es);
            Enabled(r, s, BadCursor(w, minted)) && Finishing(r, Step(r, s, BadCursor(w, minted)), more, w, minted, true, true)
  {
    RunKeepsInv(r, Init, es);
    more := RestartedFinishes(r, Run(r, Init, es), w, minted);
  }

  lemma RestartedFinishes(r: Rules, s: State, w: WorkerId, minted: GenId) returns (more: seq<Event>)
    requires OwnRows(r) && Inv(r, s) && At(s, w, List) && !s.workers[w].restarted && LeaseHeld(s, s.workers[w])
    requires minted !in s.lives
    ensures Finishing(r, Restarted(s, w, minted), more, w, minted, true, true)
  {
    WorkerHolds(r, s, w);
    RestartedShape(s, w, minted);
    BadCursorKeepsInv(r, s, w, minted);
    var s' := Restarted(s, w, minted);
    assert s'.workers[w].pc == Bind(false) && s'.workers[w].state.gen == minted;
    assert LeaseHeld(s', s'.workers[w]);
    more := WorkerCanFinish(r, s', w, true);
  }

  // ---- the fence ----

  /** Worker `w` started under an older lease of its job than the present one. */
  predicate Stale(s: State, w: WorkerId) {
    w in s.workers && var wk := s.workers[w];
    wk.job.Some? && wk.job.value in s.jobs && wk.lease < s.jobs[wk.job.value].lease
  }

  /** Workers keep their job and lease, and leases only grow. */
  predicate Fences(s: State, s': State) {
    && JobsGrow(s, s')
    && (forall w :: w in s.workers ==>
          w in s'.workers && s'.workers[w].job == s.workers[w].job && s'.workers[w].lease == s.workers[w].lease)
  }

  lemma StartFences(r: Rules, s: State, e: Event)
    requires e.Start? && Enabled(r, s, e)
    ensures Fences(s, Started(s, e.w, e.site, e.owner, e.minted))
  {
    var d := Decide(Saved(s, e.owner), e.site, s.gens, e.minted);
    if d.Adopt? || d.Resume? {
      HeldStartShape(s, e);
    } else {
      MintedStartShape(s, e);
    }
  }

  lemma SaveFences(s: State, w: WorkerId)
    requires w in s.workers
    ensures Fences(s, Persisted(s, w))
  {}

  lemma QueueFences(r: Rules, s: State, e: Event)
    requires Enabled(r, s, e) && (e.AddKey? || e.RemoveKey? || e.NewJob? || e.TakeLease? || e.DeleteGen?)
    ensures Fences(s, Step(r, s, e))
  {}

  lemma WorkFences(r: Rules, s: State, e: Event)
    requires Enabled(r, s, e) && (e.Crash? || e.ListPage? || e.PutRow? || e.EndPage? || e.MarkComplete?)
    ensures Fences(s, Step(r, s, e))
  {}

  lemma BindFences(s: State, w: WorkerId)
    requires w in s.workers
    ensures Fences(s, Bound(s, w))
  {}

  lemma RestartFences(s: State, w: WorkerId, minted: GenId)
    requires w in s.workers
    ensures Fences(s, Restarted(s, w, minted))
  {}

  lemma StepFences(r: Rules, s: State, e: Event)
    requires Enabled(r, s, e)
    ensures Fences(s, Step(r, s, e))
  {
    match e
    case Start(_, _, _, _) => StartFences(r, s, e);
    case Save(w) => SaveFences(s, w);
    case BindGen(w) => BindFences(s, w);
    case BadCursor(w, minted) => RestartFences(s, w, minted);
    case _ =>
      if e.AddKey? || e.RemoveKey? || e.NewJob? || e.TakeLease? || e.DeleteGen? {
        QueueFences(r, s, e);
      } else {
        WorkFences(r, s, e);
      }
  }

  lemma {:induction false} StaysStale(r: Rules, s: State, es: seq<Event>, w: WorkerId)
    requires ValidRun(r, s, es) && Stale(s, w)
    ensures Stale(Run(r, s, es), w)
    decreases |es|
  {
    if es != [] {
      StepFences(r, s, es[0]);
      StaysStale(r, Step(r, s, es[0]), es[1..], w);
    }
  }

  /** Once its job's lease was taken over, a worker never writes that job's
      checkpoint again: whenever it tries to, it fails and no job changes. */
  lemma FencedForGood(r: Rules, s: State, es: seq<Event>, w: WorkerId)
    requires ValidRun(r, s, es) && Stale(s, w) && Enabled(r, Run(r, s, es), Save(w))
    ensures var s1 := Run(r, s, es);
            var s2 := Step(r, s1, Save(w));
            s2.jobs == s1.jobs && At(s2, w, Failed)
  {
    StaysStale(r, s, es, w);
  }

  /** A takeover makes every earlier worker of the job stale. */
  lemma TakeoverFences(r: Rules, es: seq<Event>, j: JobId, w: WorkerId)
    requires ValidRun(r, Init, es) && CleanRun(r, Init, es)
    requires var s := Run(r, Init, es); j in s.jobs && w in s.workers && s.workers[w].job == Some(j)
    ensures Stale(Leased(Run(r, Init, es), j), w)
  {
    RunKeepsInv(r, Init, es);
    WorkerHolds(r, Run(r, Init, es), w);
  }

  // ---- what a crash costs ----

  /** The successor of a crashed worker: a new worker of the same job, under a new lease. */
  function Successor(w: WorkerId, j: JobId, next: WorkerId, site: Site, minted: GenId): seq<Event> {
    [Save(w)] + ([Crash(w)] + ([TakeLease(j)] + ([Start(next, site, Some(j), minted)] + [])))
  }

  /** What the invariant says of a registered worker's checkpoint. */
  predicate Trusted(s: State, wk: Worker) {
    && wk.state.site == wk.site && wk.state.gen in s.gens
    && s.gens[wk.state.gen].instance == wk.site.instance
    && wk.state.phase == (if wk.pc == SaveApply then "apply" else "list")
    && (wk.pc == SaveApply ==> s.gens[wk.state.gen].complete)
  }

  lemma HolderIsTrusted(r: Rules, s: State, w: WorkerId)
    requires Inv(r, s) && w in s.workers && s.workers[w].pc !in {Failed, Finished}
    requires LeaseHeld(s, s.workers[w]) && s.workers[w].state.gen in s.gens
    ensures Trusted(s, s.workers[w])
  {
    var v := ViewOf(s, s.workers[w].state.gen);
    assert HolderOk(r, s, w, s.workers[w]);
    assert GenOk(r, v, Objects(s, v.life.site));
  }

  lemma StartedFrom(s: State, wk: Worker, j: JobId, next: WorkerId, minted: GenId)
    requires Trusted(s, wk) && j in s.jobs && s.jobs[j].saved == Some(wk.state)
    ensures Started(s, next, wk.site, Some(j), minted)
            == s.(workers := s.workers[next :=
                 if wk.pc == SaveApply then Worker(wk.site, Some(j), s.jobs[j].lease, Checkpoint(wk.site, wk.state.gen, "apply", None), Finished, false)
                 else Worker(wk.site, Some(j), s.jobs[j].lease, wk.state, Bind(true), false)])
  {
    DecodesWhatPersistWrote(Encoded(wk.state), wk.site.instance, wk.state);
  }

  /** A save, the crash and the new lease, seen from the successor. */
  lemma Handed(s: State, w: WorkerId, j: JobId)
    requires w in s.workers && s.workers[w].job == Some(j) && LeaseHeld(s, s.workers[w])
    ensures var s' := Leased(SetPc(Persisted(s, w), w, Failed), j);
            && s'.jobs == s.jobs[j := Job(s.workers[w].lease + 1, Some(s.workers[w].state))]
            && s'.gens == s.gens && s'.rows == s.rows && s'.lives == s.lives && s'.workers.Keys == s.workers.Keys
  {}

  lemma SuccessorRun(r: Rules, s: State, w: WorkerId, j: JobId, next: WorkerId, minted: GenId)
    requires w in s.workers && s.workers[w].pc in {SaveCursor, SaveApply} && Trusted(s, s.workers[w])
    requires s.workers[w].job == Some(j) && LeaseHeld(s, s.workers[w]) && next !in s.workers && minted !in s.lives
    ensures var es := Successor(w, j, next, s.workers[w].site, minted);
            && ValidRun(r, s, es)
            && Run(r, s, es) == Started(Leased(SetPc(Persisted(s, w), w, Failed), j), next, s.workers[w].site, Some(j), minted)
  {
    var start := Start(next, s.workers[w].site, Some(j), minted);
    var s1 := Persisted(s, w);
    var s2 := SetPc(s1, w, Failed);
    Handed(s, w, j);
    RunCons(r, Leased(s2, j), start, []);
    RunCons(r, s2, TakeLease(j), [start] + []);
    RunCons(r, s1, Crash(w), [TakeLease(j)] + ([start] + []));
    RunCons(r, s, Save(w), [Crash(w)] + ([TakeLease(j)] + ([start] + [])));
  }

  lemma EndedPage(s: State, w: WorkerId) returns (s': State)
    requires w in s.workers && s.workers[w].pc.Put? && s.workers[w].pc.next.Some? && Trusted(s, s.workers[w])
    requires LeaseHeld(s, s.workers[w])
    ensures s' == Ended(s, w) && w in s'.workers && s'.workers.Keys == s.workers.Keys
    ensures s'.gens == s.gens && s'.rows == s.rows && s'.lives == s.lives && s'.jobs == s.jobs
    ensures var wk, wk' := s.workers[w], s'.workers[w];
            && wk'.pc == SaveCursor && wk'.site == wk.site && wk'.job == wk.job && wk'.lease == wk.lease
            && wk'.state == Checkpoint(wk.site, wk.state.gen, "list", wk.pc.next)
            && Trusted(s', wk') && LeaseHeld(s', wk')
  {
    s' := Ended(s, w);
  }

  lemma PageIsHanded(r: Rules, s: State, w: WorkerId, j: JobId, next: WorkerId, minted: GenId)
    requires w in s.workers && s.workers[w].pc.Put? && s.workers[w].pc.pending == {} && s.workers[w].pc.next.Some?
    requires Trusted(s, s.workers[w]) && s.workers[w].job == Some(j) && LeaseHeld(s, s.workers[w])
    requires next !in s.workers && minted !in s.lives
    ensures var wk, more := s.workers[w], [EndPage(w)] + Successor(w, j, next, s.workers[w].site, minted);
            && ValidRun(r, s, more)
            && var s' := Run(r, s, more);
               && s'.gens == s.gens && s'.rows == s.rows && next in s'.workers
               && s'.workers[next] == Worker(wk.site, Some(j), wk.lease + 1,
                                             Checkpoint(wk.site, wk.state.gen, "list", wk.pc.next), Bind(true), false)
  {
    var s1 := EndedPage(s, w);
    SuccessorRun(r, s1, w, j, next, minted);
    Handed(s1, w, j);
    StartedFrom(Leased(SetPc(Persisted(s1, w), w, Failed), j), s1.workers[w], j, next, minted);
    RunCons(r, s, EndPage(w), Successor(w, j, next, s.workers[w].site, minted));
  }

  /** A page that is done is not listed again: after a crash behind its checkpoint
      the successor goes on from the next cursor, in the same generation. */
  lemma PageSurvivesCrash(r: Rules, es: seq<Event>, w: WorkerId, j: JobId, next: WorkerId, minted: GenId)
    requires ValidRun(r, Init, es) && CleanRun(r, Init, es)
    requires var s := Run(r, Init, es);
             && w in s.workers && s.workers[w].pc.Put? && s.workers[w].pc.pending == {} && s.workers[w].pc.next.Some?
             && s.workers[w].job == Some(j) && LeaseHeld(s, s.workers[w]) && s.workers[w].state.gen in s.gens
             && next !in s.workers && minted !in s.lives
    ensures var s := Run(r, Init, es);
            var wk, more := s.workers[w], [EndPage(w)] + Successor(w, j, next, s.workers[w].site, minted);
            && ValidRun(r, s, more)
            && var s' := Run(r, s, more);
               && s'.gens == s.gens && s'.rows == s.rows && next in s'.workers
               && s'.workers[next] == Worker(wk.site, Some(j), wk.lease + 1,
                                             Checkpoint(wk.site, wk.state.gen, "list", wk.pc.next), Bind(true), false)
  {
    var s := Run(r, Init, es);
    RunKeepsInv(r, Init, es);
    HolderIsTrusted(r, s, w);
    PageIsHanded(r, s, w, j, next, minted);
  }

  /** A finished scan is not repeated: behind its last checkpoint the successor
      returns the same generation at once. */
  lemma FinishSurvivesCrash(r: Rules, es: seq<Event>, w: WorkerId, j: JobId, next: WorkerId, minted: GenId)
    requires ValidRun(r, Init, es) && CleanRun(r, Init, es)
    requires var s := Run(r, Init, es);
             && At(s, w, SaveApply) && s.workers[w].job == Some(j) && LeaseHeld(s, s.workers[w])
             && s.workers[w].state.gen in s.gens && next !in s.workers && minted !in s.lives
    ensures var s := Run(r, Init, es);
            var more := Successor(w, j, next, s.workers[w].site, minted);
            && ValidRun(r, s, more)
            && var s' := Run(r, s, more);
               At(s', next, Finished) && s'.workers[next].state.gen == s.workers[w].state.gen
               && s'.gens == s.gens && s'.rows == s.rows && s'.gens[s.workers[w].state.gen].complete
  {
    var s := Run(r, Init, es);
    RunKeepsInv(r, Init, es);
    HolderIsTrusted(r, s, w);
    SuccessorRun(r, s, w, j, next, minted);
    Handed(s, w, j);
    StartedFrom(Leased(SetPc(Persisted(s, w), w, Failed), j), s.workers[w], j, next, minted);
  }
}
