/**
No lost updates.  In runs where an ingest holds the ingest lease from staging through publication, and a
compaction holds it to stage, and again from comparing versions through publication, the current records
are always the fold of the ingest commits published so far, although the compaction merges without the lease.
*/
module StoreLeased {
  import opened Wrappers
  import opened StoreModel
  import opened StoreInvariant
  import opened StoreSafety

  /** The discipline: staging under the lease, publishing under it what is known to be up to date.  Giving up the
      lease ends that knowledge.  A compaction regains it by `CheckVersion`, an ingest has nothing to regain
      it by: it must hold the lease without a break from staging through publication. */
  ghost predicate UnderLease(s: State, p: Pid, a: Action) {
    p in s.procs ==>
      && (a.LockForStaging? && s.procs[p].Writer? ==> s.procs[p].w.lease)
      && (a.LockForPublish? && s.procs[p].Writer? ==> s.procs[p].w.lease && s.procs[p].w.upToDate)
      && (a.GcLock? ==> HoldsLease(s.procs[p]))
  }

  ghost predicate IsLeasedRun(run: seq<State>, events: seq<Event>) {
    && IsRun(run, events)
    && forall i: nat :: i < |events| ==> UnderLease(run[i], events[i].p, events[i].a)
  }

  // ---------------------------------------------------------------- invariant

  ghost predicate NoRepeats(h: seq<Gen>) {
    forall i, j :: 0 <= i < j < |h| ==> h[i] != h[j]
  }

  ghost predicate HistoryOk(s: State) {
    && NoRepeats(s.history)
    && (s.current == if s.history == [] then None else Some(s.history[|s.history| - 1]))
    && forall g :: g in s.history ==> g < s.nextGen
  }

  /** Publishing `w` now would make current exactly what is current plus its own commits. */
  ghost predicate Ahead(s: State, w: WriterVars) {
    s.current != Some(w.gen) ==>
      w.gen !in s.history && DocsOf(s.content, w.segs) == Fold(CurrentDocs(s), w.ops)
  }

  /** `CURRENT` is what a compaction staged from exactly as long as nothing has been published since. */
  ghost predicate CompactionOk(s: State, w: WriterVars) {
    && w.ops == [] && w.base.Some? && w.base.value in s.history && w.stagedAt <= |s.history|
    && (s.current == w.base <==> w.stagedAt == |s.history|)
    && (s.current == w.base ==> DocsOf(s.content, w.segs) == CurrentDocs(s))
    && (!w.attempted ==> w.gen !in s.history)
    && (w.upToDate && s.current != Some(w.gen) ==> s.current == w.base)
  }

  predicate BeforeStaging(pc: WriterPc) {
    pc.Waiting? || pc.Naming? || pc.Created? || pc.LeaseWritten? || pc.Pinned?
  }

  predicate InPublish(pc: WriterPc) {
    pc.Preparing? || pc.Prepared? || pc.Renamed? || pc.Flipped? || pc.Pruning? || pc.Removing? || pc.Collecting?
  }

  ghost predicate LeasedWriterOk(s: State, w: WriterVars, pc: WriterPc) {
    && (WriterHoldsStore(pc) ==> w.lease)
    && if BeforeStaging(pc) then !w.upToDate && !w.attempted && w.ops == [] && w.gen !in s.history
       else if pc.Dropping? then true
       else && Elems(w.segs) <= s.content.Keys
            && (WriterHoldsStore(pc) ==> w.upToDate) && (InPublish(pc) ==> w.attempted)
            && (w.upToDate ==> w.lease && Ahead(s, w))
            && (w.kind.Compaction? ==> CompactionOk(s, w))
  }

  ghost predicate LeasedGcOk(s: State, g: Gen, held: bool, segs: seq<Seg>, pc: GcPc) {
    && (!pc.GcWaiting? && !pc.GcDone? ==> held)
    && (pc.GcWaiting? || pc.Clearing? || pc.TempMade? || pc.TempStaged? || pc.GcRenamed? ==> g !in s.history)
    && (pc.TempStaged? || pc.GcRenamed? ==>
          s.current.Some? && Elems(segs) <= s.content.Keys && DocsOf(s.content, segs) == CurrentDocs(s))
  }

  ghost predicate LeasedOk(s: State, x: Proc) {
    match x
    case Reader(_) => true
    case Writer(w, pc) => LeasedWriterOk(s, w, pc)
    case Collector(g, held, segs, pc) => LeasedGcOk(s, g, held, segs, pc)
  }

  ghost predicate OneLease(s: State) {
    forall p, q :: p in s.procs && q in s.procs && HoldsLease(s.procs[p]) && HoldsLease(s.procs[q]) ==> p == q
  }

  ghost predicate LeasedInv(s: State) {
    && OneLease(s) && HistoryOk(s) && CurrentDocs(s) == Fold(s.base, s.log)
    && forall p :: p in s.procs ==> LeasedOk(s, s.procs[p])
  }

  // ---------------------------------------------------------------- folding

  lemma {:induction false} FoldAppend(base: Docs, a: seq<Commit>, b: seq<Commit>)
    ensures Fold(base, a + b) == Fold(Fold(base, a), b)
    decreases |b|
  {
    if b == [] {
      assert a + b == a;
    } else {
      FoldAppend(base, a, b[..|b| - 1]);
      assert (a + b)[..|a + b| - 1] == a + b[..|b| - 1];
    }
  }

  // ---------------------------------------------------------------- steps that do not publish

  /** `CURRENT` and the history of what was published stay as they are. */
  ghost predicate Calm(s: State, s': State) {
    && s'.current == s.current && s'.history == s.history && s'.base == s.base && s'.log == s.log
    && s.nextGen <= s'.nextGen
    && s.content.Keys <= s'.content.Keys && (forall x :: x in s.content ==> s'.content[x] == s.content[x])
  }

  lemma CurrentDocsStable(s: State, p: Pid, s': State)
    requires Inv(s) && Guarantee(s, p, s') && s'.current == s.current
    ensures CurrentDocs(s') == CurrentDocs(s)
  {
    if s.current.Some? {
      var d := Final(s.current.value);
      FinalStable(s, p, s', s.current.value);
      assert d in s.dirs && s.dirs[d].meta.Some?;
      DocsStable(s.content, s'.content, s.dirs[d].meta.value);
    }
  }

  lemma LeasedOkStable(s: State, s': State, x: Proc)
    requires Calm(s, s') && CurrentDocs(s') == CurrentDocs(s) && LeasedOk(s, x)
    ensures LeasedOk(s', x)
  {
    if x.Writer? && Elems(x.w.segs) <= s.content.Keys {
      DocsStable(s.content, s'.content, x.w.segs);
    }
    if x.Collector? && Elems(x.segs) <= s.content.Keys {
      DocsStable(s.content, s'.content, x.segs);
    }
  }

  lemma CalmStep(s: State, p: Pid, s': State)
    requires Inv(s) && LeasedInv(s) && Guarantee(s, p, s') && Calm(s, s')
    requires p in s'.procs ==> LeasedOk(s', s'.procs[p])
    requires p in s'.procs && HoldsLease(s'.procs[p]) ==> (p in s.procs && HoldsLease(s.procs[p])) || LeaseFree(s)
    ensures LeasedInv(s')
  {
    CurrentDocsStable(s, p, s');
    forall q | q in s'.procs ensures LeasedOk(s', s'.procs[q]) {
      if q != p {
        LeasedOkStable(s, s', s.procs[q]);
      }
    }
  }

  // ---------------------------------------------------------------- publishing

  lemma FlipDocs(s: State, s': State, g: Gen, segs: seq<Seg>, commits: seq<Commit>)
    requires LeasedInv(s) && InFinal(s, g, segs) && s.current != Some(g)
    requires s' == Flip1(s, g, commits).(procs := s'.procs)
    requires DocsOf(s.content, segs) == Fold(CurrentDocs(s), commits)
    ensures CurrentDocs(s') == DocsOf(s.content, segs) == Fold(s'.base, s'.log)
  {
    FoldAppend(s.base, s.log, commits);
  }

  /** The others are not up to date while `p` holds the lease; a compaction among them learns that
      `CURRENT` has moved on. */
  lemma FlipOthers(s: State, p: Pid, s': State, g: Gen, x: Proc)
    requires HistoryOk(s) && LeasedOk(s, x) && !HoldsLease(x) && OwnGen(x) != Some(g)
    requires s'.content == s.content && s'.history == s.history + [g] && s'.current == Some(g) && g !in s.history
    ensures LeasedOk(s', x)
  {
  }

  lemma FlipHistory(s: State, s': State, g: Gen, commits: seq<Commit>)
    requires HistoryOk(s) && s' == Flip1(s, g, commits).(procs := s'.procs)
    requires g !in s.history && s.current != Some(g) && g < s.nextGen
    ensures HistoryOk(s')
  {
  }

  lemma FlipLease(s: State, p: Pid, s': State)
    requires OneLease(s) && p in s.procs && p in s'.procs && OthersSame(s, p, s') && HoldsLease(s.procs[p])
    ensures OneLease(s') && forall q :: q in s.procs && q != p ==> !HoldsLease(s.procs[q])
  {
  }

  lemma FlipStep(s: State, p: Pid, s': State, g: Gen, segs: seq<Seg>, commits: seq<Commit>)
    requires Inv(s) && LeasedInv(s) && p in s.procs && p in s'.procs && OthersSame(s, p, s')
    requires HoldsLease(s.procs[p]) && OwnGen(s.procs[p]) == Some(g)
    requires InFinal(s, g, segs) && g !in s.history && s.current != Some(g)
    requires s' == Flip1(s, g, commits).(procs := s'.procs)
    requires DocsOf(s.content, segs) == Fold(CurrentDocs(s), commits)
    requires LeasedOk(s', s'.procs[p])
    ensures LeasedInv(s')
  {
    Facts(s, p);
    FlipDocs(s, s', g, segs, commits);
    FlipHistory(s, s', g, commits);
    FlipLease(s, p, s');
    forall q | q in s'.procs ensures LeasedOk(s', s'.procs[q]) {
      if q != p {
        FlipOthers(s, p, s', g, s.procs[q]);
      }
    }
  }

  // ---------------------------------------------------------------- what each step leaves its process with

  /** `p` stays, takes the lease only where it is free, and its facts hold where it goes. */
  ghost predicate Carries(s: State, p: Pid, s': State)
    requires p in s.procs
  {
    && Calm(s, s') && p in s'.procs && LeasedOk(s, s'.procs[p])
    && (HoldsLease(s'.procs[p]) ==> HoldsLease(s.procs[p]) || LeaseFree(s))
  }

  lemma StageCarries(s: State, p: Pid, a: Action, s': State)
    requires p in s.procs && s.procs[p].Writer? && StageStep(s, p, a, s') && !a.StageFrom?
    requires LeasedOk(s, s.procs[p]) && UnderLease(s, p, a)
    ensures Carries(s, p, s')
  {
  }

  lemma StageFromCarries(s: State, p: Pid, s': State)
    requires p in s.procs && s.procs[p].Writer? && StageStep(s, p, StageFrom, s')
    requires DirsOk(s) && CurrentOk(s) && HistoryOk(s) && LeasedOk(s, s.procs[p])
    ensures Carries(s, p, s')
  {
    var w' := s'.procs[p].w;
    assert DocsOf(s.content, w'.segs) == CurrentDocs(s);
    assert w'.ops == [];
  }

  lemma RewriteKeepsSegments(s: State, p: Pid, w: WriterVars, w': WriterVars, s': State)
    requires DirsOk(s) && WriterOk(s, w, Pending) && Rewrites(s, p, w, w', s')
    ensures Elems(w'.segs) <= s'.content.Keys
  {
    assert InStaging(s, w);
    assert s.dirs[Staging(w.gen)].manifest.value <= s.segments;
  }

  /** What was written or merged, the writer's facts hold of it. */
  lemma WriteKeeps(s: State, p: Pid, a: Action, s': State)
    requires p in s.procs && s.procs[p].Writer? && WriteStep(s, p, a, s') && !a.CheckVersion?
    requires DirsOk(s) && CurrentOk(s) && ProcOk(s, s.procs[p])
    requires LeasedOk(s, s.procs[p]) && CurrentDocs(s') == CurrentDocs(s)
    ensures LeasedOk(s', s'.procs[p])
  {
    var w, w' := s.procs[p].w, s'.procs[p].w;
    RewriteKeepsSegments(s, p, w, w', s');
    assert s.current != Some(w.gen);
    assert a.CommitWrites? ==> w'.ops[..|w'.ops| - 1] == w.ops;
  }

  lemma WriteCalm(s: State, p: Pid, a: Action, s': State)
    requires p in s.procs && s.procs[p].Writer? && WriteStep(s, p, a, s') && !a.CheckVersion?
    ensures Calm(s, s') && p in s'.procs && (HoldsLease(s'.procs[p]) <==> HoldsLease(s.procs[p]))
  {
  }

  lemma CheckCarries(s: State, p: Pid, w: WriterVars, s': State)
    requires p in s.procs && s.procs[p] == Writer(w, Pending) && LeasedOk(s, s.procs[p])
    requires w.kind.Compaction? && w.lease && !w.attempted && s.current == w.base
    requires s' == Goto(s, p, Writer(w.(upToDate := true), Pending))
    ensures Carries(s, p, s')
  {
  }

  lemma PrepareCarries(s: State, p: Pid, a: Action, s': State)
    requires p in s.procs && s.procs[p].Writer? && PublishStep(s, p, a, s')
    requires a.LockForPublish? || a.Adopt? || a.WriteManifest?
    requires LeasedOk(s, s.procs[p]) && UnderLease(s, p, a)
    ensures Carries(s, p, s')
  {
  }

  lemma RenameCarries(s: State, p: Pid, a: Action, s': State)
    requires p in s.procs && s.procs[p].Writer? && PublishStep(s, p, a, s')
    requires a.RenameStaging? || a.FoundFinal?
    requires LeasedOk(s, s.procs[p])
    ensures Carries(s, p, s')
  {
  }

  lemma PublishCarries(s: State, p: Pid, a: Action, s': State)
    requires p in s.procs && s.procs[p].Writer? && PublishStep(s, p, a, s')
    requires a.MarkPublished? || a.FailPublish?
    requires LeasedOk(s, s.procs[p])
    ensures Carries(s, p, s')
  {
  }

  lemma PruneCarries(s: State, p: Pid, a: Action, s': State)
    requires p in s.procs && s.procs[p].Writer? && CleanStep(s, p, a, s')
    requires a.PruneStart? || a.PruneRemove? || a.PruneEnd?
    requires LeasedOk(s, s.procs[p])
    ensures Carries(s, p, s')
  {
  }

  lemma CollectCarries(s: State, p: Pid, a: Action, s': State)
    requires p in s.procs && s.procs[p].Writer? && CleanStep(s, p, a, s')
    requires a.BeginScan? || a.ScanDir? || a.Sweep? || a.FinishPublish?
    requires LeasedOk(s, s.procs[p])
    ensures Carries(s, p, s')
  {
  }

  lemma DropCarries(s: State, p: Pid, a: Action, s': State)
    requires p in s.procs && s.procs[p].Writer? && DropStep(s, p, a, s') && !a.EndDrop?
    requires LeasedOk(s, s.procs[p])
    ensures Carries(s, p, s')
  {
  }

  lemma LeaseCarries(s: State, p: Pid, a: Action, s': State)
    requires p in s.procs && !s.procs[p].Reader? && LeaseStep(s, p, a, s')
    requires LeasedOk(s, s.procs[p])
    ensures Carries(s, p, s')
  {
  }

  lemma GcStartCarries(s: State, p: Pid, a: Action, s': State)
    requires p in s.procs && s.procs[p].Collector? && GcStep(s, p, a, s')
    requires a.GcLock? || a.GcClear? || a.GcMakeTemp?
    requires LeasedOk(s, s.procs[p]) && UnderLease(s, p, a)
    ensures Carries(s, p, s')
  {
  }

  lemma GcRenameCarries(s: State, p: Pid, a: Action, s': State)
    requires p in s.procs && s.procs[p].Collector? && GcStep(s, p, a, s')
    requires a.GcRename? || a.GcBeginDrop? || a.GcDropRemove?
    requires LeasedOk(s, s.procs[p])
    ensures Carries(s, p, s')
  {
  }

  lemma GcStageCarries(s: State, p: Pid, s': State)
    requires p in s.procs && s.procs[p].Collector? && GcStep(s, p, GcStage, s')
    requires DirsOk(s) && CurrentOk(s) && LeasedOk(s, s.procs[p])
    ensures Carries(s, p, s')
  {
  }

  lemma GcEndCarries(s: State, p: Pid, a: Action, s': State)
    requires p in s.procs && s.procs[p].Collector? && GcStep(s, p, a, s')
    requires a.GcRemove? || a.GcBeginScan? || a.GcScanDir? || a.GcSweep? || a.GcFinish? || a.GcFail?
    requires LeasedOk(s, s.procs[p])
    ensures Carries(s, p, s')
  {
  }

  // ---------------------------------------------------------------- every step

  lemma CarriesStep(s: State, p: Pid, s': State)
    requires Inv(s) && LeasedInv(s) && Guarantee(s, p, s') && p in s.procs && Carries(s, p, s')
    ensures LeasedInv(s')
  {
    CurrentDocsStable(s, p, s');
    LeasedOkStable(s, s', s'.procs[p]);
    CalmStep(s, p, s');
  }

  lemma WriterFlipStep(s: State, p: Pid, w: WriterVars, s': State)
    requires Inv(s) && LeasedInv(s) && p in s.procs && s.procs[p] == Writer(w, Renamed)
    requires s' == Goto(Flip1(s, w.gen, w.ops), p, Writer(w, Flipped)) && Guarantee(s, p, s')
    ensures LeasedInv(s')
  {
    if s.current == Some(w.gen) {
      assert LeasedWriterOk(s, w, Renamed);
      CarriesStep(s, p, s');
    } else {
      FirstFlipStep(s, p, w, s');
    }
  }

  lemma FirstFlipReady(s: State, p: Pid, w: WriterVars)
    requires ProcOk(s, Writer(w, Renamed)) && LeasedOk(s, Writer(w, Renamed)) && s.current != Some(w.gen)
    ensures w.lease && InFinal(s, w.gen, w.segs) && w.gen !in s.history
    ensures DocsOf(s.content, w.segs) == Fold(CurrentDocs(s), w.ops)
  {
  }

  lemma FirstFlipStep(s: State, p: Pid, w: WriterVars, s': State)
    requires Inv(s) && LeasedInv(s) && p in s.procs && s.procs[p] == Writer(w, Renamed) && s.current != Some(w.gen)
    requires s' == Goto(Flip1(s, w.gen, w.ops), p, Writer(w, Flipped))
    ensures LeasedInv(s')
  {
    Facts(s, p);
    FirstFlipReady(s, p, w);
    WriterFlipOwn(s, p, w, s');
    FlipStep(s, p, s', w.gen, w.segs, w.ops);
  }

  lemma WriterFlipOwn(s: State, p: Pid, w: WriterVars, s': State)
    requires p in s.procs && s.procs[p] == Writer(w, Renamed) && LeasedOk(s, s.procs[p]) && HistoryOk(s)
    requires s.current != Some(w.gen) && s' == Goto(Flip1(s, w.gen, w.ops), p, Writer(w, Flipped))
    ensures LeasedOk(s', s'.procs[p])
  {
  }

  lemma GcFlipStep(s: State, p: Pid, x: Proc, s': State)
    requires Inv(s) && LeasedInv(s) && p in s.procs && s.procs[p] == x && x.Collector? && x.gpc.GcRenamed?
    requires s' == Goto(Flip1(s, x.gen, []), p, x.(gpc := GcRemoving(x.gpc.doomed, x.gpc.locked)))
    ensures LeasedInv(s')
  {
    Facts(s, p);
    assert s.current != Some(x.gen);
    FlipStep(s, p, s', x.gen, x.segs, []);
  }

  lemma LeaveStep(s: State, p: Pid, s': State)
    requires Inv(s) && LeasedInv(s) && p in s.procs && s' == s.(procs := s.procs - {p}) && Guarantee(s, p, s')
    ensures LeasedInv(s')
  {
    CalmStep(s, p, s');
  }

  lemma SpawnStep(s: State, p: Pid, a: Action, s': State)
    requires Inv(s) && LeasedInv(s) && Spawn(s, p, a, s') && Guarantee(s, p, s')
    ensures LeasedInv(s')
  {
    CalmStep(s, p, s');
  }

  lemma CalmReader(s: State, p: Pid, s': State)
    requires Inv(s) && LeasedInv(s) && Guarantee(s, p, s') && Calm(s, s') && (p in s'.procs ==> s'.procs[p].Reader?)
    ensures LeasedInv(s')
  {
    CalmStep(s, p, s');
  }

  lemma ReaderCalm(s: State, p: Pid, a: Action, s': State)
    requires p in s.procs && s.procs[p].Reader? && ReaderStep(s, p, a, s')
    ensures Calm(s, s') && (p in s'.procs ==> s'.procs[p].Reader?)
  {
  }

  lemma StageLeasedStep(s: State, p: Pid, a: Action, s': State)
    requires Inv(s) && LeasedInv(s) && p in s.procs && s.procs[p].Writer? && StageStep(s, p, a, s')
    requires Guarantee(s, p, s') && UnderLease(s, p, a)
    ensures LeasedInv(s')
  {
    if a.StageFrom? { StageFromCarries(s, p, s'); } else { StageCarries(s, p, a, s'); }
    CarriesStep(s, p, s');
  }

  lemma WriteLeasedStep(s: State, p: Pid, a: Action, s': State)
    requires Inv(s) && LeasedInv(s) && p in s.procs && s.procs[p].Writer? && WriteStep(s, p, a, s')
    requires Guarantee(s, p, s')
    ensures LeasedInv(s')
  {
    if a.CheckVersion? {
      CheckCarries(s, p, s.procs[p].w, s');
      CarriesStep(s, p, s');
    } else {
      Facts(s, p);
      WriteCalm(s, p, a, s');
      CurrentDocsStable(s, p, s');
      WriteKeeps(s, p, a, s');
      CalmStep(s, p, s');
    }
  }

  lemma PublishLeasedStep(s: State, p: Pid, a: Action, s': State)
    requires Inv(s) && LeasedInv(s) && p in s.procs && s.procs[p].Writer? && PublishStep(s, p, a, s')
    requires Guarantee(s, p, s') && UnderLease(s, p, a)
    ensures LeasedInv(s')
  {
    if a.FlipCurrent? {
      WriterFlipStep(s, p, s.procs[p].w, s');
      return;
    }
    if a.LockForPublish? || a.Adopt? || a.WriteManifest? { PrepareCarries(s, p, a, s'); }
    else if a.RenameStaging? || a.FoundFinal? { RenameCarries(s, p, a, s'); }
    else { PublishCarries(s, p, a, s'); }
    CarriesStep(s, p, s');
  }

  lemma CleanLeasedStep(s: State, p: Pid, a: Action, s': State)
    requires Inv(s) && LeasedInv(s) && p in s.procs && s.procs[p].Writer? && CleanStep(s, p, a, s')
    requires Guarantee(s, p, s')
    ensures LeasedInv(s')
  {
    if a.PruneStart? || a.PruneRemove? || a.PruneEnd? { PruneCarries(s, p, a, s'); }
    else { CollectCarries(s, p, a, s'); }
    CarriesStep(s, p, s');
  }

  lemma DropLeasedStep(s: State, p: Pid, a: Action, s': State)
    requires Inv(s) && LeasedInv(s) && p in s.procs && s.procs[p].Writer? && DropStep(s, p, a, s')
    requires Guarantee(s, p, s')
    ensures LeasedInv(s')
  {
    if a.EndDrop? {
      LeaveStep(s, p, s');
    } else {
      DropCarries(s, p, a, s');
      CarriesStep(s, p, s');
    }
  }

  lemma LeaseLeasedStep(s: State, p: Pid, a: Action, s': State)
    requires Inv(s) && LeasedInv(s) && p in s.procs && !s.procs[p].Reader? && LeaseStep(s, p, a, s')
    requires Guarantee(s, p, s')
    ensures LeasedInv(s')
  {
    LeaseCarries(s, p, a, s');
    CarriesStep(s, p, s');
  }

  lemma WriterLeasedStep(s: State, p: Pid, a: Action, s': State)
    requires Inv(s) && LeasedInv(s) && p in s.procs && s.procs[p].Writer? && WriterStep(s, p, a, s')
    requires Guarantee(s, p, s') && UnderLease(s, p, a)
    ensures LeasedInv(s')
  {
    if StageStep(s, p, a, s') { StageLeasedStep(s, p, a, s'); }
    else if WriteStep(s, p, a, s') { WriteLeasedStep(s, p, a, s'); }
    else if PublishStep(s, p, a, s') { PublishLeasedStep(s, p, a, s'); }
    else if CleanStep(s, p, a, s') { CleanLeasedStep(s, p, a, s'); }
    else if DropStep(s, p, a, s') { DropLeasedStep(s, p, a, s'); }
    else { LeaseLeasedStep(s, p, a, s'); }
  }

  lemma GcCarries(s: State, p: Pid, a: Action, s': State)
    requires p in s.procs && s.procs[p].Collector? && GcStep(s, p, a, s') && !a.GcFlip?
    requires DirsOk(s) && CurrentOk(s) && LeasedOk(s, s.procs[p]) && UnderLease(s, p, a)
    ensures Carries(s, p, s')
  {
    if a.GcStage? { GcStageCarries(s, p, s'); }
    else if a.GcLock? || a.GcClear? || a.GcMakeTemp? { GcStartCarries(s, p, a, s'); }
    else if a.GcRename? || a.GcBeginDrop? || a.GcDropRemove? { GcRenameCarries(s, p, a, s'); }
    else { GcEndCarries(s, p, a, s'); }
  }

  lemma GcStaysStep(s: State, p: Pid, a: Action, s': State)
    requires Inv(s) && LeasedInv(s) && p in s.procs && s.procs[p].Collector? && GcStep(s, p, a, s') && !a.GcFlip?
    requires Guarantee(s, p, s') && UnderLease(s, p, a)
    ensures LeasedInv(s')
  {
    GcCarries(s, p, a, s');
    CarriesStep(s, p, s');
  }

  lemma GcLeasedStep(s: State, p: Pid, a: Action, s': State)
    requires Inv(s) && LeasedInv(s) && p in s.procs && s.procs[p].Collector? && CollectorStep(s, p, a, s')
    requires Guarantee(s, p, s') && UnderLease(s, p, a)
    ensures LeasedInv(s')
  {
    if GcStep(s, p, a, s') {
      if a.GcFlip? { GcFlipStep(s, p, s.procs[p], s'); } else { GcStaysStep(s, p, a, s'); }
    } else {
      LeaseLeasedStep(s, p, a, s');
    }
  }

  lemma LeasedStep(s: State, p: Pid, a: Action, s': State)
    requires Inv(s) && LeasedInv(s) && Next(s, p, a, s') && UnderLease(s, p, a)
    ensures Inv(s') && LeasedInv(s')
  {
    NextKeepsInv(s, p, a, s');
    if p !in s.procs { SpawnStep(s, p, a, s'); }
    else if a.Crash? { LeaveStep(s, p, s'); }
    else if s.procs[p].Reader? { ReaderCalm(s, p, a, s'); CalmReader(s, p, s'); }
    else if s.procs[p].Writer? { WriterLeasedStep(s, p, a, s'); }
    else { GcLeasedStep(s, p, a, s'); }
  }

  lemma LeasedStart(s: State)
    requires Init(s)
    ensures Inv(s) && LeasedInv(s)
  {
    InitOk(s);
    if s.current.Some? {
      assert Final(s.current.value).g < s.nextGen;
    }
  }

  lemma {:induction false} LeasedRun(run: seq<State>, events: seq<Event>, i: nat)
    requires IsLeasedRun(run, events) && i < |run|
    ensures Inv(run[i]) && LeasedInv(run[i])
  {
    assert RunStep(run, events, i);
    if i == 0 {
      LeasedStart(run[0]);
    } else {
      LeasedRun(run, events, i - 1);
      LeasedStep(run[i - 1], events[i - 1].p, events[i - 1].a, run[i]);
    }
  }

  // ---------------------------------------------------------------- the theorems

  /** The current records are the fold of every ingest commit published since the start, in order:
      none is lost, none is applied twice, and compactions and collections add nothing. */
  lemma NoLostUpdates(run: seq<State>, events: seq<Event>, i: nat)
    requires IsLeasedRun(run, events) && i < |run|
    ensures CurrentDocs(run[i]) == Fold(run[i].base, run[i].log)
  {
    LeasedRun(run, events, i);
  }

  /** A compaction that moves `CURRENT` moves it from the very generation it staged from, with nothing
      published in between, and leaves the current records and the log of commits as they were. */
  lemma CompactionChangesNothing(run: seq<State>, events: seq<Event>, i: nat, w: WriterVars)
    requires IsLeasedRun(run, events) && i < |events| && events[i].a.FlipCurrent?
    requires events[i].p in run[i].procs && run[i].procs[events[i].p] == Writer(w, Renamed) && w.kind.Compaction?
    ensures CurrentDocs(run[i + 1]) == CurrentDocs(run[i]) && run[i + 1].log == run[i].log
    ensures run[i + 1].current != run[i].current ==> run[i].current == w.base && |run[i].history| == w.stagedAt
  {
    NextLeased(run, events, i);
    CompactionFlip(run[i], events[i].p, events[i].a, w, run[i + 1]);
  }

  lemma NextLeased(run: seq<State>, events: seq<Event>, i: nat)
    requires IsLeasedRun(run, events) && i < |events|
    ensures LeasedInv(run[i]) && LeasedInv(run[i + 1]) && Next(run[i], events[i].p, events[i].a, run[i + 1])
  {
    LeasedRun(run, events, i);
    LeasedRun(run, events, i + 1);
    assert RunStep(run, events, i + 1);
  }

  lemma FlipIs(s: State, p: Pid, a: Action, w: WriterVars, s': State)
    requires p in s.procs && s.procs[p] == Writer(w, Renamed) && Next(s, p, a, s') && a.FlipCurrent?
    ensures s' == Goto(Flip1(s, w.gen, w.ops), p, Writer(w, Flipped))
  {
  }

  lemma CompactionFlip(s: State, p: Pid, a: Action, w: WriterVars, s': State)
    requires LeasedInv(s) && p in s.procs && s.procs[p] == Writer(w, Renamed) && w.kind.Compaction?
    requires LeasedInv(s') && Next(s, p, a, s') && a.FlipCurrent?
    ensures CurrentDocs(s') == CurrentDocs(s) && s'.log == s.log
    ensures s'.current != s.current ==> s.current == w.base && |s.history| == w.stagedAt
  {
    assert LeasedWriterOk(s, w, Renamed);
    FlipIs(s, p, a, w, s');
    assert s.log + w.ops == s.log;
  }

  /** If anything else was published since a compaction staged, its second look fails for good. */
  lemma CompactionNoticesPublication(run: seq<State>, events: seq<Event>, i: nat, p: Pid)
    requires IsLeasedRun(run, events) && i < |run| && p in run[i].procs && run[i].procs[p].Writer?
    requires run[i].procs[p].pc.Pending? && run[i].procs[p].w.kind.Compaction?
    ensures run[i].current == run[i].procs[p].w.base <==> run[i].procs[p].w.stagedAt == |run[i].history|
  {
    LeasedRun(run, events, i);
  }
}
