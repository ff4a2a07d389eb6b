/** Every step keeps the store invariant, so it holds in every state of every run. */
module StoreSafety {
  import opened Wrappers
  import opened StoreModel
  import opened StoreInvariant

  /** What has to be shown of one step of `p`; the rest follows from the guarantee. */
  ghost predicate StepOk(s: State, p: Pid, s': State) {
    && Guarantee(s, p, s') && DirsOk(s') && CurrentOk(s')
    && (p in s'.procs ==> Alone(s', p) && ProcOk(s', s'.procs[p]))
  }

  lemma OthersAlone(s: State, p: Pid, s': State, q: Pid)
    requires q in s.procs && q in s'.procs && q != p
    requires Alone(s, q) && Guarantee(s, p, s') && (p in s'.procs ==> Alone(s', p))
    ensures Alone(s', q)
  {
    forall g: Gen, r | r in s'.procs && r != q && Excludes(s.procs[q], g)
      ensures !Excludes(s'.procs[r], g) && !Shares(s'.procs[r], g)
    {
      assert r != p ==> s'.procs[r] == s.procs[r];
    }
  }

  lemma StepKeepsInv(s: State, p: Pid, s': State)
    requires Inv(s) && StepOk(s, p, s')
    ensures Inv(s')
  {
    OthersStable(s, p, s');
    forall q | q in s'.procs && q != p ensures Alone(s', q) {
      Facts(s, q);
      OthersAlone(s, p, s', q);
    }
  }

  lemma CurrentStable(s: State, p: Pid, s': State)
    requires Inv(s) && Guarantee(s, p, s') && s'.current == s.current
    ensures CurrentOk(s')
  {
    if s.current.Some? {
      SettledStable(s, p, s', s.current.value);
      FinalStable(s, p, s', s.current.value);
    }
  }

  // ---------------------------------------------------------------- locks and names

  ghost predicate OthersSame(s: State, p: Pid, s': State) {
    forall q :: q != p ==> (q in s.procs <==> q in s'.procs) && (q in s.procs ==> s'.procs[q] == s.procs[q])
  }

  /** `y` has the name of `x`, and any lock it holds that `x` did not hold was free. */
  ghost predicate Follows(s: State, x: Proc, y: Proc) {
    && OwnGen(y) == OwnGen(x) && (Early(y) ==> Early(x))
    && (HoldsStore(y) ==> HoldsStore(x) || StoreFree(s))
    && (match y
        case Reader(r) => ReaderShares(r) ==> Shares(x, r.g) || NoExclusive(s, r.g)
        case Writer(w, pc) =>
          && (WriterShares(pc) ==> Shares(x, w.gen) || NoExclusive(s, w.gen))
          && (pc.Removing? && pc.locked ==> pc.d.g != w.gen && (Excludes(x, pc.d.g) || NoHolder(s, pc.d.g)))
        case Collector(_, _, _, pc) => forall g :: g in GcLocked(pc) ==> Excludes(x, g) || NoHolder(s, g))
  }

  /** `p` moves to `y`; names and contents are not touched. */
  ghost predicate Moves(s: State, p: Pid, y: Proc, s': State) {
    && p in s.procs && p in s'.procs && s'.procs[p] == y && OthersSame(s, p, s') && s'.nextGen == s.nextGen
    && Follows(s, s.procs[p], y)
  }

  lemma AloneOk(s: State, p: Pid, y: Proc, s': State)
    requires Inv(s) && Moves(s, p, y, s')
    ensures Alone(s', p)
  {
    Facts(s, p);
    forall q, g: Gen | q in s'.procs && q != p && Excludes(y, g)
      ensures !Excludes(s'.procs[q], g) && !Shares(s'.procs[q], g)
    {
      ExclusiveAlone(s, p, y, q, g);
    }
    forall q, g: Gen | q in s'.procs && q != p && Shares(y, g) ensures !Excludes(s'.procs[q], g) {
      SharedAlone(s, p, y, q, g);
    }
  }

  lemma ExclusiveAlone(s: State, p: Pid, y: Proc, q: Pid, g: Gen)
    requires p in s.procs && q in s.procs && q != p && Alone(s, p) && Follows(s, s.procs[p], y) && Excludes(y, g)
    ensures !Excludes(s.procs[q], g) && !Shares(s.procs[q], g)
  {
  }

  lemma SharedAlone(s: State, p: Pid, y: Proc, q: Pid, g: Gen)
    requires p in s.procs && q in s.procs && q != p && Alone(s, p) && Follows(s, s.procs[p], y) && Shares(y, g)
    ensures !Excludes(s.procs[q], g)
  {
  }

  // ---------------------------------------------------------------- kinds of change

  /** No file changes: `p` goes on to its next place, holding no lock it could not have taken. */
  ghost predicate Turns(s: State, p: Pid, s': State) {
    && p in s.procs && p in s'.procs && s' == Goto(s, p, s'.procs[p])
    && Follows(s, s.procs[p], s'.procs[p]) && ProcOk(s, s'.procs[p])
  }

  lemma TurnKeeps(s: State, p: Pid, s': State)
    requires Turns(s, p, s')
    ensures ProcOk(s', s'.procs[p])
  {
    var y := s'.procs[p];
    if y.Reader? {
      assert forall q :: q in s'.procs && OwnGen(s'.procs[q]) == Some(y.r.g) ==>
        q in s.procs && s'.procs[q] == s.procs[q];
    }
  }

  lemma TurnGuarantee(s: State, p: Pid, s': State)
    requires Turns(s, p, s')
    ensures Guarantee(s, p, s')
  {
  }

  lemma TurnOk(s: State, p: Pid, s': State)
    requires Inv(s) && Turns(s, p, s')
    ensures StepOk(s, p, s')
  {
    TurnKeeps(s, p, s');
    TurnGuarantee(s, p, s');
    AloneOk(s, p, s'.procs[p], s');
    CurrentStable(s, p, s');
  }

  lemma LeaveOk(s: State, p: Pid, s': State)
    requires Inv(s) && p in s.procs && s' == s.(procs := s.procs - {p})
    ensures StepOk(s, p, s')
  {
    assert Guarantee(s, p, s');
    CurrentStable(s, p, s');
  }

  /** `p` changed its own work directory `d`, and no other file but a new segment. */
  ghost predicate OwnWork(s: State, p: Pid, s': State, d: DirName) {
    && p in s.procs && s.content.Keys <= s'.content.Keys
    && (forall x :: x in s.content ==> s'.content[x] == s.content[x])
    && s'.current == s.current && s'.segments == s.segments
    && !d.Final? && d in s'.dirs && s'.dirs == s.dirs[d := s'.dirs[d]]
    && OwnGen(s.procs[p]) == Some(d.g) && (d !in s.dirs ==> Early(s.procs[p]))
    && (!HoldsStore(s.procs[p]) ==>
         d in s.dirs && s'.dirs[d].manifest == s.dirs[d].manifest && s'.dirs[d].lease == s.dirs[d].lease)
    && (s'.dirs[d].manifest.Some? ==> s'.dirs[d].manifest.value <= s.segments)
    && (s'.dirs[d].meta.Some? ==> Elems(s'.dirs[d].meta.value) <= s'.content.Keys)
  }

  lemma OwnWorkGuarantee(s: State, p: Pid, y: Proc, s': State, d: DirName)
    requires OwnWork(s, p, s', d) && Moves(s, p, y, s')
    ensures Guarantee(s, p, s')
  {
    assert forall e :: e != d ==> Untouched(s, s', e);
    assert OwnChange(s, s.procs[p], s', d);
  }

  lemma OwnWorkDirs(s: State, p: Pid, s': State, d: DirName)
    requires DirsOk(s) && OwnWork(s, p, s', d) && d.g < s.nextGen == s'.nextGen
    ensures DirsOk(s')
  {
  }

  lemma OwnWorkOk(s: State, p: Pid, y: Proc, s': State, d: DirName)
    requires Inv(s) && OwnWork(s, p, s', d) && Moves(s, p, y, s') && ProcOk(s', y)
    ensures StepOk(s, p, s')
  {
    Facts(s, p);
    OwnWorkGuarantee(s, p, y, s', d);
    OwnWorkDirs(s, p, s', d);
    AloneOk(s, p, y, s');
    CurrentStable(s, p, s');
  }

  /** `p` removes its own work directory, holding no more than before. */
  lemma OwnRemovalOk(s: State, p: Pid, d: DirName, s': State)
    requires Inv(s) && p in s.procs && OwnGen(s.procs[p]) == Some(d.g) && !d.Final?
    requires Unlinked1(s.dirs, d, s'.dirs) && s' == s.(dirs := s'.dirs) && ProcOk(s', s.procs[p])
    ensures StepOk(s, p, s')
  {
    OwnRemovalGuarantee(s, p, d, s');
    RemovalDirs(s, d, s');
    Facts(s, p);
    CurrentStable(s, p, s');
  }

  lemma OwnRemovalGuarantee(s: State, p: Pid, d: DirName, s': State)
    requires p in s.procs && OwnGen(s.procs[p]) == Some(d.g) && !d.Final?
    requires Unlinked1(s.dirs, d, s'.dirs) && s' == s.(dirs := s'.dirs)
    ensures Guarantee(s, p, s')
  {
    assert forall e :: e != d ==> Untouched(s, s', e);
    assert OwnChange(s, s.procs[p], s', d);
  }

  /** A prepared work directory `from` becomes the published directory of its name. */
  ghost predicate Renames(s: State, p: Pid, s': State, from: DirName, segs: seq<Seg>) {
    && p in s.procs && s'.content == s.content && s'.current == s.current && s'.segments == s.segments
    && HoldsStore(s.procs[p]) && OwnGen(s.procs[p]) == Some(from.g)
    && !from.Final? && from in s.dirs && Final(from.g) !in s.dirs
    && (from.Staging? ==> GcTemp(from.g) !in s.dirs) && (from.GcTemp? ==> Staging(from.g) !in s.dirs)
    && s.dirs[from].lease && s.dirs[from].manifest.Some? && s.dirs[from].meta == Some(segs)
    && Elems(segs) <= s.dirs[from].manifest.value
    && s'.dirs == (s.dirs - {from})[Final(from.g) := s.dirs[from]]
  }

  lemma RenamesGuarantee(s: State, p: Pid, y: Proc, s': State, from: DirName, segs: seq<Seg>)
    requires Renames(s, p, s', from, segs) && Moves(s, p, y, s')
    ensures Guarantee(s, p, s')
  {
    assert forall d :: d != from && d != Final(from.g) ==> Untouched(s, s', d);
    assert OwnChange(s, s.procs[p], s', from) && OwnChange(s, s.procs[p], s', Final(from.g));
  }

  lemma RenamesDirs(s: State, p: Pid, s': State, from: DirName, segs: seq<Seg>)
    requires DirsOk(s) && Renames(s, p, s', from, segs) && s'.nextGen == s.nextGen
    ensures DirsOk(s') && InFinal(s', from.g, segs)
  {
  }

  lemma RenamesOk(s: State, p: Pid, y: Proc, s': State, from: DirName, segs: seq<Seg>)
    requires Inv(s) && Renames(s, p, s', from, segs) && Moves(s, p, y, s') && ProcOk(s', y)
    ensures StepOk(s, p, s')
  {
    RenamesGuarantee(s, p, y, s', from, segs);
    RenamesDirs(s, p, s', from, segs);
    AloneOk(s, p, y, s');
    CurrentStable(s, p, s');
  }

  /** `CURRENT` moves to the published directory of `p`'s own name. */
  ghost predicate Flips(s: State, p: Pid, y: Proc, g: Gen, s': State) {
    && Moves(s, p, y, s') && HoldsStore(s.procs[p]) && !Early(y) && OwnGen(y) == Some(g)
    && s'.dirs == s.dirs && s'.segments == s.segments && s'.content == s.content && s'.current == Some(g)
  }

  lemma FlipGuarantee(s: State, p: Pid, y: Proc, g: Gen, s': State)
    requires Flips(s, p, y, g, s')
    ensures Guarantee(s, p, s')
  {
  }

  lemma FlipCurrentSettled(s: State, p: Pid, y: Proc, g: Gen, segs: seq<Seg>, s': State)
    requires p in s.procs && Alone(s, p) && Flips(s, p, y, g, s') && InFinal(s, g, segs)
    ensures CurrentOk(s')
  {
  }

  lemma FlipOk(s: State, p: Pid, y: Proc, g: Gen, segs: seq<Seg>, s': State)
    requires Inv(s) && Flips(s, p, y, g, s') && InFinal(s, g, segs) && ProcOk(s', y)
    ensures StepOk(s, p, s')
  {
    Facts(s, p);
    FlipGuarantee(s, p, y, g, s');
    FlipCurrentSettled(s, p, y, g, segs, s');
    AloneOk(s, p, y, s');
  }

  /** Under the store lock `p` removed entries of a directory it may remove. */
  lemma RemovalGuarantee(s: State, p: Pid, d: DirName, s': State)
    requires p in s.procs && HoldsStore(s.procs[p]) && Unlinked1(s.dirs, d, s'.dirs) && s' == s.(dirs := s'.dirs)
    requires s.current != Some(d.g) && (Excludes(s.procs[p], d.g) || !s.dirs[d].lease)
    ensures Guarantee(s, p, s')
  {
    assert forall e :: e != d ==> Untouched(s, s', e);
    assert Removal(s, s.procs[p], s', d);
  }

  lemma RemovalDirs(s: State, d: DirName, s': State)
    requires DirsOk(s) && Unlinked1(s.dirs, d, s'.dirs) && s' == s.(dirs := s'.dirs)
    ensures DirsOk(s')
  {
  }

  lemma SameAlone(s: State, p: Pid, s': State)
    requires p in s.procs && Alone(s, p) && s'.procs == s.procs && s'.nextGen == s.nextGen
    ensures Alone(s', p)
  {
  }

  lemma RemovalOk(s: State, p: Pid, d: DirName, s': State)
    requires Inv(s) && p in s.procs && HoldsStore(s.procs[p])
    requires Unlinked1(s.dirs, d, s'.dirs) && s' == s.(dirs := s'.dirs)
    requires s.current != Some(d.g) && (Excludes(s.procs[p], d.g) || !s.dirs[d].lease)
    requires ProcOk(s', s.procs[p])
    ensures StepOk(s, p, s')
  {
    RemovalGuarantee(s, p, d, s');
    RemovalDirs(s, d, s');
    SameAlone(s, p, s');
    CurrentStable(s, p, s');
  }

  /** Only the shared segment store changes, under its lock. */
  lemma StoreChangeOk(s: State, p: Pid, y: Proc, s': State)
    requires Inv(s) && Moves(s, p, y, s') && HoldsStore(s.procs[p])
    requires s'.dirs == s.dirs && s'.current == s.current && s'.content == s.content && s'.segments <= s.content.Keys
    requires Covers(s, {}, s'.segments)
    requires ProcOk(s', y)
    ensures StepOk(s, p, s')
  {
    assert Guarantee(s, p, s');
    AloneOk(s, p, y, s');
    CurrentStable(s, p, s');
  }

  lemma SweepCovers(s: State, reach: set<Seg>, segments': set<Seg>)
    requires DirsOk(s) && Covers(s, {}, reach) && s.segments * reach <= segments'
    ensures Covers(s, {}, segments')
  {
    forall d | d in s.dirs && s.dirs[d].manifest.Some? ensures s.dirs[d].manifest.value <= segments' {
      assert s.dirs[d].manifest.value <= s.segments * reach;
    }
  }

  // ---------------------------------------------------------------- new processes

  lemma NewReaderOk(s: State, p: Pid, s': State)
    requires Inv(s) && p !in s.procs && s.current.Some? && s' == Goto(s, p, Reader(Resolved(s.current.value)))
    ensures StepOk(s, p, s')
  {
    NewReaderGuarantee(s, p, s');
    CurrentStable(s, p, s');
  }

  lemma NewReaderGuarantee(s: State, p: Pid, s': State)
    requires p !in s.procs && s.current.Some? && s' == Goto(s, p, Reader(Resolved(s.current.value)))
    ensures Guarantee(s, p, s') && Alone(s', p)
  {
  }

  lemma NewOwnerGuarantee(s: State, p: Pid, y: Proc, s': State)
    requires p !in s.procs && s' == Goto(s, p, y).(nextGen := s.nextGen + 1)
    requires OwnGen(y) == Some(s.nextGen)
    ensures Guarantee(s, p, s')
  {
  }

  lemma NewOwnerAlone(s: State, p: Pid, y: Proc, s': State)
    requires p !in s.procs && s' == Goto(s, p, y).(nextGen := s.nextGen + 1)
    requires (y.Collector? && y.gpc.GcWaiting?) || (y.Writer? && y.pc.Waiting?)
    requires OwnGen(y) == Some(s.nextGen)
    requires forall q :: q in s.procs ==> OwnGen(s.procs[q]) != OwnGen(y)
    ensures Alone(s', p)
  {
  }

  lemma NewOwnerOk(s: State, p: Pid, y: Proc, s': State)
    requires Inv(s) && p !in s.procs && s' == Goto(s, p, y).(nextGen := s.nextGen + 1)
    requires (y.Collector? && y.gpc.GcWaiting?) || (y.Writer? && y.pc.Waiting?)
    requires OwnGen(y) == Some(s.nextGen)
    ensures StepOk(s, p, s')
  {
    NewOwnerGuarantee(s, p, y, s');
    CurrentStable(s, p, s');
    assert Absent(s, s.nextGen);
    forall q | q in s.procs ensures OwnGen(s.procs[q]) != OwnGen(y) {
      Facts(s, q);
    }
    NewOwnerAlone(s, p, y, s');
  }

  // ---------------------------------------------------------------- what each step leaves its process with

  lemma ReaderLooks(s: State, p: Pid, a: Action, s': State)
    requires p in s.procs && s.procs[p].Reader? && ReaderStep(s, p, a, s')
    requires a.OpenLease? || a.LockLease? || a.ReadManifest? || a.MissManifest?
    requires ProcOk(s, s.procs[p])
    ensures Turns(s, p, s')
  {
  }

  lemma ReaderOpens(s: State, p: Pid, a: Action, s': State)
    requires p in s.procs && s.procs[p].Reader? && ReaderStep(s, p, a, s') && (a.CheckStore? || a.ReadMeta?)
    requires DirsOk(s) && CurrentOk(s) && ProcOk(s, s.procs[p])
    ensures Turns(s, p, s')
  {
  }

  lemma ReaderRechecks(s: State, p: Pid, a: Action, s': State)
    requires p in s.procs && s.procs[p].Reader? && ReaderStep(s, p, a, s') && (a.Recheck? || a.ResolveAgain?)
    requires CurrentOk(s) && ProcOk(s, s.procs[p])
    ensures Turns(s, p, s') || s' == s.(procs := s.procs - {p})
  {
  }

  lemma ReaderStepOk(s: State, p: Pid, a: Action, s': State)
    requires Inv(s) && p in s.procs && s.procs[p].Reader? && ReaderStep(s, p, a, s')
    ensures StepOk(s, p, s')
  {
    Facts(s, p);
    if a.CloseReader? {
      LeaveOk(s, p, s');
    } else {
      if a.CheckStore? || a.ReadMeta? { ReaderOpens(s, p, a, s'); }
      else if a.Recheck? || a.ResolveAgain? { ReaderRechecks(s, p, a, s'); }
      else { ReaderLooks(s, p, a, s'); }
      if Turns(s, p, s') { TurnOk(s, p, s'); } else { LeaveOk(s, p, s'); }
    }
  }

  lemma StageLockTurns(s: State, p: Pid, a: Action, s': State)
    requires p in s.procs && s.procs[p].Writer? && StageStep(s, p, a, s') && (a.LockForStaging? || a.PinStaging?)
    requires ProcOk(s, s.procs[p])
    ensures Turns(s, p, s')
  {
  }

  lemma StageEndTurns(s: State, p: Pid, a: Action, s': State)
    requires p in s.procs && s.procs[p].Writer? && StageStep(s, p, a, s') && (a.UnlockStaging? || a.FailStage?)
    requires ProcOk(s, s.procs[p])
    ensures Turns(s, p, s')
  {
  }

  lemma MakeArrives(s: State, p: Pid, a: Action, s': State)
    requires p in s.procs && s.procs[p].Writer? && StageStep(s, p, a, s') && (a.MakeStaging? || a.WriteLease?)
    requires ProcOk(s, s.procs[p])
    ensures p in s'.procs && Moves(s, p, s'.procs[p], s') && ProcOk(s', s'.procs[p])
    ensures OwnWork(s, p, s', Staging(s.procs[p].w.gen))
  {
  }

  lemma StageArrives(s: State, p: Pid, a: Action, s': State)
    requires p in s.procs && s.procs[p].Writer? && StageStep(s, p, a, s') && a.StageFrom?
    requires DirsOk(s) && CurrentOk(s) && ProcOk(s, s.procs[p])
    ensures p in s'.procs && Moves(s, p, s'.procs[p], s') && ProcOk(s', s'.procs[p])
    ensures OwnWork(s, p, s', Staging(s.procs[p].w.gen))
  {
  }

  lemma StageStepOk(s: State, p: Pid, a: Action, s': State)
    requires Inv(s) && p in s.procs && s.procs[p].Writer? && StageStep(s, p, a, s')
    ensures StepOk(s, p, s')
  {
    Facts(s, p);
    if a.MakeStaging? || a.WriteLease? || a.StageFrom? {
      if a.StageFrom? { StageArrives(s, p, a, s'); } else { MakeArrives(s, p, a, s'); }
      OwnWorkOk(s, p, s'.procs[p], s', Staging(s.procs[p].w.gen));
    } else {
      if a.LockForStaging? || a.PinStaging? { StageLockTurns(s, p, a, s'); } else { StageEndTurns(s, p, a, s'); }
      TurnOk(s, p, s');
    }
  }

  lemma RewritesArrives(s: State, p: Pid, w: WriterVars, w': WriterVars, s': State)
    requires p in s.procs && s.procs[p] == Writer(w, Pending) && DirsOk(s) && WriterOk(s, w, Pending)
    requires w'.gen == w.gen && w'.inherited == w.inherited && Rewrites(s, p, w, w', s')
    ensures p in s'.procs && Moves(s, p, Writer(w', Pending), s') && InStaging(s', w')
    ensures OwnWork(s, p, s', Staging(w.gen))
  {
    assert InStaging(s, w);
    assert s.dirs[Staging(w.gen)].manifest.value <= s.segments;
  }

  lemma PendingTurns(s: State, p: Pid, w: WriterVars, s': State)
    requires p in s.procs && s.procs[p] == Writer(w, Pending) && WriterOk(s, w, Pending)
    requires || s' == Goto(s, p, Writer(w.(upToDate := true), Pending))
             || s' == Goto(s, p, Writer(w, Dropping(false)))
    ensures Turns(s, p, s')
  {
  }

  lemma CheckVersionOk(s: State, p: Pid, w: WriterVars, s': State)
    requires Inv(s) && p in s.procs && s.procs[p] == Writer(w, Pending)
    requires s' == Goto(s, p, Writer(w.(upToDate := true), Pending))
    ensures StepOk(s, p, s')
  {
    Facts(s, p);
    PendingTurns(s, p, w, s');
    TurnOk(s, p, s');
  }

  lemma WriteStepOk(s: State, p: Pid, a: Action, s': State)
    requires Inv(s) && p in s.procs && s.procs[p].Writer? && WriteStep(s, p, a, s')
    ensures StepOk(s, p, s')
  {
    var w := s.procs[p].w;
    if a.CheckVersion? {
      CheckVersionOk(s, p, w, s');
    } else {
      Facts(s, p);
      var w' := s'.procs[p].w;
      RewritesArrives(s, p, w, w', s');
      OwnWorkOk(s, p, Writer(w', Pending), s', Staging(w.gen));
    }
  }

  lemma FailTurns(s: State, p: Pid, a: Action, s': State)
    requires p in s.procs && s.procs[p].Writer? && PublishStep(s, p, a, s') && a.FailPublish?
    requires ProcOk(s, s.procs[p])
    ensures Turns(s, p, s')
  {
  }

  lemma PublishTurns(s: State, p: Pid, a: Action, s': State)
    requires p in s.procs && s.procs[p].Writer? && PublishStep(s, p, a, s')
    requires ProcOk(s, s.procs[p]) && (a.LockForPublish? || a.FoundFinal? || a.MarkPublished?)
    ensures Turns(s, p, s')
  {
  }

  lemma AdoptArrives(s: State, p: Pid, a: Action, s': State)
    requires p in s.procs && s.procs[p].Writer? && PublishStep(s, p, a, s') && a.Adopt?
    requires DirsOk(s) && ProcOk(s, s.procs[p])
    ensures p in s'.procs && Moves(s, p, s'.procs[p], s') && ProcOk(s', s'.procs[p])
    ensures s.segments <= s'.segments <= s.content.Keys
  {
    assert InStaging(s, s.procs[p].w);
  }

  lemma ManifestArrives(s: State, p: Pid, a: Action, s': State)
    requires p in s.procs && s.procs[p].Writer? && PublishStep(s, p, a, s') && a.WriteManifest?
    requires DirsOk(s) && ProcOk(s, s.procs[p])
    ensures p in s'.procs && Moves(s, p, s'.procs[p], s') && ProcOk(s', s'.procs[p])
    ensures OwnWork(s, p, s', Staging(s.procs[p].w.gen))
  {
    var w := s.procs[p].w;
    assert InStaging(s, w);
    assert s.dirs[Staging(w.gen)].manifest.value <= s.segments;
    assert Elems(w.segs) <= s.segments;
  }

  lemma RenameArrives(s: State, p: Pid, w: WriterVars, s': State)
    requires p in s.procs && s.procs[p] == Writer(w, Prepared) && WriterOk(s, w, Prepared) && DirsOk(s)
    requires s' == Goto(s, p, Writer(w, Renamed)).(
      dirs := (s.dirs - {Staging(w.gen)})[Final(w.gen) := s.dirs[Staging(w.gen)]])
    ensures Moves(s, p, Writer(w, Renamed), s') && Renames(s, p, s', Staging(w.gen), w.segs)
  {
  }

  lemma PublishQuietOk(s: State, p: Pid, a: Action, s': State)
    requires Inv(s) && p in s.procs && s.procs[p].Writer? && PublishStep(s, p, a, s')
    requires a.LockForPublish? || a.FoundFinal? || a.MarkPublished? || a.FailPublish?
    ensures StepOk(s, p, s')
  {
    Facts(s, p);
    if a.FailPublish? { FailTurns(s, p, a, s'); } else { PublishTurns(s, p, a, s'); }
    TurnOk(s, p, s');
  }

  lemma WritingOk(s: State, p: Pid, a: Action, s': State)
    requires Inv(s) && p in s.procs && s.procs[p].Writer? && PublishStep(s, p, a, s') && (a.Adopt? || a.WriteManifest?)
    ensures StepOk(s, p, s')
  {
    Facts(s, p);
    if a.Adopt? {
      AdoptArrives(s, p, a, s');
      StoreChangeOk(s, p, s'.procs[p], s');
    } else {
      ManifestArrives(s, p, a, s');
      OwnWorkOk(s, p, s'.procs[p], s', Staging(s.procs[p].w.gen));
    }
  }

  lemma RenameOk(s: State, p: Pid, w: WriterVars, s': State)
    requires Inv(s) && p in s.procs && s.procs[p] == Writer(w, Prepared)
    requires s' == Goto(s, p, Writer(w, Renamed)).(
      dirs := (s.dirs - {Staging(w.gen)})[Final(w.gen) := s.dirs[Staging(w.gen)]])
    ensures StepOk(s, p, s')
  {
    Facts(s, p);
    RenameArrives(s, p, w, s');
    RenamesDirs(s, p, s', Staging(w.gen), w.segs);
    RenamesOk(s, p, Writer(w, Renamed), s', Staging(w.gen), w.segs);
  }

  lemma FlipArrives(s: State, p: Pid, w: WriterVars, s': State)
    requires p in s.procs && s.procs[p] == Writer(w, Renamed) && WriterOk(s, w, Renamed)
    requires s' == Goto(Flip1(s, w.gen, w.ops), p, Writer(w, Flipped))
    ensures Flips(s, p, Writer(w, Flipped), w.gen, s') && WriterOk(s', w, Flipped)
  {
  }

  lemma FlipCurrentOk(s: State, p: Pid, w: WriterVars, s': State)
    requires Inv(s) && p in s.procs && s.procs[p] == Writer(w, Renamed)
    requires s' == Goto(Flip1(s, w.gen, w.ops), p, Writer(w, Flipped))
    ensures StepOk(s, p, s')
  {
    Facts(s, p);
    FlipArrives(s, p, w, s');
    FlipOk(s, p, Writer(w, Flipped), w.gen, w.segs, s');
  }

  lemma PublishStepOk(s: State, p: Pid, a: Action, s': State)
    requires Inv(s) && p in s.procs && s.procs[p].Writer? && PublishStep(s, p, a, s')
    ensures StepOk(s, p, s')
  {
    if a.Adopt? || a.WriteManifest? { WritingOk(s, p, a, s'); }
    else if a.RenameStaging? { RenameOk(s, p, s.procs[p].w, s'); }
    else if a.FlipCurrent? { FlipCurrentOk(s, p, s.procs[p].w, s'); }
    else { PublishQuietOk(s, p, a, s'); }
  }

  lemma PruneStartTurns(s: State, p: Pid, a: Action, s': State)
    requires p in s.procs && s.procs[p].Writer? && CleanStep(s, p, a, s') && a.PruneStart?
    requires ProcOk(s, s.procs[p])
    ensures Turns(s, p, s')
  {
    var x := s.procs[p];
    if s.dirs[a.d].lease {
      assert Shares(x, x.w.gen) && NoHolder(s, a.d.g);
    }
  }

  lemma ScanTurns(s: State, p: Pid, a: Action, s': State)
    requires p in s.procs && s.procs[p].Writer? && CleanStep(s, p, a, s') && (a.BeginScan? || a.ScanDir?)
    requires ProcOk(s, s.procs[p])
    ensures Turns(s, p, s')
  {
  }

  lemma CleanTurns(s: State, p: Pid, a: Action, s': State)
    requires p in s.procs && s.procs[p].Writer? && CleanStep(s, p, a, s') && (a.PruneEnd? || a.FinishPublish?)
    requires ProcOk(s, s.procs[p])
    ensures Turns(s, p, s')
  {
  }

  lemma PruneRemoveOk(s: State, p: Pid, w: WriterVars, d: DirName, locked: bool, s': State)
    requires Inv(s) && p in s.procs && s.procs[p] == Writer(w, Removing(d, locked))
    requires Unlinked1(s.dirs, d, s'.dirs) && s' == s.(dirs := s'.dirs)
    ensures StepOk(s, p, s')
  {
    Facts(s, p);
    assert Shares(s.procs[p], w.gen) && (locked ==> Excludes(s.procs[p], d.g));
    assert d.g != w.gen;
    RemovalOk(s, p, d, s');
  }

  lemma SweepOk(s: State, p: Pid, reach: set<Seg>, s': State)
    requires Inv(s) && p in s.procs && HoldsStore(s.procs[p]) && Covers(s, {}, reach)
    requires s.procs[p].Writer? ==> !s.procs[p].pc.Removing?
    requires s' == s.(segments := s'.segments) && s'.segments <= s.segments && s.segments * reach <= s'.segments
    requires ProcOk(s', s.procs[p])
    ensures StepOk(s, p, s')
  {
    SweepCovers(s, reach, s'.segments);
    StoreChangeOk(s, p, s.procs[p], s');
  }

  lemma CleanQuietOk(s: State, p: Pid, a: Action, s': State)
    requires Inv(s) && p in s.procs && s.procs[p].Writer? && CleanStep(s, p, a, s') && !a.PruneRemove? && !a.Sweep?
    ensures StepOk(s, p, s')
  {
    Facts(s, p);
    if a.PruneStart? { PruneStartTurns(s, p, a, s'); }
    else if a.BeginScan? || a.ScanDir? { ScanTurns(s, p, a, s'); }
    else { CleanTurns(s, p, a, s'); }
    TurnOk(s, p, s');
  }

  lemma SweepStepOk(s: State, p: Pid, w: WriterVars, reach: set<Seg>, s': State)
    requires Inv(s) && p in s.procs && s.procs[p] == Writer(w, Collecting({}, reach))
    requires s' == s.(segments := s'.segments) && s'.segments <= s.segments && s.segments * reach <= s'.segments
    ensures StepOk(s, p, s')
  {
    Facts(s, p);
    SweepOk(s, p, reach, s');
  }

  lemma CleanStepOk(s: State, p: Pid, a: Action, s': State)
    requires Inv(s) && p in s.procs && s.procs[p].Writer? && CleanStep(s, p, a, s')
    ensures StepOk(s, p, s')
  {
    var w, pc := s.procs[p].w, s.procs[p].pc;
    if a.PruneRemove? { PruneRemoveOk(s, p, w, pc.d, pc.locked, s'); }
    else if a.Sweep? { SweepStepOk(s, p, w, pc.reach, s'); }
    else { CleanQuietOk(s, p, a, s'); }
  }

  lemma BeginDropOk(s: State, p: Pid, w: WriterVars, s': State)
    requires Inv(s) && p in s.procs && s.procs[p] == Writer(w, Pending)
    requires s' == Goto(s, p, Writer(w, Dropping(false)))
    ensures StepOk(s, p, s')
  {
    Facts(s, p);
    PendingTurns(s, p, w, s');
    TurnOk(s, p, s');
  }

  lemma DropStepOk(s: State, p: Pid, a: Action, s': State)
    requires Inv(s) && p in s.procs && s.procs[p].Writer? && DropStep(s, p, a, s')
    ensures StepOk(s, p, s')
  {
    if a.DropRemove? {
      Facts(s, p);
      OwnRemovalOk(s, p, Staging(s.procs[p].w.gen), s');
    } else if a.BeginDrop? {
      BeginDropOk(s, p, s.procs[p].w, s');
    } else {
      LeaveOk(s, p, s');
    }
  }

  lemma LeaseStepOk(s: State, p: Pid, a: Action, s': State)
    requires Inv(s) && p in s.procs && !s.procs[p].Reader? && LeaseStep(s, p, a, s')
    ensures StepOk(s, p, s')
  {
    Facts(s, p);
    LeaseTurns(s, p, a, s');
    TurnOk(s, p, s');
  }

  lemma LeaseTurns(s: State, p: Pid, a: Action, s': State)
    requires p in s.procs && !s.procs[p].Reader? && LeaseStep(s, p, a, s')
    requires ProcOk(s, s.procs[p]) && Alone(s, p)
    ensures Turns(s, p, s')
  {
    var x := s.procs[p];
    if x.Writer? {
      LeaseWriterTurns(s, p, x.w, x.pc, s'.procs[p].w, s');
    }
  }

  lemma LeaseWriterTurns(s: State, p: Pid, w: WriterVars, pc: WriterPc, w': WriterVars, s': State)
    requires p in s.procs && s.procs[p] == Writer(w, pc) && s' == Goto(s, p, Writer(w', pc))
    requires w' == w.(lease := w'.lease, upToDate := w'.upToDate) && WriterOk(s, w, pc) && Alone(s, p)
    ensures Turns(s, p, s')
  {
    var x := s.procs[p];
    if pc.Removing? && pc.locked {
      assert Excludes(x, pc.d.g) && Shares(x, w.gen);
    }
  }

  // ---------------------------------------------------------------- offline collection

  lemma GcClearTurns(s: State, p: Pid, a: Action, s': State)
    requires p in s.procs && s.procs[p].Collector? && GcStep(s, p, a, s') && a.GcClear?
    requires ProcOk(s, s.procs[p])
    ensures Turns(s, p, s')
  {
  }

  lemma GcLockTurns(s: State, p: Pid, a: Action, s': State)
    requires p in s.procs && s.procs[p].Collector? && GcStep(s, p, a, s') && (a.GcLock? || a.GcBeginDrop?)
    requires ProcOk(s, s.procs[p])
    ensures Turns(s, p, s')
  {
  }

  lemma GcScanTurns(s: State, p: Pid, a: Action, s': State)
    requires p in s.procs && s.procs[p].Collector? && GcStep(s, p, a, s') && (a.GcBeginScan? || a.GcScanDir?)
    requires ProcOk(s, s.procs[p])
    ensures Turns(s, p, s')
  {
  }

  lemma GcEndTurns(s: State, p: Pid, a: Action, s': State)
    requires p in s.procs && s.procs[p].Collector? && GcStep(s, p, a, s') && (a.GcFinish? || a.GcFail?)
    ensures Turns(s, p, s')
  {
  }

  lemma GcMakeArrives(s: State, p: Pid, a: Action, s': State)
    requires p in s.procs && s.procs[p].Collector? && GcStep(s, p, a, s') && a.GcMakeTemp?
    requires ProcOk(s, s.procs[p])
    ensures p in s'.procs && Moves(s, p, s'.procs[p], s') && ProcOk(s', s'.procs[p])
    ensures OwnWork(s, p, s', GcTemp(s.procs[p].gen))
  {
  }

  lemma GcWorkArrives(s: State, p: Pid, a: Action, s': State)
    requires p in s.procs && s.procs[p].Collector? && GcStep(s, p, a, s') && a.GcStage?
    requires DirsOk(s) && CurrentOk(s) && ProcOk(s, s.procs[p])
    ensures p in s'.procs && Moves(s, p, s'.procs[p], s') && ProcOk(s', s'.procs[p])
    ensures OwnWork(s, p, s', GcTemp(s.procs[p].gen))
  {
  }

  lemma GcRenameArrives(s: State, p: Pid, x: Proc, s': State)
    requires p in s.procs && s.procs[p] == x && x.Collector? && x.gpc.TempStaged? && ProcOk(s, x) && DirsOk(s)
    requires s' == Goto(s, p, x.(gpc := GcRenamed(x.gpc.doomed, x.gpc.locked))).(
      dirs := (s.dirs - {GcTemp(x.gen)})[Final(x.gen) := s.dirs[GcTemp(x.gen)]])
    ensures Moves(s, p, s'.procs[p], s') && Renames(s, p, s', GcTemp(x.gen), x.segs) && ProcOk(s', s'.procs[p])
  {
  }

  lemma GcRemoveArrives(s: State, p: Pid, x: Proc, d: DirName, s': State)
    requires p in s.procs && s.procs[p] == x && x.Collector? && x.gpc.GcRemoving? && ProcOk(s, x)
    requires d in x.gpc.doomed && Unlinked1(s.dirs, d, s'.dirs) && s' == s.(dirs := s'.dirs)
    ensures ProcOk(s', x) && s.current != Some(d.g) && (Excludes(x, d.g) || !s.dirs[d].lease)
  {
    assert Cleared(s, d, x.gpc.locked);
  }

  lemma GcQuietOk(s: State, p: Pid, a: Action, s': State)
    requires Inv(s) && p in s.procs && s.procs[p].Collector? && GcStep(s, p, a, s')
    requires || a.GcLock? || a.GcClear? || a.GcBeginDrop? || a.GcBeginScan? || a.GcScanDir?
             || a.GcFinish? || a.GcFail?
    ensures StepOk(s, p, s')
  {
    Facts(s, p);
    if a.GcClear? { GcClearTurns(s, p, a, s'); }
    else if a.GcLock? || a.GcBeginDrop? { GcLockTurns(s, p, a, s'); }
    else if a.GcBeginScan? || a.GcScanDir? { GcScanTurns(s, p, a, s'); }
    else { GcEndTurns(s, p, a, s'); }
    TurnOk(s, p, s');
  }

  lemma GcWorkOk(s: State, p: Pid, a: Action, s': State)
    requires Inv(s) && p in s.procs && s.procs[p].Collector? && GcStep(s, p, a, s') && (a.GcMakeTemp? || a.GcStage?)
    ensures StepOk(s, p, s')
  {
    Facts(s, p);
    if a.GcStage? { GcWorkArrives(s, p, a, s'); } else { GcMakeArrives(s, p, a, s'); }
    OwnWorkOk(s, p, s'.procs[p], s', GcTemp(s.procs[p].gen));
  }

  lemma GcRenameOk(s: State, p: Pid, x: Proc, s': State)
    requires Inv(s) && p in s.procs && s.procs[p] == x && x.Collector? && x.gpc.TempStaged? && GcTemp(x.gen) in s.dirs
    requires s' == Goto(s, p, x.(gpc := GcRenamed(x.gpc.doomed, x.gpc.locked))).(
      dirs := (s.dirs - {GcTemp(x.gen)})[Final(x.gen) := s.dirs[GcTemp(x.gen)]])
    ensures StepOk(s, p, s')
  {
    Facts(s, p);
    GcRenameArrives(s, p, x, s');
    RenamesOk(s, p, s'.procs[p], s', GcTemp(x.gen), x.segs);
  }

  lemma GcFlipArrives(s: State, p: Pid, x: Proc, s': State)
    requires p in s.procs && s.procs[p] == x && x.Collector? && x.gpc.GcRenamed? && GcOk(s, x.gen, x.segs, x.gpc)
    requires s' == Goto(Flip1(s, x.gen, []), p, x.(gpc := GcRemoving(x.gpc.doomed, x.gpc.locked)))
    ensures Flips(s, p, s'.procs[p], x.gen, s') && ProcOk(s', s'.procs[p])
  {
  }

  lemma GcFlipOk(s: State, p: Pid, x: Proc, s': State)
    requires Inv(s) && p in s.procs && s.procs[p] == x && x.Collector? && x.gpc.GcRenamed?
    requires s' == Goto(Flip1(s, x.gen, []), p, x.(gpc := GcRemoving(x.gpc.doomed, x.gpc.locked)))
    ensures StepOk(s, p, s')
  {
    Facts(s, p);
    GcFlipArrives(s, p, x, s');
    FlipOk(s, p, s'.procs[p], x.gen, x.segs, s');
  }

  lemma GcRemoveOk(s: State, p: Pid, x: Proc, d: DirName, s': State)
    requires Inv(s) && p in s.procs && s.procs[p] == x && x.Collector? && x.gpc.GcRemoving?
    requires d in x.gpc.doomed && Unlinked1(s.dirs, d, s'.dirs) && s' == s.(dirs := s'.dirs)
    ensures StepOk(s, p, s')
  {
    Facts(s, p);
    GcRemoveArrives(s, p, x, d, s');
    RemovalOk(s, p, d, s');
  }

  lemma GcDropRemoveOk(s: State, p: Pid, x: Proc, s': State)
    requires Inv(s) && p in s.procs && s.procs[p] == x && x.Collector? && x.gpc.GcDropping?
    requires Unlinked1(s.dirs, GcTemp(x.gen), s'.dirs) && s' == s.(dirs := s'.dirs)
    ensures StepOk(s, p, s')
  {
    Facts(s, p);
    OwnRemovalOk(s, p, GcTemp(x.gen), s');
  }

  lemma GcSweepOk(s: State, p: Pid, x: Proc, s': State)
    requires Inv(s) && p in s.procs && s.procs[p] == x && x.Collector? && x.gpc.GcCollecting? && x.gpc.todo == {}
    requires s' == s.(segments := s'.segments) && s'.segments <= s.segments && s.segments * x.gpc.reach <= s'.segments
    ensures StepOk(s, p, s')
  {
    Facts(s, p);
    SweepOk(s, p, x.gpc.reach, s');
  }

  lemma GcChangeOk(s: State, p: Pid, a: Action, s': State)
    requires Inv(s) && p in s.procs && s.procs[p].Collector? && GcStep(s, p, a, s')
    requires a.GcMakeTemp? || a.GcStage? || a.GcRename? || a.GcFlip?
    ensures StepOk(s, p, s')
  {
    var x := s.procs[p];
    if a.GcRename? { GcRenameOk(s, p, x, s'); }
    else if a.GcFlip? { GcFlipOk(s, p, x, s'); }
    else { GcWorkOk(s, p, a, s'); }
  }

  lemma GcCleanOk(s: State, p: Pid, a: Action, s': State)
    requires Inv(s) && p in s.procs && s.procs[p].Collector? && GcStep(s, p, a, s')
    requires a.GcRemove? || a.GcDropRemove? || a.GcSweep?
    ensures StepOk(s, p, s')
  {
    var x := s.procs[p];
    if a.GcRemove? { GcRemoveOk(s, p, x, a.d, s'); }
    else if a.GcDropRemove? { GcDropRemoveOk(s, p, x, s'); }
    else { GcSweepOk(s, p, x, s'); }
  }

  lemma GcStepOk(s: State, p: Pid, a: Action, s': State)
    requires Inv(s) && p in s.procs && s.procs[p].Collector? && GcStep(s, p, a, s')
    ensures StepOk(s, p, s')
  {
    if a.GcMakeTemp? || a.GcStage? || a.GcRename? || a.GcFlip? { GcChangeOk(s, p, a, s'); }
    else if a.GcRemove? || a.GcDropRemove? || a.GcSweep? { GcCleanOk(s, p, a, s'); }
    else { GcQuietOk(s, p, a, s'); }
  }

  // ---------------------------------------------------------------- all steps

  lemma WriterStepOk(s: State, p: Pid, a: Action, s': State)
    requires Inv(s) && p in s.procs && s.procs[p].Writer? && WriterStep(s, p, a, s')
    ensures StepOk(s, p, s')
  {
    if StageStep(s, p, a, s') { StageStepOk(s, p, a, s'); }
    else if WriteStep(s, p, a, s') { WriteStepOk(s, p, a, s'); }
    else if PublishStep(s, p, a, s') { PublishStepOk(s, p, a, s'); }
    else if CleanStep(s, p, a, s') { CleanStepOk(s, p, a, s'); }
    else if DropStep(s, p, a, s') { DropStepOk(s, p, a, s'); }
    else { LeaseStepOk(s, p, a, s'); }
  }

  lemma CollectorStepOk(s: State, p: Pid, a: Action, s': State)
    requires Inv(s) && p in s.procs && s.procs[p].Collector? && CollectorStep(s, p, a, s')
    ensures StepOk(s, p, s')
  {
    if GcStep(s, p, a, s') { GcStepOk(s, p, a, s'); } else { LeaseStepOk(s, p, a, s'); }
  }

  lemma SpawnOk(s: State, p: Pid, a: Action, s': State)
    requires Inv(s) && Spawn(s, p, a, s')
    ensures StepOk(s, p, s')
  {
    if a.Resolve? { NewReaderOk(s, p, s'); }
    else { NewOwnerOk(s, p, s'.procs[p], s'); }
  }

  lemma NextOk(s: State, p: Pid, a: Action, s': State)
    requires Inv(s) && Next(s, p, a, s')
    ensures StepOk(s, p, s')
  {
    if p !in s.procs { SpawnOk(s, p, a, s'); }
    else if a.Crash? { LeaveOk(s, p, s'); }
    else if s.procs[p].Reader? { ReaderStepOk(s, p, a, s'); }
    else if s.procs[p].Writer? { WriterStepOk(s, p, a, s'); }
    else { CollectorStepOk(s, p, a, s'); }
  }

  /** Every step of every process, a crash included, keeps the invariant. */
  lemma NextKeepsInv(s: State, p: Pid, a: Action, s': State)
    requires Inv(s) && Next(s, p, a, s')
    ensures Inv(s') && Guarantee(s, p, s')
  {
    NextOk(s, p, a, s');
    StepKeepsInv(s, p, s');
  }

  lemma InitOk(s: State)
    requires Init(s)
    ensures Inv(s)
  {
    forall d | d in s.dirs
      ensures d.g < s.nextGen && Sealed(s, d.g) && d == Final(d.g)
    {
    }
  }

  lemma {:induction false} RunInv(run: seq<State>, events: seq<Event>, i: nat)
    requires IsRun(run, events) && i < |run|
    ensures Inv(run[i])
  {
    assert RunStep(run, events, i);
    if i == 0 {
      InitOk(run[0]);
    } else {
      RunInv(run, events, i - 1);
      NextKeepsInv(run[i - 1], events[i - 1].p, events[i - 1].a, run[i]);
    }
  }
}
