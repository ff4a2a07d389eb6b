/**
What collection leaves behind: from every reachable state, an offline collector that finds nobody in its way
ends with one generation, the current records, and exactly the segment files those need; and a publisher
that is left alone removes every generation nobody holds.
*/
module StoreCollection {
  import opened Wrappers
  import opened StoreModel
  import opened StoreInvariant
  import opened StoreSafety
  import opened StoreProgress

  // ---------------------------------------------------------------- one directory to a name

  /** A name has at most one directory: a work directory or a published one. */
  ghost predicate OneName(s: State) {
    forall d, e :: d in s.dirs && e in s.dirs && d.g == e.g ==> d == e
  }

  /** It has just made a directory or given it its final name. */
  predicate HasMade(x: Proc) {
    match x
    case Reader(_) => false
    case Writer(_, pc) => pc.Created? || pc.Renamed?
    case Collector(_, _, _, pc) => pc.TempMade? || pc.GcRenamed?
  }

  ghost predicate Adds(s: State, p: Pid, s': State) {
    s'.dirs.Keys <= s.dirs.Keys || (p in s'.procs && HasMade(s'.procs[p]))
  }

  lemma StageAdds(s: State, p: Pid, a: Action, s': State)
    requires p in s.procs && s.procs[p].Writer? && StageStep(s, p, a, s')
    ensures Adds(s, p, s')
  {
  }

  lemma PublishAdds(s: State, p: Pid, a: Action, s': State)
    requires p in s.procs && s.procs[p].Writer? && PublishStep(s, p, a, s')
    ensures Adds(s, p, s')
  {
  }

  lemma WriteAdds(s: State, p: Pid, a: Action, s': State)
    requires p in s.procs && s.procs[p].Writer? && WriteStep(s, p, a, s')
    ensures Adds(s, p, s')
  {
  }

  lemma CleanAdds(s: State, p: Pid, a: Action, s': State)
    requires p in s.procs && s.procs[p].Writer? && CleanStep(s, p, a, s')
    ensures Adds(s, p, s')
  {
    if !a.PruneRemove? {
      CleanKeepsDirs(s, p, a, s');
    }
  }

  lemma CleanKeepsDirs(s: State, p: Pid, a: Action, s': State)
    requires p in s.procs && s.procs[p].Writer? && CleanStep(s, p, a, s') && !a.PruneRemove?
    ensures s'.dirs == s.dirs
  {
  }

  lemma DropAdds(s: State, p: Pid, a: Action, s': State)
    requires p in s.procs && s.procs[p].Writer? && DropStep(s, p, a, s')
    ensures Adds(s, p, s')
  {
  }

  lemma GcMakes(s: State, p: Pid, a: Action, s': State)
    requires p in s.procs && s.procs[p].Collector? && GcStep(s, p, a, s') && (a.GcMakeTemp? || a.GcRename?)
    ensures Adds(s, p, s')
  {
  }

  lemma GcAdds(s: State, p: Pid, a: Action, s': State)
    requires p in s.procs && s.procs[p].Collector? && GcStep(s, p, a, s') && !a.GcMakeTemp? && !a.GcRename?
    ensures Adds(s, p, s')
  {
  }

  lemma ReaderAdds(s: State, p: Pid, a: Action, s': State)
    requires p in s.procs && s.procs[p].Reader? && ReaderStep(s, p, a, s')
    ensures Adds(s, p, s')
  {
  }

  lemma WriterAdds(s: State, p: Pid, a: Action, s': State)
    requires p in s.procs && s.procs[p].Writer? && WriterStep(s, p, a, s')
    ensures Adds(s, p, s')
  {
    if StageStep(s, p, a, s') { StageAdds(s, p, a, s'); }
    else if PublishStep(s, p, a, s') { PublishAdds(s, p, a, s'); }
    else if WriteStep(s, p, a, s') { WriteAdds(s, p, a, s'); }
    else if CleanStep(s, p, a, s') { CleanAdds(s, p, a, s'); }
    else if DropStep(s, p, a, s') { DropAdds(s, p, a, s'); }
  }

  lemma CollectorAdds(s: State, p: Pid, a: Action, s': State)
    requires p in s.procs && s.procs[p].Collector? && CollectorStep(s, p, a, s')
    ensures Adds(s, p, s')
  {
    if GcStep(s, p, a, s') {
      if a.GcMakeTemp? || a.GcRename? { GcMakes(s, p, a, s'); } else { GcAdds(s, p, a, s'); }
    }
  }

  lemma NextAdds(s: State, p: Pid, a: Action, s': State)
    requires Next(s, p, a, s')
    ensures Adds(s, p, s')
  {
    if p in s.procs && !a.Crash? {
      match s.procs[p]
      case Reader(_) => ReaderAdds(s, p, a, s');
      case Writer(_, _) => WriterAdds(s, p, a, s');
      case Collector(_, _, _, _) => CollectorAdds(s, p, a, s');
    }
  }

  /** A new directory bears the name of the process that made it, and is the only one of that name. */
  lemma NewIsOnly(s: State, p: Pid, s': State, d: DirName, e: DirName)
    requires Guarantee(s, p, s') && Adds(s, p, s') && (p in s'.procs ==> ProcOk(s', s'.procs[p]))
    requires d in s'.dirs && d !in s.dirs && e in s'.dirs && d.g == e.g
    ensures d == e
  {
    assert !Untouched(s, s', d);
    assert OwnGen(s'.procs[p]) == Some(d.g);
  }

  lemma StepOneName(s: State, p: Pid, s': State)
    requires OneName(s) && Guarantee(s, p, s') && Adds(s, p, s') && (p in s'.procs ==> ProcOk(s', s'.procs[p]))
    ensures OneName(s')
  {
    forall d, e | d in s'.dirs && e in s'.dirs && d.g == e.g ensures d == e {
      if d !in s.dirs {
        NewIsOnly(s, p, s', d, e);
      } else if e !in s.dirs {
        NewIsOnly(s, p, s', e, d);
      }
    }
  }

  lemma {:induction false} RunOneName(run: seq<State>, events: seq<Event>, i: nat)
    requires IsRun(run, events) && i < |run|
    ensures OneName(run[i])
  {
    if i == 0 {
      assert RunStep(run, events, 0);
    } else {
      RunOneName(run, events, i - 1);
      RunKeeps(run, events, i);
      StepOneName(run[i - 1], events[i - 1].p, run[i]);
    }
  }

  lemma RunKeeps(run: seq<State>, events: seq<Event>, i: nat)
    requires IsRun(run, events) && 0 < i < |run|
    ensures Guarantee(run[i - 1], events[i - 1].p, run[i]) && Adds(run[i - 1], events[i - 1].p, run[i])
    ensures events[i - 1].p in run[i].procs ==> ProcOk(run[i], run[i].procs[events[i - 1].p])
  {
    var p := events[i - 1].p;
    RunInv(run, events, i - 1);
    assert RunStep(run, events, i);
    NextKeepsInv(run[i - 1], p, events[i - 1].a, run[i]);
    NextAdds(run[i - 1], p, events[i - 1].a, run[i]);
  }

  // ---------------------------------------------------------------- the offline collector

  lemma GcMoves(run0: seq<State>, events0: seq<Event>, p: Pid, run: seq<State>, events: seq<Event>, s: State,
      a: Action, s': State)
    returns (run': seq<State>, events': seq<Event>)
    requires GoesOn(run0, events0, p, run, events, s) && p in s.procs && s.procs[p].Collector? && !a.Crash?
    requires GcStep(s, p, a, s')
    ensures GoesOn(run0, events0, p, run', events', s')
  {
    run', events' := Then(run0, events0, p, run, events, s, a, s');
  }

  /** The collector `x` of `s` is at `pc`, and nothing else has changed. */
  ghost function GcAt(s: State, p: Pid, x: Proc, pc: GcPc): State
    requires x.Collector?
  {
    Goto(s, p, x.(gpc := pc))
  }

  /** What is locked are the names of directories already looked at. */
  ghost predicate NamesOf(locked: set<Gen>, cleared: set<DirName>) {
    forall g :: g in locked ==> exists d :: d in cleared && d.g == g
  }

  ghost predicate NobodyHolds(s: State) {
    forall d :: d in s.dirs ==> NoHolder(s, d.g)
  }

  lemma NotLockedYet(s: State, p: Pid, x: Proc, cleared: set<DirName>, locked: set<Gen>, d: DirName)
    requires p in s.procs && s.procs[p] == x && x.Collector? && NobodyHolds(s) && OneName(s)
    requires NamesOf(locked, cleared) && cleared <= s.dirs.Keys && d in s.dirs && d !in cleared
    ensures NoHolder(GcAt(s, p, x, Clearing(s.dirs.Keys, cleared, locked)), d.g)
  {
  }

  lemma ClearsOne(run0: seq<State>, events0: seq<Event>, p: Pid, run: seq<State>, events: seq<Event>, s: State,
      x: Proc, cleared: set<DirName>, locked: set<Gen>, d: DirName)
    returns (run': seq<State>, events': seq<Event>, locked': set<Gen>)
    requires p in s.procs && s.procs[p] == x && x.Collector? && NobodyHolds(s) && OneName(s)
    requires NamesOf(locked, cleared) && cleared <= s.dirs.Keys && d in s.dirs && d !in cleared
    requires GoesOn(run0, events0, p, run, events, GcAt(s, p, x, Clearing(s.dirs.Keys, cleared, locked)))
    ensures GoesOn(run0, events0, p, run', events', GcAt(s, p, x, Clearing(s.dirs.Keys, cleared + {d}, locked')))
    ensures NamesOf(locked', cleared + {d})
  {
    NotLockedYet(s, p, x, cleared, locked, d);
    var s1 := GcAt(s, p, x, Clearing(s.dirs.Keys, cleared, locked));
    locked' := if s.dirs[d].lease then locked + {d.g} else locked;
    var x2 := x.(gpc := Clearing(s.dirs.Keys, cleared + {d}, locked'));
    run', events' := GcMoves(run0, events0, p, run, events, s1, GcClear(d), Goto(s1, p, x2));
    assert s1.procs[p := x2] == s.procs[p := x2];
    assert NamesOf(locked, cleared + {d});
  }

  lemma {:induction false} ClearsAll(run0: seq<State>, events0: seq<Event>, p: Pid, run: seq<State>,
      events: seq<Event>, s: State, x: Proc, cleared: set<DirName>, locked: set<Gen>)
    returns (run': seq<State>, events': seq<Event>, locked': set<Gen>)
    requires p in s.procs && s.procs[p] == x && x.Collector? && NobodyHolds(s) && OneName(s)
    requires NamesOf(locked, cleared) && cleared <= s.dirs.Keys
    requires GoesOn(run0, events0, p, run, events, GcAt(s, p, x, Clearing(s.dirs.Keys, cleared, locked)))
    ensures GoesOn(run0, events0, p, run', events', GcAt(s, p, x, Clearing(s.dirs.Keys, s.dirs.Keys, locked')))
    decreases s.dirs.Keys - cleared
  {
    if s.dirs.Keys - cleared == {} {
      assert forall d :: d in s.dirs.Keys ==> d in cleared || d in s.dirs.Keys - cleared;
      assert cleared == s.dirs.Keys;
      run', events', locked' := run, events, locked;
    } else {
      var d :| d in s.dirs.Keys - cleared;
      run', events', locked' := ClearsOne(run0, events0, p, run, events, s, x, cleared, locked, d);
      run', events', locked' := ClearsAll(run0, events0, p, run', events', s, x, cleared + {d}, locked');
    }
  }

  /** The directory that the collector writes. */
  ghost function Rewritten(s: State): Dir
    requires s.current.Some? && Sealed(s, s.current.value)
  {
    var d := s.dirs[Final(s.current.value)];
    Dir(true, Some(d.manifest.value * Elems(d.meta.value)), d.meta, {})
  }

  /** The collector, its locks taken, has made its directory current under its own name. */
  ghost function Flipped(s: State, p: Pid, x: Proc, locked: set<Gen>): State
    requires x.Collector? && s.current.Some? && Sealed(s, s.current.value)
  {
    Goto(Flip1(s, x.gen, []), p, x.(segs := Rewritten(s).meta.value, gpc := GcRemoving(s.dirs.Keys, locked))).(
      dirs := s.dirs[Final(x.gen) := Rewritten(s)])
  }

  lemma Rewrites1(run0: seq<State>, events0: seq<Event>, p: Pid, run: seq<State>, events: seq<Event>, s: State,
      x: Proc, locked: set<Gen>)
    returns (run': seq<State>, events': seq<Event>, s': State)
    requires p in s.procs && s.procs[p] == x && x.Collector? && Absent(s, x.gen)
    requires s.current.Some? && Sealed(s, s.current.value)
    requires GoesOn(run0, events0, p, run, events, GcAt(s, p, x, Clearing(s.dirs.Keys, s.dirs.Keys, locked)))
    ensures GoesOn(run0, events0, p, run', events', s')
    ensures s' == Goto(s, p, x.(segs := Rewritten(s).meta.value, gpc := TempStaged(s.dirs.Keys, locked))).(
                    dirs := s.dirs[GcTemp(x.gen) := Rewritten(s)])
  {
    var s1 := GcAt(s, p, x, Clearing(s.dirs.Keys, s.dirs.Keys, locked));
    var x2 := x.(gpc := TempMade(s.dirs.Keys, locked));
    var s2 := Goto(s1, p, x2).(dirs := s.dirs[GcTemp(x.gen) := Dir(true, None, None, {})]);
    run', events' := GcMoves(run0, events0, p, run, events, s1, GcMakeTemp, s2);
    var x3 := x.(segs := Rewritten(s).meta.value, gpc := TempStaged(s.dirs.Keys, locked));
    s' := Goto(s2, p, x3).(dirs := s2.dirs[GcTemp(x.gen) := Rewritten(s)]);
    run', events' := GcMoves(run0, events0, p, run', events', s2, GcStage, s');
    assert s'.procs == s.procs[p := x3];
  }

  lemma Flips1(run0: seq<State>, events0: seq<Event>, p: Pid, run: seq<State>, events: seq<Event>, s: State,
      x: Proc, locked: set<Gen>, s3: State)
    returns (run': seq<State>, events': seq<Event>)
    requires p in s.procs && s.procs[p] == x && x.Collector? && Absent(s, x.gen)
    requires s.current.Some? && Sealed(s, s.current.value)
    requires s3 == Goto(s, p, x.(segs := Rewritten(s).meta.value, gpc := TempStaged(s.dirs.Keys, locked))).(
                     dirs := s.dirs[GcTemp(x.gen) := Rewritten(s)])
    requires GoesOn(run0, events0, p, run, events, s3)
    ensures GoesOn(run0, events0, p, run', events', Flipped(s, p, x, locked))
  {
    var x3 := s3.procs[p];
    var s4 := Goto(s3, p, x3.(gpc := GcRenamed(s.dirs.Keys, locked))).(
      dirs := (s3.dirs - {GcTemp(x.gen)})[Final(x.gen) := Rewritten(s)]);
    run', events' := GcMoves(run0, events0, p, run, events, s3, GcRename, s4);
    var x5 := x3.(gpc := GcRemoving(s.dirs.Keys, locked));
    var s5 := Goto(Flip1(s4, x.gen, []), p, x5);
    run', events' := GcMoves(run0, events0, p, run', events', s4, GcFlip, s5);
    assert s5.procs == s.procs[p := x5];
    assert s4.dirs == s.dirs[Final(x.gen) := Rewritten(s)];
    assert s5 == Flipped(s, p, x, locked);
  }

  lemma {:induction false} RemovesAll(run0: seq<State>, events0: seq<Event>, p: Pid, run: seq<State>,
      events: seq<Event>, s: State, doomed: set<DirName>, locked: set<Gen>, own: DirName)
    returns (run': seq<State>, events': seq<Event>)
    requires p in s.procs && s.procs[p].Collector? && s.procs[p].gpc == GcRemoving(doomed, locked)
    requires own in s.dirs && own !in doomed && s.dirs.Keys <= doomed + {own}
    requires GoesOn(run0, events0, p, run, events, s)
    ensures GoesOn(run0, events0, p, run', events', s.(dirs := map[own := s.dirs[own]]))
    decreases s.dirs.Keys
  {
    if s.dirs.Keys == {own} {
      assert s.dirs == map[own := s.dirs[own]];
      run', events' := run, events;
    } else {
      assert s.dirs.Keys - {own} != {};
      var d :| d in s.dirs.Keys - {own};
      var s1 := s.(dirs := s.dirs - {d});
      run', events' := GcMoves(run0, events0, p, run, events, s, GcRemove(d), s1);
      run', events' := RemovesAll(run0, events0, p, run', events', s1, doomed, locked, own);
    }
  }

  lemma SweepsRest(run0: seq<State>, events0: seq<Event>, p: Pid, run: seq<State>, events: seq<Event>, s: State,
      own: DirName, man: set<Seg>)
    returns (run': seq<State>, events': seq<Event>, s': State)
    requires p in s.procs && s.procs[p].Collector? && s.procs[p].gpc.GcRemoving?
    requires s.dirs.Keys == {own} && s.dirs[own].manifest == Some(man) && man <= s.segments
    requires GoesOn(run0, events0, p, run, events, s)
    ensures GoesOn(run0, events0, p, run', events', s')
    ensures s' == Goto(s, p, s.procs[p].(gpc := GcDone)).(segments := man)
  {
    var x := s.procs[p];
    var s1, s2 := Goto(s, p, x.(gpc := GcCollecting({own}, {}))), Goto(s, p, x.(gpc := GcCollecting({}, man)));
    run', events' := GcMoves(run0, events0, p, run, events, s, GcBeginScan, s1);
    assert {own} - {own} == {} && {} + Refs(s1, own) == man;
    assert s1.procs[p := x.(gpc := GcCollecting({}, man))] == s2.procs;
    run', events' := GcMoves(run0, events0, p, run', events', s1, GcScanDir(own), s2);
    var s3 := s2.(segments := man);
    run', events' := GcMoves(run0, events0, p, run', events', s2, GcSweep, s3);
    s' := Goto(s3, p, x.(gpc := GcDone));
    run', events' := GcMoves(run0, events0, p, run', events', s3, GcFinish, s');
    assert s3.procs[p := x.(gpc := GcDone)] == s.procs[p := x.(gpc := GcDone)];
  }

  /** One generation is left, complete and current, with the records that were current and no segment file that it
      does not need. */
  ghost predicate HasCollected(s: State, g: Gen, s': State)
    requires s.current.Some? && Sealed(s, s.current.value)
  {
    && s'.dirs == map[Final(g) := Rewritten(s)] && s'.current == Some(g) && Sealed(s', g)
    && s'.segments == Elems(Rewritten(s).meta.value)
    && CurrentDocs(s') == CurrentDocs(s) && s'.log == s.log
  }

  lemma CollectedRight(s: State, p: Pid, x: Proc, locked: set<Gen>, s': State)
    requires x.Collector? && s.current.Some? && Sealed(s, s.current.value)
    requires p in s'.procs && s' == Goto(Flipped(s, p, x, locked), p, s'.procs[p]).(
                     dirs := map[Final(x.gen) := Rewritten(s)], segments := Rewritten(s).manifest.value)
    ensures HasCollected(s, x.gen, s')
  {
    var d := s.dirs[Final(s.current.value)];
    assert d.manifest.value * Elems(d.meta.value) == Elems(d.meta.value);
  }

  /** An offline collector that has the store to itself, and finds nobody holding a generation, rewrites what is current
      and leaves nothing else behind. */
  lemma CollectorLeavesOne(run: seq<State>, events: seq<Event>, p: Pid)
    returns (run': seq<State>, events': seq<Event>, s': State)
    requires IsRun(run, events) && p in run[|run| - 1].procs && run[|run| - 1].procs[p].Collector?
    requires var s := run[|run| - 1];
      s.procs[p].gpc.GcWaiting? && StoreFree(s) && s.current.Some? && NobodyHolds(s)
    ensures GoesOn(run, events, p, run', events', s') && Sealed(run[|run| - 1], run[|run| - 1].current.value)
    ensures HasCollected(run[|run| - 1], run[|run| - 1].procs[p].gen, s')
  {
    var s := run[|run| - 1];
    var x := s.procs[p];
    RunInv(run, events, |run| - 1);
    RunOneName(run, events, |run| - 1);
    Facts(s, p);
    CurrentSealed(s);
    Starts(run, events, p);
    run', events', s' := Collects(run, events, p, s, x);
  }

  lemma Collects(run: seq<State>, events: seq<Event>, p: Pid, s: State, x: Proc)
    returns (run': seq<State>, events': seq<Event>, s': State)
    requires GoesOn(run, events, p, run, events, s) && p in s.procs && s.procs[p] == x && x.Collector?
    requires x.gpc.GcWaiting? && StoreFree(s) && NobodyHolds(s) && OneName(s) && Absent(s, x.gen)
    requires s.current.Some? && Sealed(s, s.current.value)
    ensures GoesOn(run, events, p, run', events', s') && HasCollected(s, x.gen, s')
  {
    var locked, s3;
    run', events' := GcMoves(run, events, p, run, events, s, GcLock, GcAt(s, p, x, Clearing(s.dirs.Keys, {}, {})));
    run', events', locked := ClearsAll(run, events, p, run', events', s, x, {}, {});
    run', events', s3 := Rewrites1(run, events, p, run', events', s, x, locked);
    run', events' := Flips1(run, events, p, run', events', s, x, locked, s3);
    var s5, own := Flipped(s, p, x, locked), Final(x.gen);
    run', events' := RemovesAll(run, events, p, run', events', s5, s.dirs.Keys, locked, own);
    var s6 := s5.(dirs := map[own := s5.dirs[own]]);
    run', events', s' := SweepsRest(run, events, p, run', events', s6, own, Rewritten(s).manifest.value);
    CollectedRight(s, p, x, locked, s');
  }

  /** A collector that fails before it renames takes its temporary directory away and lets go of everything. */
  lemma CollectorDropsTemp(run: seq<State>, events: seq<Event>, p: Pid)
    returns (run': seq<State>, events': seq<Event>, s': State)
    requires IsRun(run, events) && p in run[|run| - 1].procs && run[|run| - 1].procs[p].Collector?
    requires var s := run[|run| - 1];
      (s.procs[p].gpc.TempMade? || s.procs[p].gpc.TempStaged?) && GcTemp(s.procs[p].gen) in s.dirs
    ensures GoesOn(run, events, p, run', events', s')
    ensures var s := run[|run| - 1];
      && s' == Goto(s, p, s.procs[p].(gpc := GcDone)).(dirs := s.dirs - {GcTemp(s.procs[p].gen)})
      && !HoldsStore(s'.procs[p]) && GcLocked(s'.procs[p].gpc) == {}
  {
    var s := run[|run| - 1];
    var x := s.procs[p];
    Starts(run, events, p);
    var s1 := Goto(s, p, x.(gpc := GcDropping(x.gpc.locked)));
    run', events' := GcMoves(run, events, p, run, events, s, GcBeginDrop, s1);
    var s2 := s1.(dirs := s1.dirs - {GcTemp(x.gen)});
    run', events' := GcMoves(run, events, p, run', events', s1, GcDropRemove, s2);
    s' := Goto(s2, p, x.(gpc := GcDone));
    run', events' := GcMoves(run, events, p, run', events', s2, GcFail, s');
    assert s2.procs[p := x.(gpc := GcDone)] == s.procs[p := x.(gpc := GcDone)];
  }

  // ---------------------------------------------------------------- a publisher's cleaning

  /** Superseded, and held by nobody; a work directory only where it has a lease file to tell. */
  ghost predicate Unheld(s: State, own: Gen, d: DirName) {
    && d in s.dirs && d != Final(own) && !d.GcTemp?
    && if s.dirs[d].lease then NoHolder(s, d.g) else d.Final?
  }

  lemma PrunesOne(run0: seq<State>, events0: seq<Event>, p: Pid, run: seq<State>, events: seq<Event>, s: State,
      w: WriterVars, d: DirName)
    returns (run': seq<State>, events': seq<Event>)
    requires p in s.procs && s.procs[p] == Writer(w, Pruning) && Unheld(s, w.gen, d)
    requires GoesOn(run0, events0, p, run, events, s)
    ensures GoesOn(run0, events0, p, run', events', s.(dirs := s.dirs - {d}))
  {
    var s1 := Goto(s, p, Writer(w, Removing(d, s.dirs[d].lease)));
    run', events' := WriterMoves(run0, events0, p, run, events, s, PruneStart(d), s1);
    run', events' := RemovesIt(run0, events0, p, run', events', s1, w, d, s.dirs[d].lease);
    assert s1.procs[p := Writer(w, Pruning)] == s.procs;
  }

  lemma RemovesIt(run0: seq<State>, events0: seq<Event>, p: Pid, run: seq<State>, events: seq<Event>, s: State,
      w: WriterVars, d: DirName, locked: bool)
    returns (run': seq<State>, events': seq<Event>)
    requires p in s.procs && s.procs[p] == Writer(w, Removing(d, locked)) && d in s.dirs
    requires GoesOn(run0, events0, p, run, events, s)
    ensures GoesOn(run0, events0, p, run', events', Goto(s.(dirs := s.dirs - {d}), p, Writer(w, Pruning)))
  {
    var s1 := s.(dirs := s.dirs - {d});
    run', events' := WriterMoves(run0, events0, p, run, events, s, PruneRemove, s1);
    run', events' := WriterMoves(run0, events0, p, run', events', s1, PruneEnd, Goto(s1, p, Writer(w, Pruning)));
  }

  /** What is left once nothing more can be pruned. */
  ghost predicate Pruned(s: State, own: Gen, dirs: map<DirName, Dir>) {
    && (forall d :: d in dirs <==> d in s.dirs && !Unheld(s, own, d))
    && forall d :: d in dirs ==> dirs[d] == s.dirs[d]
  }

  lemma PruneMore(s: State, own: Gen, d: DirName, dirs: map<DirName, Dir>)
    requires Unheld(s, own, d) && Pruned(s.(dirs := s.dirs - {d}), own, dirs)
    ensures Pruned(s, own, dirs)
  {
    var s1 := s.(dirs := s.dirs - {d});
    assert forall g :: NoHolder(s1, g) <==> NoHolder(s, g);
    assert forall e :: e != d ==> (Unheld(s1, own, e) <==> Unheld(s, own, e));
  }

  lemma {:induction false} PrunesAll(run0: seq<State>, events0: seq<Event>, p: Pid, run: seq<State>,
      events: seq<Event>, s: State, w: WriterVars)
    returns (run': seq<State>, events': seq<Event>, dirs: map<DirName, Dir>)
    requires p in s.procs && s.procs[p] == Writer(w, Pruning) && GoesOn(run0, events0, p, run, events, s)
    ensures GoesOn(run0, events0, p, run', events', s.(dirs := dirs)) && Pruned(s, w.gen, dirs)
    decreases s.dirs.Keys
  {
    if d :| Unheld(s, w.gen, d) {
      var s1 := s.(dirs := s.dirs - {d});
      run', events' := PrunesOne(run0, events0, p, run, events, s, w, d);
      run', events', dirs := PrunesAll(run0, events0, p, run', events', s1, w);
      PruneMore(s, w.gen, d, dirs);
    } else {
      run', events', dirs := run, events, s.dirs;
    }
  }

  /** `reach` holds exactly what the directories in `read` refer to. */
  ghost predicate Reaches(s: State, read: set<DirName>, reach: set<Seg>) {
    forall x :: x in reach <==> exists d :: d in read && x in Refs(s, d)
  }

  lemma ReachesMore(s: State, read: set<DirName>, reach: set<Seg>, d: DirName)
    requires Reaches(s, read, reach)
    ensures Reaches(s, read + {d}, reach + Refs(s, d))
  {
  }

  lemma {:induction false} ScansAll(run0: seq<State>, events0: seq<Event>, p: Pid, run: seq<State>,
      events: seq<Event>, s: State, w: WriterVars, read: set<DirName>, todo: set<DirName>, reach: set<Seg>)
    returns (run': seq<State>, events': seq<Event>, reach': set<Seg>)
    requires p in s.procs && s.procs[p].Writer? && Reaches(s, read, reach) && read + todo == s.dirs.Keys
    requires GoesOn(run0, events0, p, run, events, Goto(s, p, Writer(w, Collecting(todo, reach))))
    ensures GoesOn(run0, events0, p, run', events', Goto(s, p, Writer(w, Collecting({}, reach'))))
    ensures Reaches(s, s.dirs.Keys, reach')
    decreases todo
  {
    if todo == {} {
      assert read == s.dirs.Keys;
      run', events', reach' := run, events, reach;
    } else {
      var d :| d in todo;
      var s1, x2 := Goto(s, p, Writer(w, Collecting(todo, reach))),
                    Writer(w, Collecting(todo - {d}, reach + Refs(s, d)));
      run', events' := WriterMoves(run0, events0, p, run, events, s1, ScanDir(d), Goto(s1, p, x2));
      assert s1.procs[p := x2] == s.procs[p := x2];
      ReachesMore(s, read, reach, d);
      run', events', reach' :=
        ScansAll(run0, events0, p, run', events', s, w, read + {d}, todo - {d}, reach + Refs(s, d));
    }
  }

  lemma SweepsUnreached(run0: seq<State>, events0: seq<Event>, p: Pid, run: seq<State>, events: seq<Event>, s: State,
      w: WriterVars)
    returns (run': seq<State>, events': seq<Event>, reach: set<Seg>)
    requires p in s.procs && s.procs[p] == Writer(w, Pruning) && GoesOn(run0, events0, p, run, events, s)
    requires forall d :: d in s.dirs ==> Refs(s, d) <= s.segments
    ensures GoesOn(run0, events0, p, run', events', Goto(s, p, Writer(w, Published)).(segments := reach))
    ensures Reaches(s, s.dirs.Keys, reach)
  {
    run', events' := WriterMoves(run0, events0, p, run, events, s, BeginScan,
                                 Goto(s, p, Writer(w, Collecting(s.dirs.Keys, {}))));
    run', events', reach := ScansAll(run0, events0, p, run', events', s, w, {}, s.dirs.Keys, {});
    run', events' := SweepsTo(run0, events0, p, run', events', s, w, reach);
  }

  lemma SweepsTo(run0: seq<State>, events0: seq<Event>, p: Pid, run: seq<State>, events: seq<Event>, s: State,
      w: WriterVars, reach: set<Seg>)
    returns (run': seq<State>, events': seq<Event>)
    requires GoesOn(run0, events0, p, run, events, Goto(s, p, Writer(w, Collecting({}, reach))))
    requires reach <= s.segments
    ensures GoesOn(run0, events0, p, run', events', Goto(s, p, Writer(w, Published)).(segments := reach))
  {
    var s1 := Goto(s, p, Writer(w, Collecting({}, reach)));
    var s2 := s1.(segments := reach);
    run', events' := WriterMoves(run0, events0, p, run, events, s1, Sweep, s2);
    run', events' := FinishesCollecting(run0, events0, p, run', events', s.(segments := reach), w, reach);
  }

  lemma FinishesCollecting(run0: seq<State>, events0: seq<Event>, p: Pid, run: seq<State>, events: seq<Event>, s: State,
      w: WriterVars, reach: set<Seg>)
    returns (run': seq<State>, events': seq<Event>)
    requires GoesOn(run0, events0, p, run, events, Goto(s, p, Writer(w, Collecting({}, reach))))
    ensures GoesOn(run0, events0, p, run', events', Goto(s, p, Writer(w, Published)))
  {
    var s1 := Goto(s, p, Writer(w, Collecting({}, reach)));
    var s2 := Goto(s1, p, Writer(w, Published));
    run', events' := WriterMoves(run0, events0, p, run, events, s1, FinishPublish, s2);
    assert s2.procs == s.procs[p := Writer(w, Published)];
  }

  /** A publisher that is left alone once it has published removes every superseded generation that nobody holds, and
      then every segment file that none of the others refers to. */
  lemma PublisherCleans(run: seq<State>, events: seq<Event>, p: Pid)
    returns (run': seq<State>, events': seq<Event>, s': State)
    requires IsRun(run, events) && p in run[|run| - 1].procs && run[|run| - 1].procs[p].Writer?
    requires run[|run| - 1].procs[p].pc.Pruning?
    ensures GoesOn(run, events, p, run', events', s')
    ensures var s := run[|run| - 1];
      && Pruned(s, s.procs[p].w.gen, s'.dirs) && Reaches(s', s'.dirs.Keys, s'.segments)
      && s'.current == s.current
  {
    var s := run[|run| - 1];
    var w := s.procs[p].w;
    RunInv(run, events, |run| - 1);
    assert forall d :: d in s.dirs ==> Refs(s, d) <= s.segments;
    Starts(run, events, p);
    var dirs, reach;
    run', events', dirs := PrunesAll(run, events, p, run, events, s, w);
    var s1 := s.(dirs := dirs);
    run', events', reach := SweepsUnreached(run, events, p, run', events', s1, w);
    s' := Goto(s1, p, Writer(w, Published)).(segments := reach);
    assert forall d :: Refs(s', d) == Refs(s1, d);
  }
}
