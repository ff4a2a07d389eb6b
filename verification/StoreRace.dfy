/**
Where the protection of readers ends.  `remove_dir_all` unlinks one entry at a time, so a reader can
meet a generation whose `.lease` is already gone and whose other files are still there.  It then goes
on without a lock that anybody would respect, and the generation is removed under its open handle.
Or it meets one whose references are gone: it then opens the directory by itself, properly locked, and
finds only the segment files that happen to be there.
*/
module StoreRace {
  import opened Wrappers
  import opened StoreModel
  import opened StoreInvariant
  import opened StoreSafety
  import opened StoreTheorems
  import opened StoreProgress

  /** The generation a handle was opened on is no longer there. */
  ghost predicate LostUnder(s: State, q: Pid) {
    q in s.procs && s.procs[q].Reader? && s.procs[q].r.Handle? && Final(s.procs[q].r.g) !in s.dirs
  }

  /** From any state of any run in which a writer is pruning, an open handle that is not anchored can
      lose its generation; together with `AnchoredHandleServes`, exactly those can. */
  lemma UnanchoredHandleCanBeLost(run: seq<State>, events: seq<Event>, q: Pid, p: Pid)
    returns (run': seq<State>, events': seq<Event>)
    requires IsRun(run, events)
    requires var s := run[|run| - 1];
      && q in s.procs && s.procs[q].Reader? && s.procs[q].r.Handle? && s.procs[q].r.pin != Anchored
      && p in s.procs && s.procs[p].Writer? && s.procs[p].pc.Pruning?
      && Final(s.procs[q].r.g) in s.dirs
    ensures IsRun(run', events') && run <= run' && LostUnder(run'[|run'| - 1], q)
  {
    var s := run[|run| - 1];
    var d := Final(s.procs[q].r.g);
    RunInv(run, events, |run| - 1);
    Facts(s, q);
    Facts(s, p);
    var s1, s2 := PrunedUnder(s, q, p);
    run', events' := Extend(run, events, s, p, PruneStart(d), s1);
    run', events' := Extend(run', events', s1, p, PruneRemove, s2);
  }

  lemma PrunedUnder(s: State, q: Pid, p: Pid) returns (s1: State, s2: State)
    requires q in s.procs && s.procs[q].Reader? && s.procs[q].r.Handle? && s.procs[q].r.pin != Anchored
    requires p in s.procs && s.procs[p].Writer? && s.procs[p].pc.Pruning?
    requires ProcOk(s, s.procs[q]) && ProcOk(s, s.procs[p]) && Final(s.procs[q].r.g) in s.dirs
    ensures Next(s, p, PruneStart(Final(s.procs[q].r.g)), s1) && Next(s1, p, PruneRemove, s2) && LostUnder(s2, q)
  {
    var d, w := Final(s.procs[q].r.g), s.procs[p].w;
    s1 := Goto(s, p, Writer(w, Removing(d, false)));
    assert CleanStep(s, p, PruneStart(d), s1);
    s2 := s1.(dirs := s1.dirs - {d});
    assert CleanStep(s1, p, PruneRemove, s2);
  }

  // ---------------------------------------------------------------- a concrete run

  const SEGS: seq<Seg> := [5, 6]

  ghost const CONTENT: map<Seg, Docs> := map[5 := multiset{"first"}, 6 := multiset{"second"}]

  ghost const DOCS: Docs := DocsOf(CONTENT, SEGS)

  /** The first generation: two segments, the file of one of them still in the directory too. */
  const FIRST := Dir(true, Some({5, 6}), Some(SEGS), {5})

  /** What is staged from it. */
  const SECOND := Dir(true, Some({5, 6}), Some(SEGS), {})

  /** One generation, published and current. */
  ghost function Start(): State {
    State(map[Final(0) := FIRST], Some(0), {5, 6}, CONTENT, map[], 1, [0], DOCS, [])
  }

  ghost function NewVars(): WriterVars {
    WriterVars(1, Ingest, false, false, false, [], {}, {}, None, 0, [])
  }

  ghost function Vars(attempted: bool): WriterVars {
    WriterVars(1, Ingest, false, false, attempted, SEGS, {}, {5, 6}, Some(0), 1, [])
  }

  /** A reader has resolved `CURRENT`; a writer stands at `pc` with its own generation in `own`. */
  ghost function Stage1(pc: WriterPc, w: WriterVars, own: map<DirName, Dir>): State {
    State(map[Final(0) := FIRST] + own, Some(0), {5, 6}, CONTENT,
          map[1 := Reader(Resolved(0)), 2 := Writer(w, pc)], 2, [0], DOCS, [])
  }

  /** The writer has published and is removing; the reader stands at `r`. */
  ghost function Stage2(rest: map<DirName, Dir>, pc: WriterPc, r: ReaderPc): State {
    State(rest + map[Final(1) := SECOND], Some(1), {5, 6}, CONTENT,
          map[1 := Reader(r), 2 := Writer(Vars(true), pc)], 2, [0, 1], DOCS, [])
  }

  /** A run from `Start()` that ends in `s`. */
  ghost predicate Reaches(run: seq<State>, events: seq<Event>, s: State) {
    EndsIn(run, events, s) && run[0] == Start()
  }

  lemma Then(run: seq<State>, events: seq<Event>, s: State, p: Pid, a: Action, s': State)
    returns (run': seq<State>, events': seq<Event>)
    requires Reaches(run, events, s) && Next(s, p, a, s')
    ensures Reaches(run', events', s')
  {
    run', events' := Extend(run, events, s, p, a, s');
  }

  lemma ThenStage(run: seq<State>, events: seq<Event>, s: State, a: Action, s': State)
    returns (run': seq<State>, events': seq<Event>)
    requires Reaches(run, events, s) && 2 in s.procs && s.procs[2].Writer? && !a.Crash? && StageStep(s, 2, a, s')
    ensures Reaches(run', events', s')
  {
    run', events' := Then(run, events, s, 2, a, s');
  }

  lemma ThenPublish(run: seq<State>, events: seq<Event>, s: State, a: Action, s': State)
    returns (run': seq<State>, events': seq<Event>)
    requires Reaches(run, events, s) && 2 in s.procs && s.procs[2].Writer? && !a.Crash? && PublishStep(s, 2, a, s')
    ensures Reaches(run', events', s')
  {
    run', events' := Then(run, events, s, 2, a, s');
  }

  lemma ThenClean(run: seq<State>, events: seq<Event>, s: State, a: Action, s': State)
    returns (run': seq<State>, events': seq<Event>)
    requires Reaches(run, events, s) && 2 in s.procs && s.procs[2].Writer? && !a.Crash? && CleanStep(s, 2, a, s')
    ensures Reaches(run', events', s')
  {
    run', events' := Then(run, events, s, 2, a, s');
  }

  lemma Resolves() returns (run: seq<State>, events: seq<Event>)
    ensures Reaches(run, events, Goto(Start(), 1, Reader(Resolved(0))))
  {
    run, events := [Start()], [];
    assert Sealed(Start(), 0);
    assert RunStep(run, events, 0);
    run, events := Then(run, events, Start(), 1, Resolve, Goto(Start(), 1, Reader(Resolved(0))));
  }

  lemma Begins() returns (run: seq<State>, events: seq<Event>)
    ensures Reaches(run, events, Stage1(Naming, NewVars(), map[]))
  {
    run, events := Resolves();
    var s1, s2 := Goto(Start(), 1, Reader(Resolved(0))), Stage1(Waiting, NewVars(), map[]);
    assert s2 == Goto(s1, 2, NewWriter(1, Ingest)).(nextGen := 2);
    run, events := Then(run, events, s1, 2, SpawnWriter(Ingest), s2);
    var s3 := Stage1(Naming, NewVars(), map[]);
    run, events := ThenStage(run, events, s2, LockForStaging, s3);
  }

  const BARE := Dir(true, None, None, {})

  lemma Makes() returns (run: seq<State>, events: seq<Event>)
    ensures Reaches(run, events, Stage1(Created, NewVars(), map[Staging(1) := BARE.(lease := false)]))
  {
    run, events := Begins();
    var s3 := Stage1(Naming, NewVars(), map[]);
    var s4 := Stage1(Created, NewVars(), map[Staging(1) := BARE.(lease := false)]);
    run, events := ThenStage(run, events, s3, MakeStaging, s4);
  }

  lemma Creates() returns (run: seq<State>, events: seq<Event>)
    ensures Reaches(run, events, Stage1(LeaseWritten, NewVars(), map[Staging(1) := BARE]))
  {
    run, events := Makes();
    var s4 := Stage1(Created, NewVars(), map[Staging(1) := BARE.(lease := false)]);
    var s5 := Stage1(LeaseWritten, NewVars(), map[Staging(1) := BARE]);
    run, events := ThenStage(run, events, s4, WriteLease, s5);
  }

  lemma Pins() returns (run: seq<State>, events: seq<Event>)
    ensures Reaches(run, events, Stage1(Pinned, NewVars(), map[Staging(1) := BARE]))
  {
    run, events := Creates();
    var s5 := Stage1(LeaseWritten, NewVars(), map[Staging(1) := BARE]);
    var s6 := Stage1(Pinned, NewVars(), map[Staging(1) := BARE]);
    run, events := ThenStage(run, events, s5, PinStaging, s6);
  }

  lemma Stages() returns (run: seq<State>, events: seq<Event>)
    ensures Reaches(run, events, Stage1(Pending, Vars(false), map[Staging(1) := SECOND]))
  {
    run, events := Pins();
    var s6 := Stage1(Pinned, NewVars(), map[Staging(1) := BARE]);
    var s7 := Stage1(Staged, Vars(false), map[Staging(1) := SECOND]);
    run, events := ThenStage(run, events, s6, StageFrom, s7);
    var s8 := Stage1(Pending, Vars(false), map[Staging(1) := SECOND]);
    run, events := ThenStage(run, events, s7, UnlockStaging, s8);
  }

  lemma Attempts() returns (run: seq<State>, events: seq<Event>)
    ensures Reaches(run, events, Stage1(Preparing({}), Vars(true), map[Staging(1) := SECOND]))
  {
    run, events := Stages();
    var s8 := Stage1(Pending, Vars(false), map[Staging(1) := SECOND]);
    var s9 := Stage1(Preparing({}), Vars(true), map[Staging(1) := SECOND]);
    run, events := ThenPublish(run, events, s8, LockForPublish, s9);
  }

  lemma Prepares() returns (run: seq<State>, events: seq<Event>)
    ensures Reaches(run, events, Stage1(Prepared, Vars(true), map[Staging(1) := SECOND]))
  {
    run, events := Attempts();
    var s9 := Stage1(Preparing({}), Vars(true), map[Staging(1) := SECOND]);
    var s10 := Stage1(Prepared, Vars(true), map[Staging(1) := SECOND]);
    assert Elems(SEGS) == {5, 6};
    run, events := ThenPublish(run, events, s9, WriteManifest, s10);
  }

  lemma Renames() returns (run: seq<State>, events: seq<Event>)
    ensures Reaches(run, events, Stage1(Renamed, Vars(true), map[Final(1) := SECOND]))
  {
    run, events := Prepares();
    var s10 := Stage1(Prepared, Vars(true), map[Staging(1) := SECOND]);
    var s11 := Stage1(Renamed, Vars(true), map[Final(1) := SECOND]);
    run, events := ThenPublish(run, events, s10, RenameStaging, s11);
  }

  lemma Publishes() returns (run: seq<State>, events: seq<Event>)
    ensures Reaches(run, events, Stage2(map[Final(0) := FIRST], Flipped, Resolved(0)))
  {
    run, events := Renames();
    var s11 := Stage1(Renamed, Vars(true), map[Final(1) := SECOND]);
    var s12 := Stage2(map[Final(0) := FIRST], Flipped, Resolved(0));
    run, events := ThenPublish(run, events, s11, FlipCurrent, s12);
  }

  lemma Prunes() returns (run: seq<State>, events: seq<Event>)
    ensures Reaches(run, events, Stage2(map[Final(0) := FIRST], Pruning, Resolved(0)))
  {
    run, events := Publishes();
    var s12 := Stage2(map[Final(0) := FIRST], Flipped, Resolved(0));
    var s13 := Stage2(map[Final(0) := FIRST], Pruning, Resolved(0));
    run, events := ThenPublish(run, events, s12, MarkPublished, s13);
  }

  lemma StartsRemoving() returns (run: seq<State>, events: seq<Event>)
    ensures Reaches(run, events, Stage2(map[Final(0) := FIRST], Removing(Final(0), true), Resolved(0)))
  {
    run, events := Prunes();
    var s13 := Stage2(map[Final(0) := FIRST], Pruning, Resolved(0));
    var s14 := Stage2(map[Final(0) := FIRST], Removing(Final(0), true), Resolved(0));
    run, events := ThenClean(run, events, s13, PruneStart(Final(0)), s14);
  }

  /** One entry of generation 0 is unlinked. */
  lemma Unlinks(left: Dir) returns (run: seq<State>, events: seq<Event>)
    requires Shrinks(FIRST, left)
    ensures Reaches(run, events, Stage2(map[Final(0) := left], Removing(Final(0), true), Resolved(0)))
  {
    run, events := StartsRemoving();
    var s14 := Stage2(map[Final(0) := FIRST], Removing(Final(0), true), Resolved(0));
    var s15 := Stage2(map[Final(0) := left], Removing(Final(0), true), Resolved(0));
    assert Unlinked1(s14.dirs, Final(0), s15.dirs);
    run, events := ThenClean(run, events, s14, PruneRemove, s15);
  }

  lemma ThenReader(run: seq<State>, events: seq<Event>, s: State, a: Action, r': ReaderPc)
    returns (run': seq<State>, events': seq<Event>)
    requires Reaches(run, events, s) && 1 in s.procs && s.procs[1].Reader? && !a.Crash?
    requires ReaderStep(s, 1, a, Goto(s, 1, Reader(r')))
    ensures Reaches(run', events', Goto(s, 1, Reader(r')))
  {
    run', events' := Then(run, events, s, 1, a, Goto(s, 1, Reader(r')));
  }

  lemma OnlyReaderMoves(rest: map<DirName, Dir>, pc: WriterPc, r: ReaderPc, r': ReaderPc)
    ensures Goto(Stage2(rest, pc, r), 1, Reader(r')) == Stage2(rest, pc, r')
  {
    assert Stage2(rest, pc, r).procs[1 := Reader(r')] == Stage2(rest, pc, r').procs;
  }

  lemma ReaderMoves(run: seq<State>, events: seq<Event>, rest: map<DirName, Dir>, pc: WriterPc,
      r: ReaderPc, a: Action, r': ReaderPc)
    returns (run': seq<State>, events': seq<Event>)
    requires Reaches(run, events, Stage2(rest, pc, r)) && !a.Crash?
    requires ReaderStep(Stage2(rest, pc, r), 1, a, Goto(Stage2(rest, pc, r), 1, Reader(r')))
    ensures Reaches(run', events', Stage2(rest, pc, r'))
  {
    run', events' := ThenReader(run, events, Stage2(rest, pc, r), a, r');
    OnlyReaderMoves(rest, pc, r, r');
  }

  // ---------------------------------------------------------------- the lease goes first

  const HALF := FIRST.(lease := false)

  lemma Opens() returns (run: seq<State>, events: seq<Event>)
    ensures Reaches(run, events,
      Stage2(map[Final(0) := HALF], Removing(Final(0), true), Handle(0, NoLease, Shared({5, 6}), SEGS, DOCS)))
  {
    var rest, pc := map[Final(0) := HALF], Removing(Final(0), true);
    run, events := Unlinks(HALF);
    run, events := ReaderMoves(run, events, rest, pc, Resolved(0), OpenLease, PinnedTo(0, NoLease));
    run, events := ReaderMoves(run, events, rest, pc, PinnedTo(0, NoLease), ReadManifest,
                               HasManifest(0, NoLease, {5, 6}));
    run, events := ReaderMoves(run, events, rest, pc, HasManifest(0, NoLease, {5, 6}), CheckStore,
                               Checked(0, NoLease, {5, 6}));
    run, events := ReaderMoves(run, events, rest, pc, Checked(0, NoLease, {5, 6}), ReadMeta,
                               Handle(0, NoLease, Shared({5, 6}), SEGS, DOCS));
  }

  /** Generation 0 starts out published, complete and current; with its `.lease` unlinked first,
      `open_or_create` still returns a handle on it, and the pruner then removes the rest. */
  lemma ReaderLosesHalfRemovedGeneration() returns (run: seq<State>, events: seq<Event>)
    ensures IsRun(run, events) && Sealed(run[0], 0) && run[0].current == Some(0)
    ensures var s := run[|run| - 1]; LostUnder(s, 1) && s.procs[1].r.g == 0
  {
    run, events := Opens();
    var pc, r := Removing(Final(0), true), Handle(0, NoLease, Shared({5, 6}), SEGS, DOCS);
    var s19, s20 := Stage2(map[Final(0) := HALF], pc, r), Stage2(map[], pc, r);
    assert s20.dirs == s19.dirs - {Final(0)};
    run, events := ThenClean(run, events, s19, PruneRemove, s20);
  }

  // ---------------------------------------------------------------- the references go first

  const PART := FIRST.(manifest := None)

  /** The removal stops there: a file could not be unlinked. */
  lemma Stops() returns (run: seq<State>, events: seq<Event>)
    ensures Reaches(run, events, Stage2(map[Final(0) := PART], Pruning, Resolved(0)))
  {
    run, events := Unlinks(PART);
    var s15 := Stage2(map[Final(0) := PART], Removing(Final(0), true), Resolved(0));
    var s16 := Stage2(map[Final(0) := PART], Pruning, Resolved(0));
    run, events := ThenClean(run, events, s15, PruneEnd, s16);
  }

  lemma Locks() returns (run: seq<State>, events: seq<Event>)
    ensures Reaches(run, events, Stage2(map[Final(0) := PART], Pruning, PinnedTo(0, Anchored)))
  {
    var rest := map[Final(0) := PART];
    run, events := Stops();
    run, events := ReaderMoves(run, events, rest, Pruning, Resolved(0), OpenLease, Opened(0));
    run, events := ReaderMoves(run, events, rest, Pruning, Opened(0), LockLease, PinnedTo(0, Anchored));
  }

  /** With the references of generation 0 unlinked first and the rest left, `open_or_create` returns a
      handle on it, properly locked, that names a segment whose file it cannot find. */
  lemma ReaderOpensPartOfGeneration() returns (run: seq<State>, events: seq<Event>)
    ensures IsRun(run, events) && Sealed(run[0], 0) && run[0].current == Some(0)
    ensures var s := run[|run| - 1];
      && 1 in s.procs && s.procs[1].Reader? && s.procs[1].r.Handle? && s.procs[1].r.pin == Anchored
      && s.procs[1].r.g == 0 && 6 in s.procs[1].r.segs && !Finds(s, s.procs[1].r, 6)
  {
    var rest := map[Final(0) := PART];
    run, events := Locks();
    run, events := ReaderMoves(run, events, rest, Pruning, PinnedTo(0, Anchored), MissManifest,
                               Unreferenced(0, Anchored));
    run, events := ReaderMoves(run, events, rest, Pruning, Unreferenced(0, Anchored), ReadMeta,
                               Handle(0, Anchored, Plain({5}), SEGS, DOCS));
    assert 6 in SEGS;
  }
}
