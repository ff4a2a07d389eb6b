/**
The generation store as a step relation.

An index root holds generation directories, a `CURRENT` file that names one of them, and a
store of immutable segment files that the directories refer to.  Any number of readers, writers
(ingests and compactions) and offline collectors act on it at once, one file-system call or one
in-memory commit per step; every one of them may crash between any two steps.

Locks are not stored anywhere: who holds a lock follows from where each process is, so a crash,
which removes the process, releases everything it held.
*/
module StoreModel {
  import opened Wrappers

  type Pid = nat
  /** A generation name.  Its `.lease` file is created once, so the name also stands for that inode. */
  type Gen = nat
  /** One immutable segment file: owner and file name together. */
  type Seg = nat
  type Record = string
  type Docs = multiset<Record>
  /** What one ingest commit does to the committed records: any deletions and additions. */
  type Commit = Docs -> Docs

  // ---------------------------------------------------------------- the file system

  /** `generations/<g>`, `generations/.<g>.tmp` and `generations/.gc-*`. */
  datatype DirName = Final(g: Gen) | Staging(g: Gen) | GcTemp(g: Gen)

  /** The entries of a generation directory. */
  datatype Dir = Dir(
    lease: bool,                  // `.lease` is linked here
    manifest: Option<set<Seg>>,   // the references: `.segments.json` and its format marker
    meta: Option<seq<Seg>>,       // `meta.json`: the committed segments
    local: set<Seg>)              // segment files in the directory itself

  // ---------------------------------------------------------------- processes

  /** How a reader's `acquire_generation_lease` came out.  The code cannot tell the last two apart. */
  datatype Pin =
    | NoLease     // `.lease` was not found: the reader goes on without a lock
    | Unlinked    // the shared lock was granted on a `.lease` that had been unlinked meanwhile
    | Anchored    // the shared lock was granted while `.lease` was still linked

  /** Where an open handle finds its segment files. */
  datatype View =
    | Shared(refs: set<Seg>)    // in the shared store, by the references it has read
    | Plain(files: set<Seg>)    // in the generation directory itself, as far as they were there

  datatype ReaderPc =
    | Resolved(g: Gen)
    | Opened(g: Gen)                                        // `.lease` is open, the lock is awaited
    | PinnedTo(g: Gen, pin: Pin)
    | HasManifest(g: Gen, pin: Pin, man: set<Seg>)
    | Checked(g: Gen, pin: Pin, man: set<Seg>)
    | Unreferenced(g: Gen, pin: Pin)                        // no references: a directory by itself
    | Handle(g: Gen, pin: Pin, view: View, segs: seq<Seg>, docs: Docs)
    | OpenFailed(g: Gen)
    | Retrying(g: Gen)                                      // `CURRENT` no longer names the one that failed
    | Errored(g: Gen)

  datatype Kind = Ingest | Compaction

  datatype WriterPc =
    | Waiting | Naming | Created | LeaseWritten | Pinned | Staged
    | Pending
    | Preparing(adopted: set<Seg>) | Prepared | Renamed | Flipped
    | Pruning | Removing(d: DirName, locked: bool)
    | Collecting(todo: set<DirName>, reach: set<Seg>)    // directories still to be read, references found
    | Published
    | Dropping(held: bool)                               // with or without the store lock

  datatype WriterVars = WriterVars(
    gen: Gen,
    kind: Kind,
    lease: bool,            // holds the ingest lease
    upToDate: bool,         // its staged contents are known to extend the current generation
    attempted: bool,        // `publish_generation` has been entered
    segs: seq<Seg>,         // committed segments
    created: set<Seg>,      // files written by this generation
    inherited: set<Seg>,    // references in its manifest
    base: Option<Gen>,      // `CURRENT` when it staged
    stagedAt: nat,          // how many times `CURRENT` had moved by then
    ops: seq<Commit>)       // commits made since staging

  datatype GcPc =
    | GcWaiting
    | Clearing(doomed: set<DirName>, cleared: set<DirName>, locked: set<Gen>)
    | TempMade(doomed: set<DirName>, locked: set<Gen>)
    | TempStaged(doomed: set<DirName>, locked: set<Gen>)
    | GcRenamed(doomed: set<DirName>, locked: set<Gen>)
    | GcRemoving(doomed: set<DirName>, locked: set<Gen>)
    | GcDropping(locked: set<Gen>)    // an error before the rename: the temporary directory goes
    | GcCollecting(todo: set<DirName>, reach: set<Seg>)
    | GcDone

  datatype Proc =
    | Reader(r: ReaderPc)
    | Writer(w: WriterVars, pc: WriterPc)
    | Collector(gen: Gen, held: bool, segs: seq<Seg>, gpc: GcPc)

  datatype State = State(
    dirs: map<DirName, Dir>,
    current: Option<Gen>,
    segments: set<Seg>,         // files in the shared segment store
    content: map<Seg, Docs>,    // what each segment file ever written holds
    procs: map<Pid, Proc>,
    nextGen: Gen,
    history: seq<Gen>,          // the values `CURRENT` has had, in order
    base: Docs,                 // the records current at the start
    log: seq<Commit>)           // the ingest commits published since

  // ---------------------------------------------------------------- who holds what

  predicate WriterHoldsStore(pc: WriterPc) {
    pc.Naming? || pc.Created? || pc.LeaseWritten? || pc.Pinned? || pc.Staged? ||
    pc.Preparing? || pc.Prepared? || pc.Renamed? || pc.Flipped? ||
    pc.Pruning? || pc.Removing? || pc.Collecting? || (pc.Dropping? && pc.held)
  }

  /** `storage::lock_store`. */
  predicate HoldsStore(x: Proc) {
    match x
    case Reader(_) => false
    case Writer(_, pc) => WriterHoldsStore(pc)
    case Collector(_, _, _, pc) => !pc.GcWaiting? && !pc.GcDone?
  }

  predicate ReaderShares(r: ReaderPc) {
    (r.PinnedTo? || r.HasManifest? || r.Checked? || r.Unreferenced? || r.Handle?) && r.pin != NoLease
  }

  predicate WriterShares(pc: WriterPc) {
    !pc.Waiting? && !pc.Naming? && !pc.Created? && !pc.LeaseWritten?
  }

  /** Holds a shared lock on the `.lease` of `g`. */
  predicate Shares(x: Proc, g: Gen) {
    match x
    case Reader(r) => ReaderShares(r) && r.g == g
    case Writer(w, pc) => w.gen == g && WriterShares(pc)
    case Collector(_, _, _, _) => false
  }

  function GcLocked(pc: GcPc): set<Gen> {
    if pc.Clearing? || pc.TempMade? || pc.TempStaged? || pc.GcRenamed? || pc.GcRemoving? || pc.GcDropping?
    then pc.locked else {}
  }

  /** Holds an exclusive lock on the `.lease` of `g`. */
  predicate Excludes(x: Proc, g: Gen) {
    match x
    case Reader(_) => false
    case Writer(_, pc) => pc.Removing? && pc.locked && pc.d.g == g
    case Collector(_, _, _, pc) => g in GcLocked(pc)
  }

  predicate HoldsLease(x: Proc) {
    match x
    case Reader(_) => false
    case Writer(w, _) => w.lease
    case Collector(_, held, _, _) => held
  }

  /** The name it works under. */
  function OwnGen(x: Proc): Option<Gen> {
    match x
    case Reader(_) => None
    case Writer(w, _) => Some(w.gen)
    case Collector(gen, _, _, _) => Some(gen)
  }

  /** Owns a name for which it has not made a directory yet. */
  predicate Early(x: Proc) {
    match x
    case Reader(_) => false
    case Writer(_, pc) => pc.Waiting? || pc.Naming?
    case Collector(_, _, _, pc) => pc.GcWaiting? || pc.Clearing?
  }

  ghost predicate StoreFree(s: State) {
    forall q :: q in s.procs ==> !HoldsStore(s.procs[q])
  }

  ghost predicate NoExclusive(s: State, g: Gen) {
    forall q :: q in s.procs ==> !Excludes(s.procs[q], g)
  }

  ghost predicate NoHolder(s: State, g: Gen) {
    forall q :: q in s.procs ==> !Excludes(s.procs[q], g) && !Shares(s.procs[q], g)
  }

  ghost predicate LeaseFree(s: State) {
    forall q :: q in s.procs ==> !HoldsLease(s.procs[q])
  }

  // ---------------------------------------------------------------- contents

  function Elems(segs: seq<Seg>): set<Seg> {
    set x | x in segs
  }

  ghost function DocsOf(content: map<Seg, Docs>, segs: seq<Seg>): Docs {
    if segs == [] then multiset{}
    else (if segs[0] in content then content[segs[0]] else multiset{}) + DocsOf(content, segs[1..])
  }

  ghost function Fold(base: Docs, log: seq<Commit>): Docs {
    if log == [] then base else log[|log| - 1](Fold(base, log[..|log| - 1]))
  }

  ghost function CurrentDocs(s: State): Docs {
    if s.current.None? || Final(s.current.value) !in s.dirs || s.dirs[Final(s.current.value)].meta.None?
    then multiset{}
    else DocsOf(s.content, s.dirs[Final(s.current.value)].meta.value)
  }

  /** `later` is `earlier` after some of its entries have been unlinked. */
  predicate Shrinks(earlier: Dir, later: Dir) {
    && (later.lease ==> earlier.lease)
    && (later.manifest.None? || later.manifest == earlier.manifest)
    && (later.meta.None? || later.meta == earlier.meta)
    && later.local <= earlier.local
  }

  /** One step of `remove_dir_all` on `d`: any entries go, or with the last of them the directory. */
  predicate Unlinked1(dirs: map<DirName, Dir>, d: DirName, dirs': map<DirName, Dir>) {
    && d in dirs
    && (|| dirs' == dirs - {d}
        || (d in dirs' && Shrinks(dirs[d], dirs'[d]) && dirs' == dirs[d := dirs'[d]]))
  }

  /** Moves `CURRENT`; `commits` are the ingest commits that become current with it. */
  ghost function Flip1(s: State, g: Gen, commits: seq<Commit>): State {
    if s.current == Some(g) then s
    else s.(current := Some(g), history := s.history + [g], log := s.log + commits)
  }

  // ---------------------------------------------------------------- steps

  datatype Action =
    // open_or_create
    | Resolve | OpenLease | LockLease | ReadManifest | MissManifest | CheckStore | ReadMeta
    | Recheck | ResolveAgain | CloseReader
    // ingest lease
    | AcquireLease | ReleaseLease
    // open_or_create_for_ingest_with_merge_policy
    | SpawnWriter(kind: Kind) | LockForStaging | MakeStaging | WriteLease | PinStaging | StageFrom | UnlockStaging
    | FailStage
    // writing, and run_index_compact's second look
    | CommitWrites(op: Commit) | MergeSegments | CheckVersion
    // publish_generation
    | LockForPublish | Adopt(extra: set<Seg>) | WriteManifest | RenameStaging | FoundFinal | FlipCurrent | MarkPublished
    | PruneStart(d: DirName) | PruneRemove | PruneEnd
    | BeginScan | ScanDir(d: DirName) | Sweep | FinishPublish | FailPublish
    // Drop for PendingGeneration
    | BeginDrop | DropRemove | EndDrop
    // garbage_collect_generations_offline
    | SpawnGc | GcLock | GcClear(d: DirName) | GcMakeTemp | GcStage | GcRename | GcFlip | GcRemove(d: DirName)
    | GcBeginDrop | GcDropRemove | GcBeginScan | GcScanDir(d: DirName) | GcSweep | GcFinish | GcFail
    | Crash

  /** Only process `p` moves, and it moves to `x`. */
  ghost function Goto(s: State, p: Pid, x: Proc): State {
    s.(procs := s.procs[p := x])
  }

  /** `meta.json` is there, and of a directory opened by itself the files of its first segment. */
  ghost predicate CanOpen(s: State, r: ReaderPc)
    requires r.Checked? || r.Unreferenced?
  {
    && Final(r.g) in s.dirs && s.dirs[Final(r.g)].meta.Some?
    && var segs := s.dirs[Final(r.g)].meta.value;
       r.Unreferenced? && segs != [] ==> segs[0] in s.dirs[Final(r.g)].local
  }

  ghost function OpenedOn(s: State, r: ReaderPc): ReaderPc
    requires (r.Checked? || r.Unreferenced?) && CanOpen(s, r)
  {
    var d := s.dirs[Final(r.g)];
    Handle(r.g, r.pin, if r.Checked? then Shared(r.man) else Plain(d.local), d.meta.value,
           DocsOf(s.content, d.meta.value))
  }

  ghost predicate ReaderStep(s: State, p: Pid, a: Action, s': State)
    requires p in s.procs && s.procs[p].Reader?
  {
    || (a.OpenLease?
        && var r := s.procs[p].r;
        && r.Resolved?
        && s' == Goto(s, p, Reader(
            if Final(r.g) in s.dirs && s.dirs[Final(r.g)].lease then Opened(r.g) else PinnedTo(r.g, NoLease))))
    || (a.LockLease?
        && var r := s.procs[p].r;
        && r.Opened? && NoExclusive(s, r.g)
        && s' == Goto(s, p, Reader(PinnedTo(r.g,
            if Final(r.g) in s.dirs && s.dirs[Final(r.g)].lease then Anchored else Unlinked))))
    || (a.ReadManifest?
        && var r := s.procs[p].r;
        && r.PinnedTo?
        && s' == Goto(s, p, Reader(
            if Final(r.g) in s.dirs && s.dirs[Final(r.g)].manifest.Some?
            then HasManifest(r.g, r.pin, s.dirs[Final(r.g)].manifest.value) else OpenFailed(r.g))))
    // Neither reference file is left: the directory is opened as one that keeps its own files.
    || (a.MissManifest?
        && var r := s.procs[p].r;
        && r.PinnedTo? && Final(r.g) in s.dirs && s.dirs[Final(r.g)].manifest.None?
        && s' == Goto(s, p, Reader(Unreferenced(r.g, r.pin))))
    || (a.CheckStore?
        && var r := s.procs[p].r;
        && r.HasManifest?
        && s' == Goto(s, p, Reader(if r.man <= s.segments then Checked(r.g, r.pin, r.man) else OpenFailed(r.g))))
    || (a.ReadMeta?
        && var r := s.procs[p].r;
        && (r.Checked? || r.Unreferenced?)
        && s' == Goto(s, p, Reader(if CanOpen(s, r) then OpenedOn(s, r) else OpenFailed(r.g))))
    || (a.Recheck?
        && var r := s.procs[p].r;
        && r.OpenFailed?
        && s' == Goto(s, p, Reader(if s.current == Some(r.g) then Errored(r.g) else Retrying(r.g))))
    || (a.ResolveAgain?
        && s.procs[p].r.Retrying?
        && s' == if s.current.Some? then Goto(s, p, Reader(Resolved(s.current.value)))
                 else s.(procs := s.procs - {p}))
    || (a.CloseReader? && (s.procs[p].r.Handle? || s.procs[p].r.Errored?) && s' == s.(procs := s.procs - {p}))
  }

  ghost predicate StageStep(s: State, p: Pid, a: Action, s': State)
    requires p in s.procs && s.procs[p].Writer?
  {
    var w, pc := s.procs[p].w, s.procs[p].pc;
    || (a.LockForStaging? && pc.Waiting? && StoreFree(s) && s' == Goto(s, p, Writer(w, Naming)))
    || (a.MakeStaging?
        && pc.Naming?
        && s' == Goto(s, p, Writer(w, Created)).(dirs := s.dirs[Staging(w.gen) := Dir(false, None, None, {})]))
    || (a.WriteLease?
        && pc.Created? && Staging(w.gen) in s.dirs
        && s' == Goto(s, p, Writer(w, LeaseWritten)).(
            dirs := s.dirs[Staging(w.gen) := s.dirs[Staging(w.gen)].(lease := true)]))
    || (a.PinStaging? && pc.LeaseWritten? && NoExclusive(s, w.gen) && s' == Goto(s, p, Writer(w, Pinned)))
    // Copies the references and meta.json of the current generation, or starts empty.
    || (a.StageFrom?
        && pc.Pinned? && Staging(w.gen) in s.dirs
        && (w.kind.Compaction? ==> s.current.Some?)
        && (s.current.Some? ==>
            && Final(s.current.value) in s.dirs
            && s.dirs[Final(s.current.value)].manifest.Some? && s.dirs[Final(s.current.value)].meta.Some?)
        && var man := if s.current.Some? then s.dirs[Final(s.current.value)].manifest.value else {};
        && var segs := if s.current.Some? then s.dirs[Final(s.current.value)].meta.value else [];
        && s' == Goto(s, p, Writer(
              w.(inherited := man, segs := segs, created := {}, base := s.current, stagedAt := |s.history|,
                 upToDate := w.lease),
              Staged)).(
            dirs := s.dirs[Staging(w.gen) := s.dirs[Staging(w.gen)].(manifest := Some(man), meta := Some(segs))]))
    || (a.UnlockStaging? && pc.Staged? && s' == Goto(s, p, Writer(w, Pending)))
    // An error in staging, or in opening what was staged: the directory goes, still under the lock.
    || (a.FailStage? && (pc.Pinned? || pc.Staged?) && s' == Goto(s, p, Writer(w, Dropping(true))))
  }

  /** New segment files are written in the staging directory and `meta.json` is replaced. */
  ghost predicate Rewrites(s: State, p: Pid, w: WriterVars, w': WriterVars, s': State) {
    var d := Staging(w.gen);
    && d in s.dirs
    && s.content.Keys <= s'.content.Keys
    && (forall x :: x in s.content ==> s'.content[x] == s.content[x])
    && w'.created <= s'.content.Keys
    && (forall x :: x in w'.created && x !in w.created ==> x !in s.content)
    && Elems(w'.segs) <= w'.created + w.inherited
    && s' == Goto(s, p, Writer(w', Pending)).(
        content := s'.content,
        dirs := s.dirs[d := s.dirs[d].(meta := Some(w'.segs), local := w'.created)])
  }

  ghost predicate WriteStep(s: State, p: Pid, a: Action, s': State)
    requires p in s.procs && s.procs[p].Writer?
  {
    var w, pc := s.procs[p].w, s.procs[p].pc;
    || (a.CommitWrites?
        && pc.Pending? && w.kind.Ingest? && p in s'.procs && s'.procs[p].Writer?
        && var w' := s'.procs[p].w;
        && w' == w.(segs := w'.segs, created := w'.created, ops := w.ops + [a.op])
        && Rewrites(s, p, w, w', s')
        && DocsOf(s'.content, w'.segs) == a.op(DocsOf(s.content, w.segs)))
    || (a.MergeSegments?
        && pc.Pending? && p in s'.procs && s'.procs[p].Writer?
        && var w' := s'.procs[p].w;
        && w' == w.(segs := w'.segs, created := w'.created)
        && Rewrites(s, p, w, w', s')
        && DocsOf(s'.content, w'.segs) == DocsOf(s.content, w.segs))
    || (a.CheckVersion?
        && pc.Pending? && w.kind.Compaction? && w.lease && !w.attempted && s.current == w.base
        && s' == Goto(s, p, Writer(w.(upToDate := true), Pending)))
  }

  ghost predicate PublishStep(s: State, p: Pid, a: Action, s': State)
    requires p in s.procs && s.procs[p].Writer?
  {
    var w, pc := s.procs[p].w, s.procs[p].pc;
    || (a.LockForPublish?
        && pc.Pending? && StoreFree(s) && s' == Goto(s, p, Writer(w.(attempted := true), Preparing({}))))
    || (a.Adopt?
        && pc.Preparing? && Staging(w.gen) in s.dirs
        && a.extra <= w.created * Elems(w.segs) && a.extra <= s.dirs[Staging(w.gen)].local
        && s' == Goto(s, p, Writer(w, Preparing(pc.adopted + a.extra))).(segments := s.segments + a.extra))
    || (a.WriteManifest?
        && pc.Preparing? && Staging(w.gen) in s.dirs && w.created * Elems(w.segs) <= pc.adopted
        && s' == Goto(s, p, Writer(w.(inherited := Elems(w.segs)), Prepared)).(
            dirs := s.dirs[Staging(w.gen) := s.dirs[Staging(w.gen)].(manifest := Some(Elems(w.segs)))]))
    || (a.RenameStaging?
        && pc.Prepared? && Staging(w.gen) in s.dirs
        && s' == Goto(s, p, Writer(w, Renamed)).(
            dirs := (s.dirs - {Staging(w.gen)})[Final(w.gen) := s.dirs[Staging(w.gen)]]))
    // A retry after the rename: the staging directory is gone, the final one is there.
    || (a.FoundFinal?
        && pc.Preparing? && Staging(w.gen) !in s.dirs && Final(w.gen) in s.dirs
        && s' == Goto(s, p, Writer(w, Renamed)))
    || (a.FlipCurrent?
        && pc.Renamed?
        && s' == Goto(Flip1(s, w.gen, w.ops), p, Writer(w, Flipped)))
    || (a.MarkPublished? && pc.Flipped? && s' == Goto(s, p, Writer(w, Pruning)))
    // Any error: the store lock and the lease being removed under are released.  Once
    // `published` is set the generation counts as published whatever follows.
    || (a.FailPublish?
        && WriterHoldsStore(pc) && (pc.Preparing? || pc.Prepared? || pc.Renamed? || pc.Flipped? ||
                                    pc.Pruning? || pc.Removing? || pc.Collecting?)
        && s' == Goto(s, p, Writer(w,
            if pc.Pruning? || pc.Removing? || pc.Collecting? then Published else Pending)))
  }

  /** May the pruning writer start removing `d`, and does it then hold the exclusive lock? */
  ghost predicate PruneAllowed(s: State, own: Gen, d: DirName, locked: bool) {
    && d in s.dirs && d != Final(own) && !d.GcTemp?
    && (locked <==> s.dirs[d].lease)
    && (locked ==> NoHolder(s, d.g))
    && (d.Staging? ==> locked)      // an unleased work directory is left for offline collection
  }

  /** The references read in `d`: none once it, or its manifest, is gone. */
  function Refs(s: State, d: DirName): set<Seg> {
    if d in s.dirs && s.dirs[d].manifest.Some? then s.dirs[d].manifest.value else {}
  }

  ghost predicate CleanStep(s: State, p: Pid, a: Action, s': State)
    requires p in s.procs && s.procs[p].Writer?
  {
    var w, pc := s.procs[p].w, s.procs[p].pc;
    || (a.PruneStart?
        && pc.Pruning? && a.d in s.dirs && PruneAllowed(s, w.gen, a.d, s.dirs[a.d].lease)
        && s' == Goto(s, p, Writer(w, Removing(a.d, s.dirs[a.d].lease))))
    || (a.PruneRemove?
        && pc.Removing? && Unlinked1(s.dirs, pc.d, s'.dirs)
        && s' == s.(dirs := s'.dirs))
    || (a.PruneEnd? && pc.Removing? && s' == Goto(s, p, Writer(w, Pruning)))
    // The directories are listed and then read one by one.
    || (a.BeginScan? && pc.Pruning? && s' == Goto(s, p, Writer(w, Collecting(s.dirs.Keys, {}))))
    || (a.ScanDir?
        && pc.Collecting? && a.d in pc.todo
        && s' == Goto(s, p, Writer(w, Collecting(pc.todo - {a.d}, pc.reach + Refs(s, a.d)))))
    || (a.Sweep?
        && pc.Collecting? && pc.todo == {} && s'.segments <= s.segments && s.segments * pc.reach <= s'.segments
        && s' == s.(segments := s'.segments))
    || (a.FinishPublish? && (pc.Pruning? || pc.Collecting?) && s' == Goto(s, p, Writer(w, Published)))
  }

  ghost predicate DropStep(s: State, p: Pid, a: Action, s': State)
    requires p in s.procs && s.procs[p].Writer?
  {
    var w, pc := s.procs[p].w, s.procs[p].pc;
    || (a.BeginDrop? && pc.Pending? && s' == Goto(s, p, Writer(w, Dropping(false))))
    || (a.DropRemove?
        && pc.Dropping? && Unlinked1(s.dirs, Staging(w.gen), s'.dirs)
        && s' == s.(dirs := s'.dirs))
    || (a.EndDrop? && (pc.Dropping? || pc.Published?) && s' == s.(procs := s.procs - {p}))
  }

  ghost predicate GcStep(s: State, p: Pid, a: Action, s': State)
    requires p in s.procs && s.procs[p].Collector?
  {
    var x, pc := s.procs[p], s.procs[p].gpc;
    // Lists every generation and work directory under the store lock; there must be a current one.
    || (a.GcLock?
        && pc.GcWaiting? && StoreFree(s) && s.current.Some?
        && s' == Goto(s, p, x.(gpc := Clearing(s.dirs.Keys, {}, {}))))
    // Locks one of them, unless it has no lease file; refuses when somebody holds it.
    || (a.GcClear?
        && pc.Clearing? && a.d in pc.doomed && a.d !in pc.cleared
        && if a.d in s.dirs && s.dirs[a.d].lease
           then NoHolder(s, a.d.g) &&
                s' == Goto(s, p, x.(gpc := Clearing(pc.doomed, pc.cleared + {a.d}, pc.locked + {a.d.g})))
           else s' == Goto(s, p, x.(gpc := Clearing(pc.doomed, pc.cleared + {a.d}, pc.locked))))
    || (a.GcMakeTemp?
        && pc.Clearing? && pc.cleared == pc.doomed
        && s' == Goto(s, p, x.(gpc := TempMade(pc.doomed, pc.locked))).(
            dirs := s.dirs[GcTemp(x.gen) := Dir(true, None, None, {})]))
    || (a.GcStage?
        && pc.TempMade? && GcTemp(x.gen) in s.dirs && s.current.Some? && Final(s.current.value) in s.dirs
        && s.dirs[Final(s.current.value)].manifest.Some? && s.dirs[Final(s.current.value)].meta.Some?
        && var segs := s.dirs[Final(s.current.value)].meta.value;
        && var man := s.dirs[Final(s.current.value)].manifest.value * Elems(segs);
        && s' == Goto(s, p, x.(segs := segs, gpc := TempStaged(pc.doomed, pc.locked))).(
            dirs := s.dirs[GcTemp(x.gen) := s.dirs[GcTemp(x.gen)].(manifest := Some(man), meta := Some(segs))]))
    || (a.GcRename?
        && pc.TempStaged? && GcTemp(x.gen) in s.dirs
        && s' == Goto(s, p, x.(gpc := GcRenamed(pc.doomed, pc.locked))).(
            dirs := (s.dirs - {GcTemp(x.gen)})[Final(x.gen) := s.dirs[GcTemp(x.gen)]]))
    || (a.GcFlip?
        && pc.GcRenamed?
        && s' == Goto(Flip1(s, x.gen, []), p, x.(gpc := GcRemoving(pc.doomed, pc.locked))))
    || (a.GcRemove?
        && pc.GcRemoving? && a.d in pc.doomed && Unlinked1(s.dirs, a.d, s'.dirs)
        && s' == s.(dirs := s'.dirs))
    || (a.GcBeginDrop? && (pc.TempMade? || pc.TempStaged?) && s' == Goto(s, p, x.(gpc := GcDropping(pc.locked))))
    || (a.GcDropRemove?
        && pc.GcDropping? && Unlinked1(s.dirs, GcTemp(x.gen), s'.dirs)
        && s' == s.(dirs := s'.dirs))
    || (a.GcBeginScan? && pc.GcRemoving? && s' == Goto(s, p, x.(gpc := GcCollecting(s.dirs.Keys, {}))))
    || (a.GcScanDir?
        && pc.GcCollecting? && a.d in pc.todo
        && s' == Goto(s, p, x.(gpc := GcCollecting(pc.todo - {a.d}, pc.reach + Refs(s, a.d)))))
    || (a.GcSweep?
        && pc.GcCollecting? && pc.todo == {} && s'.segments <= s.segments && s.segments * pc.reach <= s'.segments
        && s' == s.(segments := s'.segments))
    || (a.GcFinish? && pc.GcCollecting? && s' == Goto(s, p, x.(gpc := GcDone)))
    // Any error: every lock is released; after a failed rename the temporary directory stays.
    || (a.GcFail? && HoldsStore(x) && s' == Goto(s, p, x.(gpc := GcDone)))
  }

  ghost predicate LeaseStep(s: State, p: Pid, a: Action, s': State)
    requires p in s.procs && !s.procs[p].Reader?
  {
    || (a.AcquireLease?
        && LeaseFree(s)
        && s' == Goto(s, p, match s.procs[p]
                            case Writer(w, pc) => Writer(w.(lease := true), pc)
                            case Collector(g, _, segs, pc) => Collector(g, true, segs, pc)))
    // The lease guard outlives staging and publication.
    || (a.ReleaseLease?
        && HoldsLease(s.procs[p]) && !HoldsStore(s.procs[p])
        && s' == Goto(s, p, match s.procs[p]
                            case Writer(w, pc) => Writer(w.(lease := false, upToDate := false), pc)
                            case Collector(g, _, segs, pc) => Collector(g, false, segs, pc)))
  }

  function NewWriter(g: Gen, kind: Kind): Proc {
    Writer(WriterVars(g, kind, false, false, false, [], {}, {}, None, 0, []), Waiting)
  }

  ghost predicate WriterStep(s: State, p: Pid, a: Action, s': State)
    requires p in s.procs && s.procs[p].Writer?
  {
    || StageStep(s, p, a, s') || WriteStep(s, p, a, s') || PublishStep(s, p, a, s')
    || CleanStep(s, p, a, s') || DropStep(s, p, a, s') || LeaseStep(s, p, a, s')
  }

  ghost predicate CollectorStep(s: State, p: Pid, a: Action, s': State)
    requires p in s.procs && s.procs[p].Collector?
  {
    GcStep(s, p, a, s') || LeaseStep(s, p, a, s')
  }

  /** A new process: a reader resolves `CURRENT`, a writer or collector picks a name nobody has used. */
  ghost predicate Spawn(s: State, p: Pid, a: Action, s': State) {
    && p !in s.procs
    && ((a.Resolve? && s.current.Some? && s' == Goto(s, p, Reader(Resolved(s.current.value))))
        || (a.SpawnWriter? && s' == Goto(s, p, NewWriter(s.nextGen, a.kind)).(nextGen := s.nextGen + 1))
        || (a.SpawnGc? && s' == Goto(s, p, Collector(s.nextGen, false, [], GcWaiting)).(nextGen := s.nextGen + 1)))
  }

  ghost predicate Next(s: State, p: Pid, a: Action, s': State) {
    if p !in s.procs then Spawn(s, p, a, s')
    else if a.Crash? then s' == s.(procs := s.procs - {p})
    else if s.procs[p].Reader? then ReaderStep(s, p, a, s')
    else if s.procs[p].Writer? then WriterStep(s, p, a, s')
    else CollectorStep(s, p, a, s')
  }

  // ---------------------------------------------------------------- runs

  /** A published generation with everything a reader needs. */
  ghost predicate Sealed(s: State, g: Gen) {
    && Final(g) in s.dirs && s.dirs[Final(g)].lease
    && s.dirs[Final(g)].manifest.Some? && s.dirs[Final(g)].meta.Some?
    && Elems(s.dirs[Final(g)].meta.value) <= s.dirs[Final(g)].manifest.value <= s.segments
  }

  /** Nobody is running; every generation on disk is a published one and `CURRENT` names one, if any. */
  ghost predicate Init(s: State) {
    && s.procs == map[]
    && (forall d :: d in s.dirs ==> d.Final? && d.g < s.nextGen && Sealed(s, d.g))
    && s.segments <= s.content.Keys
    && (s.current.Some? ==> Final(s.current.value) in s.dirs)
    && s.history == (if s.current.Some? then [s.current.value] else [])
    && s.base == CurrentDocs(s) && s.log == []
  }

  datatype Event = Event(p: Pid, a: Action)

  /** State `i` of the run starts it, or follows from the one before. */
  ghost predicate RunStep(run: seq<State>, events: seq<Event>, i: nat)
    requires i < |run| == |events| + 1
  {
    if i == 0 then Init(run[0]) else Next(run[i - 1], events[i - 1].p, events[i - 1].a, run[i])
  }

  ghost predicate IsRun(run: seq<State>, events: seq<Event>) {
    |run| == |events| + 1 && forall i: nat :: i < |run| ==> RunStep(run, events, i)
  }
}
