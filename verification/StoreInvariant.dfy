/**
What every step of the store protocol keeps, proved in rely/guarantee style: `Guarantee` says how
far one process may disturb the others, `ProcOk` what each process may rely on where it stands.
*/
module StoreInvariant {
  import opened Wrappers
  import opened StoreModel

  // ---------------------------------------------------------------- what a process relies on

  ghost predicate Absent(s: State, g: Gen) {
    Final(g) !in s.dirs && Staging(g) !in s.dirs && GcTemp(g) !in s.dirs
  }

  ghost predicate InStaging(s: State, w: WriterVars) {
    && Staging(w.gen) in s.dirs && Final(w.gen) !in s.dirs && GcTemp(w.gen) !in s.dirs
    && var d := s.dirs[Staging(w.gen)];
    && d.lease && d.manifest == Some(w.inherited) && d.meta == Some(w.segs)
    && Elems(w.segs) <= w.created + w.inherited && w.created <= d.local && w.created <= s.content.Keys
  }

  ghost predicate InFinal(s: State, g: Gen, segs: seq<Seg>) {
    && Final(g) in s.dirs && Staging(g) !in s.dirs && GcTemp(g) !in s.dirs
    && var d := s.dirs[Final(g)];
    && d.lease && d.manifest.Some? && d.meta == Some(segs)
  }

  ghost predicate JustCreated(s: State, g: Gen, lease: bool) {
    && Staging(g) in s.dirs && Final(g) !in s.dirs && GcTemp(g) !in s.dirs
    && s.dirs[Staging(g)] == Dir(lease, None, None, {})
  }

  /** Every reference still on disk, but for the directories `todo`, is in `reach`. */
  ghost predicate Covers(s: State, todo: set<DirName>, reach: set<Seg>) {
    forall d :: d in s.dirs && d !in todo && s.dirs[d].manifest.Some? ==> s.dirs[d].manifest.value <= reach
  }

  ghost predicate WriterOk(s: State, w: WriterVars, pc: WriterPc) {
    match pc
    case Waiting => Absent(s, w.gen)
    case Naming => Absent(s, w.gen)
    case Created => JustCreated(s, w.gen, false)
    case LeaseWritten => JustCreated(s, w.gen, true)
    case Pinned => JustCreated(s, w.gen, true)
    case Staged => InStaging(s, w)
    case Pending => InStaging(s, w) || InFinal(s, w.gen, w.segs)
    case Preparing(adopted) => (InStaging(s, w) || InFinal(s, w.gen, w.segs)) && adopted <= s.segments
    case Prepared => InStaging(s, w) && Elems(w.segs) <= w.inherited
    case Renamed => InFinal(s, w.gen, w.segs)
    case Flipped => InFinal(s, w.gen, w.segs) && s.current == Some(w.gen)
    case Pruning => InFinal(s, w.gen, w.segs) && s.current == Some(w.gen)
    case Removing(d, locked) =>
      && InFinal(s, w.gen, w.segs) && s.current == Some(w.gen)
      && d != Final(w.gen) && (d in s.dirs && !locked ==> !s.dirs[d].lease)
    case Collecting(todo, reach) => InFinal(s, w.gen, w.segs) && s.current == Some(w.gen) && Covers(s, todo, reach)
    case Published => InFinal(s, w.gen, w.segs)
    case Dropping(_) => Final(w.gen) in s.dirs ==> Staging(w.gen) !in s.dirs
  }

  /** The collector may remove `d`: it holds its lock, or there is no lease file to lock. */
  ghost predicate Cleared(s: State, d: DirName, locked: set<Gen>) {
    d.g in locked || d !in s.dirs || !s.dirs[d].lease
  }

  ghost predicate AllCleared(s: State, g: Gen, ds: set<DirName>, locked: set<Gen>) {
    forall d :: d in ds ==> Cleared(s, d, locked) && d.g != g
  }

  ghost predicate TempOnly(s: State, g: Gen) {
    GcTemp(g) in s.dirs && Final(g) !in s.dirs && Staging(g) !in s.dirs && s.dirs[GcTemp(g)].lease
  }

  ghost predicate GcOk(s: State, g: Gen, segs: seq<Seg>, pc: GcPc) {
    match pc
    case GcWaiting => Absent(s, g)
    case Clearing(doomed, cleared, locked) =>
      && Absent(s, g) && s.current.Some? && s.dirs.Keys <= doomed && cleared <= doomed
      && (forall d :: d in doomed ==> d.g != g)
      && AllCleared(s, g, cleared, locked)
    case TempMade(doomed, locked) =>
      && s.current.Some? && TempOnly(s, g) && s.dirs[GcTemp(g)] == Dir(true, None, None, {})
      && s.dirs.Keys <= doomed + {GcTemp(g)} && AllCleared(s, g, doomed, locked)
    case TempStaged(doomed, locked) =>
      && s.current.Some? && TempOnly(s, g) && s.dirs[GcTemp(g)].meta == Some(segs)
      && s.dirs[GcTemp(g)].manifest.Some? && Elems(segs) <= s.dirs[GcTemp(g)].manifest.value
      && AllCleared(s, g, doomed, locked)
    case GcRenamed(doomed, locked) =>
      InFinal(s, g, segs) && AllCleared(s, g, doomed, locked)
    case GcRemoving(doomed, locked) =>
      InFinal(s, g, segs) && s.current == Some(g) && AllCleared(s, g, doomed, locked)
    case GcDropping(_) => Final(g) !in s.dirs
    case GcCollecting(todo, reach) => InFinal(s, g, segs) && s.current == Some(g) && Covers(s, todo, reach)
    case GcDone => true
  }

  /** The name has had its directory: no staging directory of that name is there or will be again. */
  ghost predicate Settled(s: State, g: Gen) {
    && g < s.nextGen && Staging(g) !in s.dirs && GcTemp(g) !in s.dirs
    && forall q :: q in s.procs && OwnGen(s.procs[q]) == Some(g) ==> !Early(s.procs[q])
  }

  /** A pruner or collector has started on this generation. */
  ghost predicate Damaged(s: State, g: Gen) {
    || Final(g) !in s.dirs || !s.dirs[Final(g)].lease
    || s.dirs[Final(g)].manifest.None? || s.dirs[Final(g)].meta.None?
  }

  ghost predicate Linked(s: State, g: Gen) {
    Final(g) in s.dirs && s.dirs[Final(g)].lease
  }

  ghost predicate ManifestIs(s: State, g: Gen, pin: Pin, man: set<Seg>) {
    && (Final(g) in s.dirs ==> s.dirs[Final(g)].manifest.None? || s.dirs[Final(g)].manifest == Some(man))
    && (pin == Anchored ==> Final(g) in s.dirs && s.dirs[Final(g)].manifest == Some(man))
  }

  ghost predicate NoManifest(s: State, g: Gen) {
    Final(g) in s.dirs ==> s.dirs[Final(g)].manifest.None?
  }

  /** The handle's files are where it looks for them, if it is anchored. */
  ghost predicate ViewOk(s: State, g: Gen, pin: Pin, view: View) {
    match view
    case Shared(refs) => ManifestIs(s, g, pin, refs)
    case Plain(files) => NoManifest(s, g) && (pin == Anchored ==> Final(g) in s.dirs && s.dirs[Final(g)].local == files)
  }

  ghost predicate ReaderOk(s: State, r: ReaderPc) {
    && Settled(s, r.g)
    && (match r
        case Resolved(_) => true
        case Opened(_) => true
        case PinnedTo(g, pin) => pin == Anchored <==> Linked(s, g)
        case HasManifest(g, pin, man) => (pin == Anchored <==> Linked(s, g)) && ManifestIs(s, g, pin, man)
        case Checked(g, pin, man) => (pin == Anchored <==> Linked(s, g)) && ManifestIs(s, g, pin, man)
        case Unreferenced(g, pin) => (pin == Anchored <==> Linked(s, g)) && NoManifest(s, g)
        case Handle(g, pin, view, segs, docs) =>
          && (pin == Anchored <==> Linked(s, g)) && ViewOk(s, g, pin, view)
          && (pin == Anchored ==> s.dirs[Final(g)].meta == Some(segs))
          && Elems(segs) <= s.content.Keys && docs == DocsOf(s.content, segs)
        case OpenFailed(g) => Damaged(s, g)
        case Retrying(_) => true
        case Errored(_) => false)
  }

  ghost predicate ProcOk(s: State, x: Proc) {
    match x
    case Reader(r) => ReaderOk(s, r)
    case Writer(w, pc) => WriterOk(s, w, pc)
    case Collector(g, _, segs, pc) => GcOk(s, g, segs, pc)
  }

  // ---------------------------------------------------------------- the invariant

  ghost predicate DirsOk(s: State) {
    && (forall d :: d in s.dirs ==> d.g < s.nextGen)
    && (forall d :: d in s.dirs && s.dirs[d].manifest.Some? ==> s.dirs[d].manifest.value <= s.segments)
    && (forall d :: d in s.dirs && s.dirs[d].meta.Some? ==> Elems(s.dirs[d].meta.value) <= s.content.Keys)
    && (forall d :: d in s.dirs && d.Final? && s.dirs[d].manifest.Some? && s.dirs[d].meta.Some? ==>
          Elems(s.dirs[d].meta.value) <= s.dirs[d].manifest.value)
    && s.segments <= s.content.Keys
  }

  ghost predicate CurrentOk(s: State) {
    s.current.Some? ==> !Damaged(s, s.current.value) && Settled(s, s.current.value)
  }

  /** The locks and names of `p` are its own. */
  ghost predicate Alone(s: State, p: Pid)
    requires p in s.procs
  {
    && (OwnGen(s.procs[p]).Some? ==> OwnGen(s.procs[p]).value < s.nextGen)
    && (forall g: Gen :: Excludes(s.procs[p], g) ==> !Shares(s.procs[p], g))
    && forall q :: q in s.procs && q != p ==>
         && !(HoldsStore(s.procs[p]) && HoldsStore(s.procs[q]))
         && (OwnGen(s.procs[p]).Some? ==> OwnGen(s.procs[p]) != OwnGen(s.procs[q]))
         && (forall g: Gen :: Excludes(s.procs[p], g) ==> !Excludes(s.procs[q], g) && !Shares(s.procs[q], g))
         && (forall g: Gen :: Shares(s.procs[p], g) ==> !Excludes(s.procs[q], g))
  }

  ghost predicate Inv(s: State) {
    && DirsOk(s) && CurrentOk(s)
    && (forall p :: p in s.procs ==> Alone(s, p))
    && (forall p :: p in s.procs ==> ProcOk(s, s.procs[p]))
  }

  // ---------------------------------------------------------------- what a process guarantees

  ghost predicate Untouched(s: State, s': State, d: DirName) {
    (d in s.dirs <==> d in s'.dirs) && (d in s.dirs ==> s'.dirs[d] == s.dirs[d])
  }

  /** It works on the directory of its own name, and never on a published one. */
  ghost predicate OwnChange(s: State, x: Proc, s': State, d: DirName) {
    && OwnGen(x) == Some(d.g)
    && (d.Final? ==> d !in s.dirs && (Staging(d.g) in s.dirs || GcTemp(d.g) in s.dirs) && !Damaged(s', d.g))
    && (!d.Final? && d !in s.dirs ==> Early(x))
  }

  /** Under the store lock it removes entries of a directory it has locked, or that has no lease file. */
  ghost predicate Removal(s: State, x: Proc, s': State, d: DirName) {
    && HoldsStore(x) && s.current != Some(d.g) && d in s.dirs
    && (Excludes(x, d.g) || !s.dirs[d].lease)
    && (d !in s'.dirs || Shrinks(s.dirs[d], s'.dirs[d]))
  }

  ghost predicate Guarantee(s: State, p: Pid, s': State) {
    && (forall q :: q != p ==> (q in s.procs <==> q in s'.procs) && (q in s.procs ==> s'.procs[q] == s.procs[q]))
    && s.nextGen <= s'.nextGen
    && s.content.Keys <= s'.content.Keys && (forall x :: x in s.content ==> s'.content[x] == s.content[x])
    && (forall d :: Untouched(s, s', d) ||
          (p in s.procs && (OwnChange(s, s.procs[p], s', d) || Removal(s, s.procs[p], s', d))))
    && (!(p in s.procs && HoldsStore(s.procs[p])) ==>
          && s'.current == s.current && s'.segments == s.segments && s'.dirs.Keys <= s.dirs.Keys
          && forall d :: d in s'.dirs ==>
               && (s'.dirs[d].manifest.None? || s'.dirs[d].manifest == s.dirs[d].manifest)
               && (s'.dirs[d].lease ==> s.dirs[d].lease))
    && (s'.current == s.current || (s'.current.Some? && p in s.procs && s'.current == OwnGen(s.procs[p])))
    && (p in s'.procs ==>
          if p in s.procs
          then OwnGen(s'.procs[p]) == OwnGen(s.procs[p]) && (Early(s'.procs[p]) ==> Early(s.procs[p]))
          else || (s'.procs[p].Reader? && s'.procs[p].r.Resolved?)
               || OwnGen(s'.procs[p]) == Some(s.nextGen))
  }

  lemma Facts(s: State, p: Pid)
    requires Inv(s) && p in s.procs
    ensures ProcOk(s, s.procs[p]) && Alone(s, p)
  {
  }

  lemma {:induction false} DocsStable(content: map<Seg, Docs>, content': map<Seg, Docs>, segs: seq<Seg>)
    requires Elems(segs) <= content.Keys <= content'.Keys
    requires forall x :: x in content ==> content'[x] == content[x]
    ensures DocsOf(content', segs) == DocsOf(content, segs)
  {
    if segs == [] {
    } else {
      assert segs[0] in Elems(segs);
      assert Elems(segs[1..]) <= Elems(segs);
      DocsStable(content, content', segs[1..]);
    }
  }

  lemma SettledStable(s: State, p: Pid, s': State, g: Gen)
    requires Inv(s) && Guarantee(s, p, s') && Settled(s, g)
    ensures Settled(s', g)
  {
    assert Untouched(s, s', Staging(g)) || p in s.procs;
    assert Untouched(s, s', GcTemp(g)) || p in s.procs;
  }

  /** A settled generation's published directory only ever loses entries, and keeps them all while locked. */
  lemma FinalStable(s: State, p: Pid, s': State, g: Gen)
    requires Inv(s) && Guarantee(s, p, s') && Settled(s, g)
    ensures Final(g) in s'.dirs ==> Final(g) in s.dirs && Shrinks(s.dirs[Final(g)], s'.dirs[Final(g)])
    ensures Linked(s, g) && (exists q :: q != p && q in s.procs && Shares(s.procs[q], g)) ==>
              Untouched(s, s', Final(g))
    ensures s.current == Some(g) ==> Untouched(s, s', Final(g))
  {
    assert Untouched(s, s', Final(g)) || p in s.procs;
    if p in s.procs {
      Facts(s, p);
    }
  }

  lemma ReaderStable(s: State, p: Pid, s': State, q: Pid)
    requires Inv(s) && Guarantee(s, p, s') && q != p && q in s.procs && s.procs[q].Reader?
    ensures ProcOk(s', s.procs[q])
  {
    var r := s.procs[q].r;
    Facts(s, q);
    SettledStable(s, p, s', r.g);
    FinalStable(s, p, s', r.g);
    if r.Handle? {
      DocsStable(s.content, s'.content, r.segs);
    }
  }

  /** Nobody else touches the directory of a name whose owner holds its lease, or holds the store. */
  lemma OwnDirStable(s: State, p: Pid, s': State, q: Pid, g: Gen, d: DirName)
    requires Inv(s) && Guarantee(s, p, s') && q != p && q in s.procs && OwnGen(s.procs[q]) == Some(g) && d.g == g
    requires d in s.dirs ==> (HoldsStore(s.procs[q]) || (s.dirs[d].lease && Shares(s.procs[q], g)))
    ensures Untouched(s, s', d)
  {
    Facts(s, q);
    assert Untouched(s, s', d) || p in s.procs;
  }

  lemma CoversStable(s: State, p: Pid, s': State, todo: set<DirName>, reach: set<Seg>)
    requires Guarantee(s, p, s') && Covers(s, todo, reach)
    requires !(p in s.procs && HoldsStore(s.procs[p]))
    ensures Covers(s', todo, reach)
  {
  }

  lemma OwnDirsStable(s: State, p: Pid, s': State, q: Pid)
    requires Inv(s) && Guarantee(s, p, s') && q != p && q in s.procs && s.procs[q].Writer?
    requires !s.procs[q].pc.Dropping?
    ensures var g := s.procs[q].w.gen;
      Untouched(s, s', Final(g)) && Untouched(s, s', Staging(g)) && Untouched(s, s', GcTemp(g))
  {
    var g := s.procs[q].w.gen;
    Facts(s, q);
    OwnDirStable(s, p, s', q, g, Final(g));
    OwnDirStable(s, p, s', q, g, Staging(g));
    OwnDirStable(s, p, s', q, g, GcTemp(g));
  }

  lemma StagedStable(s: State, s': State, w: WriterVars)
    requires Untouched(s, s', Final(w.gen)) && Untouched(s, s', Staging(w.gen)) && Untouched(s, s', GcTemp(w.gen))
    requires s.content.Keys <= s'.content.Keys
    ensures InFinal(s, w.gen, w.segs) ==> InFinal(s', w.gen, w.segs)
    ensures InStaging(s, w) ==> InStaging(s', w)
  {
  }

  lemma WriterStable(s: State, p: Pid, s': State, q: Pid)
    requires Inv(s) && Guarantee(s, p, s') && q != p && q in s.procs && s.procs[q].Writer?
    ensures ProcOk(s', s.procs[q])
  {
    var w, pc := s.procs[q].w, s.procs[q].pc;
    Facts(s, q);
    if pc.Dropping? {
      DroppingStable(s, p, s', q);
    } else {
      OwnDirsStable(s, p, s', q);
      StagedStable(s, s', w);
      if WriterHoldsStore(pc) {
        StoreHolderKeeps(s, p, s', q);
        if pc.Collecting? {
          CoversStable(s, p, s', pc.todo, pc.reach);
        }
      }
    }
  }

  lemma DroppingStable(s: State, p: Pid, s': State, q: Pid)
    requires Inv(s) && Guarantee(s, p, s') && q != p && q in s.procs && s.procs[q].Writer?
    requires s.procs[q].pc.Dropping?
    ensures ProcOk(s', s.procs[q])
  {
    var g := s.procs[q].w.gen;
    Facts(s, q);
    assert Untouched(s, s', Final(g)) || p in s.procs;
    assert Untouched(s, s', Staging(g)) || p in s.procs;
  }

  /** While one process holds the store lock nobody else makes anything appear, or moves `CURRENT`. */
  lemma StoreHolderKeeps(s: State, p: Pid, s': State, q: Pid)
    requires Inv(s) && Guarantee(s, p, s') && q != p && q in s.procs && HoldsStore(s.procs[q])
    ensures !(p in s.procs && HoldsStore(s.procs[p]))
    ensures s'.current == s.current && s'.segments == s.segments && s'.dirs.Keys <= s.dirs.Keys
    ensures forall d :: d in s'.dirs && s'.dirs[d].lease ==> s.dirs[d].lease
  {
    Facts(s, q);
  }

  lemma ClearedStable(s: State, s': State, g: Gen, ds: set<DirName>, locked: set<Gen>)
    requires AllCleared(s, g, ds, locked) && s'.dirs.Keys <= s.dirs.Keys
    requires forall d :: d in s'.dirs && s'.dirs[d].lease ==> s.dirs[d].lease
    ensures AllCleared(s', g, ds, locked)
  {
  }

  lemma GcStable(s: State, p: Pid, s': State, q: Pid)
    requires Inv(s) && Guarantee(s, p, s') && q != p && q in s.procs && s.procs[q].Collector?
    ensures ProcOk(s', s.procs[q])
  {
    var g, pc := s.procs[q].gen, s.procs[q].gpc;
    Facts(s, q);
    if pc.GcDone? { return; }
    OwnDirStable(s, p, s', q, g, Final(g));
    OwnDirStable(s, p, s', q, g, Staging(g));
    OwnDirStable(s, p, s', q, g, GcTemp(g));
    if pc.GcWaiting? { return; }
    StoreHolderKeeps(s, p, s', q);
    match pc
    case Clearing(doomed, cleared, locked) => ClearedStable(s, s', g, cleared, locked);
    case TempMade(doomed, locked) => ClearedStable(s, s', g, doomed, locked);
    case TempStaged(doomed, locked) => ClearedStable(s, s', g, doomed, locked);
    case GcRenamed(doomed, locked) => ClearedStable(s, s', g, doomed, locked);
    case GcRemoving(doomed, locked) => ClearedStable(s, s', g, doomed, locked);
    case GcCollecting(todo, reach) => CoversStable(s, p, s', todo, reach);
    case _ =>
  }

  lemma OthersStable(s: State, p: Pid, s': State)
    requires Inv(s) && Guarantee(s, p, s')
    ensures forall q :: q in s'.procs && q != p ==> ProcOk(s', s'.procs[q])
  {
    forall q | q in s'.procs && q != p ensures ProcOk(s', s'.procs[q]) {
      match s.procs[q]
      case Reader(_) => ReaderStable(s, p, s', q);
      case Writer(_, _) => WriterStable(s, p, s', q);
      case Collector(_, _, _, _) => GcStable(s, p, s', q);
    }
  }
}
