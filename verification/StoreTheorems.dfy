/** What the store protocol promises, for every run of any processes with crashes anywhere. */
module StoreTheorems {
  import opened Wrappers
  import opened StoreModel
  import opened StoreInvariant
  import opened StoreSafety

  // ---------------------------------------------------------------- CURRENT

  lemma {:induction false} CurrentStaysSet(run: seq<State>, events: seq<Event>, i: nat, j: nat)
    requires IsRun(run, events) && i <= j < |run| && run[i].current.Some?
    ensures run[j].current.Some?
    decreases j
  {
    if i == j {
    } else {
      CurrentStaysSet(run, events, i, j - 1);
      OldOrCompleteNew(run, events, j - 1);
    }
  }

  /** `CURRENT`, once set, stays set and always names a complete generation with every segment it needs. */
  lemma CurrentAlwaysSealed(run: seq<State>, events: seq<Event>, i: nat, j: nat)
    requires IsRun(run, events) && i <= j < |run| && run[i].current.Some?
    ensures run[j].current.Some? && Sealed(run[j], run[j].current.value)
  {
    CurrentStaysSet(run, events, i, j);
    RunInv(run, events, j);
  }

  /** Whatever a publisher or collector does, and wherever it fails or crashes, `CURRENT` stays as it
      was or moves to that process's own generation, and then that one is complete. */
  lemma OldOrCompleteNew(run: seq<State>, events: seq<Event>, i: nat)
    requires IsRun(run, events) && i < |events|
    ensures var s, p, s' := run[i], events[i].p, run[i + 1];
      || s'.current == s.current
      || (p in s.procs && s'.current == OwnGen(s.procs[p]) && s'.current.Some? && Sealed(s', s'.current.value))
  {
    RunInv(run, events, i);
    RunInv(run, events, i + 1);
    assert RunStep(run, events, i + 1);
    NextKeepsInv(run[i], events[i].p, events[i].a, run[i + 1]);
  }

  /** The staging directory with its lease, references and metadata, and every committed segment: written
      here and not shared yet, or referred to and still in the shared store. */
  ghost predicate WholeStaging(s: State, w: WriterVars) {
    && Staging(w.gen) in s.dirs && s.dirs[Staging(w.gen)].lease
    && s.dirs[Staging(w.gen)].manifest == Some(w.inherited) && w.inherited <= s.segments
    && s.dirs[Staging(w.gen)].meta == Some(w.segs)
    && Elems(w.segs) <= s.dirs[Staging(w.gen)].local + w.inherited
  }

  /** A writer that has not published still has its generation, whole, in one of two places: retrying
      `publish_generation` never finds neither, whoever has pruned or collected meanwhile. */
  lemma RetryFindsGeneration(run: seq<State>, events: seq<Event>, i: nat, p: Pid)
    requires IsRun(run, events) && i < |run| && p in run[i].procs && run[i].procs[p].Writer?
    requires run[i].procs[p].pc.Pending? || run[i].procs[p].pc.Preparing?
    ensures var s, w := run[i], run[i].procs[p].w;
      || WholeStaging(s, w)
      || (Staging(w.gen) !in s.dirs && Sealed(s, w.gen) && s.dirs[Final(w.gen)].meta == Some(w.segs))
  {
    RunInv(run, events, i);
    Facts(run[i], p);
  }

  // ---------------------------------------------------------------- open readers

  /** What the handle reads from is there: its directory with the metadata it was opened on; with references,
      all of them and every segment file they lead to; without, the segment files it found next to them. */
  ghost predicate Serves(s: State, r: ReaderPc)
    requires r.Handle?
  {
    && Final(r.g) in s.dirs && s.dirs[Final(r.g)].lease
    && s.dirs[Final(r.g)].meta == Some(r.segs)
    && (match r.view
        case Shared(refs) => s.dirs[Final(r.g)].manifest == Some(refs) && Elems(r.segs) <= refs <= s.segments
        case Plain(files) => s.dirs[Final(r.g)].local == files)
    && DocsOf(s.content, r.segs) == r.docs
  }

  /** Until it is dropped, an anchored handle keeps its generation, with the records it was opened on. */
  lemma AnchoredHandleServes(run: seq<State>, events: seq<Event>, i: nat, p: Pid)
    requires IsRun(run, events) && i < |run| && p in run[i].procs
    requires run[i].procs[p].Reader? && run[i].procs[p].r.Handle? && run[i].procs[p].r.pin == Anchored
    ensures Serves(run[i], run[i].procs[p].r)
  {
    RunInv(run, events, i);
    Facts(run[i], p);
  }

  /** An open handle ends only by being dropped or with its process. */
  lemma HandleStep(s: State, p: Pid, a: Action, s': State, q: Pid)
    requires Next(s, p, a, s') && Guarantee(s, p, s') && q in s.procs && s.procs[q].Reader? && s.procs[q].r.Handle?
    requires p == q ==> !a.CloseReader? && !a.Crash?
    ensures q in s'.procs && s'.procs[q] == s.procs[q]
  {
  }

  /** From the moment it is open until it is dropped, an anchored handle is the same handle, on a generation
      that is there with the records it was opened on. */
  lemma {:induction false} AnchoredHandleLasts(run: seq<State>, events: seq<Event>, i: nat, j: nat, p: Pid)
    requires IsRun(run, events) && i <= j < |run| && p in run[i].procs
    requires run[i].procs[p].Reader? && run[i].procs[p].r.Handle? && run[i].procs[p].r.pin == Anchored
    requires forall k :: i <= k < j && events[k].p == p ==> !events[k].a.CloseReader? && !events[k].a.Crash?
    ensures p in run[j].procs && run[j].procs[p] == run[i].procs[p] && Serves(run[j], run[i].procs[p].r)
    decreases j
  {
    if i == j {
    } else {
      AnchoredHandleLasts(run, events, i, j - 1, p);
      RunInv(run, events, j - 1);
      assert RunStep(run, events, j);
      NextKeepsInv(run[j - 1], events[j - 1].p, events[j - 1].a, run[j]);
      HandleStep(run[j - 1], events[j - 1].p, events[j - 1].a, run[j], p);
    }
    AnchoredHandleServes(run, events, j, p);
  }

  /** The handle finds the file of segment `x`. */
  ghost predicate Finds(s: State, r: ReaderPc, x: Seg)
    requires r.Handle?
  {
    match r.view
    case Shared(refs) => x in refs && x in s.segments
    case Plain(_) => Final(r.g) in s.dirs && x in s.dirs[Final(r.g)].local
  }

  /** Whether an anchored handle finds all its segments is settled when it is opened: it does exactly when
      it went by references, or found every file in the directory itself. */
  lemma WholeIffReferencesOrFiles(run: seq<State>, events: seq<Event>, i: nat, p: Pid)
    requires IsRun(run, events) && i < |run| && p in run[i].procs
    requires run[i].procs[p].Reader? && run[i].procs[p].r.Handle? && run[i].procs[p].r.pin == Anchored
    ensures var r := run[i].procs[p].r;
      (forall x :: x in r.segs ==> Finds(run[i], r, x)) <==> r.view.Shared? || Elems(r.segs) <= r.view.files
  {
    AnchoredHandleServes(run, events, i, p);
    var r := run[i].procs[p].r;
    assert forall x :: x in r.segs <==> x in Elems(r.segs);
  }

  /** A handle opened without references is on a generation somebody has begun to remove. */
  lemma PlainHandleIsSuperseded(run: seq<State>, events: seq<Event>, i: nat, p: Pid)
    requires IsRun(run, events) && i < |run| && p in run[i].procs
    requires run[i].procs[p].Reader? && run[i].procs[p].r.Handle? && run[i].procs[p].r.view.Plain?
    ensures Damaged(run[i], run[i].procs[p].r.g) && run[i].current != Some(run[i].procs[p].r.g)
  {
    RunInv(run, events, i);
    Facts(run[i], p);
  }

  /** What a process reads from the shared store: the references of an anchored handle, and those a writer
      has staged from and not yet published. */
  ghost function ReadBy(s: State, x: Proc): set<Seg> {
    if x.Reader? && x.r.Handle? && x.r.pin == Anchored && x.r.view.Shared? then x.r.view.refs
    else if x.Writer? && x.pc.Pending? && Staging(x.w.gen) in s.dirs then x.w.inherited
    else {}
  }

  /** Whatever has been swept, what anybody still reads is there, and so is all that is referred to on disk. */
  lemma SweepKeepsWhatIsRead(run: seq<State>, events: seq<Event>, i: nat)
    requires IsRun(run, events) && i < |run|
    ensures forall p :: p in run[i].procs ==> ReadBy(run[i], run[i].procs[p]) <= run[i].segments
    ensures Covers(run[i], {}, run[i].segments)
  {
    RunInv(run, events, i);
    forall p | p in run[i].procs ensures ReadBy(run[i], run[i].procs[p]) <= run[i].segments {
      ReadByStays(run[i], run[i].procs[p]);
    }
  }

  lemma ReadByStays(s: State, x: Proc)
    requires DirsOk(s) && ProcOk(s, x)
    ensures ReadBy(s, x) <= s.segments
  {
  }

  /** Losing the race never surfaces as an error: the generation a reader failed on is not current. */
  lemma ReaderRetries(run: seq<State>, events: seq<Event>, i: nat, p: Pid)
    requires IsRun(run, events) && i < |run| && p in run[i].procs && run[i].procs[p].Reader?
    ensures !run[i].procs[p].r.Errored?
    ensures run[i].procs[p].r.OpenFailed? ==>
      Damaged(run[i], run[i].procs[p].r.g) && run[i].current != Some(run[i].procs[p].r.g)
  {
    RunInv(run, events, i);
    Facts(run[i], p);
  }

  /** Anchoring is exactly what protects a handle: the writer that is pruning may start on the
      directory under it if and only if the handle is not anchored. */
  lemma PrunableIffNotAnchored(run: seq<State>, events: seq<Event>, i: nat, q: Pid, p: Pid)
    requires IsRun(run, events) && i < |run|
    requires q in run[i].procs && run[i].procs[q].Reader? && run[i].procs[q].r.Handle?
    requires p in run[i].procs && run[i].procs[p].Writer? && run[i].procs[p].pc.Pruning?
    requires Final(run[i].procs[q].r.g) in run[i].dirs
    ensures var s, r := run[i], run[i].procs[q].r;
      (exists locked :: PruneAllowed(s, s.procs[p].w.gen, Final(r.g), locked)) <==> r.pin != Anchored
  {
    RunInv(run, events, i);
    var s, r := run[i], run[i].procs[q].r;
    Facts(s, q);
    Facts(s, p);
    if r.pin == Anchored {
      assert Shares(s.procs[q], r.g);
    } else {
      assert PruneAllowed(s, s.procs[p].w.gen, Final(r.g), false);
    }
  }

  // ---------------------------------------------------------------- removal in one step

  /** Published directories only ever disappear whole. */
  ghost predicate RemovesWhole(s: State, s': State) {
    forall g: Gen :: Final(g) in s.dirs && Final(g) in s'.dirs ==> s'.dirs[Final(g)] == s.dirs[Final(g)]
  }

  ghost predicate IsWholeRun(run: seq<State>, events: seq<Event>) {
    IsRun(run, events) && forall i :: 0 <= i < |events| ==> RemovesWhole(run[i], run[i + 1])
  }

  ghost predicate AllWhole(s: State) {
    && (forall g: Gen :: Final(g) in s.dirs ==> !Damaged(s, g))
    && (forall p :: p in s.procs ==> PinHolds(s.procs[p]))
  }

  ghost predicate PinHolds(x: Proc) {
    x.Reader? ==>
      && (x.r.HasManifest? || x.r.Checked? || x.r.Handle? ==> x.r.pin == Anchored)
      && !x.r.Unreferenced? && (x.r.Handle? ==> x.r.view.Shared?)
  }

  lemma ReaderStaysAnchored(s: State, p: Pid, a: Action, s': State)
    requires p in s.procs && s.procs[p].Reader? && ReaderStep(s, p, a, s') && p in s'.procs
    requires ProcOk(s, s.procs[p]) && PinHolds(s.procs[p])
    requires Final(s.procs[p].r.g) in s.dirs ==> !Damaged(s, s.procs[p].r.g)
    ensures PinHolds(s'.procs[p])
  {
  }

  lemma WholeDirs(s: State, p: Pid, s': State)
    requires Guarantee(s, p, s') && RemovesWhole(s, s')
    requires forall g: Gen :: Final(g) in s.dirs ==> !Damaged(s, g)
    ensures forall g: Gen :: Final(g) in s'.dirs ==> !Damaged(s', g)
  {
    forall g: Gen | Final(g) in s'.dirs ensures !Damaged(s', g) {
      assert Untouched(s, s', Final(g)) || p in s.procs;
    }
  }

  lemma PinStep(s: State, p: Pid, a: Action, s': State)
    requires Next(s, p, a, s') && p in s'.procs
    requires p in s.procs ==> ProcOk(s, s.procs[p]) && PinHolds(s.procs[p]) && OwnGen(s'.procs[p]) == OwnGen(s.procs[p])
    requires p in s.procs && s.procs[p].Reader? ==> (Final(s.procs[p].r.g) in s.dirs ==> !Damaged(s, s.procs[p].r.g))
    ensures PinHolds(s'.procs[p])
  {
    if p in s.procs && s.procs[p].Reader? {
      ReaderStaysAnchored(s, p, a, s');
    } else if p in s.procs {
      assert !s'.procs[p].Reader?;
    }
  }

  lemma PinsStay(s: State, p: Pid, s': State)
    requires Guarantee(s, p, s') && (forall q :: q in s.procs ==> PinHolds(s.procs[q]))
    requires p in s'.procs ==> PinHolds(s'.procs[p])
    ensures forall q :: q in s'.procs ==> PinHolds(s'.procs[q])
  {
  }

  lemma WholeStep(s: State, p: Pid, a: Action, s': State)
    requires Inv(s) && AllWhole(s) && Next(s, p, a, s') && RemovesWhole(s, s')
    ensures AllWhole(s')
  {
    NextKeepsInv(s, p, a, s');
    WholeDirs(s, p, s');
    if p in s'.procs {
      if p in s.procs {
        Facts(s, p);
      }
      PinStep(s, p, a, s');
    }
    PinsStay(s, p, s');
  }

  lemma {:induction false} WholeRun(run: seq<State>, events: seq<Event>, i: nat)
    requires IsWholeRun(run, events) && i < |run|
    ensures AllWhole(run[i])
  {
    assert RunStep(run, events, 0);
    if i == 0 {
      forall g: Gen | Final(g) in run[0].dirs ensures !Damaged(run[0], g) {
        assert Sealed(run[0], Final(g).g);
      }
    } else {
      WholeRun(run, events, i - 1);
      RunInv(run, events, i - 1);
      assert RunStep(run, events, i);
      WholeStep(run[i - 1], events[i - 1].p, events[i - 1].a, run[i]);
    }
  }

  /** When a directory is removed in one step, every handle `open_or_create` returns keeps its
      generation and its records until it is dropped. */
  lemma WholeRemovalProtectsEveryHandle(run: seq<State>, events: seq<Event>, i: nat, p: Pid)
    requires IsWholeRun(run, events) && i < |run| && p in run[i].procs
    requires run[i].procs[p].Reader? && run[i].procs[p].r.Handle?
    ensures Serves(run[i], run[i].procs[p].r) && run[i].procs[p].r.view.Shared?
  {
    WholeRun(run, events, i);
    AnchoredHandleServes(run, events, i, p);
  }
}
