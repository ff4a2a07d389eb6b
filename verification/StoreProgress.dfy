/**
What a process achieves that is left alone: from every reachable state its own next steps lead a reader to
the current records, a writer to the publication of its generation, and a compaction past its version check.
*/
module StoreProgress {
  import opened Wrappers
  import opened StoreModel
  import opened StoreInvariant
  import opened StoreSafety
  import opened StoreLeased

  ghost predicate EndsIn(run: seq<State>, events: seq<Event>, s: State) {
    IsRun(run, events) && run[|run| - 1] == s
  }

  lemma Extend(run: seq<State>, events: seq<Event>, s: State, p: Pid, a: Action, s': State)
    returns (run': seq<State>, events': seq<Event>)
    requires EndsIn(run, events, s) && Next(s, p, a, s')
    ensures EndsIn(run', events', s') && run' == run + [s'] && events' == events + [Event(p, a)]
  {
    run', events' := run + [s'], events + [Event(p, a)];
    forall i: nat | i < |run'| ensures RunStep(run', events', i) {
      if i < |run| {
        assert RunStep(run, events, i);
      }
    }
  }

  /** The run goes on, by steps of `p` alone, to the state `s`. */
  ghost predicate GoesOn(run: seq<State>, events: seq<Event>, p: Pid, run': seq<State>, events': seq<Event>, s: State) {
    && EndsIn(run', events', s) && run <= run' && events <= events'
    && forall k :: |events| <= k < |events'| ==> events'[k].p == p
  }

  lemma Starts(run: seq<State>, events: seq<Event>, p: Pid)
    requires IsRun(run, events)
    ensures GoesOn(run, events, p, run, events, run[|run| - 1])
  {
  }

  lemma Then(run0: seq<State>, events0: seq<Event>, p: Pid, run: seq<State>, events: seq<Event>, s: State, a: Action,
      s': State)
    returns (run': seq<State>, events': seq<Event>)
    requires GoesOn(run0, events0, p, run, events, s) && Next(s, p, a, s')
    ensures GoesOn(run0, events0, p, run', events', s')
  {
    run', events' := Extend(run, events, s, p, a, s');
  }

  // ---------------------------------------------------------------- readers

  /** The reader `p` is at `r`, and nothing else has changed since `s`. */
  ghost function At(s: State, p: Pid, r: ReaderPc): State {
    Goto(s, p, Reader(r))
  }

  lemma ReaderMoves(run0: seq<State>, events0: seq<Event>, p: Pid, run: seq<State>, events: seq<Event>, s: State,
      r: ReaderPc, a: Action, r': ReaderPc)
    returns (run': seq<State>, events': seq<Event>)
    requires GoesOn(run0, events0, p, run, events, At(s, p, r)) && !a.Crash?
    requires ReaderStep(At(s, p, r), p, a, At(At(s, p, r), p, r'))
    ensures GoesOn(run0, events0, p, run', events', At(s, p, r'))
  {
    run', events' := Then(run0, events0, p, run, events, At(s, p, r), a, At(At(s, p, r), p, r'));
    assert s.procs[p := Reader(r)][p := Reader(r')] == s.procs[p := Reader(r')];
  }

  /** The handle that `open_or_create` should return: on the current generation, by its references, with the
      current records, under a lock that counts. */
  ghost predicate OnCurrent(s: State, r: ReaderPc) {
    && r.Handle? && s.current == Some(r.g) && r.pin == Anchored && Final(r.g) in s.dirs
    && r.view.Shared? && s.dirs[Final(r.g)].manifest == Some(r.view.refs) && s.dirs[Final(r.g)].meta == Some(r.segs)
    && r.docs == CurrentDocs(s)
  }

  /** No collector has locked what is current. */
  ghost predicate NotCollected(s: State) {
    s.current.Some? ==>
      forall q :: q in s.procs && s.procs[q].Collector? ==> s.current.value !in GcLocked(s.procs[q].gpc)
  }

  /** Publishers never lock it. */
  lemma OnlyCollectorsExclude(s: State)
    requires Inv(s) && s.current.Some? && NotCollected(s)
    ensures NoExclusive(s, s.current.value)
  {
    forall q | q in s.procs ensures !Excludes(s.procs[q], s.current.value) {
      Facts(s, q);
    }
  }

  lemma OpensResolved(run0: seq<State>, events0: seq<Event>, p: Pid, run: seq<State>, events: seq<Event>, s: State)
    returns (run': seq<State>, events': seq<Event>, r: ReaderPc)
    requires s.current.Some? && Sealed(s, s.current.value) && NoExclusive(s, s.current.value)
    requires GoesOn(run0, events0, p, run, events, At(s, p, Resolved(s.current.value)))
    ensures OnCurrent(s, r) && GoesOn(run0, events0, p, run', events', At(s, p, r))
  {
    var g := s.current.value;
    var man, segs := s.dirs[Final(g)].manifest.value, s.dirs[Final(g)].meta.value;
    r := Handle(g, Anchored, Shared(man), segs, DocsOf(s.content, segs));
    run', events' := ReaderMoves(run0, events0, p, run, events, s, Resolved(g), OpenLease, Opened(g));
    run', events' := ReaderMoves(run0, events0, p, run', events', s, Opened(g), LockLease, PinnedTo(g, Anchored));
    run', events' := ReaderMoves(run0, events0, p, run', events', s, PinnedTo(g, Anchored), ReadManifest,
                                 HasManifest(g, Anchored, man));
    run', events' := ReaderMoves(run0, events0, p, run', events', s, HasManifest(g, Anchored, man), CheckStore,
                                 Checked(g, Anchored, man));
    run', events' := ReaderMoves(run0, events0, p, run', events', s, Checked(g, Anchored, man), ReadMeta, r);
  }

  lemma CurrentSealed(s: State)
    requires Inv(s) && s.current.Some?
    ensures Sealed(s, s.current.value)
  {
  }

  lemma Retries(run0: seq<State>, events0: seq<Event>, p: Pid, run: seq<State>, events: seq<Event>, s: State)
    returns (run': seq<State>, events': seq<Event>)
    requires GoesOn(run0, events0, p, run, events, s) && p in s.procs && s.procs[p].Reader?
    requires s.procs[p].r.OpenFailed? && s.current.Some? && s.current != Some(s.procs[p].r.g)
    ensures GoesOn(run0, events0, p, run', events', At(s, p, Resolved(s.current.value)))
  {
    var g := s.procs[p].r.g;
    run', events' := Then(run0, events0, p, run, events, s, Recheck, At(s, p, Retrying(g)));
    run', events' :=
      ReaderMoves(run0, events0, p, run', events', s, Retrying(g), ResolveAgain, Resolved(s.current.value));
  }

  /** `open_or_create` on an index that is there: a reader that comes, or that has just lost the race for a
      generation, and is then left alone, gets an anchored handle on the current records. */
  lemma ReaderOpensCurrent(run: seq<State>, events: seq<Event>, p: Pid)
    returns (run': seq<State>, events': seq<Event>, r: ReaderPc)
    requires IsRun(run, events) && run[|run| - 1].current.Some? && NotCollected(run[|run| - 1])
    requires var s := run[|run| - 1]; p in s.procs ==> s.procs[p].Reader? && s.procs[p].r.OpenFailed?
    ensures OnCurrent(run[|run| - 1], r)
    ensures GoesOn(run, events, p, run', events', At(run[|run| - 1], p, r))
  {
    var s := run[|run| - 1];
    RunInv(run, events, |run| - 1);
    OnlyCollectorsExclude(s);
    CurrentSealed(s);
    Starts(run, events, p);
    var next := At(s, p, Resolved(s.current.value));
    if p in s.procs {
      Facts(s, p);
      run', events' := Retries(run, events, p, run, events, s);
    } else {
      run', events' := Then(run, events, p, run, events, s, Resolve, next);
    }
    run', events', r := OpensResolved(run, events, p, run', events', s);
  }

  /** At step `j` process `p` looked up `g`, and has not looked again before step `i`. */
  ghost predicate LookedUp(run: seq<State>, events: seq<Event>, j: nat, i: nat, p: Pid, g: Gen)
    requires IsRun(run, events) && i < |run|
  {
    && j < i && events[j].p == p && Looks(events[j].a) && run[j].current == Some(g)
    && forall k :: j < k < i && events[k].p == p ==> !Looks(events[k].a) && !events[k].a.Crash?
  }

  predicate Looks(a: Action) {
    a.Resolve? || a.ResolveAgain?
  }

  /** What a reader is opening, or has opened, was current when it last looked. */
  lemma {:induction false} OpenedWasCurrent(run: seq<State>, events: seq<Event>, i: nat, p: Pid) returns (j: nat)
    requires IsRun(run, events) && i < |run| && p in run[i].procs && run[i].procs[p].Reader?
    ensures LookedUp(run, events, j, i, p, run[i].procs[p].r.g)
  {
    var k := StepBack(run, events, i, p);
    if k == i - 1 {
      j := k;
    } else {
      j := OpenedWasCurrent(run, events, i - 1, p);
    }
  }

  /** Either the last step was the look, or the reader had looked that generation up before. */
  lemma StepBack(run: seq<State>, events: seq<Event>, i: nat, p: Pid) returns (j: int)
    requires IsRun(run, events) && i < |run| && p in run[i].procs && run[i].procs[p].Reader?
    ensures i > 0 && (j == i - 1 || j == i - 2)
    ensures j == i - 1 ==> LookedUp(run, events, i - 1, i, p, run[i].procs[p].r.g)
    ensures j == i - 2 ==>
      && p in run[i - 1].procs && run[i - 1].procs[p].Reader? && run[i - 1].procs[p].r.g == run[i].procs[p].r.g
      && (events[i - 1].p == p ==> !Looks(events[i - 1].a) && !events[i - 1].a.Crash?)
  {
    assert RunStep(run, events, i);
    RunInv(run, events, i - 1);
    var q, a := events[i - 1].p, events[i - 1].a;
    NextKeepsInv(run[i - 1], q, a, run[i]);
    if q == p {
      LooksOrKeeps(run[i - 1], p, a, run[i]);
    }
    j := if q == p && Looks(a) then i - 1 else i - 2;
  }

  lemma LooksOrKeeps(s: State, p: Pid, a: Action, s': State)
    requires Next(s, p, a, s') && Guarantee(s, p, s') && p in s'.procs && s'.procs[p].Reader?
    ensures if Looks(a) then s.current == Some(s'.procs[p].r.g)
            else p in s.procs && s.procs[p].Reader? && s.procs[p].r.g == s'.procs[p].r.g && !a.Crash?
  {
    if p in s.procs {
      assert OwnGen(s.procs[p]) == None;
      ReaderLooks(s, p, a, s');
    }
  }

  lemma ReaderLooks(s: State, p: Pid, a: Action, s': State)
    requires p in s.procs && s.procs[p].Reader? && ReaderStep(s, p, a, s') && p in s'.procs && s'.procs[p].Reader?
    ensures if Looks(a) then s.current == Some(s'.procs[p].r.g) else s.procs[p].r.g == s'.procs[p].r.g
  {
  }

  // ---------------------------------------------------------------- what a handle was opened on

  /** The last step was the reader's own, or it is where it was. */
  lemma LastReaderStep(run: seq<State>, events: seq<Event>, i: nat, p: Pid)
    requires IsRun(run, events) && i < |run| && p in run[i].procs && run[i].procs[p].Reader?
    requires !run[i].procs[p].r.Resolved?
    ensures i > 0 && p in run[i - 1].procs && run[i - 1].procs[p].Reader?
    ensures if events[i - 1].p == p then ReaderStep(run[i - 1], p, events[i - 1].a, run[i])
            else run[i - 1].procs[p] == run[i].procs[p]
  {
    assert RunStep(run, events, i);
    RunInv(run, events, i - 1);
    NextKeepsInv(run[i - 1], events[i - 1].p, events[i - 1].a, run[i]);
    if events[i - 1].p == p && p in run[i - 1].procs {
      assert OwnGen(run[i - 1].procs[p]) == None;
    }
  }

  /** The references are those read in `s`. */
  ghost predicate ReadsReferences(s: State, g: Gen, man: set<Seg>) {
    Final(g) in s.dirs && s.dirs[Final(g)].manifest == Some(man)
  }

  lemma {:induction false} ReferencesRead(run: seq<State>, events: seq<Event>, i: nat, p: Pid) returns (j: nat)
    requires IsRun(run, events) && i < |run| && p in run[i].procs && run[i].procs[p].Reader?
    requires run[i].procs[p].r.HasManifest?
    ensures j < i && events[j] == Event(p, ReadManifest)
    ensures ReadsReferences(run[j], run[i].procs[p].r.g, run[i].procs[p].r.man)
  {
    LastReaderStep(run, events, i, p);
    if events[i - 1].p == p {
      j := i - 1;
    } else {
      j := ReferencesRead(run, events, i - 1, p);
    }
  }

  lemma {:induction false} ReferencesChecked(run: seq<State>, events: seq<Event>, i: nat, p: Pid) returns (j: nat)
    requires IsRun(run, events) && i < |run| && p in run[i].procs && run[i].procs[p].Reader?
    requires run[i].procs[p].r.Checked?
    ensures j < i && events[j] == Event(p, CheckStore) && p in run[j].procs
    ensures var r := run[i].procs[p].r;
      run[j].procs[p] == Reader(HasManifest(r.g, r.pin, r.man)) && r.man <= run[j].segments
  {
    LastReaderStep(run, events, i, p);
    if events[i - 1].p == p {
      j := i - 1;
    } else {
      j := ReferencesChecked(run, events, i - 1, p);
    }
  }

  /** The reader opens `h` in `s`: on the metadata that is there, and by itself only with its first segment. */
  ghost predicate OpensIn(s: State, p: Pid, h: ReaderPc)
    requires h.Handle?
  {
    && p in s.procs && s.procs[p].Reader? && Final(h.g) in s.dirs
    && s.dirs[Final(h.g)].meta == Some(h.segs) && h.docs == DocsOf(s.content, h.segs)
    && match h.view
       case Shared(refs) => s.procs[p].r == Checked(h.g, h.pin, refs)
       case Plain(files) => s.dirs[Final(h.g)].local == files && (h.segs == [] || h.segs[0] in files)
  }

  lemma {:induction false} HandleRead(run: seq<State>, events: seq<Event>, i: nat, p: Pid) returns (j: nat)
    requires IsRun(run, events) && i < |run| && p in run[i].procs && run[i].procs[p].Reader?
    requires run[i].procs[p].r.Handle?
    ensures j < i && events[j] == Event(p, ReadMeta) && OpensIn(run[j], p, run[i].procs[p].r)
  {
    LastReaderStep(run, events, i, p);
    if events[i - 1].p == p {
      j := i - 1;
    } else {
      j := HandleRead(run, events, i - 1, p);
    }
  }

  /** Anchored or not, a handle that goes by references was opened on references that were read in its generation, then
      found in the shared store every one, and then on the metadata of that generation. */
  lemma HandleWasWhole(run: seq<State>, events: seq<Event>, i: nat, p: Pid) returns (m: nat, k: nat, j: nat)
    requires IsRun(run, events) && i < |run| && p in run[i].procs && run[i].procs[p].Reader?
    requires run[i].procs[p].r.Handle? && run[i].procs[p].r.view.Shared?
    ensures m < k < j < i && OpensIn(run[j], p, run[i].procs[p].r)
    ensures var h := run[i].procs[p].r;
      ReadsReferences(run[m], h.g, h.view.refs) && h.view.refs <= run[k].segments
  {
    j := HandleRead(run, events, i, p);
    k := ReferencesChecked(run, events, j, p);
    m := ReferencesRead(run, events, k, p);
  }

  // ---------------------------------------------------------------- staging

  lemma StageMoves(run0: seq<State>, events0: seq<Event>, p: Pid, run: seq<State>, events: seq<Event>, s: State,
      a: Action, s': State)
    returns (run': seq<State>, events': seq<Event>)
    requires GoesOn(run0, events0, p, run, events, s) && p in s.procs && s.procs[p].Writer? && !a.Crash?
    requires StageStep(s, p, a, s')
    ensures GoesOn(run0, events0, p, run', events', s')
  {
    run', events' := Then(run0, events0, p, run, events, s, a, s');
  }

  /** The writer is at `pc`, with its work directory as given, and nothing else has changed. */
  ghost function Working(s: State, p: Pid, w: WriterVars, pc: WriterPc, d: Dir): State {
    Goto(s, p, Writer(w, pc)).(dirs := s.dirs[Staging(w.gen) := d])
  }

  lemma WorkingMoves(run0: seq<State>, events0: seq<Event>, p: Pid, run: seq<State>, events: seq<Event>, s: State,
      w: WriterVars, pc: WriterPc, d: Dir, a: Action, w': WriterVars, pc': WriterPc, d': Dir)
    returns (run': seq<State>, events': seq<Event>)
    requires GoesOn(run0, events0, p, run, events, Working(s, p, w, pc, d)) && !a.Crash? && w'.gen == w.gen
    requires StageStep(Working(s, p, w, pc, d), p, a, Working(Working(s, p, w, pc, d), p, w', pc', d'))
    ensures GoesOn(run0, events0, p, run', events', Working(s, p, w', pc', d'))
  {
    var s1 := Working(s, p, w, pc, d);
    run', events' := StageMoves(run0, events0, p, run, events, s1, a, Working(s1, p, w', pc', d'));
    assert s1.procs[p := Writer(w', pc')] == s.procs[p := Writer(w', pc')];
  }

  const EMPTY := Dir(false, None, None, {})

  lemma MakesRoom(run0: seq<State>, events0: seq<Event>, p: Pid, run: seq<State>, events: seq<Event>, s: State,
      w: WriterVars)
    returns (run': seq<State>, events': seq<Event>)
    requires p in s.procs && s.procs[p] == Writer(w, Waiting) && StoreFree(s)
    requires GoesOn(run0, events0, p, run, events, s)
    ensures GoesOn(run0, events0, p, run', events', Working(s, p, w, LeaseWritten, EMPTY.(lease := true)))
  {
    var s1 := Goto(s, p, Writer(w, Naming));
    run', events' := StageMoves(run0, events0, p, run, events, s, LockForStaging, s1);
    run', events' := StageMoves(run0, events0, p, run', events', s1, MakeStaging, Working(s1, p, w, Created, EMPTY));
    assert s1.procs[p := Writer(w, Created)] == s.procs[p := Writer(w, Created)];
    run', events' := WorkingMoves(run0, events0, p, run', events', s, w, Created, EMPTY, WriteLease,
                                  w, LeaseWritten, EMPTY.(lease := true));
  }

  lemma Pins(run0: seq<State>, events0: seq<Event>, p: Pid, run: seq<State>, events: seq<Event>, s: State,
      w: WriterVars, d: Dir)
    returns (run': seq<State>, events': seq<Event>)
    requires p in s.procs && s.procs[p].Writer? && StoreFree(s)
    requires GoesOn(run0, events0, p, run, events, Working(s, p, w, LeaseWritten, d))
    ensures GoesOn(run0, events0, p, run', events', Working(s, p, w, Pinned, d))
  {
    run', events' := WorkingMoves(run0, events0, p, run, events, s, w, LeaseWritten, d, PinStaging, w, Pinned, d);
  }

  /** What a writer begins with: the references and segments of what is current, or nothing. */
  ghost predicate BeginsWith(s: State, w: WriterVars) {
    && w.base == s.current && w.created == {} && w.upToDate == w.lease && w.stagedAt == |s.history|
    && if s.current.Some? then
         && Final(s.current.value) in s.dirs
         && s.dirs[Final(s.current.value)].manifest == Some(w.inherited)
         && s.dirs[Final(s.current.value)].meta == Some(w.segs)
       else w.inherited == {} && w.segs == []
  }

  lemma Copies(run0: seq<State>, events0: seq<Event>, p: Pid, run: seq<State>, events: seq<Event>, s: State,
      w: WriterVars, d: Dir)
    returns (run': seq<State>, events': seq<Event>, w': WriterVars)
    requires GoesOn(run0, events0, p, run, events, Working(s, p, w, Pinned, d))
    requires w.kind.Compaction? ==> s.current.Some?
    requires s.current.Some? ==> Sealed(s, s.current.value)
    ensures GoesOn(run0, events0, p, run', events',
                   Working(s, p, w', Staged, d.(manifest := Some(w'.inherited), meta := Some(w'.segs))))
    ensures BeginsWith(s, w') && w'.gen == w.gen && w'.kind == w.kind && w'.lease == w.lease && w'.ops == w.ops
  {
    var man := if s.current.Some? then s.dirs[Final(s.current.value)].manifest.value else {};
    var segs := if s.current.Some? then s.dirs[Final(s.current.value)].meta.value else [];
    w' := w.(inherited := man, segs := segs, created := {}, base := s.current, stagedAt := |s.history|,
             upToDate := w.lease);
    run', events' := WorkingMoves(run0, events0, p, run, events, s, w, Pinned, d, StageFrom,
                                  w', Staged, d.(manifest := Some(man), meta := Some(segs)));
  }

  /** `open_or_create_for_ingest`: a writer that finds the store lock free and is left alone ends up with a work
      directory of its own that holds what is current. */
  lemma WriterStages(run: seq<State>, events: seq<Event>, p: Pid)
    returns (run': seq<State>, events': seq<Event>, s': State)
    requires IsRun(run, events) && p in run[|run| - 1].procs && run[|run| - 1].procs[p].Writer?
    requires var s, w, pc := run[|run| - 1], run[|run| - 1].procs[p].w, run[|run| - 1].procs[p].pc;
      pc.Waiting? && StoreFree(s) && (w.kind.Compaction? ==> s.current.Some?)
    ensures GoesOn(run, events, p, run', events', s')
    ensures var s := run[|run| - 1];
      && p in s'.procs && s'.procs[p].Writer? && s'.procs[p].pc.Pending? && s'.procs[p].w.gen == s.procs[p].w.gen
      && BeginsWith(s, s'.procs[p].w) && DocsOf(s'.content, s'.procs[p].w.segs) == CurrentDocs(s)
      && s'.current == s.current && InStaging(s', s'.procs[p].w)
  {
    var s := run[|run| - 1];
    ReachedSealed(run, events);
    Starts(run, events, p);
    run', events', s' := Stages(run, events, p, s, s.procs[p].w);
    ReachedStaging(run', events', p);
  }

  lemma ReachedSealed(run: seq<State>, events: seq<Event>)
    requires IsRun(run, events)
    ensures var s := run[|run| - 1]; s.current.Some? ==> Sealed(s, s.current.value)
  {
    RunInv(run, events, |run| - 1);
  }

  lemma ReachedStaging(run: seq<State>, events: seq<Event>, p: Pid)
    requires IsRun(run, events) && p in run[|run| - 1].procs && run[|run| - 1].procs[p].Writer?
    requires run[|run| - 1].procs[p].pc.Pending? && Staging(run[|run| - 1].procs[p].w.gen) in run[|run| - 1].dirs
    ensures InStaging(run[|run| - 1], run[|run| - 1].procs[p].w)
  {
    RunInv(run, events, |run| - 1);
    Facts(run[|run| - 1], p);
  }

  lemma Stages(run: seq<State>, events: seq<Event>, p: Pid, s: State, w: WriterVars)
    returns (run': seq<State>, events': seq<Event>, s': State)
    requires GoesOn(run, events, p, run, events, s) && p in s.procs && s.procs[p] == Writer(w, Waiting) && StoreFree(s)
    requires w.kind.Compaction? ==> s.current.Some?
    requires s.current.Some? ==> Sealed(s, s.current.value)
    ensures GoesOn(run, events, p, run', events', s') && s'.current == s.current && s'.content == s.content
    ensures p in s'.procs && s'.procs[p].Writer? && s'.procs[p].pc.Pending? && s'.procs[p].w.gen == w.gen
    ensures BeginsWith(s, s'.procs[p].w) && Staging(w.gen) in s'.dirs
  {
    var d, w' := EMPTY.(lease := true), w;
    run', events' := MakesRoom(run, events, p, run, events, s, w);
    run', events' := Pins(run, events, p, run', events', s, w, d);
    run', events', w' := Copies(run, events, p, run', events', s, w, d);
    var d' := d.(manifest := Some(w'.inherited), meta := Some(w'.segs));
    run', events' := WorkingMoves(run, events, p, run', events', s, w', Staged, d', UnlockStaging, w', Pending, d');
    s' := Working(s, p, w', Pending, d');
  }

  // ---------------------------------------------------------------- publication

  lemma WriterMoves(run0: seq<State>, events0: seq<Event>, p: Pid, run: seq<State>, events: seq<Event>, s: State,
      a: Action, s': State)
    returns (run': seq<State>, events': seq<Event>)
    requires GoesOn(run0, events0, p, run, events, s) && p in s.procs && s.procs[p].Writer? && !a.Crash?
    requires PublishStep(s, p, a, s') || CleanStep(s, p, a, s') || WriteStep(s, p, a, s') || LeaseStep(s, p, a, s')
    ensures GoesOn(run0, events0, p, run', events', s')
  {
    run', events' := Then(run0, events0, p, run, events, s, a, s');
  }

  /** The state once the references are written. */
  ghost function Ready(s: State, p: Pid, w: WriterVars): State
    requires Staging(w.gen) in s.dirs
  {
    Goto(s, p, Writer(w.(attempted := true, inherited := Elems(w.segs)), Prepared)).(
      segments := s.segments + w.created * Elems(w.segs),
      dirs := s.dirs[Staging(w.gen) := s.dirs[Staging(w.gen)].(manifest := Some(Elems(w.segs)))])
  }

  lemma Adopts(run0: seq<State>, events0: seq<Event>, p: Pid, run: seq<State>, events: seq<Event>, s: State,
      w: WriterVars)
    returns (run': seq<State>, events': seq<Event>)
    requires p in s.procs && s.procs[p].Writer? && InStaging(s, w)
    requires GoesOn(run0, events0, p, run, events, Goto(s, p, Writer(w.(attempted := true), Preparing({}))))
    ensures GoesOn(run0, events0, p, run', events', Ready(s, p, w))
  {
    var files, w1 := w.created * Elems(w.segs), w.(attempted := true);
    var s1 := Goto(s, p, Writer(w1, Preparing({})));
    var s2 := Goto(s1, p, Writer(w1, Preparing({} + files))).(segments := s.segments + files);
    run', events' := WriterMoves(run0, events0, p, run, events, s1, Adopt(files), s2);
    var w3 := w1.(inherited := Elems(w.segs));
    var s3 := Goto(s2, p, Writer(w3, Prepared)).(
      dirs := s.dirs[Staging(w.gen) := s.dirs[Staging(w.gen)].(manifest := Some(Elems(w.segs)))]);
    run', events' := WriterMoves(run0, events0, p, run', events', s2, WriteManifest, s3);
    assert s3.procs == s.procs[p := Writer(w3, Prepared)];
  }

  /** The state once the generation has its final name. */
  ghost function AtFinalName(s: State, p: Pid, w: WriterVars): State
    requires Staging(w.gen) in s.dirs
  {
    var ready := Ready(s, p, w);
    Goto(ready, p, Writer(w.(attempted := true, inherited := Elems(w.segs)), Renamed)).(
      dirs := (ready.dirs - {Staging(w.gen)})[Final(w.gen) := ready.dirs[Staging(w.gen)]])
  }

  lemma Renames(run0: seq<State>, events0: seq<Event>, p: Pid, run: seq<State>, events: seq<Event>, s: State,
      w: WriterVars)
    returns (run': seq<State>, events': seq<Event>)
    requires p in s.procs && s.procs[p].Writer? && InStaging(s, w)
    requires GoesOn(run0, events0, p, run, events, Ready(s, p, w))
    ensures GoesOn(run0, events0, p, run', events', AtFinalName(s, p, w))
  {
    run', events' := WriterMoves(run0, events0, p, run, events, Ready(s, p, w), RenameStaging, AtFinalName(s, p, w));
  }

  lemma Flips(run0: seq<State>, events0: seq<Event>, p: Pid, run: seq<State>, events: seq<Event>, s: State,
      w: WriterVars)
    returns (run': seq<State>, events': seq<Event>)
    requires p in s.procs && s.procs[p] == Writer(w, Renamed) && GoesOn(run0, events0, p, run, events, s)
    ensures GoesOn(run0, events0, p, run', events', Goto(Flip1(s, w.gen, w.ops), p, Writer(w, Pruning)))
  {
    var s1 := Goto(Flip1(s, w.gen, w.ops), p, Writer(w, Flipped));
    run', events' := WriterMoves(run0, events0, p, run, events, s, FlipCurrent, s1);
    run', events' := Marks(run0, events0, p, run', events', Flip1(s, w.gen, w.ops), w);
  }

  lemma Marks(run0: seq<State>, events0: seq<Event>, p: Pid, run: seq<State>, events: seq<Event>, s: State,
      w: WriterVars)
    returns (run': seq<State>, events': seq<Event>)
    requires GoesOn(run0, events0, p, run, events, Goto(s, p, Writer(w, Flipped)))
    ensures GoesOn(run0, events0, p, run', events', Goto(s, p, Writer(w, Pruning)))
  {
    var s1 := Goto(s, p, Writer(w, Flipped));
    run', events' := WriterMoves(run0, events0, p, run, events, s1, MarkPublished, Goto(s1, p, Writer(w, Pruning)));
    assert s1.procs[p := Writer(w, Pruning)] == s.procs[p := Writer(w, Pruning)];
  }

  lemma Finishes(run0: seq<State>, events0: seq<Event>, p: Pid, run: seq<State>, events: seq<Event>, s: State,
      w: WriterVars)
    returns (run': seq<State>, events': seq<Event>)
    requires GoesOn(run0, events0, p, run, events, Goto(s, p, Writer(w, Pruning)))
    ensures GoesOn(run0, events0, p, run', events', Goto(s, p, Writer(w, Published)))
  {
    var s1 := Goto(s, p, Writer(w, Pruning));
    run', events' := WriterMoves(run0, events0, p, run, events, s1, FinishPublish, Goto(s1, p, Writer(w, Published)));
    assert s1.procs[p := Writer(w, Published)] == s.procs[p := Writer(w, Published)];
  }

  /** `s'` is `s` with the pending generation of `p` published; nobody else has moved. */
  ghost predicate HasPublished(s: State, p: Pid, w: WriterVars, s': State) {
    && p in s'.procs && s'.procs == s.procs[p := s'.procs[p]] && s'.procs[p].Writer? && s'.procs[p].pc.Published?
    && s'.current == Some(w.gen) && Sealed(s', w.gen) && s'.dirs[Final(w.gen)].meta == Some(w.segs)
    && s'.content == s.content
    && s'.log == (if s.current == Some(w.gen) then s.log else s.log + w.ops)
  }

  /** The generation has its final name, in `s'`, and everything it needs; the rest is as in `s`. */
  ghost predicate HasFinalName(s: State, p: Pid, w: WriterVars, s': State, w': WriterVars) {
    && s'.procs == s.procs[p := Writer(w', Renamed)] && w'.gen == w.gen && w'.ops == w.ops
    && Sealed(s', w.gen) && s'.dirs[Final(w.gen)].meta == Some(w.segs)
    && s'.content == s.content && s'.log == s.log && s'.current == s.current
  }

  lemma FinalNameIsSealed(s: State, p: Pid, w: WriterVars)
    requires InStaging(s, w) && DirsOk(s)
    ensures HasFinalName(s, p, w, AtFinalName(s, p, w), w.(attempted := true, inherited := Elems(w.segs)))
  {
    var ready := Ready(s, p, w);
    assert s.dirs[Staging(w.gen)].manifest.value <= s.segments;
    assert AtFinalName(s, p, w).procs == s.procs[p := AtFinalName(s, p, w).procs[p]];
  }

  ghost function Found(s: State, p: Pid, w: WriterVars): State {
    Goto(s, p, Writer(w.(attempted := true), Renamed))
  }

  lemma FindsFinal(run0: seq<State>, events0: seq<Event>, p: Pid, run: seq<State>, events: seq<Event>, s: State,
      w: WriterVars)
    returns (run': seq<State>, events': seq<Event>)
    requires p in s.procs && s.procs[p].Writer? && InFinal(s, w.gen, w.segs) && DirsOk(s)
    requires GoesOn(run0, events0, p, run, events, Goto(s, p, Writer(w.(attempted := true), Preparing({}))))
    ensures GoesOn(run0, events0, p, run', events', Found(s, p, w))
    ensures HasFinalName(s, p, w, Found(s, p, w), w.(attempted := true))
  {
    var w1 := w.(attempted := true);
    var s1 := Goto(s, p, Writer(w1, Preparing({})));
    run', events' := WriterMoves(run0, events0, p, run, events, s1, FoundFinal, Goto(s1, p, Writer(w1, Renamed)));
    assert s1.procs[p := Writer(w1, Renamed)] == s.procs[p := Writer(w1, Renamed)];
  }

  lemma FlippedIsPublished(s: State, p: Pid, w: WriterVars, named: State, w': WriterVars)
    requires HasFinalName(s, p, w, named, w')
    ensures HasPublished(s, p, w, Goto(Flip1(named, w.gen, w.ops), p, Writer(w', Published)))
  {
    assert s.procs[p := Writer(w', Renamed)][p := Writer(w', Published)] == s.procs[p := Writer(w', Published)];
  }

  lemma Attempts(run0: seq<State>, events0: seq<Event>, p: Pid, run: seq<State>, events: seq<Event>, s: State,
      w: WriterVars)
    returns (run': seq<State>, events': seq<Event>, s': State)
    requires GoesOn(run0, events0, p, run, events, s) && p in s.procs && s.procs[p] == Writer(w, Pending)
    requires StoreFree(s) && DirsOk(s) && WriterOk(s, w, Pending)
    ensures GoesOn(run0, events0, p, run', events', s') && HasPublished(s, p, w, s')
  {
    var w1 := w.(attempted := true);
    var s1 := Goto(s, p, Writer(w1, Preparing({})));
    run', events' := WriterMoves(run0, events0, p, run, events, s, LockForPublish, s1);
    var named, w2;
    if Staging(w.gen) in s.dirs {
      run', events' := Adopts(run0, events0, p, run', events', s, w);
      run', events' := Renames(run0, events0, p, run', events', s, w);
      named, w2 := AtFinalName(s, p, w), w1.(inherited := Elems(w.segs));
      FinalNameIsSealed(s, p, w);
    } else {
      named, w2 := Found(s, p, w), w1;
      run', events' := FindsFinal(run0, events0, p, run', events', s, w);
    }
    run', events' := Flips(run0, events0, p, run', events', named, w2);
    run', events' := Finishes(run0, events0, p, run', events', Flip1(named, w2.gen, w2.ops), w2);
    s' := Goto(Flip1(named, w2.gen, w2.ops), p, Writer(w2, Published));
    FlippedIsPublished(s, p, w, named, w2);
  }

  /** `publish_generation`, on its first attempt or a retry, wherever an earlier one failed: a writer that has a
      generation pending, finds the store lock free and is left alone publishes it. */
  lemma WriterPublishes(run: seq<State>, events: seq<Event>, p: Pid)
    returns (run': seq<State>, events': seq<Event>, s': State)
    requires IsRun(run, events) && p in run[|run| - 1].procs && run[|run| - 1].procs[p].Writer?
    requires run[|run| - 1].procs[p].pc.Pending? && StoreFree(run[|run| - 1])
    ensures GoesOn(run, events, p, run', events', s')
    ensures HasPublished(run[|run| - 1], p, run[|run| - 1].procs[p].w, s')
  {
    var s := run[|run| - 1];
    RunInv(run, events, |run| - 1);
    Facts(s, p);
    Starts(run, events, p);
    run', events', s' := Attempts(run, events, p, run, events, s, s.procs[p].w);
  }

  /** A compaction that is done merging, finds the ingest lease and the store lock free and nothing published since
      it staged, publishes, and the records are what they were. */
  lemma CompactionPublishes(run: seq<State>, events: seq<Event>, p: Pid)
    returns (run': seq<State>, events': seq<Event>, s': State)
    requires IsLeasedRun(run, events) && p in run[|run| - 1].procs && run[|run| - 1].procs[p].Writer?
    requires var s, w, pc := run[|run| - 1], run[|run| - 1].procs[p].w, run[|run| - 1].procs[p].pc;
      && pc.Pending? && w.kind.Compaction? && !w.attempted && s.current == w.base
      && StoreFree(s) && LeaseFree(s)
    ensures GoesOn(run, events, p, run', events', s')
    ensures var s := run[|run| - 1];
      s'.current == Some(s.procs[p].w.gen) && CurrentDocs(s') == CurrentDocs(s) && s'.log == s.log
  {
    var s := run[|run| - 1];
    var w := s.procs[p].w;
    CompactionFacts(run, events, p, w);
    Starts(run, events, p);
    var w2 := w.(lease := true, upToDate := true);
    run', events' := ChecksVersion(run, events, p, run, events, s, w);
    run', events', s' := Attempts(run, events, p, run', events', Goto(s, p, Writer(w2, Pending)), w2);
  }

  lemma CompactionFacts(run: seq<State>, events: seq<Event>, p: Pid, w: WriterVars)
    requires IsLeasedRun(run, events) && p in run[|run| - 1].procs && run[|run| - 1].procs[p] == Writer(w, Pending)
    requires w.kind.Compaction? && run[|run| - 1].current == w.base
    ensures var s := run[|run| - 1];
      DirsOk(s) && WriterOk(s, w, Pending) && w.ops == [] && DocsOf(s.content, w.segs) == CurrentDocs(s)
  {
    LeasedRun(run, events, |run| - 1);
    Facts(run[|run| - 1], p);
    assert LeasedOk(run[|run| - 1], Writer(w, Pending));
  }

  lemma ChecksVersion(run0: seq<State>, events0: seq<Event>, p: Pid, run: seq<State>, events: seq<Event>, s: State,
      w: WriterVars)
    returns (run': seq<State>, events': seq<Event>)
    requires GoesOn(run0, events0, p, run, events, s) && p in s.procs && s.procs[p] == Writer(w, Pending)
    requires w.kind.Compaction? && !w.attempted && s.current == w.base && LeaseFree(s)
    ensures GoesOn(run0, events0, p, run', events',
                   Goto(s, p, Writer(w.(lease := true, upToDate := true), Pending)))
  {
    var w1, w2 := w.(lease := true), w.(lease := true, upToDate := true);
    var s1 := Goto(s, p, Writer(w1, Pending));
    run', events' := WriterMoves(run0, events0, p, run, events, s, AcquireLease, s1);
    run', events' := WriterMoves(run0, events0, p, run', events', s1, CheckVersion, Goto(s1, p, Writer(w2, Pending)));
    assert s1.procs[p := Writer(w2, Pending)] == s.procs[p := Writer(w2, Pending)];
  }

  // ---------------------------------------------------------------- published once, or dropped

  predicate IsPublished(x: Proc) {
    x.Writer? && (x.pc.Pruning? || x.pc.Removing? || x.pc.Collecting? || x.pc.Published?)
  }

  ghost predicate StillPublished(s: State, p: Pid, s': State) {
    (p in s'.procs ==> IsPublished(s'.procs[p])) && s'.current == s.current
  }

  lemma FailsPublished(s: State, p: Pid, a: Action, s': State)
    requires p in s.procs && IsPublished(s.procs[p]) && PublishStep(s, p, a, s')
    ensures StillPublished(s, p, s')
  {
  }

  lemma WritesNoMore(s: State, p: Pid, a: Action, s': State)
    requires p in s.procs && IsPublished(s.procs[p])
    ensures !StageStep(s, p, a, s') && !WriteStep(s, p, a, s')
  {
  }

  lemma CleansPublished(s: State, p: Pid, a: Action, s': State)
    requires p in s.procs && IsPublished(s.procs[p]) && CleanStep(s, p, a, s')
    ensures StillPublished(s, p, s')
  {
  }

  lemma EndsPublished(s: State, p: Pid, a: Action, s': State)
    requires p in s.procs && IsPublished(s.procs[p]) && (DropStep(s, p, a, s') || LeaseStep(s, p, a, s'))
    ensures StillPublished(s, p, s')
  {
  }

  lemma WriterStaysPublished(s: State, p: Pid, a: Action, s': State)
    requires p in s.procs && IsPublished(s.procs[p]) && WriterStep(s, p, a, s')
    ensures StillPublished(s, p, s')
  {
    if CleanStep(s, p, a, s') {
      CleansPublished(s, p, a, s');
    } else if DropStep(s, p, a, s') || LeaseStep(s, p, a, s') {
      EndsPublished(s, p, a, s');
    } else {
      WritesNoMore(s, p, a, s');
      FailsPublished(s, p, a, s');
    }
  }

  lemma NextStaysPublished(s: State, p: Pid, a: Action, s': State, q: Pid)
    requires q in s.procs && IsPublished(s.procs[q]) && Next(s, p, a, s') && Guarantee(s, p, s') && q in s'.procs
    ensures IsPublished(s'.procs[q]) && (p == q ==> s'.current == s.current)
  {
    if p == q {
      WriterStaysPublished(s, p, a, s');
    }
  }

  lemma PublishedStep(run: seq<State>, events: seq<Event>, j: nat, p: Pid)
    requires IsRun(run, events) && 0 < j < |run| && p in run[j - 1].procs && IsPublished(run[j - 1].procs[p])
    requires p in run[j].procs
    ensures IsPublished(run[j].procs[p]) && (events[j - 1].p == p ==> run[j].current == run[j - 1].current)
  {
    assert RunStep(run, events, j);
    RunInv(run, events, j - 1);
    NextKeepsInv(run[j - 1], events[j - 1].p, events[j - 1].a, run[j]);
    NextStaysPublished(run[j - 1], events[j - 1].p, events[j - 1].a, run[j], p);
  }

  /** Once it has published, a writer does not publish or drop its generation again, whatever fails after. */
  lemma {:induction false} PublishedStays(run: seq<State>, events: seq<Event>, i: nat, j: nat, p: Pid)
    requires IsRun(run, events) && i <= j < |run| && p in run[i].procs && IsPublished(run[i].procs[p])
    requires forall k :: i <= k <= j ==> p in run[k].procs
    ensures IsPublished(run[j].procs[p])
    ensures forall k :: i <= k < j && events[k].p == p ==> run[k + 1].current == run[k].current
    decreases j
  {
    if i == j {
    } else {
      PublishedStays(run, events, i, j - 1, p);
      PublishedStep(run, events, j, p);
    }
  }

  /** A writer whose staging failed, or that is dropped unpublished, leaves no work directory behind, and nothing else
      has changed. */
  lemma WriterDrops(run: seq<State>, events: seq<Event>, p: Pid)
    returns (run': seq<State>, events': seq<Event>, s': State)
    requires IsRun(run, events) && p in run[|run| - 1].procs && run[|run| - 1].procs[p].Writer?
    requires var pc := run[|run| - 1].procs[p].pc; pc.Pinned? || pc.Staged? || pc.Pending?
    ensures GoesOn(run, events, p, run', events', s')
    ensures var s := run[|run| - 1];
      s' == s.(procs := s.procs - {p}, dirs := s.dirs - {Staging(s.procs[p].w.gen)})
  {
    var s := run[|run| - 1];
    var w, pc := s.procs[p].w, s.procs[p].pc;
    Starts(run, events, p);
    var held := !pc.Pending?;
    var s1 := Goto(s, p, Writer(w, Dropping(held)));
    if held {
      run', events' := StageMoves(run, events, p, run, events, s, FailStage, s1);
    } else {
      run', events' := DropMoves(run, events, p, run, events, s, BeginDrop, s1);
    }
    run', events' := Removes(run, events, p, run', events', s1, w, held);
    s' := s.(procs := s.procs - {p}, dirs := s.dirs - {Staging(w.gen)});
    assert s1.procs - {p} == s.procs - {p};
  }

  lemma DropMoves(run0: seq<State>, events0: seq<Event>, p: Pid, run: seq<State>, events: seq<Event>, s: State,
      a: Action, s': State)
    returns (run': seq<State>, events': seq<Event>)
    requires GoesOn(run0, events0, p, run, events, s) && p in s.procs && s.procs[p].Writer? && !a.Crash?
    requires DropStep(s, p, a, s')
    ensures GoesOn(run0, events0, p, run', events', s')
  {
    run', events' := Then(run0, events0, p, run, events, s, a, s');
  }

  lemma Removes(run0: seq<State>, events0: seq<Event>, p: Pid, run: seq<State>, events: seq<Event>, s: State,
      w: WriterVars, held: bool)
    returns (run': seq<State>, events': seq<Event>)
    requires GoesOn(run0, events0, p, run, events, s) && p in s.procs && s.procs[p] == Writer(w, Dropping(held))
    ensures GoesOn(run0, events0, p, run', events',
                   s.(procs := s.procs - {p}, dirs := s.dirs - {Staging(w.gen)}))
  {
    run', events' := run, events;
    var s1 := s.(dirs := s.dirs - {Staging(w.gen)});
    if Staging(w.gen) in s.dirs {
      run', events' := DropMoves(run0, events0, p, run, events, s, DropRemove, s1);
    } else {
      assert s1.dirs == s.dirs;
    }
    run', events' := DropMoves(run0, events0, p, run', events', s1, EndDrop, s1.(procs := s1.procs - {p}));
  }
}
