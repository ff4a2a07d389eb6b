/**
What `read` promises about the information it returns, over whole runs.
*/
module DaemonTheorems {
  import opened Wrappers
  import opened DaemonModel
  import opened DaemonSafety

  lemma {:induction false} RunInv(run: seq<State>, events: seq<Event>, i: nat)
    requires IsRun(run, events) && i < |run|
    ensures Inv(run[i])
  {
    assert RunStep(run, events, i);
    if i == 0 {
    } else {
      RunInv(run, events, i - 1);
      NextKeepsInv(run[i - 1], events[i - 1].p, events[i - 1].a, run[i]);
    }
  }

  /** Never two live instances. */
  lemma OneInstance(run: seq<State>, events: seq<Event>, i: nat, p: Pid, q: Pid)
    requires IsRun(run, events) && i < |run| && p in run[i].procs && q in run[i].procs
    requires run[i].procs[p].Daemon? && run[i].procs[p].d.Running? && run[i].procs[q].Daemon?
    requires run[i].procs[q].d.Running?
    ensures p == q
  {
    RunInv(run, events, i);
    assert ProcOk(run[i], p) && ProcOk(run[i], q);
  }

  // ---------------------------------------------------------------- the moment of the state read

  predicate HasSample(s: State, p: Pid) {
    && p in s.procs && s.procs[p].Reader?
    && var r := s.procs[p].r;
       r.HasState? || r.Matched? || r.Reread? || (r.Returned? && r.result.Some?)
  }

  function SampleOf(s: State, p: Pid): Sample
    requires HasSample(s, p)
  {
    var r := s.procs[p].r;
    if r.Returned? then r.result.value else r.sample
  }

  /** `x` records the state in which it was taken. */
  predicate TakenIn(s: State, x: Sample) {
    && s.stateFile == Some(x.info) && s.lockFile == Some(x.tokenAt) && s.holder == x.holderAt
    && |s.writers| == x.stateSeq
    && x.info.id in s.owner && (x.gone <==> s.owner[x.info.id] in s.abandoned)
  }

  lemma DaemonStays(s: State, p: Pid, a: Action, s': State)
    requires p in s.procs && s.procs[p].Daemon? && DaemonStep(s, p, s.procs[p].d, a, s')
    ensures p in s'.procs && s'.procs[p].Daemon?
  {
  }

  lemma ReaderStays(s: State, p: Pid, a: Action, s': State)
    requires p in s.procs && s.procs[p].Reader? && ReaderStep(s, p, s.procs[p].r, a, s')
    ensures p in s'.procs && s'.procs[p].Reader?
  {
  }

  lemma OneMoves(s: State, p: Pid, a: Action, s': State, q: Pid)
    requires Next(s, p, a, s') && q in s'.procs
    ensures q != p ==> q in s.procs && s'.procs[q] == s.procs[q]
    ensures q == p && q in s.procs ==> (s'.procs[q].Reader? <==> s.procs[q].Reader?)
  {
    OnlyOwnPlace(s, p, a, s');
    if p in s.procs {
      match s.procs[p]
      case Daemon(_) => DaemonStays(s, p, a, s');
      case Reader(_) => ReaderStays(s, p, a, s');
    }
  }

  lemma ReaderSamples(s: State, p: Pid, r: ReaderPc, a: Action, s': State)
    requires p in s.procs && s.procs[p] == Reader(r) && ReaderStep(s, p, r, a, s') && HasSample(s', p)
    ensures (HasSample(s, p) && SampleOf(s, p) == SampleOf(s', p)) || (a.ReadState? && TakenIn(s, SampleOf(s', p)))
  {
  }

  lemma SampleStep(s: State, p: Pid, a: Action, s': State, q: Pid)
    requires Next(s, p, a, s') && HasSample(s', q)
    ensures (HasSample(s, q) && SampleOf(s, q) == SampleOf(s', q))
         || (p == q && a.ReadState? && TakenIn(s, SampleOf(s', q)))
  {
    OneMoves(s, p, a, s', q);
    if p == q && p in s.procs {
      ReaderSamples(s, p, s.procs[p].r, a, s');
    }
  }

  lemma {:induction false} SampleMoment(run: seq<State>, events: seq<Event>, i: nat, p: Pid) returns (j: nat)
    requires IsRun(run, events) && i < |run| && HasSample(run[i], p)
    ensures j < i && events[j] == Event(p, ReadState) && TakenIn(run[j], SampleOf(run[i], p))
  {
    assert RunStep(run, events, i);
    SampleStep(run[i - 1], events[i - 1].p, events[i - 1].a, run[i], p);
    if TakenIn(run[i - 1], SampleOf(run[i], p)) && events[i - 1] == Event(p, ReadState) {
      j := i - 1;
    } else {
      j := SampleMoment(run, events, i - 1, p);
    }
  }

  lemma {:induction false} WritersGrow(run: seq<State>, events: seq<Event>, j: nat, i: nat)
    requires IsRun(run, events) && j <= i < |run|
    ensures run[j].writers <= run[i].writers
    ensures forall id :: id in run[j].owner ==> id in run[i].owner && run[i].owner[id] == run[j].owner[id]
    decreases i
  {
    if j == i {
    } else {
      WritersGrow(run, events, j, i - 1);
      assert RunStep(run, events, i);
    }
  }

  // ---------------------------------------------------------------- what an instance says of itself

  /** Process `q` called `mark_ready` in one of the first `n` steps. */
  ghost predicate Marked(events: seq<Event>, n: nat, q: Pid) {
    exists m: nat :: m < n && m < |events| && events[m] == Event(q, MarkReady)
  }

  /** It did, and later in those steps published. */
  ghost predicate Announced(events: seq<Event>, n: nat, q: Pid) {
    exists k: nat :: k < n && k < |events| && events[k] == Event(q, Publish) && Marked(events, k, q)
  }

  /** It built its information from these details. */
  ghost predicate Built(events: seq<Event>, n: nat, q: Pid, details: nat) {
    exists b: nat :: b < n && b < |events| && events[b] == Event(q, Build(details))
  }

  lemma OneMoreStep(events: seq<Event>, n: nat, q: Pid, details: nat)
    requires n < |events|
    ensures Marked(events, n + 1, q) <==> Marked(events, n, q) || events[n] == Event(q, MarkReady)
    ensures Announced(events, n + 1, q) <==>
      Announced(events, n, q) || (events[n] == Event(q, Publish) && Marked(events, n, q))
    ensures Built(events, n + 1, q, details) <==> Built(events, n, q, details) || events[n] == Event(q, Build(details))
    ensures Announced(events, n, q) ==> Marked(events, n, q)
  {
  }

  /** What process `q` holds ready to publish. */
  function InfoOf(s: State, q: Pid): Option<Info> {
    if q in s.procs && s.procs[q].Daemon? then
      match s.procs[q].d
      case Publishing(info) => Some(info)
      case Running(info) => Some(info)
      case _ => None
    else None
  }

  /** It has not got as far as that. */
  predicate Unborn(s: State, q: Pid) {
    q !in s.procs || (s.procs[q].Daemon? && var d := s.procs[q].d; d.Opened? || d.Locked? || d.Named? || d.Writing?)
  }

  /** Its information is what it was built from, and ready exactly if it has been marked. */
  ghost predicate Tells(s: State, events: seq<Event>, i: nat, q: Pid) {
    && (Unborn(s, q) ==> !Marked(events, i, q))
    && (InfoOf(s, q).Some? ==>
          var info := InfoOf(s, q).value;
          (info.ready <==> Marked(events, i, q)) && Built(events, i, q, info.details))
  }

  /** The state file says `ready` exactly if its instance has published since it was marked. */
  ghost predicate FileTells(s: State, events: seq<Event>, i: nat) {
    s.stateFile.Some? ==>
      var info := s.stateFile.value;
      && info.id in s.owner && (info.ready <==> Announced(events, i, s.owner[info.id]))
      && Built(events, i, s.owner[info.id], info.details)
  }

  /** How a step of `p` changes what it has to say. */
  ghost predicate Revises(s: State, p: Pid, a: Action, s': State) {
    && (Unborn(s', p) ==> Unborn(s, p) && !a.MarkReady?)
    && (InfoOf(s', p).Some? ==>
          var info := InfoOf(s', p).value;
          || (a.Build? && Unborn(s, p) && !info.ready && info.details == a.details)
          || (a.MarkReady? && info.ready && InfoOf(s, p).Some? && info.details == InfoOf(s, p).value.details)
          || (!a.MarkReady? && InfoOf(s, p) == Some(info)))
    && (if a.Publish? then InfoOf(s, p).Some? && s'.stateFile == InfoOf(s, p)
        else s'.stateFile == s.stateFile || s'.stateFile.None?)
  }

  lemma StartRevises(s: State, p: Pid, d: DaemonPc, a: Action, s': State)
    requires p in s.procs && s.procs[p] == Daemon(d) && StartStep(s, p, d, a, s')
    ensures Revises(s, p, a, s')
  {
  }

  lemma LiveRevises(s: State, p: Pid, d: DaemonPc, a: Action, s': State)
    requires p in s.procs && s.procs[p] == Daemon(d) && LiveStep(s, p, d, a, s')
    ensures Revises(s, p, a, s')
  {
  }

  lemma ReaderRevises(s: State, p: Pid, a: Action, s': State)
    requires p in s.procs && s.procs[p].Reader? && ReaderStep(s, p, s.procs[p].r, a, s')
    ensures Revises(s, p, a, s')
  {
    ReaderStays(s, p, a, s');
  }

  lemma NextRevises(s: State, p: Pid, a: Action, s': State)
    requires Next(s, p, a, s')
    ensures Revises(s, p, a, s')
  {
    if p in s.procs {
      match s.procs[p]
      case Daemon(d) =>
        if StartStep(s, p, d, a, s') { StartRevises(s, p, d, a, s'); } else { LiveRevises(s, p, d, a, s'); }
      case Reader(_) => ReaderRevises(s, p, a, s');
    }
  }

  lemma TellsStep(s: State, events: seq<Event>, i: nat, q: Pid, s': State)
    requires i < |events| && Tells(s, events, i, q) && Next(s, events[i].p, events[i].a, s')
    ensures Tells(s', events, i + 1, q)
  {
    var p, a := events[i].p, events[i].a;
    NextRevises(s, p, a, s');
    OnlyOwnPlace(s, p, a, s');
    OneMoreStep(events, i, q, if InfoOf(s', q).Some? then InfoOf(s', q).value.details else 0);
  }

  /** Whoever has information to publish drew its token. */
  predicate OwnsInfo(s: State, p: Pid) {
    InfoOf(s, p).Some? ==> var id := InfoOf(s, p).value.id; id in s.owner && s.owner[id] == p
  }

  predicate OwnersStay(s: State, s': State) {
    forall id :: id in s.owner ==> id in s'.owner && s'.owner[id] == s.owner[id]
  }

  lemma StartOwners(s: State, p: Pid, d: DaemonPc, a: Action, s': State)
    requires StartStep(s, p, d, a, s')
    ensures OwnersStay(s, s')
  {
  }

  lemma LiveOwners(s: State, p: Pid, d: DaemonPc, a: Action, s': State)
    requires LiveStep(s, p, d, a, s')
    ensures s'.owner == s.owner
  {
  }

  lemma ReaderOwners(s: State, p: Pid, r: ReaderPc, a: Action, s': State)
    requires ReaderStep(s, p, r, a, s')
    ensures s'.owner == s.owner
  {
  }

  lemma StepOwners(s: State, p: Pid, a: Action, s': State)
    requires Next(s, p, a, s')
    ensures OwnersStay(s, s')
  {
    if p in s.procs {
      match s.procs[p]
      case Daemon(d) =>
        if StartStep(s, p, d, a, s') { StartOwners(s, p, d, a, s'); } else { LiveOwners(s, p, d, a, s'); }
      case Reader(r) => ReaderOwners(s, p, r, a, s');
    }
  }

  lemma FileTellsStep(s: State, events: seq<Event>, i: nat, s': State)
    requires i < |events| && FileTells(s, events, i) && Tells(s, events, i, events[i].p)
    requires Revises(s, events[i].p, events[i].a, s') && OwnersStay(s, s') && OwnsInfo(s, events[i].p)
    ensures FileTells(s', events, i + 1)
  {
    if s'.stateFile.Some? {
      var info := s'.stateFile.value;
      OneMoreStep(events, i, s'.owner[info.id], info.details);
    }
  }

  lemma OwnsItsInfo(s: State, p: Pid)
    requires p in s.procs ==> ProcOk(s, p)
    ensures OwnsInfo(s, p)
  {
  }

  lemma {:induction false} AllTell(run: seq<State>, events: seq<Event>, i: nat)
    requires IsRun(run, events) && i < |run|
    ensures FileTells(run[i], events, i) && forall q :: Tells(run[i], events, i, q)
  {
    assert RunStep(run, events, i);
    if i == 0 {
    } else {
      AllTell(run, events, i - 1);
      RunInv(run, events, i - 1);
      forall q ensures Tells(run[i], events, i, q) {
        TellsStep(run[i - 1], events, i - 1, q, run[i]);
      }
      var p, a := events[i - 1].p, events[i - 1].a;
      NextRevises(run[i - 1], p, a, run[i]);
      StepOwners(run[i - 1], p, a, run[i]);
      OwnsItsInfo(run[i - 1], p);
      FileTellsStep(run[i - 1], events, i - 1, run[i]);
    }
  }

  // ---------------------------------------------------------------- what `read` returns

  /** Some process `p` whose instance wrote `info`: at this moment its token is the lock file's content and
      the latest to have been begun, it did publish `info`, and `ready` only after `mark_ready`. */
  predicate Speaks(s: State, p: Pid, info: Info) {
    && s.stateFile == Some(info) && s.lockFile == Some(info.id) && Latest(s, info.id)
    && Owns(s, p, info.id) && (p, info) in s.published && (info.ready ==> info.id in s.marked)
  }

  /** Whatever `read` returns was, when the state file was read, the word of the instance whose token was
      in the lock file: ready exactly if that instance had published since it was marked ready, and with the
      details it was built from.  It held the lock at that moment exactly when it had not gone away leaving its
      state file behind. */
  lemma ReadReturnsTheTokenHolder(run: seq<State>, events: seq<Event>, i: nat, p: Pid) returns (j: nat, q: Pid)
    requires IsRun(run, events) && i < |run| && p in run[i].procs
    requires run[i].procs[p].Reader? && run[i].procs[p].r.Returned? && run[i].procs[p].r.result.Some?
    ensures j < i && events[j] == Event(p, ReadState)
    ensures Speaks(run[j], q, run[i].procs[p].r.result.value.info)
    ensures run[i].procs[p].r.result.value.info.ready <==> Announced(events, j, q)
    ensures Built(events, j, q, run[i].procs[p].r.result.value.info.details)
    ensures run[j].holder == Some(q) <==> q !in run[j].abandoned
  {
    var x := run[i].procs[p].r.result.value;
    j := SampleMoment(run, events, i, p);
    q := run[j].owner[x.info.id];
    RunInv(run, events, j);
    RunInv(run, events, i);
    assert ProcOk(run[i], p);
    WritersGrow(run, events, j, i);
    AllTell(run, events, j);
  }

  predicate PastProbe(r: ReaderPc) {
    r.FirstLocked? || r.HasToken? || r.HasState? || r.Matched? || r.Reread? || r.SecondProbe? ||
    (r.Returned? && r.result.Some?)
  }

  /** The last step was the reader's own, or it is where it was. */
  lemma LastReaderStep(run: seq<State>, events: seq<Event>, i: nat, p: Pid)
    requires IsRun(run, events) && i < |run| && p in run[i].procs && run[i].procs[p].Reader?
    requires PastProbe(run[i].procs[p].r)
    ensures i > 0 && p in run[i - 1].procs && run[i - 1].procs[p].Reader?
    ensures if events[i - 1].p == p then ReaderStep(run[i - 1], p, run[i - 1].procs[p].r, events[i - 1].a, run[i])
            else run[i - 1].procs[p] == run[i].procs[p]
  {
    assert RunStep(run, events, i);
    OneMoves(run[i - 1], events[i - 1].p, events[i - 1].a, run[i], p);
  }

  lemma ProbedBefore(s: State, p: Pid, r: ReaderPc, a: Action, s': State)
    requires p in s.procs && s.procs[p] == Reader(r) && ReaderStep(s, p, r, a, s')
    requires p in s'.procs && s'.procs[p].Reader? && PastProbe(s'.procs[p].r)
    ensures PastProbe(r) || (a.Probe? && s.holder.Some?)
    ensures s'.procs[p].r.Returned? ==> a.Reprobe? && s.holder.Some? && r == Reread(s'.procs[p].r.result.value)
  {
  }

  lemma {:induction false} FirstProbed(run: seq<State>, events: seq<Event>, i: nat, p: Pid) returns (a: nat)
    requires IsRun(run, events) && i < |run| && p in run[i].procs && run[i].procs[p].Reader?
    requires PastProbe(run[i].procs[p].r)
    ensures a < i && events[a] == Event(p, Probe) && run[a].holder.Some?
  {
    LastReaderStep(run, events, i, p);
    if events[i - 1].p == p {
      ProbedBefore(run[i - 1], p, run[i - 1].procs[p].r, events[i - 1].a, run[i]);
    }
    if PastProbe(run[i - 1].procs[p].r) {
      a := FirstProbed(run, events, i - 1, p);
    } else {
      a := i - 1;
    }
  }

  lemma {:induction false} ProbedAgain(run: seq<State>, events: seq<Event>, i: nat, p: Pid) returns (b: nat)
    requires IsRun(run, events) && i < |run| && p in run[i].procs && run[i].procs[p].Reader?
    requires run[i].procs[p].r.Returned? && run[i].procs[p].r.result.Some?
    ensures b < i && events[b] == Event(p, Reprobe) && run[b].holder.Some? && p in run[b].procs
    ensures run[b].procs[p] == Reader(Reread(run[i].procs[p].r.result.value))
  {
    LastReaderStep(run, events, i, p);
    if events[i - 1].p == p {
      ProbedBefore(run[i - 1], p, run[i - 1].procs[p].r, events[i - 1].a, run[i]);
      b := i - 1;
    } else {
      b := ProbedAgain(run, events, i - 1, p);
    }
  }

  /** Whatever `read` returns, the lock was held before it read the state and again after. */
  lemma LockHeldAround(run: seq<State>, events: seq<Event>, i: nat, p: Pid) returns (a: nat, j: nat, b: nat)
    requires IsRun(run, events) && i < |run| && p in run[i].procs
    requires run[i].procs[p].Reader? && run[i].procs[p].r.Returned? && run[i].procs[p].r.result.Some?
    ensures a < j < b < i && events[a] == Event(p, Probe) && events[b] == Event(p, Reprobe)
    ensures run[a].holder.Some? && run[b].holder.Some?
    ensures events[j] == Event(p, ReadState) && TakenIn(run[j], run[i].procs[p].r.result.value)
  {
    b := ProbedAgain(run, events, i, p);
    j := SampleMoment(run, events, b, p);
    AtRead(run, events, j, p);
    a := FirstProbed(run, events, j, p);
  }

  lemma AtRead(run: seq<State>, events: seq<Event>, j: nat, p: Pid)
    requires IsRun(run, events) && j < |events| && events[j] == Event(p, ReadState)
    ensures p in run[j].procs && run[j].procs[p].Reader? && run[j].procs[p].r.HasToken?
  {
    assert RunStep(run, events, j + 1);
  }

  lemma {:induction false} DropsLeaveNothing(run: seq<State>, events: seq<Event>, i: nat)
    requires IsRun(run, events) && EndsByDrop(run, events) && i < |run|
    ensures run[i].abandoned == {}
    ensures forall p :: p in run[i].procs && run[i].procs[p].Daemon? && run[i].procs[p].d.Dropping? ==>
      run[i].procs[p].d.removed
  {
    assert RunStep(run, events, i);
    if i == 0 {
    } else {
      DropsLeaveNothing(run, events, i - 1);
      assert DropsOnly(run[i - 1], events[i - 1]);
    }
  }

  /** Where instances end only through `Drop`, the instance also held the lock when its state was read. */
  lemma ReadReturnsALiveInstance(run: seq<State>, events: seq<Event>, i: nat, p: Pid) returns (j: nat, q: Pid)
    requires IsRun(run, events) && EndsByDrop(run, events) && i < |run| && p in run[i].procs
    requires run[i].procs[p].Reader? && run[i].procs[p].r.Returned? && run[i].procs[p].r.result.Some?
    ensures j < i && events[j] == Event(p, ReadState) && run[j].holder == Some(q)
    ensures Speaks(run[j], q, run[i].procs[p].r.result.value.info)
  {
    j, q := ReadReturnsTheTokenHolder(run, events, i, p);
    DropsLeaveNothing(run, events, j);
  }

  // ---------------------------------------------------------------- when the promise is kept

  /** Token and state file agree, and the instance they speak of does not hold the lock. */
  predicate Stranded(s: State) {
    && s.stateFile.Some? && s.lockFile == Some(s.stateFile.value.id) && s.stateFile.value.id in s.owner
    && s.holder != Some(s.owner[s.stateFile.value.id])
  }

  predicate Wrote(d: DaemonPc, info: Info) {
    (d.Publishing? && d.info.id == info.id) || (d.Running? && d.info.id == info.id) || (d.Dropping? && d.id == info.id)
  }

  /** An instance gives up the lock, by crashing or at the end of `Drop`, with its own state file still there. */
  predicate Strands(s: State, e: Event) {
    && (e.a.Crash? || e.a.Unlock?) && e.p in s.procs && s.procs[e.p].Daemon?
    && s.stateFile.Some? && Wrote(s.procs[e.p].d, s.stateFile.value)
  }

  lemma DaemonStrands(s: State, p: Pid, d: DaemonPc, a: Action, s': State)
    requires GlobalOk(s) && p in s.procs && s.procs[p] == Daemon(d) && ProcOk(s, p)
    requires DaemonStep(s, p, d, a, s') && !Stranded(s)
    ensures Stranded(s') <==> Strands(s, Event(p, a))
  {
    if StartStep(s, p, d, a, s') {
      StartStrands(s, p, d, a, s');
    } else {
      LiveStrands(s, p, d, a, s');
    }
  }

  lemma StartStrands(s: State, p: Pid, d: DaemonPc, a: Action, s': State)
    requires GlobalOk(s) && p in s.procs && s.procs[p] == Daemon(d) && ProcOk(s, p)
    requires StartStep(s, p, d, a, s') && !Stranded(s)
    ensures !Stranded(s')
  {
    if d.Writing? {
      assert d.id[..|d.id|] == d.id;
    }
  }

  lemma LiveStrands(s: State, p: Pid, d: DaemonPc, a: Action, s': State)
    requires GlobalOk(s) && p in s.procs && s.procs[p] == Daemon(d) && ProcOk(s, p)
    requires LiveStep(s, p, d, a, s') && !Stranded(s)
    ensures Stranded(s') <==> Strands(s, Event(p, a))
  {
  }

  lemma ReaderStrandsNothing(s: State, p: Pid, a: Action, s': State)
    requires GlobalOk(s) && p in s.procs && s.procs[p].Reader? && ProcOk(s, p)
    requires ReaderStep(s, p, s.procs[p].r, a, s') && !Stranded(s)
    ensures !Stranded(s')
  {
    ReaderOnlyProbes(s, p, a, s');
  }

  /** Nothing but such a step leads to files that speak of an instance without the lock. */
  lemma StrandsIff(s: State, p: Pid, a: Action, s': State)
    requires Inv(s) && Next(s, p, a, s') && !Stranded(s)
    ensures Stranded(s') <==> Strands(s, Event(p, a))
  {
    if p in s.procs {
      assert ProcOk(s, p);
      match s.procs[p]
      case Daemon(d) => DaemonStrands(s, p, d, a, s');
      case Reader(_) => ReaderStrandsNothing(s, p, a, s');
    }
  }

  ghost predicate StrandsNothing(run: seq<State>, events: seq<Event>)
    requires IsRun(run, events)
  {
    forall i: nat :: i < |events| ==> !Strands(run[i], events[i])
  }

  lemma {:induction false} NeverStranded(run: seq<State>, events: seq<Event>, i: nat)
    requires IsRun(run, events) && StrandsNothing(run, events) && i < |run|
    ensures !Stranded(run[i])
  {
    assert RunStep(run, events, i);
    if i == 0 {
    } else {
      NeverStranded(run, events, i - 1);
      RunInv(run, events, i - 1);
      StrandsIff(run[i - 1], events[i - 1].p, events[i - 1].a, run[i]);
    }
  }

  /** Where no instance gives up the lock with its state file still there, everything `read` returns comes from
      an instance that held the lock when its state was read. */
  lemma LiveUnlessStranded(run: seq<State>, events: seq<Event>, i: nat, p: Pid) returns (j: nat, q: Pid)
    requires IsRun(run, events) && StrandsNothing(run, events) && i < |run| && p in run[i].procs
    requires run[i].procs[p].Reader? && run[i].procs[p].r.Returned? && run[i].procs[p].r.result.Some?
    ensures j < i && events[j] == Event(p, ReadState) && run[j].holder == Some(q)
    ensures Speaks(run[j], q, run[i].procs[p].r.result.value.info)
  {
    j, q := ReadReturnsTheTokenHolder(run, events, i, p);
    NeverStranded(run, events, j);
  }
}
