/**
What every step of daemons and readers keeps, and what follows for the information a reader returns.
*/
module DaemonSafety {
  import opened Wrappers
  import opened DaemonModel

  // ---------------------------------------------------------------- the invariant

  predicate HasLock(x: Proc) {
    if x.Daemon? then !x.d.Opened? && !x.d.Ended? else x.r.FirstProbe? || x.r.SecondProbe?
  }

  ghost predicate Distinct(ids: seq<string>) {
    forall i, j :: 0 <= i < j < |ids| ==> ids[i] != ids[j]
  }

  /** `id` was drawn by `p`. */
  predicate Owns(s: State, p: Pid, id: string) {
    id in s.owner && s.owner[id] == p && |id| == ID_LENGTH
  }

  /** `id` is the latest token to have been begun. */
  predicate Latest(s: State, id: string) {
    s.writers != [] && s.writers[|s.writers| - 1] == id
  }

  predicate ReadyOk(s: State, info: Info) {
    info.ready ==> info.id in s.marked
  }

  /** The lock file holds the token of `p`. */
  predicate Signed(s: State, p: Pid, id: string) {
    Owns(s, p, id) && Latest(s, id) && s.lockFile == Some(id)
  }

  /** The state file is there and this instance's. */
  predicate FileIs(s: State, id: string) {
    s.stateFile.Some? && s.stateFile.value.id == id
  }

  predicate DaemonOk(s: State, p: Pid, d: DaemonPc) {
    match d
    case Named(id) => Owns(s, p, id) && id !in s.writers
    case Writing(id, written) => Owns(s, p, id) && Latest(s, id) && written <= |id| && s.lockFile == Some(id[..written])
    case Publishing(info) => Signed(s, p, info.id) && ReadyOk(s, info) && (info.ready ==> FileIs(s, info.id))
    case Running(info) => Signed(s, p, info.id) && ReadyOk(s, info) && FileIs(s, info.id)
    case Dropping(id, removed) => Signed(s, p, id)
    case _ => true
  }

  /** A whole token that was read as the `n`-th one is still there unless a later one was begun. */
  predicate TokenOk(s: State, token: string, n: nat) {
    && n <= |s.writers|
    && (|token| == ID_LENGTH ==> n > 0 && s.writers[n - 1] == token && (|s.writers| == n ==> s.lockFile == Some(token)))
  }

  /** The published information `info` in the history. */
  predicate InfoOk(s: State, info: Info) {
    && info.id in s.owner && |info.id| == ID_LENGTH
    && (s.owner[info.id], info) in s.published && ReadyOk(s, info)
  }

  predicate SampleOk(s: State, x: Sample) {
    && TokenOk(s, x.token, x.tokenSeq) && InfoOk(s, x.info)
    && x.tokenSeq <= x.stateSeq <= |s.writers|
    && (|x.token| == ID_LENGTH && x.stateSeq == x.tokenSeq ==> x.tokenAt == x.token)
    && (x.holderAt == Some(s.owner[x.info.id]) <==> !x.gone)
  }

  /** What a returned sample means. */
  predicate Genuine(s: State, x: Sample) {
    && InfoOk(s, x.info)
    && x.tokenAt == x.info.id
    && 0 < x.stateSeq <= |s.writers| && s.writers[x.stateSeq - 1] == x.info.id
    && (x.holderAt == Some(s.owner[x.info.id]) <==> !x.gone)
  }

  predicate ReaderOk(s: State, r: ReaderPc) {
    match r
    case HasToken(token, n) => TokenOk(s, token, n)
    case HasState(x) => SampleOk(s, x)
    case Matched(x) => SampleOk(s, x) && x.token == x.info.id
    case Reread(x) => Genuine(s, x)
    case Returned(result) => result.Some? ==> Genuine(s, result.value)
    case _ => true
  }

  ghost predicate ProcOk(s: State, p: Pid)
    requires p in s.procs
  {
    && (HasLock(s.procs[p]) <==> s.holder == Some(p))
    && (s.procs[p].Daemon? ==> DaemonOk(s, p, s.procs[p].d))
    && (s.lockFile.Some? || s.procs[p] == Reader(Returned(None)))
    && (s.procs[p].Reader? ==> ReaderOk(s, s.procs[p].r))
  }

  /** The instance behind the state file holds the lock, or gave it up without removing the file. */
  predicate StateFileOk(s: State) {
    s.stateFile.Some? ==>
      && InfoOk(s, s.stateFile.value)
      && var p := s.owner[s.stateFile.value.id];
         p in s.abandoned || (s.holder == Some(p) && p in s.procs && s.procs[p].Daemon? && LeavesState(s.procs[p].d))
  }

  ghost predicate TokensOk(s: State) {
    && Distinct(s.writers)
    && (forall i :: 0 <= i < |s.writers| ==> s.writers[i] in s.owner && |s.writers[i]| == ID_LENGTH)
    && (if s.writers == [] then s.lockFile == None || s.lockFile == Some("")
        else s.lockFile.Some? && s.lockFile.value <= s.writers[|s.writers| - 1])
  }

  ghost predicate OwnersOk(s: State) {
    && (s.holder.Some? ==> s.holder.value in s.procs && HasLock(s.procs[s.holder.value]))
    && (forall p :: p in s.abandoned ==> p in s.procs && s.procs[p] == Daemon(Ended))
    && (forall id :: id in s.owner ==> s.owner[id] in s.procs)
  }

  ghost predicate GlobalOk(s: State) {
    TokensOk(s) && OwnersOk(s) && StateFileOk(s)
  }

  ghost predicate Inv(s: State) {
    GlobalOk(s) && forall p :: p in s.procs ==> ProcOk(s, p)
  }

  // ---------------------------------------------------------------- what steps leave alone

  /** What one process may rely on while another takes a step. */
  ghost predicate Rely(s: State, s': State, q: Pid) {
    && q in s.procs && q in s'.procs && s'.procs[q] == s.procs[q]
    && s.writers <= s'.writers && s.marked <= s'.marked && s.published <= s'.published
    && (forall id :: id in s.owner ==> id in s'.owner && s'.owner[id] == s.owner[id])
    && (s.lockFile.Some? ==> s'.lockFile.Some?)
    && (s.holder == Some(q) <==> s'.holder == Some(q))
    && (s.holder == Some(q) ==>
          s'.lockFile == s.lockFile && s'.writers == s.writers && s'.stateFile == s.stateFile)
    && (s'.writers == s.writers && s.lockFile.Some? && |s.lockFile.value| == ID_LENGTH ==> s'.lockFile == s.lockFile)
  }

  lemma OtherKept(s: State, s': State, q: Pid)
    requires Rely(s, s', q) && ProcOk(s, q)
    ensures ProcOk(s', q)
  {
  }

  lemma StartStepRely(s: State, p: Pid, d: DaemonPc, a: Action, s': State, q: Pid)
    requires GlobalOk(s) && p in s.procs && s.procs[p] == Daemon(d) && ProcOk(s, p) && q in s.procs && q != p
    requires StartStep(s, p, d, a, s')
    ensures Rely(s, s', q)
  {
  }

  lemma LiveStepRely(s: State, p: Pid, d: DaemonPc, a: Action, s': State, q: Pid)
    requires GlobalOk(s) && p in s.procs && s.procs[p] == Daemon(d) && ProcOk(s, p) && q in s.procs && q != p
    requires LiveStep(s, p, d, a, s')
    ensures Rely(s, s', q)
  {
  }

  lemma DaemonStepRely(s: State, p: Pid, a: Action, s': State, q: Pid)
    requires GlobalOk(s) && p in s.procs && s.procs[p].Daemon? && ProcOk(s, p) && q in s.procs && q != p
    requires DaemonStep(s, p, s.procs[p].d, a, s')
    ensures Rely(s, s', q)
  {
    var d := s.procs[p].d;
    if StartStep(s, p, d, a, s') { StartStepRely(s, p, d, a, s', q); } else { LiveStepRely(s, p, d, a, s', q); }
  }

  lemma ReaderStepRely(s: State, p: Pid, a: Action, s': State, q: Pid)
    requires p in s.procs && s.procs[p].Reader? && ProcOk(s, p) && q in s.procs && q != p
    requires ReaderStep(s, p, s.procs[p].r, a, s')
    ensures Rely(s, s', q)
  {
  }

  // ---------------------------------------------------------------- steps keep the invariant

  lemma StartStepTokens(s: State, p: Pid, d: DaemonPc, a: Action, s': State)
    requires TokensOk(s) && p in s.procs && s.procs[p] == Daemon(d) && ProcOk(s, p) && StartStep(s, p, d, a, s')
    ensures TokensOk(s')
  {
  }

  lemma StartStepOk(s: State, p: Pid, d: DaemonPc, a: Action, s': State)
    requires GlobalOk(s) && p in s.procs && s.procs[p] == Daemon(d) && ProcOk(s, p) && StartStep(s, p, d, a, s')
    ensures OwnersOk(s') && StateFileOk(s')
  {
  }

  lemma LiveStepOk(s: State, p: Pid, d: DaemonPc, a: Action, s': State)
    requires GlobalOk(s) && p in s.procs && s.procs[p] == Daemon(d) && ProcOk(s, p) && LiveStep(s, p, d, a, s')
    ensures OwnersOk(s') && StateFileOk(s')
  {
  }

  lemma StartStepOwn(s: State, p: Pid, d: DaemonPc, a: Action, s': State)
    requires TokensOk(s) && OwnersOk(s) && p in s.procs && s.procs[p] == Daemon(d) && ProcOk(s, p)
    requires StartStep(s, p, d, a, s')
    ensures p in s'.procs && ProcOk(s', p)
  {
    if d.Writing? {
      assert d.id[..|d.id|] == d.id;
    }
  }

  lemma LiveStepOwn(s: State, p: Pid, d: DaemonPc, a: Action, s': State)
    requires OwnersOk(s) && p in s.procs && s.procs[p] == Daemon(d) && ProcOk(s, p) && LiveStep(s, p, d, a, s')
    ensures p in s'.procs && ProcOk(s', p)
  {
  }

  lemma DaemonStepOk(s: State, p: Pid, a: Action, s': State)
    requires GlobalOk(s) && p in s.procs && s.procs[p].Daemon? && ProcOk(s, p)
    requires DaemonStep(s, p, s.procs[p].d, a, s')
    ensures GlobalOk(s') && p in s'.procs && ProcOk(s', p)
  {
    var d := s.procs[p].d;
    if StartStep(s, p, d, a, s') {
      StartStepOwn(s, p, d, a, s');
      StartStepTokens(s, p, d, a, s');
      StartStepOk(s, p, d, a, s');
    } else {
      LiveStepOwn(s, p, d, a, s');
      LiveStepOk(s, p, d, a, s');
    }
  }

  /** A reader changes nothing but its own place and, while it probes, the lock. */
  ghost predicate OnlyProbes(s: State, p: Pid, s': State) {
    && p in s'.procs && s'.procs[p].Reader? && (HasLock(s'.procs[p]) <==> s'.holder == Some(p))
    && s' == s.(procs := s.procs[p := s'.procs[p]], holder := s'.holder)
    && (|| s'.holder == s.holder || (s.holder == None && s'.holder == Some(p))
        || (s.holder == Some(p) && s'.holder == None))
  }

  lemma ReaderOnlyProbes(s: State, p: Pid, a: Action, s': State)
    requires p in s.procs && s.procs[p].Reader? && (HasLock(s.procs[p]) <==> s.holder == Some(p))
    requires ReaderStep(s, p, s.procs[p].r, a, s')
    ensures OnlyProbes(s, p, s')
  {
  }

  lemma ProbingOk(s: State, p: Pid, s': State)
    requires GlobalOk(s) && p in s.procs && s.procs[p].Reader? && OnlyProbes(s, p, s')
    ensures GlobalOk(s')
  {
  }

  lemma ReaderStepOk(s: State, p: Pid, a: Action, s': State)
    requires GlobalOk(s) && p in s.procs && s.procs[p].Reader? && ProcOk(s, p)
    requires ReaderStep(s, p, s.procs[p].r, a, s')
    ensures GlobalOk(s')
  {
    ReaderOnlyProbes(s, p, a, s');
    ProbingOk(s, p, s');
  }

  lemma SampledOk(s: State, p: Pid, r: ReaderPc)
    requires GlobalOk(s) && r.HasToken? && TokenOk(s, r.token, r.tokenSeq)
    ensures ReaderOk(Sampled(s, p, r), Sampled(s, p, r).procs[p].r)
  {
  }

  lemma ReaderStepTells(s: State, p: Pid, a: Action, s': State)
    requires GlobalOk(s) && p in s.procs && s.procs[p].Reader? && ReaderOk(s, s.procs[p].r)
    requires ReaderStep(s, p, s.procs[p].r, a, s')
    ensures p in s'.procs && s'.procs[p].Reader? && ReaderOk(s', s'.procs[p].r)
  {
    if a.ReadState? {
      SampledOk(s, p, s.procs[p].r);
    }
  }

  lemma ReaderStepOwn(s: State, p: Pid, a: Action, s': State)
    requires GlobalOk(s) && p in s.procs && s.procs[p].Reader? && ProcOk(s, p)
    requires ReaderStep(s, p, s.procs[p].r, a, s')
    ensures p in s'.procs && ProcOk(s', p)
  {
    ReaderOnlyProbes(s, p, a, s');
    ReaderStepTells(s, p, a, s');
  }

  lemma SpawnRely(s: State, p: Pid, a: Action, s': State, q: Pid)
    requires p !in s.procs && Spawn(s, p, a, s') && q in s.procs && ProcOk(s, q)
    ensures Rely(s, s', q)
  {
  }

  lemma SpawnOwn(s: State, p: Pid, a: Action, s': State)
    requires GlobalOk(s) && p !in s.procs && Spawn(s, p, a, s')
    ensures GlobalOk(s') && s'.procs.Keys == s.procs.Keys + {p} && ProcOk(s', p)
  {
  }

  lemma SpawnOk(s: State, p: Pid, a: Action, s': State)
    requires Inv(s) && p !in s.procs && Spawn(s, p, a, s')
    ensures Inv(s')
  {
    SpawnOwn(s, p, a, s');
    forall q | q in s'.procs ensures ProcOk(s', q) {
      if q != p {
        assert ProcOk(s, q);
        SpawnRely(s, p, a, s', q);
        OtherKept(s, s', q);
      }
    }
  }

  lemma NextRely(s: State, p: Pid, a: Action, s': State, q: Pid)
    requires GlobalOk(s) && p in s.procs && ProcOk(s, p) && Next(s, p, a, s') && q in s.procs && q != p
    ensures Rely(s, s', q)
  {
    if s.procs[p].Daemon? {
      DaemonStepRely(s, p, a, s', q);
    } else {
      ReaderStepRely(s, p, a, s', q);
    }
  }

  lemma NextOwn(s: State, p: Pid, a: Action, s': State)
    requires GlobalOk(s) && p in s.procs && ProcOk(s, p) && Next(s, p, a, s')
    ensures GlobalOk(s') && p in s'.procs && ProcOk(s', p)
  {
    if s.procs[p].Daemon? {
      DaemonStepOk(s, p, a, s');
    } else {
      ReaderStepOk(s, p, a, s');
      ReaderStepOwn(s, p, a, s');
    }
  }

  lemma DaemonOwnPlace(s: State, p: Pid, d: DaemonPc, a: Action, s': State)
    requires DaemonStep(s, p, d, a, s')
    ensures p in s'.procs && s'.procs == s.procs[p := s'.procs[p]]
  {
  }

  lemma ReaderOwnPlace(s: State, p: Pid, r: ReaderPc, a: Action, s': State)
    requires ReaderStep(s, p, r, a, s')
    ensures p in s'.procs && s'.procs == s.procs[p := s'.procs[p]]
  {
  }

  /** A step moves nobody but its own process. */
  lemma OnlyOwnPlace(s: State, p: Pid, a: Action, s': State)
    requires Next(s, p, a, s')
    ensures p in s'.procs && s'.procs == s.procs[p := s'.procs[p]]
  {
    if p in s.procs {
      match s.procs[p]
      case Daemon(d) => DaemonOwnPlace(s, p, d, a, s');
      case Reader(r) => ReaderOwnPlace(s, p, r, a, s');
    }
  }

  lemma NextKeepsInv(s: State, p: Pid, a: Action, s': State)
    requires Inv(s) && Next(s, p, a, s')
    ensures Inv(s')
  {
    if p !in s.procs {
      SpawnOk(s, p, a, s');
    } else {
      NextOwn(s, p, a, s');
      OnlyOwnPlace(s, p, a, s');
      forall q | q in s'.procs ensures ProcOk(s', q) {
        if q != p {
          NextRely(s, p, a, s', q);
          OtherKept(s, s', q);
        }
      }
    }
  }
}
