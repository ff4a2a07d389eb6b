/**
The daemon's runtime files: a lock, a token written into the lock file, and a state file that is
replaced as a whole.  Daemons start, publish, mark themselves ready, drop and crash; readers sample
the three things one after the other, and test the lock by taking it for a moment themselves.
*/
module DaemonModel {
  import opened Wrappers

  type Pid = nat

  /** Sixteen random bytes in hexadecimal. */
  const ID_LENGTH: nat := 32

  /** `details` stands for the process id, version, executable and start time. */
  datatype Info = Info(id: string, ready: bool, details: nat)

  datatype DaemonPc =
    | Opened
    | Locked
    | Named(id: string)
    | Writing(id: string, written: nat)
    | Publishing(info: Info)
    | Running(info: Info)
    | Dropping(id: string, removed: bool)
    | Ended

  /** What a reader has seen.  The fields from `tokenSeq` on are history: how many tokens had been
      begun when the token and the state were read, and, when the state was read, the content of the
      lock file, the holder of the lock, and whether the instance that wrote the state was gone. */
  datatype Sample = Sample(token: string, info: Info,
                           tokenSeq: nat, stateSeq: nat, tokenAt: string, holderAt: Option<Pid>, gone: bool)

  datatype ReaderPc =
    | Arrived
    | FirstProbe
    | FirstLocked
    | HasToken(token: string, tokenSeq: nat)
    | HasState(sample: Sample)
    | Matched(sample: Sample)
    | Reread(sample: Sample)
    | SecondProbe
    | Returned(result: Option<Sample>)

  datatype Proc = Daemon(d: DaemonPc) | Reader(r: ReaderPc)

  /** `owner`, `writers`, `published`, `marked` and `abandoned` are history: who drew an id, the ids in the
      order their tokens were begun, what was published by whom, which instances called `mark_ready`, and
      which gave up the lock without removing the state file. */
  datatype State = State(lockFile: Option<string>, holder: Option<Pid>, stateFile: Option<Info>,
                         procs: map<Pid, Proc>,
                         owner: map<string, Pid>, writers: seq<string>, published: set<(Pid, Info)>,
                         marked: set<string>, abandoned: set<Pid>)

  datatype Action =
    | StartOpen | TryLock | DrawNonce(id: string) | Truncate | Write(n: nat) | Build(details: nat)
    | Publish | MarkReady | PublishFails | RemoveState(ok: bool) | Unlock
    | ReadOpen | Probe | Unprobe | ReadToken | ReadState | Compare | RereadToken | Reprobe
    | Crash

  function Goto(s: State, p: Pid, x: Proc): State {
    s.(procs := s.procs[p := x])
  }

  /** The state file may still be this instance's when it goes away. */
  predicate LeavesState(d: DaemonPc) {
    d.Publishing? || d.Running? || (d.Dropping? && !d.removed)
  }

  function Release(s: State, p: Pid, d: DaemonPc): State {
    Goto(s, p, Daemon(Ended)).(
      holder := if s.holder == Some(p) then None else s.holder,
      abandoned := s.abandoned + if LeavesState(d) then {p} else {})
  }

  /** The steps of `start` up to its publication. */
  ghost predicate StartStep(s: State, p: Pid, d: DaemonPc, a: Action, s': State) {
    || (a.TryLock? && d.Opened?
        && s' == if s.holder.None? then Goto(s, p, Daemon(Locked)).(holder := Some(p)) else Goto(s, p, Daemon(Ended)))
    || (a.DrawNonce? && d.Locked? && |a.id| == ID_LENGTH && a.id !in s.owner
        && s' == Goto(s, p, Daemon(Named(a.id))).(owner := s.owner[a.id := p]))
    || (a.Truncate? && d.Named?
        && s' == Goto(s, p, Daemon(Writing(d.id, 0))).(lockFile := Some(""), writers := s.writers + [d.id]))
    // `write_all` may take several writes.
    || (a.Write? && d.Writing? && d.written < a.n <= |d.id|
        && s' == Goto(s, p, Daemon(Writing(d.id, a.n))).(lockFile := Some(d.id[..a.n])))
    || (a.Build? && d.Writing? && d.written == |d.id|
        && s' == Goto(s, p, Daemon(Publishing(Info(d.id, false, a.details)))))
  }

  ghost predicate LiveStep(s: State, p: Pid, d: DaemonPc, a: Action, s': State) {
    || (a.Publish? && d.Publishing?
        && s' == Goto(s, p, Daemon(Running(d.info))).(
                   stateFile := Some(d.info), published := s.published + {(p, d.info)}))
    || (a.MarkReady? && d.Running?
        && s' == Goto(s, p, Daemon(Publishing(d.info.(ready := true)))).(marked := s.marked + {d.info.id}))
    // Only `mark_ready` survives a failed publication; `start` drops the instance.
    || (a.PublishFails? && d.Publishing? && d.info.ready && s' == Goto(s, p, Daemon(Running(d.info))))
    || (a.RemoveState? && (d.Publishing? || d.Running?)
        && s' == Goto(s, p, Daemon(Dropping(d.info.id, a.ok))).(stateFile := if a.ok then None else s.stateFile))
    || (a.Unlock? && d.Dropping? && s' == Release(s, p, d))
    // A crash, and every error of `start` before the instance exists: the lock file is closed.
    || (a.Crash? && !d.Ended? && s' == Release(s, p, d))
  }

  ghost predicate DaemonStep(s: State, p: Pid, d: DaemonPc, a: Action, s': State) {
    StartStep(s, p, d, a, s') || LiveStep(s, p, d, a, s')
  }

  function Leave(s: State, p: Pid, result: Option<Sample>): State {
    Goto(s, p, Reader(Returned(result))).(holder := if s.holder == Some(p) then None else s.holder)
  }

  /** The state file is absent, or its content is kept with what else was true at that moment. */
  function Sampled(s: State, p: Pid, r: ReaderPc): State
    requires r.HasToken?
  {
    if s.stateFile.None? || s.lockFile.None? || s.stateFile.value.id !in s.owner then Leave(s, p, None) else
      var info := s.stateFile.value;
      Goto(s, p, Reader(HasState(Sample(r.token, info, r.tokenSeq, |s.writers|, s.lockFile.value, s.holder,
                                        s.owner[info.id] in s.abandoned))))
  }

  ghost predicate ReaderStep(s: State, p: Pid, r: ReaderPc, a: Action, s': State) {
    || (a.Probe? && r.Arrived?
        && s' == if s.holder.None? then Goto(s, p, Reader(FirstProbe)).(holder := Some(p))
                 else Goto(s, p, Reader(FirstLocked)))
    || (a.Unprobe? && (r.FirstProbe? || r.SecondProbe?) && s' == Leave(s, p, None))
    || (a.ReadToken? && r.FirstLocked? && s.lockFile.Some?
        && s' == Goto(s, p, Reader(HasToken(s.lockFile.value, |s.writers|))))
    || (a.ReadState? && r.HasToken? && s' == Sampled(s, p, r))
    || (a.Compare? && r.HasState?
        && s' == if r.sample.token == "" || r.sample.info.id != r.sample.token then Leave(s, p, None)
                 else Goto(s, p, Reader(Matched(r.sample))))
    || (a.RereadToken? && r.Matched?
        && s' == if s.lockFile != Some(r.sample.token) then Leave(s, p, None)
                 else Goto(s, p, Reader(Reread(r.sample))))
    || (a.Reprobe? && r.Reread?
        && s' == if s.holder.None? then Goto(s, p, Reader(SecondProbe)).(holder := Some(p))
                 else Leave(s, p, Some(r.sample)))
    || (a.Crash? && !r.Returned? && s' == Leave(s, p, None))
  }

  /** `start` creates the lock file if need be; `read` returns nothing where there is none. */
  ghost predicate Spawn(s: State, p: Pid, a: Action, s': State) {
    || (a.StartOpen?
        && s' == Goto(s, p, Daemon(Opened)).(lockFile := if s.lockFile.None? then Some("") else s.lockFile))
    || (a.ReadOpen?
        && s' == Goto(s, p, Reader(if s.lockFile.None? then Returned(None) else Arrived)))
  }

  ghost predicate Next(s: State, p: Pid, a: Action, s': State) {
    if p !in s.procs then Spawn(s, p, a, s')
    else match s.procs[p]
      case Daemon(d) => DaemonStep(s, p, d, a, s')
      case Reader(r) => ReaderStep(s, p, r, a, s')
  }

  // ---------------------------------------------------------------- runs

  const INITIAL := State(None, None, None, map[], map[], [], {}, {}, {})

  datatype Event = Event(p: Pid, a: Action)

  ghost predicate RunStep(run: seq<State>, events: seq<Event>, i: nat)
    requires i < |run| == |events| + 1
  {
    if i == 0 then run[0] == INITIAL else Next(run[i - 1], events[i - 1].p, events[i - 1].a, run[i])
  }

  ghost predicate IsRun(run: seq<State>, events: seq<Event>) {
    |run| == |events| + 1 && forall i: nat :: i < |run| ==> RunStep(run, events, i)
  }

  /** Instances end only through `Drop`, and `Drop` does remove the state file; starts may still fail. */
  ghost predicate EndsByDrop(run: seq<State>, events: seq<Event>)
    requires IsRun(run, events)
  {
    forall i: nat :: i < |events| ==> DropsOnly(run[i], events[i])
  }

  ghost predicate DropsOnly(s: State, e: Event) {
    && (e.a.RemoveState? ==> e.a.ok)
    && (e.a.Crash? && e.p in s.procs && s.procs[e.p].Daemon? ==> !LeavesState(s.procs[e.p].d))
  }
}
