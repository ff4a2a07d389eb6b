/**
What a reader left alone returns, and where `read` stops short of its description: after a crash the lock that a reader finds taken need not
be the lock of the instance it reports.  That can happen after every step that satisfies
`DaemonTheorems.Strands`, and by `DaemonTheorems.LiveUnlessStranded` only after such a step.
*/
module DaemonRace {
  import opened Wrappers
  import opened DaemonModel
  import opened DaemonSafety
  import opened DaemonTheorems

  ghost predicate EndsIn(run: seq<State>, events: seq<Event>, s: State) {
    IsRun(run, events) && run[|run| - 1] == s
  }

  lemma Extend(run: seq<State>, events: seq<Event>, s: State, p: Pid, a: Action, s': State)
    returns (run': seq<State>, events': seq<Event>)
    requires EndsIn(run, events, s) && Next(s, p, a, s')
    ensures EndsIn(run', events', s') && run <= run' && events' == events + [Event(p, a)]
  {
    run', events' := run + [s'], events + [Event(p, a)];
    forall i: nat | i < |run'| ensures RunStep(run', events', i) {
      if i < |run| {
        assert RunStep(run, events, i);
      }
    }
  }

  // ---------------------------------------------------------------- a reader by itself

  /** Token and state file are those of one instance. */
  predicate Agree(s: State) {
    s.stateFile.Some? && s.lockFile == Some(s.stateFile.value.id) && s.stateFile.value.id in s.owner
  }

  /** From `events` on it is all steps of `q`. */
  ghost predicate OnlyBy(q: Pid, events: seq<Event>, events': seq<Event>) {
    events <= events' && forall k :: |events| <= k < |events'| ==> events'[k].p == q
  }

  lemma ReaderMoves(run: seq<State>, events: seq<Event>, s: State, q: Pid, r: ReaderPc, a: Action, r': ReaderPc)
    returns (run': seq<State>, events': seq<Event>)
    requires EndsIn(run, events, Goto(s, q, Reader(r)))
    requires ReaderStep(Goto(s, q, Reader(r)), q, r, a, Goto(Goto(s, q, Reader(r)), q, Reader(r')))
    ensures EndsIn(run', events', Goto(s, q, Reader(r'))) && run <= run' && OnlyBy(q, events, events')
  {
    run', events' := Extend(run, events, Goto(s, q, Reader(r)), q, a, Goto(Goto(s, q, Reader(r)), q, Reader(r')));
    assert s.procs[q := Reader(r)][q := Reader(r')] == s.procs[q := Reader(r')];
  }

  /** What a reader that comes in state `s` reads. */
  function Seen(s: State): Sample
    requires Agree(s)
  {
    var info := s.stateFile.value;
    Sample(info.id, info, |s.writers|, |s.writers|, info.id, s.holder, s.owner[info.id] in s.abandoned)
  }

  lemma ReaderLooks(run: seq<State>, events: seq<Event>, s: State, q: Pid)
    returns (run': seq<State>, events': seq<Event>)
    requires EndsIn(run, events, s) && Agree(s) && s.holder.Some? && q !in s.procs
    ensures EndsIn(run', events', Goto(s, q, Reader(HasState(Seen(s))))) && run <= run' && OnlyBy(q, events, events')
  {
    var id, n := s.stateFile.value.id, |s.writers|;
    run', events' := Extend(run, events, s, q, ReadOpen, Goto(s, q, Reader(Arrived)));
    run', events' := ReaderMoves(run', events', s, q, Arrived, Probe, FirstLocked);
    run', events' := ReaderMoves(run', events', s, q, FirstLocked, ReadToken, HasToken(id, n));
    run', events' := ReaderMoves(run', events', s, q, HasToken(id, n), ReadState, HasState(Seen(s)));
  }

  lemma ReaderReports(run: seq<State>, events: seq<Event>, s: State, q: Pid)
    returns (run': seq<State>, events': seq<Event>)
    requires EndsIn(run, events, s) && Agree(s) && s.holder.Some? && q !in s.procs
    requires s.holder != Some(q) && s.stateFile.value.id != ""
    ensures EndsIn(run', events', Goto(s, q, Reader(Returned(Some(Seen(s)))))) && run <= run'
    ensures OnlyBy(q, events, events')
  {
    var x := Seen(s);
    run', events' := ReaderLooks(run, events, s, q);
    run', events' := ReaderMoves(run', events', s, q, HasState(x), Compare, Matched(x));
    run', events' := ReaderMoves(run', events', s, q, Matched(x), RereadToken, Reread(x));
    run', events' := ReaderMoves(run', events', s, q, Reread(x), Reprobe, Returned(Some(x)));
  }

  /** From every reachable state in which an instance is running, a reader that comes and is left alone returns what
      that instance has published. */
  lemma RunningInstanceIsReported(run: seq<State>, events: seq<Event>, p: Pid, q: Pid)
    returns (run': seq<State>, events': seq<Event>)
    requires IsRun(run, events) && p in run[|run| - 1].procs && q !in run[|run| - 1].procs
    requires run[|run| - 1].procs[p].Daemon? && run[|run| - 1].procs[p].d.Running?
    ensures IsRun(run', events') && run <= run' && OnlyBy(q, events, events')
    ensures var s, s' := run[|run| - 1], run'[|run'| - 1];
      && q in s'.procs && s'.procs[q].Reader? && s'.procs[q].r.Returned? && s'.procs[q].r.result.Some?
      && Some(s'.procs[q].r.result.value.info) == s.stateFile
      && s'.procs[q].r.result.value.info.id == s.procs[p].d.info.id
  {
    var s := run[|run| - 1];
    RunInv(run, events, |run| - 1);
    assert ProcOk(s, p);
    run', events' := ReaderReports(run, events, s, q);
  }

  // ---------------------------------------------------------------- from any stranded state

  /** A successor takes the lock and has not replaced the token yet. */
  lemma SuccessorLocks(run: seq<State>, events: seq<Event>, s: State, p: Pid)
    returns (run': seq<State>, events': seq<Event>, s': State)
    requires EndsIn(run, events, s) && Stranded(s) && s.holder.None? && p !in s.procs
    requires s.owner[s.stateFile.value.id] in s.procs
    ensures EndsIn(run', events', s') && run <= run' && Stranded(s') && s'.holder == Some(p)
    ensures s'.procs.Keys == s.procs.Keys + {p} && s'.stateFile == s.stateFile && s'.owner == s.owner
  {
    var s1 := Goto(s, p, Daemon(Opened));
    run', events' := Extend(run, events, s, p, StartOpen, s1);
    s' := Goto(s1, p, Daemon(Locked)).(holder := Some(p));
    run', events' := Extend(run', events', s1, p, TryLock, s');
  }

  /** The information in the state file is returned to `q` while somebody else than its instance has the lock,
      both when it was read and at the end. */
  ghost predicate Misreports(s: State, q: Pid, info: Info) {
    && q in s.procs && s.procs[q].Reader? && s.procs[q].r.Returned? && s.procs[q].r.result.Some?
    && var x := s.procs[q].r.result.value;
    && x.info == info && info.id in s.owner
    && x.holderAt.Some? && x.holderAt != Some(s.owner[info.id])
    && s.holder.Some? && s.holder != Some(s.owner[info.id])
  }

  /** From every reachable state in which the files speak of an instance without the lock, and for any two
      processes to come, the run goes on to one in which a reader returns that information. */
  lemma StrandedStateIsReported(run: seq<State>, events: seq<Event>, p: Pid, q: Pid)
    returns (run': seq<State>, events': seq<Event>)
    requires IsRun(run, events) && Stranded(run[|run| - 1]) && p != q
    requires p !in run[|run| - 1].procs && q !in run[|run| - 1].procs
    ensures IsRun(run', events') && run <= run'
    ensures Misreports(run'[|run'| - 1], q, run[|run| - 1].stateFile.value)
  {
    var s := run[|run| - 1];
    RunInv(run, events, |run| - 1);
    assert |s.stateFile.value.id| == ID_LENGTH;
    run', events' := run, events;
    if s.holder.None? {
      run', events', s := SuccessorLocks(run, events, s, p);
    }
    run', events' := ReaderReports(run', events', s, q);
  }

  /** Both ways in which a running instance leaves its state file behind do strand it: a crash, and a `Drop` that fails
      to remove the file. */
  lemma LeavingStrands(run: seq<State>, events: seq<Event>, p: Pid, crash: bool)
    returns (run': seq<State>, events': seq<Event>)
    requires IsRun(run, events) && p in run[|run| - 1].procs
    requires run[|run| - 1].procs[p].Daemon? && run[|run| - 1].procs[p].d.Running?
    ensures IsRun(run', events') && run <= run' && OnlyBy(p, events, events')
    ensures var s, s' := run[|run| - 1], run'[|run'| - 1];
      Stranded(s') && s'.holder.None? && s'.stateFile == s.stateFile
  {
    var s := run[|run| - 1];
    var d := s.procs[p].d;
    RunInv(run, events, |run| - 1);
    assert ProcOk(s, p);
    if crash {
      run', events' := Extend(run, events, s, p, Crash, Release(s, p, d));
    } else {
      var s1 := Goto(s, p, Daemon(Dropping(d.info.id, false)));
      run', events' := Extend(run, events, s, p, RemoveState(false), s1);
      run', events' := Extend(run', events', s1, p, Unlock, Release(s1, p, s1.procs[p].d));
    }
  }

  lemma Prefix(run: seq<State>, events: seq<Event>, n: nat)
    requires IsRun(run, events) && n < |run|
    ensures IsRun(run[..n + 1], events[..n])
  {
    var head, done := run[..n + 1], events[..n];
    forall i: nat | i < |head| ensures RunStep(head, done, i) {
      assert RunStep(run, events, i);
    }
  }

  /** Each step in which an instance gives up the lock with its state file still there can be followed by a
      reader that returns its information, so `LiveUnlessStranded` asks for no more than it has to. */
  lemma EveryStrandingCanBeReported(run: seq<State>, events: seq<Event>, i: nat, p: Pid, q: Pid)
    returns (run': seq<State>, events': seq<Event>)
    requires IsRun(run, events) && i < |events| && Strands(run[i], events[i]) && p != q
    requires p !in run[i + 1].procs && q !in run[i + 1].procs
    ensures IsRun(run', events') && run[..i + 2] <= run' && run[i].stateFile.Some?
    ensures Misreports(run'[|run'| - 1], q, run[i].stateFile.value)
  {
    RunInv(run, events, i);
    assert RunStep(run, events, i + 1);
    assert ProcOk(run[i], events[i].p);
    StrandsIff(run[i], events[i].p, events[i].a, run[i + 1]);
    assert run[i + 1].stateFile == run[i].stateFile;
    Prefix(run, events, i + 1);
    run', events' := StrandedStateIsReported(run[..i + 2], events[..i + 1], p, q);
  }

  // ---------------------------------------------------------------- a concrete run

  const ID := "0123456789abcdef0123456789abcdef"
  const INFO := Info(ID, false, 0)

  /** The first daemon at `d`, holding the lock. */
  ghost function Starting(d: DaemonPc, token: string, writers: seq<string>): State {
    State(Some(token), Some(1), None, map[1 := Daemon(d)], map[ID := 1], writers, {}, {}, {})
  }

  /** The first daemon has crashed and a second one is at `d`. */
  ghost function After(holder: Option<Pid>, procs: map<Pid, Proc>): State {
    State(Some(ID), holder, Some(INFO), map[1 := Daemon(Ended)] + procs, map[ID := 1], [ID], {(1, INFO)}, {}, {1})
  }

  lemma Crashed() returns (run: seq<State>, events: seq<Event>)
    ensures EndsIn(run, events, After(None, map[]))
  {
    run, events := [INITIAL], [];
    assert EndsIn(run, events, INITIAL);
    var s1 := INITIAL.(lockFile := Some(""), procs := map[1 := Daemon(Opened)]);
    run, events := Extend(run, events, INITIAL, 1, StartOpen, s1);
    var s2 := s1.(procs := map[1 := Daemon(Locked)], holder := Some(1));
    run, events := Extend(run, events, s1, 1, TryLock, s2);
    var s3 := Starting(Named(ID), "", []);
    assert s3.procs == s2.procs[1 := Daemon(Named(ID))];
    run, events := Extend(run, events, s2, 1, DrawNonce(ID), s3);
    run, events := StartedUp(run, events);
  }

  lemma StartedUp(run: seq<State>, events: seq<Event>) returns (run': seq<State>, events': seq<Event>)
    requires EndsIn(run, events, Starting(Named(ID), "", []))
    ensures EndsIn(run', events', After(None, map[]))
  {
    var s3 := Starting(Named(ID), "", []);
    var s4 := Starting(Writing(ID, 0), "", [ID]);
    assert s4.procs == s3.procs[1 := Daemon(Writing(ID, 0))] && [] + [ID] == s4.writers;
    run', events' := Extend(run, events, s3, 1, Truncate, s4);
    var s5 := Starting(Writing(ID, 32), ID, [ID]);
    assert s5.procs == s4.procs[1 := Daemon(Writing(ID, 32))] && ID[..32] == ID;
    run', events' := Extend(run', events', s4, 1, Write(32), s5);
    run', events' := PublishedOnce(run', events');
  }

  lemma PublishedOnce(run: seq<State>, events: seq<Event>) returns (run': seq<State>, events': seq<Event>)
    requires EndsIn(run, events, Starting(Writing(ID, 32), ID, [ID]))
    ensures EndsIn(run', events', After(None, map[]))
  {
    var s5 := Starting(Writing(ID, 32), ID, [ID]);
    var s6 := Starting(Publishing(INFO), ID, [ID]);
    assert s6.procs == s5.procs[1 := Daemon(Publishing(INFO))];
    run', events' := Extend(run, events, s5, 1, Build(0), s6);
    var s7 := s6.(procs := map[1 := Daemon(Running(INFO))], stateFile := Some(INFO), published := {(1, INFO)});
    assert s7.procs == s6.procs[1 := Daemon(Running(INFO))] && s7.published == s6.published + {(1, INFO)};
    run', events' := Extend(run', events', s6, 1, Publish, s7);
    var s8 := After(None, map[]);
    assert s8.procs == s7.procs[1 := Daemon(Ended)] && s8.abandoned == s7.abandoned + {1};
    run', events' := Extend(run', events', s7, 1, Crash, s8);
  }

  /** A daemon crashes, and its successor has the lock but has not yet replaced the token: a reader that
      comes now returns the crashed daemon's information, with nobody of that identity running. */
  lemma CrashedInstanceIsReported() returns (run: seq<State>, events: seq<Event>)
    ensures IsRun(run, events) && Misreports(run[|run| - 1], 3, INFO)
  {
    run, events := Crashed();
    run, events := StrandedStateIsReported(run, events, 2, 3);
  }
}
