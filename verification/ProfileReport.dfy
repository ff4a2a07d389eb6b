/**
The whole report: events are grouped by thread, every thread is swept, and the frames are added up
into per-phase counters and folded stacks.
*/
module ProfileReport {
  import opened Wrappers
  import opened Sorting
  import opened Sums
  import opened Profiler
  import opened StackKeys

  datatype Event = Event(ph: string, tid: int, span: Span)

  /** `schemaVersion` is `None` where the document carries no such key. */
  datatype Document = Document(schemaVersion: Option<int>, events: seq<Event>)

  datatype Phase = Phase(calls: int, inclusiveUs: int, selfUs: int)

  type Phases = map<(int, string), Phase>

  datatype Error = UnsupportedSchema | Overlap(tid: int) | NegativeExclusive

  datatype Summary = Summary(phases: Phases, folded: map<string, int>)

  // ---------------------------------------------------------------- grouping

  predicate Counts(e: Event, tid: int) {
    e.ph == "X" && e.tid == tid
  }

  /** The complete spans of one thread, in document order. */
  function Selected(events: seq<Event>, tid: int): seq<Span> {
    if events == [] then [] else
      var last := events[|events| - 1];
      Selected(events[..|events| - 1], tid) + (if Counts(last, tid) then [last.span] else [])
  }

  /** The threads with a complete span, in order of first appearance. */
  function Tids(events: seq<Event>): (r: seq<int>)
    ensures forall i, j :: 0 <= i < j < |r| ==> r[i] != r[j]
  {
    if events == [] then [] else
      var last, before := events[|events| - 1], Tids(events[..|events| - 1]);
      if last.ph != "X" || last.tid in before then before else before + [last.tid]
  }

  /** The thread's list, if it has one, holds its spans. */
  ghost predicate Listed(events: seq<Event>, order: seq<int>, threads: map<int, seq<Span>>, tid: int) {
    && (tid in order <==> tid in threads)
    && Selected(events, tid) == if tid in threads then threads[tid] else []
  }

  /** So it is for each, in the order of the threads' first spans. */
  ghost predicate Grouped(events: seq<Event>, order: seq<int>, threads: map<int, seq<Span>>) {
    order == Tids(events) && forall tid :: Listed(events, order, threads, tid)
  }

  lemma {:induction false} SelectedNext(events: seq<Event>, e: Event, tid: int)
    ensures Selected(events + [e], tid) == Selected(events, tid) + if Counts(e, tid) then [e.span] else []
  {
    assert (events + [e])[..|events|] == events;
  }

  lemma {:induction false} TidsNext(events: seq<Event>, e: Event)
    ensures Tids(events + [e]) ==
      if e.ph != "X" || e.tid in Tids(events) then Tids(events) else Tids(events) + [e.tid]
  {
    assert (events + [e])[..|events|] == events;
  }

  lemma NotGrouped(events: seq<Event>, order: seq<int>, threads: map<int, seq<Span>>, e: Event)
    requires Grouped(events, order, threads) && e.ph != "X"
    ensures Grouped(events + [e], order, threads)
  {
    TidsNext(events, e);
    forall tid ensures Listed(events + [e], order, threads, tid) {
      SelectedNext(events, e, tid);
      assert Listed(events, order, threads, tid) && Selected(events, tid) + [] == Selected(events, tid);
    }
  }

  lemma GroupedIn(events: seq<Event>, order: seq<int>, threads: map<int, seq<Span>>, e: Event)
    requires Grouped(events, order, threads) && e.ph == "X"
    ensures var list := if e.tid in threads then threads[e.tid] else [];
      Grouped(events + [e], if e.tid in threads then order else order + [e.tid], threads[e.tid := list + [e.span]])
  {
    TidsNext(events, e);
    assert Listed(events, order, threads, e.tid);
    var order' := if e.tid in threads then order else order + [e.tid];
    var threads' := threads[e.tid := (if e.tid in threads then threads[e.tid] else []) + [e.span]];
    forall tid ensures Listed(events + [e], order', threads', tid) {
      SelectedNext(events, e, tid);
      assert Listed(events, order, threads, tid) && Selected(events, tid) + [] == Selected(events, tid);
    }
  }

  lemma GroupedMeans(events: seq<Event>, order: seq<int>, threads: map<int, seq<Span>>)
    requires Grouped(events, order, threads)
    ensures forall tid :: tid in order <==> tid in threads
    ensures forall tid :: tid in threads ==> threads[tid] == Selected(events, tid)
    ensures forall tid :: tid !in threads ==> Selected(events, tid) == []
  {
    forall tid
      ensures tid in order <==> tid in threads
      ensures Selected(events, tid) == if tid in threads then threads[tid] else []
    {
      assert Listed(events, order, threads, tid);
    }
  }

  lemma GroupedNext(events: seq<Event>, order: seq<int>, threads: map<int, seq<Span>>, e: Event)
    requires Grouped(events, order, threads)
    ensures e.ph != "X" ==> Grouped(events + [e], order, threads)
    ensures e.ph == "X" ==>
      var list := if e.tid in threads then threads[e.tid] else [];
      Grouped(events + [e], if e.tid in threads then order else order + [e.tid], threads[e.tid := list + [e.span]])
  {
    if e.ph == "X" {
      GroupedIn(events, order, threads, e);
    } else {
      NotGrouped(events, order, threads, e);
    }
  }

  /** Appends to the list of a thread, which begins empty. */
  method Append(order: seq<int>, threads: map<int, seq<Span>>, tid: int, span: Span)
    returns (order': seq<int>, threads': map<int, seq<Span>>)
    ensures order' == if tid in threads then order else order + [tid]
    ensures threads' == threads[tid := (if tid in threads then threads[tid] else []) + [span]]
  {
    order', threads' := order, threads;
    if tid !in threads {
      order' := order' + [tid];
      threads' := threads'[tid := []];
    }
    threads' := threads'[tid := threads'[tid] + [span]];
  }

  /** The defaultdict of lists, kept with its insertion order. */
  method Group(events: seq<Event>) returns (order: seq<int>, threads: map<int, seq<Span>>)
    ensures order == Tids(events)
    ensures forall tid :: tid in order <==> tid in threads
    ensures forall tid :: tid in threads ==> threads[tid] == Selected(events, tid)
    ensures forall tid :: tid !in threads ==> Selected(events, tid) == []
  {
    order, threads := [], map[];
    var k := 0;
    while k < |events|
      invariant 0 <= k <= |events| && Grouped(events[..k], order, threads)
    {
      var e := events[k];
      GroupedNext(events[..k], order, threads, e);
      assert events[..k + 1] == events[..k] + [e];
      if e.ph == "X" {
        order, threads := Append(order, threads, e.tid, e.span);
      }
      k := k + 1;
    }
    assert events[..k] == events;
    GroupedMeans(events, order, threads);
  }

  // ---------------------------------------------------------------- weights

  function Named(name: string): Span -> int { (a: Span) => if a.name == name then 1 else 0 }

  function DurationOf(name: string): Span -> int { (a: Span) => if a.name == name then a.dur else 0 }

  function SelfNamed(name: string): Frame -> int { (f: Frame) => if f.name == name then f.selfUs else 0 }

  function SelfAt(tid: int, key: string): Frame -> int {
    (f: Frame) => if StackKey(tid, f.path) == key then f.selfUs else 0
  }

  // ---------------------------------------------------------------- phases

  function PhaseAt(phases: Phases, key: (int, string)): Phase {
    if key in phases then phases[key] else Phase(0, 0, 0)
  }

  ghost predicate HasName(s: seq<Span>, name: string) {
    exists i :: 0 <= i < |s| && s[i].name == name
  }

  function AddCall(phases: Phases, tid: int, a: Span): Phases {
    var p := PhaseAt(phases, (tid, a.name));
    phases[(tid, a.name) := Phase(p.calls + 1, p.inclusiveUs + a.dur, p.selfUs)]
  }

  function AddSelf(phases: Phases, tid: int, f: Frame): Phases {
    var p := PhaseAt(phases, (tid, f.name));
    phases[(tid, f.name) := Phase(p.calls, p.inclusiveUs, p.selfUs + f.selfUs)]
  }

  function AddCalls(before: Phases, tid: int, s: seq<Span>): Phases {
    if s == [] then before else AddCall(AddCalls(before, tid, s[..|s| - 1]), tid, s[|s| - 1])
  }

  function AddSelfs(before: Phases, tid: int, frames: seq<Frame>): Phases {
    if frames == [] then before
    else AddSelf(AddSelfs(before, tid, frames[..|frames| - 1]), tid, frames[|frames| - 1])
  }

  lemma {:induction false} CallsAdded(before: Phases, tid: int, s: seq<Span>, key: (int, string))
    ensures var p, q := PhaseAt(before, key), PhaseAt(AddCalls(before, tid, s), key);
      q == if key.0 != tid then p
           else Phase(p.calls + Sum(s, Named(key.1)), p.inclusiveUs + Sum(s, DurationOf(key.1)), p.selfUs)
    ensures key in AddCalls(before, tid, s) <==> key in before || (key.0 == tid && HasName(s, key.1))
  {
    if s == [] {
    } else {
      var k := |s| - 1;
      CallsAdded(before, tid, s[..k], key);
      SumSnoc(s, k, Named(key.1));
      SumSnoc(s, k, DurationOf(key.1));
      assert s[..k + 1] == s;
      assert HasName(s, key.1) <==> HasName(s[..k], key.1) || s[k].name == key.1 by {
        assert forall i :: 0 <= i < k ==> s[i] == s[..k][i];
      }
    }
  }

  lemma {:induction false} SelfsAdded(before: Phases, tid: int, frames: seq<Frame>, key: (int, string))
    requires forall i :: 0 <= i < |frames| ==> (tid, frames[i].name) in before
    ensures var p, q := PhaseAt(before, key), PhaseAt(AddSelfs(before, tid, frames), key);
      q == if key.0 != tid then p else p.(selfUs := p.selfUs + Sum(frames, SelfNamed(key.1)))
    ensures key in AddSelfs(before, tid, frames) <==> key in before
  {
    if frames == [] {
    } else {
      var k := |frames| - 1;
      SelfsAdded(before, tid, frames[..k], key);
      SumSnoc(frames, k, SelfNamed(key.1));
      assert frames[..k + 1] == frames;
    }
  }

  /** What the counters of one thread come to. */
  ghost function PhaseOf(s: seq<Span>, name: string): Phase {
    Phase(Sum(s, Named(name)), Sum(s, DurationOf(name)), Sum(TrueFrames(s), SelfNamed(name)))
  }

  lemma {:induction false} ThreadAdded(before: Phases, tid: int, s: seq<Span>, key: (int, string))
    requires forall name: string :: (tid, name) !in before
    ensures var after := AddSelfs(AddCalls(before, tid, s), tid, TrueFrames(s));
      && PhaseAt(after, key) == (if key.0 != tid then PhaseAt(before, key) else PhaseOf(s, key.1))
      && (key in after <==> key in before || (key.0 == tid && HasName(s, key.1)))
  {
    var called := AddCalls(before, tid, s);
    CallsAdded(before, tid, s, key);
    forall i | 0 <= i < |s| ensures (tid, TrueFrames(s)[i].name) in called {
      CallsAdded(before, tid, s, (tid, s[i].name));
    }
    SelfsAdded(called, tid, TrueFrames(s), key);
    assert key == (key.0, key.1);
  }

  // ---------------------------------------------------------------- folded stacks

  function AddStack(folded: map<string, int>, tid: int, f: Frame): map<string, int> {
    if f.selfUs == 0 then folded
    else folded[StackKey(tid, f.path) := At(folded, StackKey(tid, f.path)) + f.selfUs]
  }

  function AddStacks(before: map<string, int>, tid: int, frames: seq<Frame>): map<string, int> {
    if frames == [] then before
    else AddStack(AddStacks(before, tid, frames[..|frames| - 1]), tid, frames[|frames| - 1])
  }

  ghost predicate AllPositive(folded: map<string, int>) {
    forall key :: key in folded ==> folded[key] > 0
  }

  ghost predicate NoNegative(frames: seq<Frame>) {
    forall i :: 0 <= i < |frames| ==> frames[i].selfUs >= 0
  }

  /** One frame adds its exclusive time to its own key, and to the total. */
  lemma StackAdded(older: map<string, int>, tid: int, f: Frame)
    requires AllPositive(older) && f.selfUs >= 0
    ensures var after := AddStack(older, tid, f);
      && AllPositive(after) && Total(after) == Total(older) + f.selfUs
      && forall key :: At(after, key) == At(older, key) + SelfAt(tid, key)(f)
  {
    TotalUpdate(older, StackKey(tid, f.path), At(older, StackKey(tid, f.path)) + f.selfUs);
  }

  lemma {:induction false} SumsSnoc(tid: int, frames: seq<Frame>, k: nat)
    requires k + 1 == |frames|
    ensures Sum(frames, SelfOf()) == Sum(frames[..k], SelfOf()) + frames[k].selfUs
    ensures forall key: string ::
      Sum(frames, SelfAt(tid, key)) == Sum(frames[..k], SelfAt(tid, key)) + SelfAt(tid, key)(frames[k])
  {
    assert frames[..k + 1] == frames;
    SumSnoc(frames, k, SelfOf());
    forall key: string ensures
      Sum(frames, SelfAt(tid, key)) == Sum(frames[..k], SelfAt(tid, key)) + SelfAt(tid, key)(frames[k])
    {
      SumSnoc(frames, k, SelfAt(tid, key));
    }
  }

  lemma {:induction false} StacksAdded(before: map<string, int>, tid: int, frames: seq<Frame>)
    requires AllPositive(before) && NoNegative(frames)
    ensures var after := AddStacks(before, tid, frames);
      && AllPositive(after)
      && Total(after) == Total(before) + Sum(frames, SelfOf())
      && forall key :: At(after, key) == At(before, key) + Sum(frames, SelfAt(tid, key))
  {
    if frames == [] {
    } else {
      var k := |frames| - 1;
      StacksAdded(before, tid, frames[..k]);
      StackAdded(AddStacks(before, tid, frames[..k]), tid, frames[k]);
      SumsSnoc(tid, frames, k);
    }
  }

  /** Adds one thread's frames; `None` is the negative-exclusive error. */
  method AddThread(tid: int, frames: seq<Frame>, phases: Phases, folded: map<string, int>)
    returns (r: Option<Summary>)
    ensures r.None? <==> !NoNegative(frames)
    ensures r.Some? ==> r.value == Summary(AddSelfs(phases, tid, frames), AddStacks(folded, tid, frames))
  {
    var p, c := phases, folded;
    var k := 0;
    while k < |frames|
      invariant 0 <= k <= |frames| && NoNegative(frames[..k])
      invariant p == AddSelfs(phases, tid, frames[..k]) && c == AddStacks(folded, tid, frames[..k])
    {
      if frames[k].selfUs < 0 {
        return None;
      }
      assert frames[..k + 1][..k] == frames[..k];
      p := AddSelf(p, tid, frames[k]);
      c := AddStack(c, tid, frames[k]);
      k := k + 1;
    }
    assert frames[..k] == frames;
    return Some(Summary(p, c));
  }

  method CountCalls(tid: int, s: seq<Span>, before: Phases) returns (phases: Phases)
    ensures phases == AddCalls(before, tid, s)
  {
    phases := before;
    var k := 0;
    while k < |s|
      invariant 0 <= k <= |s| && phases == AddCalls(before, tid, s[..k])
    {
      assert s[..k + 1][..k] == s[..k];
      phases := AddCall(phases, tid, s[k]);
      k := k + 1;
    }
    assert s[..k] == s;
  }

  // ---------------------------------------------------------------- the report

  function Sorted(events: seq<Event>, tid: int): seq<Span> {
    Sort(Selected(events, tid), Before)
  }

  /** Counters of a phase in document terms; only the exclusive time needs the sorted spans. */
  ghost function PhaseFor(events: seq<Event>, tid: int, name: string): Phase {
    Phase(Sum(Selected(events, tid), Named(name)), Sum(Selected(events, tid), DurationOf(name)),
          Sum(TrueFrames(Sorted(events, tid)), SelfNamed(name)))
  }

  ghost predicate RightPhases(events: seq<Event>, tids: seq<int>, phases: Phases) {
    forall key: (int, string) ::
      && PhaseAt(phases, key) == (if key.0 in tids then PhaseFor(events, key.0, key.1) else Phase(0, 0, 0))
      && (key in phases <==> key.0 in tids && HasName(Selected(events, key.0), key.1))
  }

  ghost function KeySum(events: seq<Event>, tids: seq<int>, key: string): int {
    if tids == [] then 0 else
      var tid := tids[|tids| - 1];
      KeySum(events, tids[..|tids| - 1], key) + Sum(TrueFrames(Sorted(events, tid)), SelfAt(tid, key))
  }

  /** Covered time of all the threads together. */
  ghost function CoveredSum(events: seq<Event>, tids: seq<int>): int {
    if tids == [] then 0 else
      CoveredSum(events, tids[..|tids| - 1]) + |Covered(Selected(events, tids[|tids| - 1]))|
  }

  ghost predicate RightFolded(events: seq<Event>, tids: seq<int>, folded: map<string, int>) {
    && AllPositive(folded)
    && Total(folded) == CoveredSum(events, tids)
    && forall key :: At(folded, key) == KeySum(events, tids, key)
  }

  lemma {:induction false} PhaseSurvivesSorting(spans: seq<Span>, name: string)
    ensures Sum(Sort(spans, Before), Named(name)) == Sum(spans, Named(name))
    ensures Sum(Sort(spans, Before), DurationOf(name)) == Sum(spans, DurationOf(name))
    ensures HasName(Sort(spans, Before), name) <==> HasName(spans, name)
  {
    var s := Sort(spans, Before);
    SortPermutes(spans, Before);
    SumPermutes(s, spans, Named(name));
    SumPermutes(s, spans, DurationOf(name));
    if HasName(s, name) {
      var i :| 0 <= i < |s| && s[i].name == name;
      assert s[i] in multiset(spans);
    }
    if HasName(spans, name) {
      var i :| 0 <= i < |spans| && spans[i].name == name;
      assert spans[i] in multiset(s);
    }
  }

  lemma {:induction false} PhasesStep(events: seq<Event>, tids: seq<int>, tid: int, phases: Phases)
    requires RightPhases(events, tids, phases) && tid !in tids
    ensures RightPhases(events, tids + [tid],
      AddSelfs(AddCalls(phases, tid, Sorted(events, tid)), tid, TrueFrames(Sorted(events, tid))))
  {
    assert forall name: string :: (tid, name) !in phases;
    forall key: (int, string) ensures var after :=
        AddSelfs(AddCalls(phases, tid, Sorted(events, tid)), tid, TrueFrames(Sorted(events, tid)));
      && PhaseAt(after, key) == (if key.0 in tids + [tid] then PhaseFor(events, key.0, key.1) else Phase(0, 0, 0))
      && (key in after <==> key.0 in tids + [tid] && HasName(Selected(events, key.0), key.1))
    {
      ThreadAdded(phases, tid, Sorted(events, tid), key);
      PhaseSurvivesSorting(Selected(events, tid), key.1);
      assert key.0 in tids + [tid] <==> key.0 in tids || key.0 == tid;
    }
  }

  lemma {:induction false} FoldedStep(events: seq<Event>, tids: seq<int>, tid: int, folded: map<string, int>)
    requires RightFolded(events, tids, folded) && !HasCrossing(Selected(events, tid))
    ensures RightFolded(events, tids + [tid], AddStacks(folded, tid, TrueFrames(Sorted(events, tid))))
  {
    StacksAdded(folded, tid, TrueFrames(Sorted(events, tid)));
    SelfTimesAreOutermostTimes(Selected(events, tid));
    assert (tids + [tid])[..|tids|] == tids;
  }

  // ---------------------------------------------------------------- what a stack's count is

  lemma {:induction false} SumAlike<T(!new)>(s: seq<T>, f: T -> int, g: T -> int)
    requires forall i :: 0 <= i < |s| ==> f(s[i]) == g(s[i])
    ensures Sum(s, f) == Sum(s, g)
  {
    if s == [] {
    } else {
      SumAlike(s[1..], f, g);
    }
  }

  function Nothing(): Frame -> int { (f: Frame) => 0 }

  lemma {:induction false} SumOfNothing(frames: seq<Frame>)
    ensures Sum(frames, Nothing()) == 0
  {
    if frames == [] {
    } else {
      SumOfNothing(frames[1..]);
    }
  }

  /** Exclusive time of the frames whose path reads like `path` in a key. */
  function SelfReading(path: seq<string>): Frame -> int {
    (f: Frame) => if Flat(f.path) == Flat(path) then f.selfUs else 0
  }

  /** Exclusive time of the frames with that path. */
  function SelfOn(path: seq<string>): Frame -> int {
    (f: Frame) => if f.path == path then f.selfUs else 0
  }

  /** The count of a stack is the exclusive time of its frames in its thread, and of no others. */
  ghost predicate RightStacks(events: seq<Event>, tids: seq<int>, folded: map<string, int>) {
    forall tid, path :: At(folded, StackKey(tid, path)) ==
      if tid in tids then Sum(TrueFrames(Sorted(events, tid)), SelfReading(path)) else 0
  }

  /** The same by the path itself. */
  ghost predicate StacksByPath(events: seq<Event>, tids: seq<int>, folded: map<string, int>) {
    forall tid, path | (forall name :: name in path ==> ';' !in name) :: At(folded, StackKey(tid, path)) ==
      if tid in tids then Sum(TrueFrames(Sorted(events, tid)), SelfOn(path)) else 0
  }

  lemma {:induction false} KeySumIs(events: seq<Event>, tids: seq<int>, tid: int, path: seq<string>)
    requires forall i, j :: 0 <= i < j < |tids| ==> tids[i] != tids[j]
    ensures KeySum(events, tids, StackKey(tid, path)) ==
      if tid in tids then Sum(TrueFrames(Sorted(events, tid)), SelfReading(path)) else 0
  {
    if tids == [] {
    } else {
      var n := |tids| - 1;
      KeySumIs(events, tids[..n], tid, path);
      ThreadSum(tids[n], TrueFrames(Sorted(events, tids[n])), tid, path);
      assert tids == tids[..n] + [tids[n]];
    }
  }

  lemma {:induction false} ThreadSum(t: int, frames: seq<Frame>, tid: int, path: seq<string>)
    ensures Sum(frames, SelfAt(t, StackKey(tid, path))) == if t == tid then Sum(frames, SelfReading(path)) else 0
  {
    forall f: Frame ensures SelfAt(t, StackKey(tid, path))(f) == if t == tid then SelfReading(path)(f) else 0 {
      SameKey(t, f.path, tid, path);
    }
    if t == tid {
      SumAlike(frames, SelfAt(t, StackKey(tid, path)), SelfReading(path));
    } else {
      SumAlike(frames, SelfAt(t, StackKey(tid, path)), Nothing());
      SumOfNothing(frames);
    }
  }

  lemma {:induction false} StacksAreRight(events: seq<Event>, tids: seq<int>, folded: map<string, int>)
    requires forall i, j :: 0 <= i < j < |tids| ==> tids[i] != tids[j]
    requires RightFolded(events, tids, folded)
    ensures RightStacks(events, tids, folded)
  {
    forall tid, path ensures At(folded, StackKey(tid, path)) ==
      if tid in tids then Sum(TrueFrames(Sorted(events, tid)), SelfReading(path)) else 0
    {
      KeySumIs(events, tids, tid, path);
    }
  }

  /** No complete span's name holds a semicolon. */
  ghost predicate PlainNames(events: seq<Event>) {
    forall i :: 0 <= i < |events| && events[i].ph == "X" ==> ';' !in events[i].span.name
  }

  lemma {:induction false} SelectedNames(events: seq<Event>, tid: int)
    requires PlainNames(events)
    ensures forall i :: 0 <= i < |Selected(events, tid)| ==> ';' !in Selected(events, tid)[i].name
  {
    if events == [] {
    } else {
      SelectedNames(events[..|events| - 1], tid);
    }
  }

  lemma {:induction false} PathsArePlain(events: seq<Event>, tid: int, k: nat)
    requires PlainNames(events) && k < |Sorted(events, tid)|
    ensures forall name :: name in TrueFrames(Sorted(events, tid))[k].path ==> ';' !in name
  {
    var s := Sorted(events, tid);
    SelectedNames(events, tid);
    SortPermutes(Selected(events, tid), Before);
    forall i | 0 <= i < |s| ensures ';' !in s[i].name {
      assert s[i] in multiset(Selected(events, tid));
    }
    PathNames(s, k);
  }

  lemma PathNames(s: seq<Span>, k: nat)
    requires k < |s| && forall i :: 0 <= i < |s| ==> ';' !in s[i].name
    ensures forall name :: name in TrueFrames(s)[k].path ==> ';' !in name
  {
  }

  lemma {:induction false} StacksGoByPath(events: seq<Event>, tids: seq<int>, folded: map<string, int>)
    requires PlainNames(events) && RightStacks(events, tids, folded)
    ensures StacksByPath(events, tids, folded)
  {
    forall tid, path | (forall name :: name in path ==> ';' !in name) ensures At(folded, StackKey(tid, path)) ==
      if tid in tids then Sum(TrueFrames(Sorted(events, tid)), SelfOn(path)) else 0
    {
      FlatPlain(path);
      var frames := TrueFrames(Sorted(events, tid));
      forall k | 0 <= k < |frames| ensures SelfReading(path)(frames[k]) == SelfOn(path)(frames[k]) {
        PathsArePlain(events, tid, k);
        FlatPlain(frames[k].path);
      }
      SumAlike(frames, SelfReading(path), SelfOn(path));
    }
  }

  /** One thread of the report. */
  method ReportThread(events: seq<Event>, tid: int, spans: seq<Span>, ghost tids: seq<int>, ghost upTo: seq<int>,
      summary: Summary)
    returns (r: Result<Summary, Error>)
    requires spans == Selected(events, tid) && tid !in tids && upTo == tids + [tid]
    requires RightPhases(events, tids, summary.phases) && RightFolded(events, tids, summary.folded)
    ensures r.Err? <==> HasCrossing(spans)
    ensures r.Err? ==> r.error == Overlap(tid)
    ensures r.Ok? ==> RightPhases(events, upTo, r.value.phases) && RightFolded(events, upTo, r.value.folded)
  {
    var s, frames := SweepThread(spans);
    if frames.None? {
      return Err(Overlap(tid));
    }
    var phases := CountCalls(tid, s, summary.phases);
    var added := AddThread(tid, frames.value, phases, summary.folded);
    assert NoNegative(TrueFrames(s));
    if added.None? {
      return Err(NegativeExclusive);
    }
    PhasesStep(events, tids, tid, summary.phases);
    FoldedStep(events, tids, tid, summary.folded);
    return Ok(added.value);
  }

  /** Thread `order[i]` is the first with crossing spans. */
  ghost predicate FirstCrossing(events: seq<Event>, order: seq<int>, i: nat) {
    && i < |order| && HasCrossing(Selected(events, order[i]))
    && forall j :: 0 <= j < i ==> !HasCrossing(Selected(events, order[j]))
  }

  lemma PrefixGrows(order: seq<int>, k: nat)
    requires k < |order| && forall i, j :: 0 <= i < j < |order| ==> order[i] != order[j]
    ensures order[..k + 1] == order[..k] + [order[k]] && order[k] !in order[..k]
  {
  }

  /** One thread after the other, until one has crossing spans. */
  method ReportThreads(events: seq<Event>, order: seq<int>, threads: map<int, seq<Span>>)
    returns (r: Result<Summary, Error>)
    requires forall i, j :: 0 <= i < j < |order| ==> order[i] != order[j]
    requires forall tid :: tid in order ==> tid in threads && threads[tid] == Selected(events, tid)
    ensures r.Err? ==> exists i: nat :: FirstCrossing(events, order, i) && r.error == Overlap(order[i])
    ensures r.Ok? ==> forall tid :: tid in order ==> !HasCrossing(Selected(events, tid))
    ensures r.Ok? ==> RightPhases(events, order, r.value.phases) && RightFolded(events, order, r.value.folded)
  {
    var summary := Summary(map[], map[]);
    var k := 0;
    while k < |order|
      invariant 0 <= k <= |order|
      invariant forall i :: 0 <= i < k ==> !HasCrossing(Selected(events, order[i]))
      invariant RightPhases(events, order[..k], summary.phases)
      invariant RightFolded(events, order[..k], summary.folded)
    {
      PrefixGrows(order, k);
      var next := ReportThread(events, order[k], threads[order[k]], order[..k], order[..k + 1], summary);
      if next.Err? {
        assert FirstCrossing(events, order, k);
        return next;
      }
      summary := next.value;
      k := k + 1;
    }
    assert order[..k] == order;
    return Ok(summary);
  }

  /**
  The report is refused for an unknown schema and for a thread with crossing spans, the first such
  thread being named; never for negative exclusive time. Otherwise the counters and the folded
  stacks are exactly what the spans define.
  */
  method Report(document: Document) returns (r: Result<Summary, Error>)
    ensures r == Err(UnsupportedSchema) <==> document.schemaVersion != Some(1)
    ensures r != Err(NegativeExclusive)
    ensures r.Err? && r.error.Overlap? ==>
      exists i: nat ::
        FirstCrossing(document.events, Tids(document.events), i) && r.error.tid == Tids(document.events)[i]
    ensures r.Ok? ==>
      && (forall tid :: tid in Tids(document.events) ==> !HasCrossing(Selected(document.events, tid)))
      && RightPhases(document.events, Tids(document.events), r.value.phases)
      && RightFolded(document.events, Tids(document.events), r.value.folded)
      && RightStacks(document.events, Tids(document.events), r.value.folded)
      && (PlainNames(document.events) ==> StacksByPath(document.events, Tids(document.events), r.value.folded))
  {
    if document.schemaVersion != Some(1) {
      return Err(UnsupportedSchema);
    }
    var order, threads := Group(document.events);
    r := ReportThreads(document.events, order, threads);
    if r.Ok? {
      StacksAreRight(document.events, order, r.value.folded);
      if PlainNames(document.events) {
        StacksGoByPath(document.events, order, r.value.folded);
      }
    }
  }
}
