/**
The span report: spans of one thread are swept in order of start with a stack of open spans.
Crossing spans are rejected; otherwise each span's exclusive time is what its children leave of it.
*/
module Profiler {
  import opened Wrappers
  import opened Sorting
  import opened Sums

  datatype Span = Span(name: string, ts: int, dur: nat) {
    function End(): int { ts + dur }
  }

  /** The sort key `(ts, -dur)`: earlier first, and of those starting together the longest first. */
  predicate Before(a: Span, b: Span) {
    a.ts < b.ts || (a.ts == b.ts && a.dur >= b.dur)
  }

  lemma BeforeIsPreorder()
    ensures TotalPreorder(Before)
  {
  }

  /** `a` is still open when `b` starts, and `b` is still open when `a` ends. */
  predicate Cross(a: Span, b: Span) {
    a.ts < b.ts < a.End() < b.End()
  }

  ghost predicate HasCrossing(spans: seq<Span>) {
    exists i, j :: 0 <= i < |spans| && 0 <= j < |spans| && Cross(spans[i], spans[j])
  }

  // ---------------------------------------------------------------- what exclusive time means

  predicate Covers(a: Span, t: int) {
    a.ts <= t < a.End()
  }

  /** The instants a span covers. */
  ghost function Points(a: Span): set<int> {
    set t | a.ts <= t < a.End() && Covers(a, t)
  }

  lemma {:induction false} PointsCount(a: Span)
    ensures |Points(a)| == a.dur
    decreases a.dur
  {
    if a.dur == 0 {
      assert Points(a) == {};
    } else {
      var b := a.(dur := a.dur - 1);
      PointsCount(b);
      forall t ensures t in Points(a) <==> t in Points(b) + {b.End()} {
        assert Covers(a, t) <==> Covers(b, t) || t == b.End();
      }
      assert Points(a) == Points(b) + {b.End()};
    }
  }

  /** The instants at which span `i` is the innermost open one among the first `k`. */
  ghost function Innermost(s: seq<Span>, i: nat, k: nat): set<int>
    requires i < k <= |s|
  {
    set t | t in Points(s[i]) && forall j :: i < j < k ==> !Covers(s[j], t)
  }

  /** Whenever one of the first `k` spans starts while an earlier one is open, it ends within it. */
  ghost predicate Nested(s: seq<Span>, k: nat)
    requires k <= |s|
  {
    forall i, j :: 0 <= i < j < k && s[j].ts < s[i].End() ==> s[j].End() <= s[i].End()
  }

  lemma {:induction false} NestedIffNoCrossing(s: seq<Span>)
    requires Ordered(s, Before)
    ensures Nested(s, |s|) <==> !HasCrossing(s)
  {
    if !Nested(s, |s|) {
      var i, j :| 0 <= i < j < |s| && s[j].ts < s[i].End() && s[j].End() > s[i].End();
      assert Before(s[i], s[j]);
      assert Cross(s[i], s[j]);
    }
    if HasCrossing(s) {
      var i, j :| 0 <= i < |s| && 0 <= j < |s| && Cross(s[i], s[j]);
      assert j < i ==> Before(s[j], s[i]);
      assert !Nested(s, |s|);
    }
  }

  lemma {:induction false} CrossingSurvivesSorting(spans: seq<Span>, s: seq<Span>)
    requires multiset(spans) == multiset(s)
    ensures HasCrossing(spans) <==> HasCrossing(s)
  {
    if HasCrossing(spans) {
      var i, j :| 0 <= i < |spans| && 0 <= j < |spans| && Cross(spans[i], spans[j]);
      assert spans[i] in multiset(s) && spans[j] in multiset(s);
    }
    if HasCrossing(s) {
      var i, j :| 0 <= i < |s| && 0 <= j < |s| && Cross(s[i], s[j]);
      assert s[i] in multiset(spans) && s[j] in multiset(spans);
    }
  }

  // ---------------------------------------------------------------- the open spans

  ghost predicate Increasing(a: seq<nat>) {
    forall i, j :: 0 <= i < j < |a| ==> a[i] < a[j]
  }

  predicate Below(a: seq<nat>, k: nat) {
    forall i :: 0 <= i < |a| ==> a[i] < k
  }

  /** The earlier spans still open at instant `t`, outermost first. */
  ghost function Open(s: seq<Span>, k: nat, t: int): (r: seq<nat>)
    requires k <= |s|
    ensures Below(r, k)
  {
    if k == 0 then []
    else Open(s, k - 1, t) + (if s[k - 1].End() > t then [k - 1] else [])
  }

  lemma SnocIncreases(a: seq<nat>, k: nat)
    requires Increasing(a) && Below(a, k)
    ensures Increasing(a + [k]) && forall x: nat :: x in a + [k] <==> x in a || x == k
  {
  }

  lemma {:induction false} OpenMeans(s: seq<Span>, k: nat, t: int)
    requires k <= |s|
    ensures var r := Open(s, k, t); Increasing(r) && forall x: nat :: x in r <==> x < k && s[x].End() > t
  {
    if k == 0 {
    } else {
      OpenMeans(s, k - 1, t);
      var older := Open(s, k - 1, t);
      if s[k - 1].End() > t {
        SnocIncreases(older, k - 1);
        assert Open(s, k, t) == older + [k - 1];
      } else {
        assert Open(s, k, t) == older;
      }
    }
  }

  lemma {:induction false} IncreasingUnique(a: seq<nat>, b: seq<nat>)
    requires Increasing(a) && Increasing(b) && forall x: nat :: x in a <==> x in b
    ensures a == b
  {
    assert a == [] <==> b == [] by {
      if a != [] { assert a[0] in b; }
      if b != [] { assert b[0] in a; }
    }
    if a == [] {
    } else {
      assert a[0] in b && b[0] in a;
      assert a[0] == b[0];
      forall x: nat ensures x in a[1..] <==> x in b[1..] {
        assert x in a[1..] <==> x in a && x != a[0];
        assert x in b[1..] <==> x in b && x != b[0];
      }
      IncreasingUnique(a[1..], b[1..]);
    }
  }

  function Names(s: seq<Span>, idx: seq<nat>): (r: seq<string>)
    requires Below(idx, |s|)
    ensures |r| == |idx|
  {
    seq(|idx|, i requires 0 <= i < |idx| => s[idx[i]].name)
  }

  // ---------------------------------------------------------------- the sweep

  datatype Frame = Frame(name: string, end: int, selfUs: int, path: seq<string>)

  /** What the sweep should record for span `i` once `k` spans are known: its true exclusive time and path. */
  ghost predicate FrameOf(s: seq<Span>, i: nat, k: nat, f: Frame)
    requires i < k <= |s|
  {
    && f.name == s[i].name && f.end == s[i].End()
    && f.selfUs == |Innermost(s, i, k)|
    && f.path == Names(s, Open(s, i, s[i].ts)) + [s[i].name]
  }

  ghost predicate FramesOf(s: seq<Span>, k: nat, frames: seq<Frame>) {
    && k <= |s| && |frames| == k
    && forall i: nat :: i < k ==> FrameOf(s, i, k, frames[i])
  }

  lemma WithinParent(s: seq<Span>, k: nat, p: nat, t: int)
    requires k < |s| && p < k && Before(s[p], s[k]) && s[k].End() <= s[p].End()
    requires forall j :: p < j < k ==> s[j].End() <= s[k].ts
    requires t in Points(s[k])
    ensures t in Innermost(s, p, k)
  {
    assert Covers(s[p], t) && t in Points(s[p]);
    forall j | p < j < k ensures !Covers(s[j], t) {
      assert s[j].End() <= s[k].ts;
    }
  }

  /** Opening span `k` takes its whole duration from the innermost span open around it. */
  lemma {:induction false} InnermostOfParent(s: seq<Span>, k: nat, p: nat)
    requires k < |s| && p < k && Ordered(s, Before) && Nested(s, k + 1)
    requires s[p].End() > s[k].ts && forall j :: p < j < k ==> s[j].End() <= s[k].ts
    ensures |Innermost(s, p, k + 1)| == |Innermost(s, p, k)| - s[k].dur
  {
    assert Before(s[p], s[k]);
    assert s[k].End() <= s[p].End();
    forall t | t in Points(s[k]) ensures t in Innermost(s, p, k) {
      WithinParent(s, k, p, t);
    }
    forall t ensures t in Innermost(s, p, k + 1) <==> t in Innermost(s, p, k) - Points(s[k]) {
      assert t in Points(s[k]) <==> Covers(s[k], t);
    }
    assert Innermost(s, p, k + 1) == Innermost(s, p, k) - Points(s[k]);
    PointsCount(s[k]);
  }

  /** And takes nothing from any other span. */
  lemma {:induction false} InnermostOfOthers(s: seq<Span>, k: nat, i: nat)
    requires k < |s| && i < k && Ordered(s, Before) && Nested(s, k + 1)
    requires s[i].End() <= s[k].ts || exists p :: i < p < k && s[p].End() > s[k].ts
    ensures Innermost(s, i, k + 1) == Innermost(s, i, k)
  {
    forall t | Covers(s[i], t) && Covers(s[k], t) ensures exists p :: i < p < k && Covers(s[p], t) {
      if s[i].End() > s[k].ts {
        var p :| i < p < k && s[p].End() > s[k].ts;
        assert Before(s[p], s[k]);
        assert Covers(s[p], t);
      }
    }
  }

  lemma {:induction false} InnermostOfNew(s: seq<Span>, k: nat)
    requires k < |s|
    ensures |Innermost(s, k, k + 1)| == s[k].dur
  {
    assert Innermost(s, k, k + 1) == Points(s[k]);
    PointsCount(s[k]);
  }

  /** The stack holds exactly the spans open at `t`; whatever was above what is left has ended by then. */
  lemma {:induction false} StackIsOpen(s: seq<Span>, k: nat, t: int, before: seq<nat>, stack: seq<nat>)
    requires k <= |s| && stack <= before && Increasing(before) && Below(before, k)
    requires forall x: nat :: x < k && x !in before ==> s[x].End() <= t
    requires forall i :: |stack| <= i < |before| ==> s[before[i]].End() <= t
    requires forall i :: 0 <= i < |stack| ==> s[before[i]].End() > t
    ensures stack == Open(s, k, t)
  {
    OpenMeans(s, k, t);
    forall x: nat ensures x in stack <==> x in Open(s, k, t) {
      if x in Open(s, k, t) {
        assert x in before;
        var i :| 0 <= i < |before| && before[i] == x;
        assert i < |stack| && stack[i] == x;
      }
      if x in stack {
        var i :| 0 <= i < |stack| && stack[i] == x;
        assert before[i] == x;
      }
    }
    IncreasingUnique(stack, Open(s, k, t));
  }

  /** In an increasing list of open spans the last one is the innermost. */
  lemma {:induction false} TopIsInnermost(s: seq<Span>, k: nat, t: int)
    requires k <= |s| && Open(s, k, t) != []
    ensures var stack := Open(s, k, t); var top := stack[|stack| - 1];
      top < k && s[top].End() > t && forall j :: top < j < k ==> s[j].End() <= t
  {
    OpenMeans(s, k, t);
    var stack := Open(s, k, t);
    var top := stack[|stack| - 1];
    assert top in stack;
    assert forall x :: 0 <= x < |stack| ==> stack[x] <= top;
    forall j | top < j < k ensures s[j].End() <= t {
      assert j !in stack;
    }
  }

  lemma {:induction false} SelfExtends(s: seq<Span>, k: nat, i: nat)
    requires k < |s| && i < k && Ordered(s, Before) && Nested(s, k + 1)
    ensures var stack := Open(s, k, s[k].ts);
      |Innermost(s, i, k + 1)| == |Innermost(s, i, k)| -
        (if stack != [] && i == stack[|stack| - 1] then s[k].dur else 0)
  {
    var stack := Open(s, k, s[k].ts);
    if stack == [] {
      OpenMeans(s, k, s[k].ts);
      assert i !in stack;
      InnermostOfOthers(s, k, i);
    } else {
      TopIsInnermost(s, k, s[k].ts);
      if i == stack[|stack| - 1] {
        InnermostOfParent(s, k, i);
      } else {
        InnermostOfOthers(s, k, i);
      }
    }
  }

  lemma {:induction false} FramesExtend(s: seq<Span>, k: nat, frames: seq<Frame>, stack: seq<nat>, frames': seq<Frame>)
    requires k < |s| && Ordered(s, Before) && Nested(s, k + 1) && FramesOf(s, k, frames)
    requires stack == Open(s, k, s[k].ts)
    requires |frames'| == k + 1
    requires frames'[k] == Frame(s[k].name, s[k].End(), s[k].dur, Names(s, stack) + [s[k].name])
    requires forall i :: 0 <= i < k ==>
      frames'[i] == if stack != [] && i == stack[|stack| - 1]
                    then frames[i].(selfUs := frames[i].selfUs - s[k].dur) else frames[i]
    ensures FramesOf(s, k + 1, frames')
  {
    forall i: nat | i < k + 1 ensures FrameOf(s, i, k + 1, frames'[i]) {
      if i < k {
        assert FrameOf(s, i, k, frames[i]);
        SelfExtends(s, k, i);
      } else {
        InnermostOfNew(s, k);
      }
    }
  }

  lemma {:induction false} NestedExtends(s: seq<Span>, k: nat)
    requires k < |s| && Nested(s, k) && Ordered(s, Before)
    ensures var stack := Open(s, k, s[k].ts);
      Nested(s, k + 1) <==> (stack == [] || s[k].End() <= s[stack[|stack| - 1]].End())
  {
    var stack := Open(s, k, s[k].ts);
    if stack == [] {
      OpenMeans(s, k, s[k].ts);
      forall i: nat | i < k ensures s[i].End() <= s[k].ts {
        assert i !in stack;
      }
    } else {
      TopIsInnermost(s, k, s[k].ts);
      var top := stack[|stack| - 1];
      assert Before(s[top], s[k]);
      assert forall i :: 0 <= i < top && s[k].ts < s[i].End() ==> s[top].End() <= s[i].End();
    }
  }

  /** Later entries of the stack lie within earlier ones. */
  ghost predicate Stacked(s: seq<Span>, stack: seq<nat>)
    requires Below(stack, |s|)
  {
    forall i, j :: 0 <= i < j < |stack| ==> s[stack[j]].End() <= s[stack[i]].End()
  }

  lemma {:induction false} PushStacked(s: seq<Span>, k: nat, stack: seq<nat>)
    requires k < |s| && Nested(s, k + 1) && stack == Open(s, k, s[k].ts) && Stacked(s, stack)
    ensures StackOk(s, k + 1, stack + [k])
  {
    OpenMeans(s, k, s[k].ts);
    forall i | 0 <= i < |stack| ensures s[k].End() <= s[stack[i]].End() {
      assert stack[i] in stack;
    }
    forall x: nat | x < k + 1 && x !in stack + [k] ensures s[x].End() <= s[k].ts {
      assert (stack + [k])[|stack|] == k;
      assert x != k && x !in stack;
    }
  }

  /** The stack holds every span that may still be open, each within the one below it. */
  ghost predicate StackOk(s: seq<Span>, k: nat, stack: seq<nat>) {
    && k <= |s| && Increasing(stack) && Below(stack, k) && Stacked(s, stack)
    && forall x: nat :: x < k && x !in stack ==> s[x].End() <= s[k - 1].ts
  }

  ghost predicate EndsOf(s: seq<Span>, k: nat, frames: seq<Frame>) {
    k <= |s| && |frames| == k && forall i :: 0 <= i < k ==> frames[i].end == s[i].End()
  }

  lemma {:induction false} FramesEnd(s: seq<Span>, k: nat, frames: seq<Frame>)
    requires FramesOf(s, k, frames)
    ensures EndsOf(s, k, frames)
  {
    forall i: nat | i < k ensures frames[i].end == s[i].End() {
      assert FrameOf(s, i, k, frames[i]);
    }
  }

  lemma {:induction false} PoppedIsOpen(s: seq<Span>, k: nat, open: seq<nat>, stack: seq<nat>)
    requires k < |s| && Ordered(s, Before) && StackOk(s, k, open) && stack <= open
    requires forall i :: |stack| <= i < |open| ==> s[open[i]].End() <= s[k].ts
    requires stack != [] ==> s[k].ts < s[stack[|stack| - 1]].End()
    ensures stack == Open(s, k, s[k].ts) && Stacked(s, stack)
  {
    assert k > 0 ==> Before(s[k - 1], s[k]);
    StackIsOpen(s, k, s[k].ts, open, stack);
  }

  /** Closes every span that ended by the time span `k` starts. */
  method CloseEnded(s: seq<Span>, k: nat, frames: seq<Frame>, open: seq<nat>) returns (stack: seq<nat>)
    requires k < |s| && Ordered(s, Before) && StackOk(s, k, open) && EndsOf(s, k, frames)
    ensures stack == Open(s, k, s[k].ts) && Stacked(s, stack)
  {
    stack := open;
    while stack != [] && s[k].ts >= frames[stack[|stack| - 1]].end
      invariant stack <= open
      invariant forall i :: |stack| <= i < |open| ==> s[open[i]].End() <= s[k].ts
      decreases |stack|
    {
      stack := stack[..|stack| - 1];
    }
    PoppedIsOpen(s, k, open, stack);
  }

  lemma {:induction false} NamesOfFrames(s: seq<Span>, k: nat, frames: seq<Frame>, stack: seq<nat>)
    requires FramesOf(s, k, frames) && Below(stack, k)
    ensures seq(|stack|, i requires 0 <= i < |stack| => frames[stack[i]].name) == Names(s, stack)
  {
    forall i | 0 <= i < |stack| ensures frames[stack[i]].name == s[stack[i]].name {
      assert FrameOf(s, stack[i], k, frames[stack[i]]);
    }
  }

  /** Charges span `k` to the innermost open span and records it. */
  method OpenSpan(s: seq<Span>, k: nat, frames: seq<Frame>, stack: seq<nat>) returns (r: seq<Frame>)
    requires k < |s| && Ordered(s, Before) && Nested(s, k + 1)
    requires FramesOf(s, k, frames) && stack == Open(s, k, s[k].ts)
    ensures FramesOf(s, k + 1, r)
  {
    NamesOfFrames(s, k, frames, stack);
    var path := seq(|stack|, i requires 0 <= i < |stack| => frames[stack[i]].name) + [s[k].name];
    r := frames;
    if stack != [] {
      var top := stack[|stack| - 1];
      r := r[top := r[top].(selfUs := r[top].selfUs - s[k].dur)];
    }
    r := r + [Frame(s[k].name, s[k].End(), s[k].dur, path)];
    FramesExtend(s, k, frames, stack, r);
  }

  /** What holds between two rounds of the sweep. */
  ghost predicate Swept(s: seq<Span>, k: nat, frames: seq<Frame>, stack: seq<nat>) {
    k <= |s| && Nested(s, k) && FramesOf(s, k, frames) && StackOk(s, k, stack)
  }

  /** Does span `k` outlive the innermost span open around it? */
  method Outlives(s: seq<Span>, k: nat, frames: seq<Frame>, stack: seq<nat>) returns (r: bool)
    requires k < |s| && Nested(s, k) && Ordered(s, Before) && EndsOf(s, k, frames) && stack == Open(s, k, s[k].ts)
    ensures r <==> !Nested(s, k + 1)
  {
    NestedExtends(s, k);
    r := stack != [] && s[k].End() > frames[stack[|stack| - 1]].end;
  }

  /** Records span `k` and opens it. */
  method Push(s: seq<Span>, k: nat, frames: seq<Frame>, stack: seq<nat>) returns (frames': seq<Frame>)
    requires k < |s| && Ordered(s, Before) && Nested(s, k + 1)
    requires FramesOf(s, k, frames) && stack == Open(s, k, s[k].ts) && Stacked(s, stack)
    ensures Swept(s, k + 1, frames', stack + [k])
  {
    frames' := OpenSpan(s, k, frames, stack);
    PushStacked(s, k, stack);
  }

  /** One round: close the ended spans, refuse a span that outlives the one around it, else record it. */
  method Advance(s: seq<Span>, k: nat, frames: seq<Frame>, open: seq<nat>)
    returns (ok: bool, frames': seq<Frame>, stack: seq<nat>)
    requires k < |s| && Ordered(s, Before) && Swept(s, k, frames, open)
    ensures ok <==> Nested(s, k + 1)
    ensures ok ==> Swept(s, k + 1, frames', stack)
  {
    FramesEnd(s, k, frames);
    stack := CloseEnded(s, k, frames, open);
    var outlives := Outlives(s, k, frames, stack);
    if outlives {
      return false, frames, stack;
    }
    frames' := Push(s, k, frames, stack);
    return true, frames', stack + [k];
  }

  /** Sweeps one thread's spans in sorted order; `None` is the overlap error. */
  method SweepSorted(s: seq<Span>) returns (r: Option<seq<Frame>>)
    requires Ordered(s, Before)
    ensures r.Some? <==> Nested(s, |s|)
    ensures r.Some? ==> FramesOf(s, |s|, r.value)
  {
    var stack: seq<nat> := [];
    var frames: seq<Frame> := [];
    var k := 0;
    while k < |s|
      invariant Swept(s, k, frames, stack)
    {
      var ok;
      ok, frames, stack := Advance(s, k, frames, stack);
      if !ok {
        return None;
      }
      k := k + 1;
    }
    return Some(frames);
  }

  // ---------------------------------------------------------------- totals

  /** The report's frames as the spans define them, without a sweep. */
  ghost function TrueFrames(s: seq<Span>): (frames: seq<Frame>)
    ensures |frames| == |s|
  {
    seq(|s|, i requires 0 <= i < |s| =>
      Frame(s[i].name, s[i].End(), |Innermost(s, i, |s|)|, Names(s, Open(s, i, s[i].ts)) + [s[i].name]))
  }

  lemma {:induction false} FramesAreTrue(s: seq<Span>, frames: seq<Frame>)
    requires FramesOf(s, |s|, frames)
    ensures frames == TrueFrames(s)
  {
    forall i: nat | i < |s| ensures frames[i] == TrueFrames(s)[i] {
      assert FrameOf(s, i, |s|, frames[i]);
    }
  }

  /** Every instant at which some span is open. */
  ghost function Covered(spans: seq<Span>): set<int> {
    if spans == [] then {} else Points(spans[0]) + Covered(spans[1..])
  }

  lemma {:induction false} CoveredMeans(spans: seq<Span>, t: int)
    ensures t in Covered(spans) <==> exists i :: 0 <= i < |spans| && Covers(spans[i], t)
  {
    if spans == [] {
    } else {
      CoveredMeans(spans[1..], t);
      if exists i :: 0 <= i < |spans| && Covers(spans[i], t) {
        var i :| 0 <= i < |spans| && Covers(spans[i], t);
        assert i > 0 ==> Covers(spans[1..][i - 1], t);
      }
      if exists i :: 0 <= i < |spans[1..]| && Covers(spans[1..][i], t) {
        var i :| 0 <= i < |spans[1..]| && Covers(spans[1..][i], t);
        assert Covers(spans[i + 1], t);
      }
    }
  }

  lemma {:induction false} CoveredSurvivesSorting(spans: seq<Span>, s: seq<Span>)
    requires multiset(spans) == multiset(s)
    ensures Covered(spans) == Covered(s)
  {
    forall t ensures t in Covered(spans) <==> t in Covered(s) {
      CoveredMeans(spans, t);
      CoveredMeans(s, t);
      if exists i :: 0 <= i < |spans| && Covers(spans[i], t) {
        var i :| 0 <= i < |spans| && Covers(spans[i], t);
        assert spans[i] in multiset(s);
      }
      if exists i :: 0 <= i < |s| && Covers(s[i], t) {
        var i :| 0 <= i < |s| && Covers(s[i], t);
        assert s[i] in multiset(spans);
      }
    }
  }

  function SelfOf(): Frame -> int { (f: Frame) => f.selfUs }

  /** A span is innermost where no later one covers. */
  lemma InnermostIsUncovered(s: seq<Span>, m: nat)
    requires m < |s|
    ensures Innermost(s, m, |s|) == Points(s[m]) - Covered(s[m + 1..])
  {
    var rest := s[m + 1..];
    forall t ensures t in Innermost(s, m, |s|) <==> t in Points(s[m]) - Covered(rest) {
      CoveredMeans(rest, t);
      if t in Covered(rest) {
        var i :| 0 <= i < |rest| && Covers(rest[i], t);
        assert Covers(s[m + 1 + i], t);
      }
      assert forall j :: m < j < |s| ==> s[j] == rest[j - m - 1];
    }
  }

  /** Exclusive times share out the covered time: they sum to it, with no instant lost or counted twice. */
  lemma {:induction false} SelfTimesSum(s: seq<Span>, m: nat)
    requires m <= |s|
    ensures Sum(TrueFrames(s)[m..], SelfOf()) == |Covered(s[m..])|
    decreases |s| - m
  {
    if m == |s| {
    } else {
      var rest := s[m + 1..];
      SelfTimesSum(s, m + 1);
      assert TrueFrames(s)[m..][1..] == TrueFrames(s)[m + 1..];
      assert s[m..][1..] == rest;
      InnermostIsUncovered(s, m);
      assert Covered(s[m..]) == (Points(s[m]) - Covered(rest)) + Covered(rest);
    }
  }

  /** Span `k` starts when no earlier span is open. */
  ghost predicate Outermost(s: seq<Span>, k: nat)
    requires k < |s|
  {
    forall j :: 0 <= j < k ==> s[j].End() <= s[k].ts
  }

  ghost function OutermostTime(s: seq<Span>, k: nat): nat
    requires k <= |s|
  {
    if k == 0 then 0 else OutermostTime(s, k - 1) + if Outermost(s, k - 1) then s[k - 1].dur else 0
  }

  lemma {:induction false} CoveredExtends(s: seq<Span>, k: nat)
    requires k < |s|
    ensures Covered(s[..k + 1]) == Covered(s[..k]) + Points(s[k])
  {
    forall t ensures t in Covered(s[..k + 1]) <==> t in Covered(s[..k]) || Covers(s[k], t) {
      CoveredMeans(s[..k + 1], t);
      CoveredMeans(s[..k], t);
      if Covers(s[k], t) {
        assert s[..k + 1][k] == s[k];
      }
      if exists i :: 0 <= i < k && Covers(s[..k][i], t) {
        var i :| 0 <= i < k && Covers(s[..k][i], t);
        assert s[..k + 1][i] == s[..k][i];
      }
    }
  }

  lemma {:induction false} OutermostAdds(s: seq<Span>, k: nat)
    requires k < |s| && Ordered(s, Before) && Nested(s, |s|)
    ensures Outermost(s, k) ==> Covered(s[..k]) !! Points(s[k])
    ensures !Outermost(s, k) ==> Points(s[k]) <= Covered(s[..k])
  {
    forall t | t in Points(s[k]) ensures t in Covered(s[..k]) <==> !Outermost(s, k) {
      CoveredMeans(s[..k], t);
      if !Outermost(s, k) {
        var j :| 0 <= j < k && s[j].End() > s[k].ts;
        assert Before(s[j], s[k]);
        assert Covers(s[..k][j], t);
      }
    }
  }

  lemma {:induction false} OutermostStep(s: seq<Span>, k: nat)
    requires k < |s| && Ordered(s, Before) && Nested(s, |s|)
    ensures |Covered(s[..k + 1])| == |Covered(s[..k])| + if Outermost(s, k) then s[k].dur else 0
  {
    var earlier, added := Covered(s[..k]), Points(s[k]);
    CoveredExtends(s, k);
    PointsCount(s[k]);
    OutermostAdds(s, k);
    if !Outermost(s, k) {
      assert earlier + added == earlier;
    }
  }

  /** In an accepted thread the outermost spans cover everything the spans cover. */
  lemma {:induction false} OutermostCover(s: seq<Span>, k: nat)
    requires k <= |s| && Ordered(s, Before) && Nested(s, |s|)
    ensures OutermostTime(s, k) == |Covered(s[..k])|
  {
    if k == 0 {
    } else {
      var j := k - 1;
      OutermostCover(s, j);
      OutermostStep(s, j);
      assert j + 1 == k;
    }
  }

  /** Sorts and sweeps one thread: refused exactly when two of its spans cross. */
  method SweepThread(spans: seq<Span>) returns (s: seq<Span>, r: Option<seq<Frame>>)
    ensures s == Sort(spans, Before)
    ensures r.None? <==> HasCrossing(spans)
    ensures r.Some? ==> r.value == TrueFrames(s)
  {
    s := Sort(spans, Before);
    BeforeIsPreorder();
    SortOrdered(spans, Before);
    SortPermutes(spans, Before);
    NestedIffNoCrossing(s);
    CrossingSurvivesSorting(spans, s);
    r := SweepSorted(s);
    if r.Some? {
      FramesAreTrue(s, r.value);
    }
  }

  /** The exclusive times of an accepted thread sum to the total duration of its outermost spans. */
  lemma {:induction false} SelfTimesAreOutermostTimes(spans: seq<Span>)
    requires !HasCrossing(spans)
    ensures var s := Sort(spans, Before);
      Sum(TrueFrames(s), SelfOf()) == |Covered(spans)| == OutermostTime(s, |s|)
  {
    var s := Sort(spans, Before);
    BeforeIsPreorder();
    SortOrdered(spans, Before);
    SortPermutes(spans, Before);
    NestedIffNoCrossing(s);
    CrossingSurvivesSorting(spans, s);
    CoveredSurvivesSorting(spans, s);
    SelfTimesSum(s, 0);
    OutermostCover(s, |s|);
    assert TrueFrames(s)[0..] == TrueFrames(s) && s[0..] == s && s[..|s|] == s;
  }
}
