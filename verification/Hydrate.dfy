/**
Batched page reads under one character budget: consecutive requests to one machine are read together,
one by one where the batch fails and a retry makes sense, and every page is charged to the budget.
*/
module Hydrate {
  import opened Integers
  import opened Sums
  import opened Wrappers

  const MAX_READ_CHARS := 64000
  const MAX_SESSION_BATCH_SIZE := 32
  const MAX_SESSION_PAGE_SIZE := 500
  const LOCAL_MACHINE := "local"

  datatype Request = Request(sessionId: string, sourcePath: string, machine: string, offset: nat, limit: nat)

  /** `chars` are the characters returned for each record. */
  datatype Page = Page(chars: seq<nat>, body: string)

  /** `peer` tells an answer of a reachable peer from a failure of the transport. */
  datatype ReadError = ReadError(message: string, peer: bool)

  datatype Failure = Failure(index: nat, machine: string, sessionId: string, sourcePath: string, offset: nat,
      message: string)

  datatype Sent = Sent(page: Page, machine: string)

  datatype Answer = Answer(pages: seq<Sent>, failures: seq<Failure>, remaining: nat)

  datatype Error = BadBudget | BadBatch | BlankSession | BadLimit | BadOffset | BudgetExceeded

  /** What a read comes to: the how-manieth read it is, the machine, the requests and the budget left. */
  type Reader = (nat, string, seq<Request>, nat) -> Result<seq<Page>, ReadError>

  function Self(): nat -> int { (n: nat) => n }

  function PageChars(page: Page): int { Sum(page.chars, Self()) }

  /** Character by character. */
  lemma {:induction false} CharsAddUp(page: Page, n: nat)
    ensures PageChars(page.(chars := [])) == 0
    ensures PageChars(page.(chars := page.chars + [n])) == PageChars(page) + n
  {
    SumAppend(page.chars, [n], Self());
  }

  function SentChars(): Sent -> int { (s: Sent) => PageChars(s.page) }

  function Chars(pages: seq<Sent>): int { Sum(pages, SentChars()) }

  // ---------------------------------------------------------------- validation

  function Validate(r: Request, blank: string -> bool): Option<Error> {
    if blank(r.sessionId) then Some(BlankSession)
    else if !(1 <= r.limit <= MAX_SESSION_PAGE_SIZE) then Some(BadLimit)
    else if r.offset > I64_MAX then Some(BadOffset)
    else None
  }

  /** A session is named, the page has between 1 and 500 records, and the offset fits a signed 64-bit integer. */
  predicate Valid(r: Request, blank: string -> bool) {
    !blank(r.sessionId) && 1 <= r.limit <= 500 && r.offset < 0x8000_0000_0000_0000
  }

  /** What is wrong with `r` first. */
  predicate Faults(r: Request, blank: string -> bool, error: Error) {
    match error
    case BlankSession => blank(r.sessionId)
    case BadLimit => !blank(r.sessionId) && (r.limit == 0 || r.limit > 500)
    case BadOffset => !blank(r.sessionId) && 1 <= r.limit <= 500 && r.offset >= 0x8000_0000_0000_0000
    case _ => false
  }

  /** Request `i` is the first with something wrong. */
  ghost predicate FirstFault(requests: seq<Request>, blank: string -> bool, i: nat, error: Error) {
    && i < |requests| && Faults(requests[i], blank, error)
    && forall j :: 0 <= j < i ==> Valid(requests[j], blank)
  }

  method ValidateAll(requests: seq<Request>, blank: string -> bool) returns (error: Option<Error>)
    ensures error.None? <==> forall i :: 0 <= i < |requests| ==> Valid(requests[i], blank)
    ensures error.Some? ==> exists i: nat :: FirstFault(requests, blank, i, error.value)
  {
    for i := 0 to |requests|
      invariant forall j :: 0 <= j < i ==> Valid(requests[j], blank)
    {
      error := Validate(requests[i], blank);
      if error.Some? {
        assert FirstFault(requests, blank, i, error.value);
        return;
      }
    }
    return None;
  }

  // ---------------------------------------------------------------- the budget

  /** Charges one page to the budget; `ok` is false where it does not fit, which ends the call. */
  method PushPage(page: Page, machine: string, remaining: nat, pages: seq<Sent>)
    returns (ok: bool, left: nat, pages': seq<Sent>)
    ensures ok <==> PageChars(page) <= remaining
    ensures ok ==> pages' == pages + [Sent(page, machine)] && left == remaining - PageChars(page)
    ensures ok ==> left + Chars(pages') == remaining + Chars(pages)
  {
    var returned := PageChars(page);
    if returned > remaining {
      return false, remaining, pages;
    }
    SumNonNegative(page.chars, Self());
    SumAppend(pages, [Sent(page, machine)], SentChars());
    return true, remaining - returned, pages + [Sent(page, machine)];
  }

  function ResultChars(results: seq<Page>): int { Sum(results, PageWeight()) }

  function PageWeight(): Page -> int { (p: Page) => PageChars(p) }

  method PushAll(results: seq<Page>, machine: string, remaining: nat, pages: seq<Sent>)
    returns (ok: bool, left: nat, pages': seq<Sent>)
    ensures ok ==> left + Chars(pages') == remaining + Chars(pages)
    ensures ok ==> pages' == pages + Tagged(results, machine)
    ensures ResultChars(results) <= remaining ==> ok
  {
    left, pages' := remaining, pages;
    var n := 0;
    while n < |results|
      invariant 0 <= n <= |results| && left + Chars(pages') == remaining + Chars(pages)
      invariant pages' == pages + Tagged(results[..n], machine)
      invariant left == remaining - ResultChars(results[..n])
    {
      SumSnoc(results, n, PageWeight());
      Fitting(results, n);
      assert Tagged(results[..n + 1], machine) == Tagged(results[..n], machine) + [Sent(results[n], machine)];
      ok, left, pages' := PushPage(results[n], machine, left, pages');
      if !ok {
        return;
      }
      n := n + 1;
    }
    assert results[..n] == results;
    return true, left, pages';
  }

  function Tagged(results: seq<Page>, machine: string): seq<Sent> {
    seq(|results|, i requires 0 <= i < |results| => Sent(results[i], machine))
  }

  lemma {:induction false} Fitting(results: seq<Page>, n: nat)
    requires n < |results|
    ensures ResultChars(results[..n]) + PageChars(results[n]) <= ResultChars(results)
  {
    SumSnoc(results, n, PageWeight());
    SumAppend(results[..n + 1], results[n + 1..], PageWeight());
    assert results == results[..n + 1] + results[n + 1..];
    forall i | n + 1 <= i < |results| ensures PageWeight()(results[i]) >= 0 {
      SumNonNegative(results[i].chars, Self());
    }
    SumNonNegative(results[n + 1..], PageWeight());
  }

  // ---------------------------------------------------------------- the accounts

  function FailureOf(requests: seq<Request>, i: nat, message: string): Failure
    requires i < |requests|
  {
    var r := requests[i];
    Failure(i, r.machine, r.sessionId, r.sourcePath, r.offset, message)
  }

  /** The failure tells which page was asked for. */
  predicate Names(failure: Failure, r: Request) {
    && failure.machine == r.machine && failure.sessionId == r.sessionId
    && failure.sourcePath == r.sourcePath && failure.offset == r.offset
  }

  ghost predicate Failed(failures: seq<Failure>, i: nat) {
    exists j :: 0 <= j < |failures| && failures[j].index == i
  }

  /** A read of the requests from `first` up to `last`, and what came of it. */
  datatype Call = Call(first: nat, last: nat, result: Result<seq<Page>, ReadError>)

  /** Some successful read included request `i`. */
  ghost predicate Served(log: seq<Call>, i: nat) {
    exists k :: 0 <= k < |log| && log[k].result.Ok? && log[k].first <= i < log[k].last
  }

  predicate Concerns(call: Call, i: nat) {
    call.first <= i < call.last
  }

  /** The last read that included request `i` failed, with this message. */
  ghost predicate Blamed(log: seq<Call>, i: nat, message: string) {
    exists k :: 0 <= k < |log| && BlamedOn(log, i, message, k)
  }

  ghost predicate BlamedOn(log: seq<Call>, i: nat, message: string, k: nat)
    requires k < |log|
  {
    && Concerns(log[k], i) && log[k].result.Err? && log[k].result.error.message == message
    && forall m :: k < m < |log| ==> !Concerns(log[m], i)
  }

  lemma {:induction false} BlameStays(log: seq<Call>, call: Call, i: nat, message: string)
    requires Blamed(log, i, message) && !Concerns(call, i)
    ensures Blamed(log + [call], i, message)
  {
    var k :| 0 <= k < |log| && BlamedOn(log, i, message, k);
    assert BlamedOn(log + [call], i, message, k);
  }

  lemma {:induction false} BlameFalls(log: seq<Call>, call: Call, i: nat)
    requires call.result.Err? && Concerns(call, i)
    ensures Blamed(log + [call], i, call.result.error.message)
  {
    assert BlamedOn(log + [call], i, call.result.error.message, |log|);
  }

  lemma {:induction false} BlamesFall(log: seq<Call>, call: Call)
    requires call.result.Err?
    ensures forall i: nat :: Concerns(call, i) ==> Blamed(log + [call], i, call.result.error.message)
  {
    forall i: nat | Concerns(call, i) ensures Blamed(log + [call], i, call.result.error.message) {
      BlameFalls(log, call, i);
    }
  }

  /** Of the first `n` requests each was part of a successful read or stands in exactly one failure, with the
      message of the last read that included it; the failures stand in the order of their requests. */
  ghost predicate Accounted(requests: seq<Request>, n: nat, failures: seq<Failure>, log: seq<Call>) {
    && n <= |requests|
    && (forall j :: 0 <= j < |failures| ==> failures[j].index < n)
    && (forall j, k :: 0 <= j < k < |failures| ==> failures[j].index < failures[k].index)
    && (forall j :: 0 <= j < |failures| ==> Names(failures[j], requests[failures[j].index]))
    && (forall j :: 0 <= j < |failures| ==> Blamed(log, failures[j].index, failures[j].message))
    && (forall i: nat :: i < n ==> (Served(log, i) <==> !Failed(failures, i)))
    && (forall k :: 0 <= k < |log| ==> log[k].last <= n || log[k].result.Err?)
  }

  lemma {:induction false} ServedAppend(log: seq<Call>, call: Call, i: nat)
    ensures Served(log + [call], i) <==> Served(log, i) || (call.result.Ok? && call.first <= i < call.last)
  {
    var after := log + [call];
    if Served(log, i) {
      var k :| 0 <= k < |log| && log[k].result.Ok? && log[k].first <= i < log[k].last;
      assert after[k] == log[k];
    }
    assert after[|log|] == call;
  }

  lemma {:induction false} BlamesStay(failures: seq<Failure>, log: seq<Call>, call: Call)
    requires forall j :: 0 <= j < |failures| ==> failures[j].index < call.first
    requires forall j :: 0 <= j < |failures| ==> Blamed(log, failures[j].index, failures[j].message)
    ensures forall j :: 0 <= j < |failures| ==> Blamed(log + [call], failures[j].index, failures[j].message)
  {
    forall j | 0 <= j < |failures| ensures Blamed(log + [call], failures[j].index, failures[j].message) {
      BlameStays(log, call, failures[j].index, failures[j].message);
    }
  }

  /** A read that fails serves nobody. */
  lemma {:induction false} FailedRead(requests: seq<Request>, n: nat, failures: seq<Failure>, log: seq<Call>,
      call: Call)
    requires Accounted(requests, n, failures, log) && call.result.Err? && n <= call.first
    ensures Accounted(requests, n, failures, log + [call])
  {
    BlamesStay(failures, log, call);
    forall i: nat | i < n ensures Served(log + [call], i) <==> !Failed(failures, i) {
      ServedAppend(log, call, i);
    }
  }

  lemma {:induction false} ServedRead(requests: seq<Request>, n: nat, failures: seq<Failure>, log: seq<Call>,
      call: Call)
    requires Accounted(requests, n, failures, log) && call.result.Ok? && n == call.first < call.last <= |requests|
    ensures Accounted(requests, call.last, failures, log + [call])
  {
    BlamesStay(failures, log, call);
    forall i: nat | i < call.last ensures Served(log + [call], i) <==> !Failed(failures, i) {
      ServedAppend(log, call, i);
    }
  }

  lemma {:induction false} OneFailed(requests: seq<Request>, n: nat, failures: seq<Failure>, log: seq<Call>,
      message: string)
    requires Accounted(requests, n, failures, log) && n < |requests| && Blamed(log, n, message)
    ensures Accounted(requests, n + 1, failures + [FailureOf(requests, n, message)], log)
  {
    var after := failures + [FailureOf(requests, n, message)];
    forall i: nat | i < n + 1 ensures Served(log, i) <==> !Failed(after, i) {
      if i == n {
        assert after[|failures|].index == n;
      } else if Failed(failures, i) {
        var j :| 0 <= j < |failures| && failures[j].index == i;
        assert after[j].index == i;
      }
    }
  }

  /** The pages of the successful reads, in the order of the reads. */
  function PagesOf(requests: seq<Request>, log: seq<Call>): seq<Sent> {
    if log == [] then [] else
      var call := log[|log| - 1];
      PagesOf(requests, log[..|log| - 1]) +
        if call.result.Ok? && call.first < |requests|
        then Tagged(call.result.value, requests[call.first].machine) else []
  }

  /** A read that may follow those in `log`: of requests to one machine, with the budget those have left. */
  ghost predicate Follows(requests: seq<Request>, read: Reader, max: int, log: seq<Call>, call: Call) {
    var budget := max - Chars(PagesOf(requests, log));
    && call.first < call.last <= |requests| && budget >= 0
    && (forall i :: call.first <= i < call.last ==> requests[i].machine == requests[call.first].machine)
    && call.result == read(|log|, requests[call.first].machine, requests[call.first..call.last], budget)
  }

  ghost predicate Faithful(requests: seq<Request>, read: Reader, max: int, log: seq<Call>, k: nat)
    requires k < |log|
  {
    Follows(requests, read, max, log[..k], log[k])
  }

  ghost predicate AllFaithful(requests: seq<Request>, read: Reader, max: int, log: seq<Call>) {
    forall k: nat :: k < |log| ==> Faithful(requests, read, max, log, k)
  }

  lemma {:induction false} PagesAppend(requests: seq<Request>, log: seq<Call>, call: Call)
    requires call.first < |requests|
    ensures PagesOf(requests, log + [call]) ==
      PagesOf(requests, log) + if call.result.Ok? then Tagged(call.result.value, requests[call.first].machine) else []
  {
    assert (log + [call])[..|log|] == log;
  }

  lemma {:induction false} FaithfulAppend(requests: seq<Request>, read: Reader, max: int, log: seq<Call>, call: Call)
    requires AllFaithful(requests, read, max, log) && Follows(requests, read, max, log, call)
    ensures AllFaithful(requests, read, max, log + [call])
  {
    var after := log + [call];
    forall k: nat | k < |after| ensures Faithful(requests, read, max, after, k) {
      assert after[..k] == log[..k];
      if k < |log| {
        assert Faithful(requests, read, max, log, k);
      } else {
        assert log[..|log|] == log;
      }
    }
  }

  /** No read returns more characters than it was allowed. */
  ghost predicate Fits(read: Reader) {
    forall n, machine, batch, budget :: Within(read(n, machine, batch, budget), budget)
  }

  predicate Within(result: Result<seq<Page>, ReadError>, budget: nat) {
    result.Ok? ==> ResultChars(result.value) <= budget
  }

  // ---------------------------------------------------------------- runs of one machine

  ghost predicate IsRun(requests: seq<Request>, position: nat, end: nat) {
    && position < end <= |requests|
    && (forall i :: position <= i < end ==> requests[i].machine == requests[position].machine)
    && (end < |requests| ==> requests[end].machine != requests[position].machine)
  }

  method RunEnd(requests: seq<Request>, position: nat) returns (end: nat)
    requires position < |requests|
    ensures IsRun(requests, position, end)
  {
    end := position + 1;
    while end < |requests| && requests[end].machine == requests[position].machine
      invariant position < end <= |requests|
      invariant forall i :: position <= i < end ==> requests[i].machine == requests[position].machine
    {
      end := end + 1;
    }
  }

  datatype Progress = Progress(calls: nat, remaining: nat, pages: seq<Sent>, failures: seq<Failure>)

  /** The state of the call after the first `n` requests: the budget and the pages are those of the reads. */
  ghost predicate Sound(requests: seq<Request>, n: nat, read: Reader, max: int, p: Progress, log: seq<Call>) {
    && Accounted(requests, n, p.failures, log) && AllFaithful(requests, read, max, log)
    && p.calls == |log| && p.pages == PagesOf(requests, log) && p.remaining + Chars(p.pages) == max
  }

  lemma {:induction false} ReadLogged(requests: seq<Request>, read: Reader, max: int, start: Progress,
      before: seq<Call>, call: Call, p: Progress)
    requires Sound(requests, call.first, read, max, start, before) && Follows(requests, read, max, before, call)
    requires p.calls == start.calls + 1 && p.failures == start.failures && p.remaining + Chars(p.pages) == max
    requires p.pages == start.pages +
      if call.result.Ok? then Tagged(call.result.value, requests[call.first].machine) else []
    ensures Sound(requests, if call.result.Ok? then call.last else call.first, read, max, p, before + [call])
  {
    PagesAppend(requests, before, call);
    FaithfulAppend(requests, read, max, before, call);
    if call.result.Ok? {
      ServedRead(requests, call.first, p.failures, before, call);
    } else {
      FailedRead(requests, call.first, p.failures, before, call);
    }
  }

  lemma IsNextRead(requests: seq<Request>, read: Reader, max: int, start: Progress, before: seq<Call>, call: Call)
    requires Sound(requests, call.first, read, max, start, before) && call.first < call.last <= |requests|
    requires forall i :: call.first <= i < call.last ==> requests[i].machine == requests[call.first].machine
    requires call.result ==
      read(start.calls, requests[call.first].machine, requests[call.first..call.last], start.remaining)
    ensures Follows(requests, read, max, before, call)
    ensures Fits(read) ==> Within(call.result, start.remaining)
  {
  }

  function ErrorOf(result: Result<seq<Page>, ReadError>): Option<ReadError> {
    if result.Ok? then None else Some(result.error)
  }

  /** A read of these requests, with this error if any. */
  predicate Reads(call: Call, first: nat, last: nat, error: Option<ReadError>) {
    call.first == first && call.last == last && ErrorOf(call.result) == error
  }

  /** One read of consecutive requests to one machine, its pages charged to the budget. */
  method ReadOnce(requests: seq<Request>, first: nat, last: nat, read: Reader, ghost max: int, start: Progress,
      ghost before: seq<Call>)
    returns (ok: bool, error: Option<ReadError>, p: Progress, ghost log: seq<Call>)
    requires first < last <= |requests| && Sound(requests, first, read, max, start, before)
    requires forall i :: first <= i < last ==> requests[i].machine == requests[first].machine
    ensures Fits(read) ==> ok
    ensures ok ==> Sound(requests, if error.None? then last else first, read, max, p, log)
    ensures ok ==> p.calls == start.calls + 1
    ensures ok ==> |log| == |before| + 1 && before <= log && Reads(log[|before|], first, last, error)
    ensures error == ErrorOf(read(start.calls, requests[first].machine, requests[first..last], start.remaining))
    ensures error.Some? ==> forall i :: first <= i < last ==> Blamed(log, i, error.value.message)
  {
    var machine := requests[first].machine;
    var result := read(start.calls, machine, requests[first..last], start.remaining);
    ghost var call := Call(first, last, result);
    IsNextRead(requests, read, max, start, before, call);
    log := before + [call];
    if result.Ok? {
      var left, pages;
      ok, left, pages := PushAll(result.value, machine, start.remaining, start.pages);
      error, p := None, start.(calls := start.calls + 1, remaining := left, pages := pages);
      if !ok {
        return;
      }
    } else {
      ok, error, p := true, Some(result.error), start.(calls := start.calls + 1);
      BlamesFall(before, call);
      assert p.pages == start.pages + [];
    }
    ReadLogged(requests, read, max, start, before, call, p);
  }

  /** One more read, of request `i` by itself. */
  ghost predicate ReadAlone(log: seq<Call>, i: nat, after: seq<Call>) {
    |after| == |log| + 1 && log <= after && after[|log|].first == i && after[|log|].last == i + 1
  }

  lemma OneMoreSingle(before: seq<Call>, log: seq<Call>, after: seq<Call>, position: nat, n: nat)
    requires before <= log && Singles(log, |before|, position, n) && ReadAlone(log, position + n, after)
    ensures before <= after && Singles(after, |before|, position, n + 1)
  {
  }

  /** One request of a failed batch: read again, or failed with the batch's own message. */
  method ReadOrFail(requests: seq<Request>, i: nat, read: Reader, retry: bool, error: ReadError, ghost max: int,
      start: Progress, ghost before: seq<Call>)
    returns (ok: bool, p: Progress, ghost log: seq<Call>)
    requires i < |requests| && Sound(requests, i, read, max, start, before)
    requires retry || Blamed(before, i, error.message)
    ensures ok ==> Sound(requests, i + 1, read, max, p, log)
    ensures Fits(read) ==> ok
    ensures ok ==> if retry then ReadAlone(before, i, log) else log == before
  {
    p, log := start, before;
    var failure := Some(error);
    if retry {
      ok, failure, p, log := ReadOnce(requests, i, i + 1, read, max, p, log);
      if !ok {
        return;
      }
    }
    if failure.Some? {
      OneFailed(requests, i, p.failures, log, failure.value.message);
      p := p.(failures := p.failures + [FailureOf(requests, i, failure.value.message)]);
    }
    ok := true;
  }

  /** The requests of a failed batch one by one: read again, or failed with the batch's own message. */
  method ReadSingly(requests: seq<Request>, position: nat, end: nat, read: Reader, retry: bool, error: ReadError,
                    ghost max: int, start: Progress, ghost before: seq<Call>)
    returns (ok: bool, p: Progress, ghost log: seq<Call>)
    requires position <= end <= |requests| && Sound(requests, position, read, max, start, before)
    requires forall i :: position <= i < end ==> Blamed(before, i, error.message)
    ensures ok ==> Sound(requests, end, read, max, p, log)
    ensures Fits(read) ==> ok
    ensures ok ==> before <= log && Singles(log, |before|, position, if retry then end - position else 0)
  {
    p, log := start, before;
    var i := position;
    while i < end
      invariant position <= i <= end && Sound(requests, i, read, max, p, log)
      invariant before <= log && Singles(log, |before|, position, if retry then i - position else 0)
      invariant !retry ==> log == before
    {
      ghost var done := log;
      ok, p, log := ReadOrFail(requests, i, read, retry, error, max, p, log);
      if !ok {
        return;
      }
      if retry {
        OneMoreSingle(before, done, log, position, i - position);
      }
      i := i + 1;
    }
    ok := true;
  }

  /** From `from` on the log holds `n` reads of one request each, in order from `position`, and no more. */
  ghost predicate Singles(log: seq<Call>, from: nat, position: nat, n: nat) {
    && |log| == from + n
    && forall k :: from <= k < |log| ==>
         log[k].first == position + (k - from) && log[k].last == log[k].first + 1
  }

  /** The reads of one run, from `from` on in the log: all its requests together, and where that failed locally or
      at a reachable peer each of them once more by itself; after a failure of the transport nothing. */
  ghost predicate RunReads(requests: seq<Request>, log: seq<Call>, position: nat, end: nat, from: nat) {
    && position < end <= |requests| && from < |log|
    && log[from].first == position && log[from].last == end
    && match log[from].result
       case Ok(_) => |log| == from + 1
       case Err(error) =>
         if requests[position].machine == "local" || error.peer then Singles(log, from + 1, position, end - position)
         else |log| == from + 1
  }

  /** One run: a batched read, and single reads where it fails locally or at a reachable peer. */
  method ReadRun(requests: seq<Request>, position: nat, end: nat, read: Reader, ghost max: int, start: Progress,
      ghost before: seq<Call>)
    returns (ok: bool, p: Progress, ghost log: seq<Call>)
    requires IsRun(requests, position, end) && Sound(requests, position, read, max, start, before)
    ensures ok ==> Sound(requests, end, read, max, p, log)
    ensures Fits(read) ==> ok
    ensures ok ==> before <= log && RunReads(requests, log, position, end, |before|)
  {
    var error;
    ok, error, p, log := ReadOnce(requests, position, end, read, max, start, before);
    if ok && error.Some? {
      var retry := requests[position].machine == LOCAL_MACHINE || error.value.peer;
      ok, p, log := ReadSingly(requests, position, end, read, retry, error.value, max, p, log);
    }
  }

  /** `cuts` divide the requests into maximal runs of one machine, all of them, in order. */
  ghost predicate MaximalRuns(requests: seq<Request>, cuts: seq<nat>, n: nat) {
    && cuts != [] && cuts[0] == 0 && cuts[|cuts| - 1] == n
    && forall i :: 0 <= i < |cuts| - 1 ==> IsRun(requests, cuts[i], cuts[i + 1])
  }

  lemma {:induction false} OneMoreRun(requests: seq<Request>, cuts: seq<nat>, position: nat, end: nat)
    requires MaximalRuns(requests, cuts, position) && IsRun(requests, position, end)
    ensures MaximalRuns(requests, cuts + [end], end)
  {
    var after := cuts + [end];
    forall i | 0 <= i < |after| - 1 ensures IsRun(requests, after[i], after[i + 1]) {
      if i < |cuts| - 1 {
        assert IsRun(requests, cuts[i], cuts[i + 1]);
      }
    }
  }

  /** All the requests, run by run. */
  method ReadAll(requests: seq<Request>, maxChars: nat, read: Reader)
    returns (ok: bool, p: Progress, ghost log: seq<Call>, ghost cuts: seq<nat>, ghost starts: seq<nat>)
    ensures ok ==> Sound(requests, |requests|, read, maxChars, p, log)
    ensures ok ==> MaximalRuns(requests, cuts, |requests|) && ReadInRuns(requests, cuts, starts, log)
    ensures Fits(read) ==> ok
  {
    log, cuts, starts, p := [], [0], [0], Progress(0, maxChars, [], []);
    var position := 0;
    while position < |requests|
      invariant Sound(requests, position, read, maxChars, p, log) && MaximalRuns(requests, cuts, position)
      invariant ReadInRuns(requests, cuts, starts, log)
      decreases |requests| - position
    {
      var end := RunEnd(requests, position);
      ghost var before := log;
      ok, p, log := ReadRun(requests, position, end, read, maxChars, p, log);
      if !ok {
        return;
      }
      RunDone(requests, cuts, starts, before, end, log);
      cuts, starts := cuts + [end], starts + [|log|];
      position := end;
    }
    ok := true;
  }

  /** The log holds the reads of each run, from the places `starts` on, one run after the other. */
  ghost predicate ReadInRuns(requests: seq<Request>, cuts: seq<nat>, starts: seq<nat>, log: seq<Call>) {
    && cuts != [] && |starts| == |cuts| && starts[0] == 0 && starts[|starts| - 1] == |log|
    && forall i: nat :: i + 1 < |cuts| ==> RunAt(requests, cuts, starts, log, i)
  }

  ghost predicate RunAt(requests: seq<Request>, cuts: seq<nat>, starts: seq<nat>, log: seq<Call>, i: nat)
    requires i + 1 < |cuts| == |starts|
  {
    && starts[i] < starts[i + 1] <= |log|
    && RunReads(requests, log[..starts[i + 1]], cuts[i], cuts[i + 1], starts[i])
  }

  lemma {:induction false} OneMoreRunRead(requests: seq<Request>, cuts: seq<nat>, starts: seq<nat>, before: seq<Call>,
      end: nat, log: seq<Call>)
    requires ReadInRuns(requests, cuts, starts, before) && before <= log
    requires RunReads(requests, log, cuts[|cuts| - 1], end, |before|)
    ensures ReadInRuns(requests, cuts + [end], starts + [|log|], log)
  {
    var cuts', starts' := cuts + [end], starts + [|log|];
    forall i: nat | i + 1 < |cuts'| ensures RunAt(requests, cuts', starts', log, i) {
      if i + 1 < |cuts| {
        assert RunAt(requests, cuts, starts, before, i);
        assert log[..starts[i + 1]] == before[..starts[i + 1]];
      } else {
        assert log[..|log|] == log;
      }
    }
  }

  lemma RunDone(requests: seq<Request>, cuts: seq<nat>, starts: seq<nat>, before: seq<Call>, end: nat, log: seq<Call>)
    requires cuts != [] && MaximalRuns(requests, cuts, cuts[|cuts| - 1]) && IsRun(requests, cuts[|cuts| - 1], end)
    requires ReadInRuns(requests, cuts, starts, before) && before <= log
    requires RunReads(requests, log, cuts[|cuts| - 1], end, |before|)
    ensures MaximalRuns(requests, cuts + [end], end) && ReadInRuns(requests, cuts + [end], starts + [|log|], log)
  {
    OneMoreRun(requests, cuts, cuts[|cuts| - 1], end);
    OneMoreRunRead(requests, cuts, starts, before, end, log);
  }

  ghost predicate AllValid(requests: seq<Request>, blank: string -> bool) {
    forall i :: 0 <= i < |requests| ==> Valid(requests[i], blank)
  }

  /**
  The whole call.  On success the answer holds the pages of the successful reads, the budget is exactly
  what was granted less what those pages hold, every request was served or failed once, and the requests
  were taken in maximal runs of one machine, each read in one batch, and singly only where that makes sense.
  The budget can only be exceeded by a reader that returns more than it was allowed.
  */
  method HydratePages(requests: seq<Request>, maxChars: nat, blank: string -> bool, read: Reader)
    returns (r: Result<Answer, Error>, ghost log: seq<Call>, ghost cuts: seq<nat>, ghost starts: seq<nat>)
    ensures r == Err(BadBudget) <==> !(1 <= maxChars <= MAX_READ_CHARS)
    ensures r == Err(BadBatch) <==> 1 <= maxChars <= MAX_READ_CHARS && !(1 <= |requests| <= MAX_SESSION_BATCH_SIZE)
    ensures r in {Err(BlankSession), Err(BadLimit), Err(BadOffset)} <==>
      1 <= maxChars <= MAX_READ_CHARS && 1 <= |requests| <= MAX_SESSION_BATCH_SIZE && !AllValid(requests, blank)
    ensures r in {Err(BlankSession), Err(BadLimit), Err(BadOffset)} ==>
      exists i: nat :: FirstFault(requests, blank, i, r.error)
    ensures r.Ok? ==>
      Sound(requests, |requests|, read, maxChars,
            Progress(|log|, r.value.remaining, r.value.pages, r.value.failures), log)
    ensures r.Ok? ==> MaximalRuns(requests, cuts, |requests|) && ReadInRuns(requests, cuts, starts, log)
    ensures Fits(read) ==> r != Err(BudgetExceeded)
  {
    log, cuts, starts := [], [0], [0];
    if !(1 <= maxChars <= MAX_READ_CHARS) {
      return Err(BadBudget), log, cuts, starts;
    }
    if !(1 <= |requests| <= MAX_SESSION_BATCH_SIZE) {
      return Err(BadBatch), log, cuts, starts;
    }
    var invalid := ValidateAll(requests, blank);
    if invalid.Some? {
      return Err(invalid.value), log, cuts, starts;
    }
    var ok, p;
    ok, p, log, cuts, starts := ReadAll(requests, maxChars, read);
    if !ok {
      return Err(BudgetExceeded), log, cuts, starts;
    }
    return Ok(Answer(p.pages, p.failures, p.remaining)), log, cuts, starts;
  }
}
