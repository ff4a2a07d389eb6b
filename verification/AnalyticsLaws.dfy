/**
What the rolled-up sessions mean: one batch against the records it saw, many flushes against one batch,
and a replayed path against a rebuild.
*/
module AnalyticsLaws {
  import opened Integers
  import opened Sorting
  import opened Sums
  import opened Wrappers
  import opened Analytics

  function KeyIs(key: Key): Record -> bool { (r: Record) => r.key == key }

  function OfKey(rs: seq<Record>, key: Key): seq<Record> { Filter(rs, KeyIs(key)) }

  /** One session's accumulator after all of `rs`. */
  function Batch(env: Env, rs: seq<Record>): Accumulator
    requires rs != []
  {
    var last := rs[|rs| - 1];
    Add(env, if |rs| == 1 then Begin(last) else Batch(env, rs[..|rs| - 1]), last)
  }

  /** The writer's sessions after `rs`, starting from none. */
  function Sessions(env: Env, rs: seq<Record>): map<Key, Accumulator> {
    if rs == [] then map[] else Recorded(env, Sessions(env, rs[..|rs| - 1]), rs[|rs| - 1])
  }

  lemma {:induction false} BatchNext(env: Env, rs: seq<Record>, r: Record)
    ensures Batch(env, rs + [r]) == Add(env, if rs == [] then Begin(r) else Batch(env, rs), r)
  {
    assert (rs + [r])[..|rs|] == rs;
  }

  lemma {:induction false} OfKeyNext(rs: seq<Record>, n: nat, key: Key)
    requires n < |rs|
    ensures OfKey(rs[..n + 1], key) == OfKey(rs[..n], key) + if rs[n].key == key then [rs[n]] else []
  {
    FilterAppend(rs[..n], [rs[n]], KeyIs(key));
    assert rs[..n + 1] == rs[..n] + [rs[n]];
  }

  lemma {:induction false} SessionsAreBatches(env: Env, rs: seq<Record>, key: Key)
    ensures key in Sessions(env, rs) <==> OfKey(rs, key) != []
    ensures key in Sessions(env, rs) ==> Sessions(env, rs)[key] == Batch(env, OfKey(rs, key))
  {
    if rs == [] {
    } else {
      var n := |rs| - 1;
      var before := OfKey(rs[..n], key);
      SessionsAreBatches(env, rs[..n], key);
      OfKeyNext(rs, n, key);
      assert rs[..n + 1] == rs;
      if rs[n].key == key {
        BatchNext(env, before, rs[n]);
      } else {
        assert before + [] == before;
      }
    }
  }

  // ---------------------------------------------------------------- one batch

  /** The earliest and the latest time in `rs`. */
  ghost predicate Spans(rs: seq<Record>, low: nat, high: nat) {
    && (forall i :: 0 <= i < |rs| ==> low <= rs[i].ts <= high)
    && (exists i :: 0 <= i < |rs| && rs[i].ts == low)
    && (exists i :: 0 <= i < |rs| && rs[i].ts == high)
  }

  lemma {:induction false} BatchSpans(env: Env, rs: seq<Record>)
    requires rs != []
    ensures Spans(rs, Batch(env, rs).startedAt, Batch(env, rs).lastAt)
    ensures Batch(env, rs).count == if |rs| <= U64_MAX then |rs| else U64_MAX
  {
    var n := |rs| - 1;
    var r := rs[n];
    assert rs == rs[..n] + [r];
    if n > 0 {
      var a := Batch(env, rs[..n]);
      BatchSpans(env, rs[..n]);
      SpansNext(rs[..n], r, a.startedAt, a.lastAt);
    } else {
      assert rs[0].ts == r.ts;
    }
  }

  lemma {:induction false} SpansNext(rs: seq<Record>, r: Record, low: nat, high: nat)
    requires Spans(rs, low, high)
    ensures Spans(rs + [r], if r.ts < low then r.ts else low, if r.ts >= high then r.ts else high)
  {
    var all := rs + [r];
    var i :| 0 <= i < |rs| && rs[i].ts == low;
    var j :| 0 <= j < |rs| && rs[j].ts == high;
    assert all[i].ts == low && all[j].ts == high && all[|rs|].ts == r.ts;
  }

  /** A user's record whose text yields a label. */
  predicate IsLabelled(env: Env, r: Record) {
    r.role == "user" && env.labelled(r.text)
  }

  /** `r` comes before `q` by turn, within a turn by time, and then by document id. */
  predicate Earlier(r: Record, q: Record) {
    || r.turnId < q.turnId
    || (r.turnId == q.turnId && r.ts < q.ts)
    || (r.turnId == q.turnId && r.ts == q.ts && r.docId < q.docId)
  }

  /** `i` is a least opening record of `rs`. */
  ghost predicate Leads(env: Env, rs: seq<Record>, i: nat) {
    && i < |rs| && IsLabelled(env, rs[i])
    && forall j :: 0 <= j < |rs| && IsLabelled(env, rs[j]) ==> !Earlier(rs[j], rs[i])
  }

  ghost predicate NoneOpens(env: Env, rs: seq<Record>) {
    forall j :: 0 <= j < |rs| ==> !IsLabelled(env, rs[j])
  }

  /** The first user text is that of a least record that opens the session. */
  lemma {:induction false} BatchFirst(env: Env, rs: seq<Record>) returns (i: nat)
    requires rs != []
    ensures var a := Batch(env, rs);
      if NoneOpens(env, rs) then a.firstText.None? && a.firstOrder.None?
      else Leads(env, rs, i) && a.firstText == Some(rs[i].text) && a.firstOrder == Some(OrderOf(rs[i]))
  {
    var n := |rs| - 1;
    i := n;
    if n == 0 {
    } else {
      var before := rs[..n];
      var k := BatchFirst(env, before);
      assert forall x :: 0 <= x < n ==> rs[x] == before[x];
      assert NoneOpens(env, rs) <==> NoneOpens(env, before) && !IsLabelled(env, rs[n]);
      if !NoneOpens(env, before) && !(Opens(env, rs[n]) && Less(OrderOf(rs[n]), OrderOf(before[k]))) {
        i := k;
      }
    }
  }

  ghost predicate Says(rs: seq<Record>, kind: string) {
    exists i :: 0 <= i < |rs| && rs[i].kind == Some(kind)
  }

  ghost predicate NoKinds(rs: seq<Record>) {
    forall i :: 0 <= i < |rs| ==> rs[i].kind.None? || rs[i].kind == Some("")
  }

  /** "main" exactly when some record says so, nothing exactly when no record says anything. */
  lemma {:induction false} BatchKind(env: Env, rs: seq<Record>)
    requires rs != []
    ensures var a := Batch(env, rs);
      && (a.kind == Some("main") <==> Says(rs, "main"))
      && (a.kind.None? <==> NoKinds(rs))
      && (a.kind.Some? ==> a.kind.value != "" && Says(rs, a.kind.value))
  {
    var n := |rs| - 1;
    if n == 0 {
    } else {
      var before := rs[..n];
      BatchKind(env, before);
      assert forall x :: 0 <= x < n ==> rs[x] == before[x];
      forall kind ensures Says(rs, kind) <==> Says(before, kind) || rs[n].kind == Some(kind) {
        if Says(before, kind) {
          var i :| 0 <= i < n && before[i].kind == Some(kind);
          assert rs[i].kind == Some(kind);
        }
      }
    }
  }

  // ---------------------------------------------------------------- any order of records

  /** Records with the same turn, time and document id are the same record. */
  ghost predicate DistinctOrders(rs: seq<Record>) {
    forall i, j :: 0 <= i < |rs| && 0 <= j < |rs| && OrderOf(rs[i]) == OrderOf(rs[j]) ==> rs[i] == rs[j]
  }

  lemma {:induction false} SpansUnique(rs: seq<Record>, qs: seq<Record>, low: nat, high: nat, low': nat, high': nat)
    requires multiset(rs) == multiset(qs) && Spans(rs, low, high) && Spans(qs, low', high')
    ensures low == low' && high == high'
  {
    var a :| 0 <= a < |rs| && rs[a].ts == low;
    var b :| 0 <= b < |rs| && rs[b].ts == high;
    var c :| 0 <= c < |qs| && qs[c].ts == low';
    var d :| 0 <= d < |qs| && qs[d].ts == high';
    assert rs[a] in multiset(qs) && rs[b] in multiset(qs) && qs[c] in multiset(rs) && qs[d] in multiset(rs);
  }

  lemma {:induction false} SaysPermutes(rs: seq<Record>, qs: seq<Record>, kind: string)
    requires multiset(rs) == multiset(qs) && Says(rs, kind)
    ensures Says(qs, kind)
  {
    var i :| 0 <= i < |rs| && rs[i].kind == Some(kind);
    assert rs[i] in multiset(qs);
  }

  lemma {:induction false} OpensPermutes(env: Env, rs: seq<Record>, qs: seq<Record>)
    requires multiset(rs) == multiset(qs) && NoneOpens(env, rs)
    ensures NoneOpens(env, qs)
  {
    forall j | 0 <= j < |qs| ensures !IsLabelled(env, qs[j]) {
      assert qs[j] in multiset(rs);
    }
  }

  lemma {:induction false} LeadsUnique(env: Env, rs: seq<Record>, qs: seq<Record>, i: nat, k: nat)
    requires multiset(rs) == multiset(qs) && DistinctOrders(rs) && Leads(env, rs, i) && Leads(env, qs, k)
    ensures rs[i] == qs[k]
  {
    assert rs[i] in multiset(qs) && qs[k] in multiset(rs);
    var x :| 0 <= x < |qs| && qs[x] == rs[i];
    var y :| 0 <= y < |rs| && rs[y] == qs[k];
    assert OrderOf(rs[y]) == OrderOf(rs[i]);
  }

  /** Time bounds, count, first user text and being "main" do not depend on the order of the records. */
  lemma {:induction false} BatchPermutes(env: Env, rs: seq<Record>, qs: seq<Record>)
    requires rs != [] && qs != [] && multiset(rs) == multiset(qs) && DistinctOrders(rs)
    ensures var a, b := Batch(env, rs), Batch(env, qs);
      && a.startedAt == b.startedAt && a.lastAt == b.lastAt && a.count == b.count
      && a.firstText == b.firstText && a.firstOrder == b.firstOrder
      && (a.kind == Some("main") <==> b.kind == Some("main"))
  {
    var a, b := Batch(env, rs), Batch(env, qs);
    assert |rs| == |multiset(rs)| && |qs| == |multiset(qs)|;
    BatchSpans(env, rs);
    BatchSpans(env, qs);
    SpansUnique(rs, qs, a.startedAt, a.lastAt, b.startedAt, b.lastAt);
    BatchKind(env, rs);
    BatchKind(env, qs);
    if Says(rs, "main") { SaysPermutes(rs, qs, "main"); }
    if Says(qs, "main") { SaysPermutes(qs, rs, "main"); }
    FirstPermutes(env, rs, qs);
  }

  lemma {:induction false} FirstPermutes(env: Env, rs: seq<Record>, qs: seq<Record>)
    requires rs != [] && qs != [] && multiset(rs) == multiset(qs) && DistinctOrders(rs)
    ensures Batch(env, rs).firstText == Batch(env, qs).firstText
    ensures Batch(env, rs).firstOrder == Batch(env, qs).firstOrder
  {
    var i := BatchFirst(env, rs);
    var k := BatchFirst(env, qs);
    if NoneOpens(env, rs) {
      OpensPermutes(env, rs, qs);
    } else if NoneOpens(env, qs) {
      OpensPermutes(env, qs, rs);
    } else {
      LeadsUnique(env, rs, qs, i, k);
    }
  }

  // ---------------------------------------------------------------- flush by flush

  /** The stored row of `key` after flushing `batches` one after the other into an empty table. */
  function StoredRow(env: Env, key: Key, batches: seq<seq<Record>>): Option<Row> {
    if batches == [] then None else
      var before, rs := StoredRow(env, key, batches[..|batches| - 1]), OfKey(batches[|batches| - 1], key);
      if rs == [] then before else Some(Upsert(before, RowOf(env, key, Batch(env, rs))))
  }

  /** `tables` are the stored rows before, between and after the flushes of `batches`. */
  ghost predicate Flushes(env: Env, batches: seq<seq<Record>>, tables: seq<map<Key, Row>>) {
    && |tables| == |batches| + 1 && tables[0] == map[]
    && forall i :: 0 <= i < |batches| ==> Committed(env, tables[i], Sessions(env, batches[i]), [], [], tables[i + 1])
  }

  lemma {:induction false} FlushesStore(env: Env, batches: seq<seq<Record>>, tables: seq<map<Key, Row>>, n: nat,
      key: Key)
    requires Flushes(env, batches, tables) && n <= |batches|
    ensures Lookup(tables[n], key) == StoredRow(env, key, batches[..n])
  {
    if n == 0 {
    } else {
      FlushesStore(env, batches, tables, n - 1, key);
      assert batches[..n][..n - 1] == batches[..n - 1];
      SessionsAreBatches(env, batches[n - 1], key);
      assert Committed(env, tables[n - 1], Sessions(env, batches[n - 1]), [], [], tables[n]);
      assert !Deleted(key, [], []);
    }
  }

  /** Times and number of records a signed 64-bit column can hold. */
  ghost predicate InRange(rs: seq<Record>) {
    |rs| <= I64_MAX && forall i :: 0 <= i < |rs| ==> rs[i].ts <= I64_MAX
  }

  /** The row's bounds and count are those of `rs`. */
  ghost predicate Totals(rs: seq<Record>, row: Row) {
    row.startedAt >= 0 && row.lastAt >= 0 && Spans(rs, row.startedAt, row.lastAt) && row.count == |rs|
  }

  /** The conversion wraps around, and so leaves what fits as it is. */
  lemma Fits(n: nat)
    ensures -1 <= AsI64(n) + I64_MAX && AsI64(n) <= I64_MAX && (AsI64(n) - n) % (U64_MAX + 1) == 0
    ensures n <= I64_MAX ==> AsI64(n) == n
  {
  }

  lemma {:induction false} BatchRow(env: Env, key: Key, rs: seq<Record>)
    requires rs != [] && InRange(rs)
    ensures Totals(rs, RowOf(env, key, Batch(env, rs)))
  {
    var a := Batch(env, rs);
    BatchSpans(env, rs);
    Fits(a.startedAt);
    Fits(a.lastAt);
    Fits(a.count);
  }

  lemma {:induction false} SpansJoin(a: seq<Record>, b: seq<Record>, low: nat, high: nat, low': nat, high': nat)
    requires Spans(a, low, high) && Spans(b, low', high')
    ensures Spans(a + b, if low <= low' then low else low', if high >= high' then high else high')
  {
    var i :| 0 <= i < |a| && a[i].ts == low;
    var j :| 0 <= j < |a| && a[j].ts == high;
    var k :| 0 <= k < |b| && b[k].ts == low';
    var l :| 0 <= l < |b| && b[l].ts == high';
    assert (a + b)[i].ts == low && (a + b)[j].ts == high;
    assert (a + b)[|a| + k].ts == low' && (a + b)[|a| + l].ts == high';
  }

  lemma {:induction false} RangeSplits(a: seq<Record>, b: seq<Record>)
    requires InRange(a + b)
    ensures InRange(a) && InRange(b)
  {
    assert forall i :: 0 <= i < |a| ==> a[i] == (a + b)[i];
    assert forall i :: 0 <= i < |b| ==> b[i] == (a + b)[|a| + i];
  }

  /** However a session's records are split into flushes, the stored bounds and count are those of all of them. */
  lemma {:induction false} FlushesAddUp(env: Env, key: Key, batches: seq<seq<Record>>)
    requires InRange(OfKey(Concat(batches), key))
    ensures StoredRow(env, key, batches).None? <==> OfKey(Concat(batches), key) == []
    ensures StoredRow(env, key, batches).Some? ==>
      Totals(OfKey(Concat(batches), key), StoredRow(env, key, batches).value)
  {
    if batches == [] {
    } else {
      var n := |batches| - 1;
      var before, rs := OfKey(Concat(batches[..n]), key), OfKey(batches[n], key);
      ConcatSnoc(batches);
      FilterAppend(Concat(batches[..n]), batches[n], KeyIs(key));
      assert OfKey(Concat(batches), key) == before + rs;
      RangeSplits(before, rs);
      FlushesAddUp(env, key, batches[..n]);
      if rs == [] {
        assert before + rs == before;
      } else {
        BatchRow(env, key, rs);
        var row, earlier := RowOf(env, key, Batch(env, rs)), StoredRow(env, key, batches[..n]);
        if earlier.None? {
          assert before + rs == rs;
        } else {
          SpansJoin(before, rs, earlier.value.startedAt, earlier.value.lastAt, row.startedAt, row.lastAt);
        }
      }
    }
  }

  predicate SameNumbers(a: Row, b: Row) {
    a.startedAt == b.startedAt && a.lastAt == b.lastAt && a.count == b.count
  }

  /** Incremental flushes refine one batch. */
  lemma {:induction false} IncrementalIsBatch(env: Env, key: Key, batches: seq<seq<Record>>, tables: seq<map<Key, Row>>)
    requires Flushes(env, batches, tables) && InRange(OfKey(Concat(batches), key))
    ensures var rs := OfKey(Concat(batches), key);
      && (key in tables[|batches|] <==> rs != [])
      && (rs != [] ==> SameNumbers(tables[|batches|][key], RowOf(env, key, Batch(env, rs))))
  {
    var rs := OfKey(Concat(batches), key);
    FlushesStore(env, batches, tables, |batches|, key);
    assert batches[..|batches|] == batches;
    FlushesAddUp(env, key, batches);
    if rs != [] {
      BatchRow(env, key, rs);
      var row, whole := tables[|batches|][key], RowOf(env, key, Batch(env, rs));
      SpansUnique(rs, rs, row.startedAt, row.lastAt, whole.startedAt, whole.lastAt);
    }
  }

  // ---------------------------------------------------------------- labels and kinds stay

  datatype Transaction = Transaction(sessions: map<Key, Accumulator>, paths: seq<string>, scopes: seq<Scope>)

  ghost predicate Commits(env: Env, txs: seq<Transaction>, tables: seq<map<Key, Row>>) {
    && |tables| == |txs| + 1
    && forall i :: 0 <= i < |txs| ==>
         Committed(env, tables[i], txs[i].sessions, txs[i].paths, txs[i].scopes, tables[i + 1])
  }

  /** Once stored, a label or kind stays until the row is deleted. */
  lemma {:induction false} LabelAndKindStay(env: Env, txs: seq<Transaction>, tables: seq<map<Key, Row>>, key: Key,
      n: nat)
    requires Commits(env, txs, tables) && n <= |txs| && key in tables[0]
    requires forall i :: 0 <= i < n ==> !Deleted(key, txs[i].paths, txs[i].scopes)
    ensures key in tables[n]
    ensures tables[0][key].caption.Some? ==> tables[n][key].caption == tables[0][key].caption
    ensures tables[0][key].kind.Some? ==> tables[n][key].kind == tables[0][key].kind
  {
    if n == 0 {
    } else {
      LabelAndKindStay(env, txs, tables, key, n - 1);
      var tx := txs[n - 1];
      assert Committed(env, tables[n - 1], tx.sessions, tx.paths, tx.scopes, tables[n]);
      assert Lookup(tables[n], key) == RowAfter(env, tables[n - 1], tx.sessions, tx.paths, tx.scopes, key);
    }
  }

  /** `x` is the first of the values that is there, or none is. */
  ghost predicate FirstPresent<T(!new)>(offers: seq<Option<T>>, x: Option<T>) {
    if x.None? then forall i :: 0 <= i < |offers| ==> offers[i].None?
    else exists i :: 0 <= i < |offers| && offers[i] == x && forall j :: 0 <= j < i ==> offers[j].None?
  }

  lemma OneOffer<T(!new)>(x: Option<T>)
    ensures FirstPresent([x], x)
  {
    assert [x][0] == x;
  }

  lemma {:induction false} OneMoreOffer<T(!new)>(offers: seq<Option<T>>, x: Option<T>, last: Option<T>)
    requires FirstPresent(offers, x)
    ensures FirstPresent(offers + [last], if x.Some? then x else last)
  {
    var more := offers + [last];
    assert more[|offers|] == last && forall i :: 0 <= i < |offers| ==> more[i] == offers[i];
    if x.Some? {
      var i :| 0 <= i < |offers| && offers[i] == x && forall j :: 0 <= j < i ==> offers[j].None?;
      assert more[i] == x;
    }
  }

  /** What a row starts from: the stored one, unless the first transaction deletes it. */
  function Kept(txs: seq<Transaction>, stored: Option<Row>, key: Key): Option<Row> {
    if txs != [] && Deleted(key, txs[0].paths, txs[0].scopes) then None else stored
  }

  function LabelBrought(env: Env, tx: Transaction, key: Key): Option<string> {
    if key in tx.sessions then env.captionOf(key, tx.sessions[key].firstText) else None
  }

  function KindBrought(env: Env, tx: Transaction, key: Key): Option<string> {
    if key in tx.sessions then env.infer(key, tx.sessions[key].kind, tx.sessions[key].firstText) else None
  }

  /** The label a row starts with, and then those its transactions bring. */
  function Labels(env: Env, txs: seq<Transaction>, stored: Option<Row>, key: Key): seq<Option<string>> {
    [LabelOf(Kept(txs, stored, key))] +
    seq(|txs|, i requires 0 <= i < |txs| => LabelBrought(env, txs[i], key))
  }

  function Kinds(env: Env, txs: seq<Transaction>, stored: Option<Row>, key: Key): seq<Option<string>> {
    [KindOf(Kept(txs, stored, key))] +
    seq(|txs|, i requires 0 <= i < |txs| => KindBrought(env, txs[i], key))
  }

  function LabelOf(row: Option<Row>): Option<string> { if row.Some? then row.value.caption else None }

  function KindOf(row: Option<Row>): Option<string> { if row.Some? then row.value.kind else None }

  ghost predicate Brings(txs: seq<Transaction>, key: Key) {
    exists i :: 0 <= i < |txs| && key in txs[i].sessions
  }

  lemma {:induction false} LastTransaction(env: Env, txs: seq<Transaction>, stored: Option<Row>, key: Key)
    requires |txs| > 1
    ensures var before, last := txs[..|txs| - 1], txs[|txs| - 1];
      && Kept(txs, stored, key) == Kept(before, stored, key)
      && Labels(env, txs, stored, key) == Labels(env, before, stored, key) + [LabelBrought(env, last, key)]
      && Kinds(env, txs, stored, key) == Kinds(env, before, stored, key) + [KindBrought(env, last, key)]
      && (Brings(txs, key) <==> Brings(before, key) || key in last.sessions)
  {
    var before := txs[..|txs| - 1];
    assert forall i :: 0 <= i < |before| ==> before[i] == txs[i];
  }

  /** A row that is not deleted again has the first label that was there: the one it started with, or else the first
      that a transaction brought, and none exactly if none did.  The same holds of its kind. */
  lemma {:induction false} FirstLabelAndKindStick(env: Env, txs: seq<Transaction>, tables: seq<map<Key, Row>>,
      key: Key)
    requires Commits(env, txs, tables)
    requires forall i :: 0 < i < |txs| ==> !Deleted(key, txs[i].paths, txs[i].scopes)
    ensures var stored, row := Lookup(tables[0], key), Lookup(tables[|txs|], key);
      && (row.Some? <==> Kept(txs, stored, key).Some? || Brings(txs, key))
      && FirstPresent(Labels(env, txs, stored, key), LabelOf(row))
      && FirstPresent(Kinds(env, txs, stored, key), KindOf(row))
  {
    var stored := Lookup(tables[0], key);
    if txs == [] {
      OneOffer(LabelOf(stored));
      OneOffer(KindOf(stored));
      assert Labels(env, txs, stored, key) == [LabelOf(stored)] && Kinds(env, txs, stored, key) == [KindOf(stored)];
    } else {
      var n := |txs| - 1;
      var tx := txs[n];
      assert Committed(env, tables[n], tx.sessions, tx.paths, tx.scopes, tables[n + 1]);
      assert Lookup(tables[n + 1], key) == RowAfter(env, tables[n], tx.sessions, tx.paths, tx.scopes, key);
      if n == 0 {
        StartingRow(env, tx, stored, Lookup(tables[1], key), key);
        assert txs == [tx];
      } else {
        FirstLabelAndKindStick(env, txs[..n], tables[..n + 1], key);
        LastTransaction(env, txs, stored, key);
        var before := Lookup(tables[n], key);
        OneMoreOffer(Labels(env, txs[..n], stored, key), LabelOf(before), LabelBrought(env, tx, key));
        OneMoreOffer(Kinds(env, txs[..n], stored, key), KindOf(before), KindBrought(env, tx, key));
      }
    }
  }

  lemma {:induction false} StartingRow(env: Env, tx: Transaction, stored: Option<Row>, row: Option<Row>, key: Key)
    requires var was := if Deleted(key, tx.paths, tx.scopes) then None else stored;
      row == if key in tx.sessions then Some(Upsert(was, RowOf(env, key, tx.sessions[key]))) else was
    ensures row.Some? <==> Kept([tx], stored, key).Some? || Brings([tx], key)
    ensures FirstPresent(Labels(env, [tx], stored, key), LabelOf(row))
    ensures FirstPresent(Kinds(env, [tx], stored, key), KindOf(row))
  {
    var was := Kept([tx], stored, key);
    assert [tx][0] == tx;
    OneOffer(LabelOf(was));
    OneOffer(KindOf(was));
    OneMoreOffer([LabelOf(was)], LabelOf(was), LabelBrought(env, tx, key));
    OneMoreOffer([KindOf(was)], KindOf(was), KindBrought(env, tx, key));
    assert Labels(env, [tx], stored, key) == [LabelOf(was)] + [LabelBrought(env, tx, key)];
    assert Kinds(env, [tx], stored, key) == [KindOf(was)] + [KindBrought(env, tx, key)];
  }

  /** Flush by flush, the stored label is the first that a flush's records gave, and so is the kind. */
  lemma {:induction false} FlushedLabelIsFirst(env: Env, batches: seq<seq<Record>>, tables: seq<map<Key, Row>>,
      key: Key, txs: seq<Transaction>)
    requires Flushes(env, batches, tables) && |txs| == |batches|
    requires forall i :: 0 <= i < |txs| ==> txs[i] == Transaction(Sessions(env, batches[i]), [], [])
    ensures FirstPresent(Labels(env, txs, None, key), LabelOf(Lookup(tables[|batches|], key)))
    ensures FirstPresent(Kinds(env, txs, None, key), KindOf(Lookup(tables[|batches|], key)))
    ensures forall i :: 0 <= i < |txs| ==>
      var rs := OfKey(batches[i], key);
      && LabelBrought(env, txs[i], key) == BatchLabel(env, rs, key)
      && KindBrought(env, txs[i], key) == BatchConversationKind(env, rs, key)
  {
    FirstLabelAndKindStick(env, txs, tables, key);
    forall i | 0 <= i < |txs|
      ensures LabelBrought(env, txs[i], key) == BatchLabel(env, OfKey(batches[i], key), key)
      ensures KindBrought(env, txs[i], key) == BatchConversationKind(env, OfKey(batches[i], key), key)
    {
      SessionsAreBatches(env, batches[i], key);
    }
  }

  /** The label that records of one session give, if any. */
  function BatchLabel(env: Env, rs: seq<Record>, key: Key): Option<string> {
    if rs == [] then None else env.captionOf(key, Batch(env, rs).firstText)
  }

  function BatchConversationKind(env: Env, rs: seq<Record>, key: Key): Option<string> {
    if rs == [] then None else env.infer(key, Batch(env, rs).kind, Batch(env, rs).firstText)
  }

  /** The project is that of the last transaction with records of the session. */
  lemma {:induction false} ProjectIsLast(env: Env, txs: seq<Transaction>, tables: seq<map<Key, Row>>, key: Key, i: nat,
      n: nat)
    requires Commits(env, txs, tables) && i < n <= |txs| && key in txs[i].sessions
    requires forall j :: i < j < n ==>
      key !in txs[j].sessions && !Deleted(key, txs[j].paths, txs[j].scopes)
    ensures key in tables[n] && tables[n][key].project == txs[i].sessions[key].project
  {
    var tx := txs[n - 1];
    assert Committed(env, tables[n - 1], tx.sessions, tx.paths, tx.scopes, tables[n]);
    assert Lookup(tables[n], key) == RowAfter(env, tables[n - 1], tx.sessions, tx.paths, tx.scopes, key);
    if n == i + 1 {
    } else {
      ProjectIsLast(env, txs, tables, key, i, n - 1);
    }
  }

  // ---------------------------------------------------------------- replay

  function OnPath(path: string): Record -> bool { (r: Record) => r.key.path == path }

  lemma {:induction false} ReplayHasAll(rs: seq<Record>, path: string, key: Key)
    ensures OfKey(Filter(rs, OnPath(path)), key) == if key.path == path then OfKey(rs, key) else []
  {
    if rs == [] {
    } else {
      ReplayHasAll(rs[1..], path, key);
      FilterAppend(if OnPath(path)(rs[0]) then [rs[0]] else [], Filter(rs[1..], OnPath(path)), KeyIs(key));
    }
  }

  /** Deleting a path and replaying its records gives that path the rows of a rebuild, and no other path
      another row. */
  lemma {:induction false} ReplayIsRebuild(env: Env, records: seq<Record>, path: string, rows: map<Key, Row>,
      after: map<Key, Row>, rebuilt: map<Key, Row>, key: Key)
    requires Committed(env, rows, Sessions(env, Filter(records, OnPath(path))), [path], [], after)
    requires Committed(env, map[], Sessions(env, records), [], [], rebuilt)
    ensures Lookup(after, key) == if key.path == path then Lookup(rebuilt, key) else Lookup(rows, key)
  {
    ReplayHasAll(records, path, key);
    SessionsAreBatches(env, Filter(records, OnPath(path)), key);
    SessionsAreBatches(env, records, key);
    assert Lookup(after, key) == RowAfter(env, rows, Sessions(env, Filter(records, OnPath(path))), [path], [], key);
    assert Lookup(rebuilt, key) == RowAfter(env, map[], Sessions(env, records), [], [], key);
    assert !Scoped(key, []);
  }

  // ---------------------------------------------------------------- the writer

  method RecordAll(w: Writer, rs: seq<Record>)
    requires w.sessions == map[]
    modifies w`sessions
    ensures w.sessions == Sessions(w.env, rs)
  {
    for i := 0 to |rs|
      invariant w.sessions == Sessions(w.env, rs[..i])
    {
      assert rs[..i + 1][..i] == rs[..i];
      w.Record(rs[i]);
    }
    assert rs[..|rs|] == rs;
  }

  /** Everything from nothing in one flush. */
  method Rebuild(env: Env, records: seq<Record>) returns (w: Writer)
    ensures fresh(w) && w.env == env && w.sessions == map[]
    ensures Committed(env, map[], Sessions(env, records), [], [], w.rows)
  {
    w := new Writer(env, map[]);
    RecordAll(w, records);
    var ok := w.Commit([], [], true);
  }

  /** One incremental flush, `paths` being deleted first. */
  method Flush(w: Writer, batch: seq<Record>, paths: seq<string>, scopes: seq<Scope>)
    requires w.sessions == map[]
    modifies w
    ensures w.sessions == map[]
    ensures Committed(w.env, old(w.rows), Sessions(w.env, batch), paths, scopes, w.rows)
  {
    RecordAll(w, batch);
    var ok := w.Commit(paths, scopes, true);
  }
}
