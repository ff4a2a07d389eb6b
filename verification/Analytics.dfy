/**
Session analytics.  Records are folded into one accumulator per session; a commit deletes the rows of
given paths and session scopes and merges the accumulators into the stored rows.
*/
module Analytics {
  import opened Integers
  import opened Wrappers

  datatype Key = Key(source: string, sessionId: string, path: string)

  datatype Scope = Scope(path: string, sessionId: string)

  datatype Record = Record(key: Key, project: string, ts: nat, turnId: nat, docId: nat,
                           role: string, text: string, kind: Option<string>)

  datatype Accumulator = Accumulator(project: string, startedAt: nat, lastAt: nat, count: nat,
                                     firstText: Option<string>, firstOrder: Option<Order>, kind: Option<string>)

  datatype Row = Row(project: string, startedAt: int, lastAt: int, count: int,
                     caption: Option<string>, kind: Option<string>)

  datatype Order = Order(turnId: nat, ts: nat, docId: nat)

  /** What lies outside: which texts clean up to a label, and a session's label and kind, which depend on
      the key (working directory, files of the session) and on what the records said. */
  datatype Env = Env(labelled: string -> bool,
                     captionOf: (Key, Option<string>) -> Option<string>,
                     infer: (Key, Option<string>, Option<string>) -> Option<string>)

  /** `as i64` on an unsigned 64-bit number. */
  function AsI64(n: nat): int {
    var low := n % (U64_MAX + 1);
    if low <= I64_MAX then low else low - (U64_MAX + 1)
  }

  // ---------------------------------------------------------------- accumulating

  predicate Less(a: Order, b: Order) {
    a.turnId < b.turnId || (a.turnId == b.turnId && (a.ts < b.ts || (a.ts == b.ts && a.docId < b.docId)))
  }

  function OrderOf(r: Record): Order { Order(r.turnId, r.ts, r.docId) }

  predicate Opens(env: Env, r: Record) {
    r.role == "user" && env.labelled(r.text)
  }

  predicate HasKind(r: Record) {
    r.kind.Some? && r.kind.value != ""
  }

  function Begin(r: Record): Accumulator {
    Accumulator(r.project, r.ts, r.ts, 0, None, None, None)
  }

  function Add(env: Env, a: Accumulator, r: Record): Accumulator {
    var opens := (a.firstOrder.None? || Less(OrderOf(r), a.firstOrder.value)) && Opens(env, r);
    Accumulator(
      if r.ts >= a.lastAt && r.project != "" then r.project else a.project,
      if r.ts < a.startedAt then r.ts else a.startedAt,
      if r.ts >= a.lastAt then r.ts else a.lastAt,
      if a.count < U64_MAX then a.count + 1 else a.count,
      if opens then Some(r.text) else a.firstText,
      if opens then Some(OrderOf(r)) else a.firstOrder,
      if HasKind(r) && (a.kind.None? || r.kind.value == "main") then r.kind else a.kind)
  }

  function Recorded(env: Env, sessions: map<Key, Accumulator>, r: Record): map<Key, Accumulator> {
    sessions[r.key := Add(env, if r.key in sessions then sessions[r.key] else Begin(r), r)]
  }

  // ---------------------------------------------------------------- the table

  function RowOf(env: Env, key: Key, a: Accumulator): Row {
    Row(a.project, AsI64(a.startedAt), AsI64(a.lastAt), AsI64(a.count),
        env.captionOf(key, a.firstText), env.infer(key, a.kind, a.firstText))
  }

  function Coalesce<T>(a: Option<T>, b: Option<T>): Option<T> { if a.Some? then a else b }

  /** The insert, and what happens to it on conflict. */
  function Upsert(stored: Option<Row>, row: Row): Row {
    if stored.None? then row else
      var was := stored.value;
      Row(row.project,
          if was.startedAt <= row.startedAt then was.startedAt else row.startedAt,
          if was.lastAt >= row.lastAt then was.lastAt else row.lastAt,
          was.count + row.count, Coalesce(was.caption, row.caption), Coalesce(was.kind, row.kind))
  }

  predicate InScope(key: Key, scope: Scope) {
    key.source == "opencode" && key.path == scope.path && key.sessionId == scope.sessionId
  }

  predicate Deleted(key: Key, paths: seq<string>, scopes: seq<Scope>) {
    key.path in paths || Scoped(key, scopes)
  }

  /** The row of `key` after a commit, if there is one. */
  function RowAfter(env: Env, rows: map<Key, Row>, sessions: map<Key, Accumulator>,
                    paths: seq<string>, scopes: seq<Scope>, key: Key): Option<Row> {
    var stored := if key in rows && !Deleted(key, paths, scopes) then Some(rows[key]) else None;
    if key in sessions then Some(Upsert(stored, RowOf(env, key, sessions[key]))) else stored
  }

  ghost predicate Committed(env: Env, rows: map<Key, Row>, sessions: map<Key, Accumulator>,
                            paths: seq<string>, scopes: seq<Scope>, after: map<Key, Row>) {
    forall key :: Lookup(after, key) == RowAfter(env, rows, sessions, paths, scopes, key)
  }

  class Writer {
    const env: Env
    var sessions: map<Key, Accumulator>
    var rows: map<Key, Row>

    constructor (env: Env, rows: map<Key, Row>)
      ensures this.env == env && this.rows == rows && sessions == map[]
    {
      this.env, this.rows, this.sessions := env, rows, map[];
    }

    method Record(r: Record)
      modifies this`sessions
      ensures sessions == Recorded(env, old(sessions), r)
    {
      var a := if r.key in sessions then sessions[r.key] else Begin(r);
      if r.ts < a.startedAt {
        a := a.(startedAt := r.ts);
      }
      if r.ts >= a.lastAt {
        a := a.(lastAt := r.ts);
        if r.project != "" {
          a := a.(project := r.project);
        }
      }
      a := a.(count := if a.count < U64_MAX then a.count + 1 else a.count);
      if (a.firstOrder.None? || Less(OrderOf(r), a.firstOrder.value)) && Opens(env, r) {
        a := a.(firstText := Some(r.text), firstOrder := Some(OrderOf(r)));
      }
      if HasKind(r) && (a.kind.None? || r.kind.value == "main") {
        a := a.(kind := r.kind);
      }
      sessions := sessions[r.key := a];
    }

    /** One transaction; where the store refuses it nothing changes and the batch stays pending. */
    method Commit(paths: seq<string>, scopes: seq<Scope>, storeAccepts: bool) returns (ok: bool)
      modifies this
      ensures ok <==> storeAccepts || (old(sessions) == map[] && paths == [] && scopes == [])
      ensures !ok ==> rows == old(rows) && sessions == old(sessions)
      ensures ok ==> Committed(env, old(rows), old(sessions), paths, scopes, rows) && sessions == map[]
    {
      if sessions == map[] && paths == [] && scopes == [] {
        return true;
      }
      if !storeAccepts {
        return false;
      }
      var table := DeleteScopes(rows, scopes);
      table := DeletePaths(table, paths);
      table := MergeRows(env, table, sessions);
      rows, sessions := table, map[];
      return true;
    }
  }

  /** A session of opencode for which one of the scopes has the path and id. */
  predicate Scoped(key: Key, scopes: seq<Scope>) {
    key.source == "opencode" &&
    exists i :: 0 <= i < |scopes| && scopes[i].path == key.path && scopes[i].sessionId == key.sessionId
  }

  method DeleteScopes(rows: map<Key, Row>, scopes: seq<Scope>) returns (table: map<Key, Row>)
    ensures forall key :: key in table <==> key in rows && !Scoped(key, scopes)
    ensures forall key :: key in table ==> table[key] == rows[key]
  {
    table := rows;
    for i := 0 to |scopes|
      invariant forall key :: key in table <==> key in rows && !Scoped(key, scopes[..i])
      invariant forall key :: key in table ==> table[key] == rows[key]
    {
      table := map key | key in table && !InScope(key, scopes[i]) :: table[key];
      ScopesExtend(scopes, i);
    }
    assert scopes[..|scopes|] == scopes;
  }

  method DeletePaths(rows: map<Key, Row>, paths: seq<string>) returns (table: map<Key, Row>)
    ensures forall key :: key in table <==> key in rows && key.path !in paths
    ensures forall key :: key in table ==> table[key] == rows[key]
  {
    table := rows;
    for i := 0 to |paths|
      invariant forall key :: key in table <==> key in rows && key.path !in paths[..i]
      invariant forall key :: key in table ==> table[key] == rows[key]
    {
      table := map key | key in table && key.path != paths[i] :: table[key];
      assert paths[..i + 1] == paths[..i] + [paths[i]];
    }
    assert paths[..|paths|] == paths;
  }

  function Lookup<K, V>(m: map<K, V>, key: K): Option<V> {
    if key in m then Some(m[key]) else None
  }

  function Merged(env: Env, rows: map<Key, Row>, sessions: map<Key, Accumulator>, key: Key): Option<Row> {
    if key in sessions then Some(Upsert(Lookup(rows, key), RowOf(env, key, sessions[key]))) else Lookup(rows, key)
  }

  /** Sessions are merged in whatever order the hash map yields them. */
  method MergeRows(env: Env, rows: map<Key, Row>, sessions: map<Key, Accumulator>) returns (table: map<Key, Row>)
    ensures forall key :: Lookup(table, key) == Merged(env, rows, sessions, key)
  {
    table := rows;
    var pending := sessions.Keys;
    while pending != {}
      invariant pending <= sessions.Keys
      invariant forall key ::
        Lookup(table, key) == if key in pending then Lookup(rows, key) else Merged(env, rows, sessions, key)
      decreases |pending|
    {
      var key :| key in pending;
      table := table[key := Upsert(Lookup(table, key), RowOf(env, key, sessions[key]))];
      pending := pending - {key};
    }
  }

  lemma {:induction false} ScopesExtend(scopes: seq<Scope>, i: nat)
    requires i < |scopes|
    ensures forall key :: Scoped(key, scopes[..i + 1]) <==> Scoped(key, scopes[..i]) || InScope(key, scopes[i])
  {
    forall key ensures Scoped(key, scopes[..i + 1]) <==> Scoped(key, scopes[..i]) || InScope(key, scopes[i]) {
      assert scopes[..i + 1][i] == scopes[i];
      assert forall j :: 0 <= j < i ==> scopes[..i + 1][j] == scopes[..i][j];
    }
  }
}
