/**
The keys of folded stacks, one line of text for a thread and a path, and what a reader gets back by
splitting one at its semicolons.
*/
module StackKeys {

  function Decimal(n: int): string
    decreases if n < 0 then 1 - n else n
  {
    if n < 0 then "-" + Decimal(-n)
    else if n < 10 then ["0123456789"[n]]
    else Decimal(n / 10) + ["0123456789"[n % 10]]
  }

  function Joined(path: seq<string>): string {
    if path == [] then "" else ";" + path[0] + Joined(path[1..])
  }

  function ThreadName(tid: int): string { "thread-" + Decimal(tid) }

  /** The folded-stack key: the thread and then the path, separated by semicolons. */
  function StackKey(tid: int, path: seq<string>): string {
    ThreadName(tid) + Joined(path)
  }

  // ---------------------------------------------------------------- reading a key

  /** The text between semicolons. */
  function Split(s: string): (parts: seq<string>)
    ensures parts != []
  {
    if s == "" then [""] else InFront(s[0], Split(s[1..]))
  }

  function InFront(c: char, parts: seq<string>): seq<string>
    requires parts != []
  {
    if c == ';' then [""] + parts else [[c] + parts[0]] + parts[1..]
  }

  lemma InFrontAppend(c: char, a: seq<string>, b: seq<string>)
    requires a != []
    ensures InFront(c, a + b) == InFront(c, a) + b
  {
    assert c != ';' ==> (a + b)[1..] == a[1..] + b;
  }

  lemma InFrontJoins(c: char, parts: seq<string>, s: string)
    requires parts != [] && Joined(parts) == ";" + s
    ensures Joined(InFront(c, parts)) == ";" + ([c] + s)
  {
    var rest := Joined(parts[1..]);
    assert Joined(parts) == ";" + (parts[0] + rest) && s == parts[0] + rest by {
      assert (";" + s)[1..] == s && (";" + (parts[0] + rest))[1..] == parts[0] + rest;
    }
    if c == ';' {
      assert InFront(c, parts)[1..] == parts;
    } else {
      assert InFront(c, parts)[1..] == parts[1..];
      assert [c] + parts[0] + rest == [c] + (parts[0] + rest);
    }
  }

  /** Splitting only takes the text apart, and takes it apart at every semicolon. */
  lemma {:induction false} SplitMeans(s: string)
    ensures Joined(Split(s)) == ";" + s
    ensures forall part :: part in Split(s) ==> ';' !in part
  {
    if s == "" {
      assert Joined([""]) == ";" + "" + Joined([]);
    } else {
      SplitMeans(s[1..]);
      InFrontJoins(s[0], Split(s[1..]), s[1..]);
      assert s == [s[0]] + s[1..];
    }
  }

  lemma {:induction false} SplitPlain(s: string)
    requires ';' !in s
    ensures Split(s) == [s]
  {
    if s == "" {
    } else {
      assert s[0] in s && forall c :: c in s[1..] ==> c in s;
      SplitPlain(s[1..]);
      assert [s[0]] + s[1..] == s;
    }
  }

  lemma {:induction false} SplitAtSemicolon(a: string, b: string)
    ensures Split(a + ";" + b) == Split(a) + Split(b)
  {
    var s := a + ";" + b;
    if a == "" {
      assert s[1..] == b;
    } else {
      SplitAtSemicolon(a[1..], b);
      InFrontAppend(a[0], Split(a[1..]), Split(b));
      assert s[0] == a[0] && s[1..] == a[1..] + ";" + b;
    }
  }

  /** The names of a path, each taken apart at its semicolons. */
  function Flat(path: seq<string>): seq<string> {
    if path == [] then [] else Split(path[0]) + Flat(path[1..])
  }

  lemma {:induction false} FlatPlain(path: seq<string>)
    requires forall name :: name in path ==> ';' !in name
    ensures Flat(path) == path
  {
    if path == [] {
    } else {
      SplitPlain(path[0]);
      FlatPlain(path[1..]);
    }
  }

  lemma {:induction false} JoinedSplits(head: string, path: seq<string>)
    ensures Split(head + Joined(path)) == Split(head) + Flat(path)
    decreases |path|
  {
    if path == [] {
      assert head + Joined(path) == head;
    } else {
      var rest := path[0] + Joined(path[1..]);
      assert Joined(path) == ";" + rest && head + (";" + rest) == head + ";" + rest;
      SplitAtSemicolon(head, rest);
      JoinedSplits(path[0], path[1..]);
    }
  }

  lemma {:induction false} DecimalIsPlain(n: int)
    ensures ';' !in Decimal(n)
    decreases if n < 0 then 1 - n else n
  {
    if n < 0 {
      DecimalIsPlain(-n);
    } else if n >= 10 {
      DecimalIsPlain(n / 10);
    }
  }

  /** The number that a decimal stands for. */
  function Number(s: string): int {
    if s == "" then 0
    else if s[0] == '-' then -Number(s[1..])
    else 10 * Number(s[..|s| - 1]) + (s[|s| - 1] as int - '0' as int)
  }

  lemma {:induction false} DigitsRead(n: nat)
    ensures Decimal(n) != "" && Decimal(n)[0] != '-' && Number(Decimal(n)) == n
  {
    var s := Decimal(n);
    if n < 10 {
      assert s[..0] == "";
    } else {
      DigitsRead(n / 10);
      assert s[..|s| - 1] == Decimal(n / 10);
    }
  }

  lemma DecimalRead(n: int)
    ensures Number(Decimal(n)) == n
  {
    if n < 0 {
      DigitsRead(-n);
      assert Decimal(n)[1..] == Decimal(-n);
    } else {
      DigitsRead(n);
    }
  }

  /** Split at its semicolons a key gives the thread and then the path, the names of which come apart where they
      hold semicolons themselves. */
  lemma KeySplits(tid: int, path: seq<string>)
    ensures Split(StackKey(tid, path)) == [ThreadName(tid)] + Flat(path)
  {
    DecimalIsPlain(tid);
    SplitPlain(ThreadName(tid));
    JoinedSplits(ThreadName(tid), path);
  }

  /** So two keys are the same exactly for one thread, and paths that come apart into the same names. */
  lemma SameKey(tid: int, path: seq<string>, tid': int, path': seq<string>)
    ensures StackKey(tid, path) == StackKey(tid', path') <==> tid == tid' && Flat(path) == Flat(path')
  {
    var key, key' := StackKey(tid, path), StackKey(tid', path');
    KeySplits(tid, path);
    KeySplits(tid', path');
    if key == key' {
      ThreadsApart(tid, tid');
      assert Flat(path) == Split(key)[1..] && Flat(path') == Split(key')[1..];
      assert ThreadName(tid) == Split(key)[0] && ThreadName(tid') == Split(key')[0];
    }
    if tid == tid' && Flat(path) == Flat(path') {
      SplitMeans(key);
      SplitMeans(key');
      assert Joined(Split(key))[1..] == key && Joined(Split(key'))[1..] == key';
    }
  }

  lemma ThreadsApart(tid: int, tid': int)
    ensures ThreadName(tid) == ThreadName(tid') ==> tid == tid'
  {
    if ThreadName(tid) == ThreadName(tid') {
      assert Decimal(tid) == ThreadName(tid)[|"thread-"|..] && Decimal(tid') == ThreadName(tid')[|"thread-"|..];
      DecimalRead(tid);
      DecimalRead(tid');
    }
  }

  /** Where no name holds a semicolon, equal keys mean equal threads and paths. */
  lemma KeysTellApart(tid: int, path: seq<string>, tid': int, path': seq<string>)
    requires forall name :: name in path || name in path' ==> ';' !in name
    ensures StackKey(tid, path) == StackKey(tid', path') <==> tid == tid' && path == path'
  {
    FlatPlain(path);
    FlatPlain(path');
    SameKey(tid, path, tid', path');
  }

  /** Otherwise they need not. */
  lemma SemicolonsMix()
    ensures StackKey(1, ["a;b"]) == StackKey(1, ["a", "b"])
  {
    SplitAtSemicolon("a", "b");
    SplitPlain("a");
    SplitPlain("b");
    assert "a" + ";" + "b" == "a;b";
    assert ["a;b"][1..] == [] && ["a", "b"][1..] == ["b"] && ["b"][1..] == [];
    assert Flat(["a;b"]) == Split("a;b") + Flat([]);
    assert Flat(["a", "b"]) == Split("a") + (Split("b") + Flat([]));
    SameKey(1, ["a;b"], 1, ["a", "b"]);
  }
}
