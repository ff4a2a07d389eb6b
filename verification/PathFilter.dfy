/**
The working-directory filter: a directory becomes a LIKE pattern that must match what lies below the
directory and nothing else, whatever wildcards its name contains.
*/
module PathFilter {
  import opened Sorting
  import opened Text
  import opened Wrappers

  function TrimEnd(s: string): (r: string)
    ensures r <= s && (r == "" || r[|r| - 1] != '/') && forall i :: |r| <= i < |s| ==> s[i] == '/'
  {
    if s != "" && s[|s| - 1] == '/' then TrimEnd(s[..|s| - 1]) else s
  }

  function Replace(s: string, c: char, with: string): string {
    if s == "" then "" else (if s[0] == c then with else [s[0]]) + Replace(s[1..], c, with)
  }

  /** Backslash first, then the two wildcards. */
  function Escape(root: string): string {
    Replace(Replace(Replace(root, '\\', "\\\\"), '%', "\\%"), '_', "\\_")
  }

  predicate Special(c: char) {
    c == '\\' || c == '%' || c == '_'
  }

  function EscapedChar(c: char): string {
    if Special(c) then ['\\', c] else [c]
  }

  /** The escape of one character after the other. */
  function EscapeEach(root: string): string {
    if root == "" then "" else EscapedChar(root[0]) + EscapeEach(root[1..])
  }

  lemma {:induction false} ReplaceHead(x: char, s: string, c: char, with: string)
    ensures Replace([x] + s, c, with) == (if x == c then with else [x]) + Replace(s, c, with)
  {
    assert ([x] + s)[1..] == s;
  }

  lemma {:induction false} ReplaceAppend(s: string, t: string, c: char, with: string)
    ensures Replace(s + t, c, with) == Replace(s, c, with) + Replace(t, c, with)
  {
    if s == "" {
      assert s + t == t;
    } else {
      var x, tail := s[0], s[1..];
      ReplaceAppend(tail, t, c, with);
      ReplaceHead(x, tail + t, c, with);
      Assoc([x], tail, t);
      Assoc(if x == c then with else [x], Replace(tail, c, with), Replace(t, c, with));
      assert s == [x] + tail;
    }
  }

  lemma {:induction false} ReplaceOne(x: char, c: char, with: string)
    ensures Replace([x], c, with) == if x == c then with else [x]
  {
    assert [x][1..] == "";
  }

  lemma {:induction false} ReplaceTwo(x: char, y: char, c: char, with: string)
    ensures Replace([x, y], c, with) == (if x == c then with else [x]) + (if y == c then with else [y])
  {
    ReplaceAppend([x], [y], c, with);
    ReplaceOne(x, c, with);
    ReplaceOne(y, c, with);
    assert [x, y] == [x] + [y];
  }

  lemma EscapeOne(x: char)
    ensures Escape([x]) == EscapedChar(x)
  {
    ReplaceOne(x, '\\', "\\\\");
    if x == '\\' {
      ReplaceTwo('\\', '\\', '%', "\\%");
      ReplaceTwo('\\', '\\', '_', "\\_");
      assert "\\\\" == ['\\', '\\'] && ['\\'] + ['\\'] == ['\\', '\\'];
    } else {
      ReplaceOne(x, '%', "\\%");
      if x == '%' {
        ReplaceTwo('\\', '%', '_', "\\_");
        assert "\\%" == ['\\', '%'] && ['\\'] + ['%'] == ['\\', '%'];
      } else {
        ReplaceOne(x, '_', "\\_");
      }
    }
  }

  /** Three replacements in a row escape every character exactly once. */
  lemma {:induction false} EscapeIsEach(root: string)
    ensures Escape(root) == EscapeEach(root)
  {
    if root == "" {
    } else {
      var head, tail := [root[0]], root[1..];
      EscapeIsEach(tail);
      EscapeOne(root[0]);
      assert root == head + tail;
      ReplaceAppend(head, tail, '\\', "\\\\");
      var h1, t1 := Replace(head, '\\', "\\\\"), Replace(tail, '\\', "\\\\");
      ReplaceAppend(h1, t1, '%', "\\%");
      ReplaceAppend(Replace(h1, '%', "\\%"), Replace(t1, '%', "\\%"), '_', "\\_");
    }
  }

  // ---------------------------------------------------------------- LIKE with ESCAPE

  /** SQLite's LIKE with a backslash for ESCAPE: ASCII letters match either case, and a pattern that ends in
      the escape character matches nothing. */
  predicate Like(pattern: string, s: string)
    decreases |pattern| + |s|
  {
    if pattern == "" then s == ""
    else if pattern[0] == '%' then Like(pattern[1..], s) || (s != "" && Like(pattern, s[1..]))
    else if pattern[0] == '_' then s != "" && Like(pattern[1..], s[1..])
    else if pattern[0] == '\\' then
      |pattern| > 1 && s != "" && Lower(s[0]) == Lower(pattern[1]) && Like(pattern[2..], s[1..])
    else s != "" && Lower(s[0]) == Lower(pattern[0]) && Like(pattern[1..], s[1..])
  }

  lemma {:induction false} AnythingMatches(s: string)
    ensures Like("%", s)
  {
    if s == "" {
      assert "%"[1..] == "" && Like("", "");
    } else {
      AnythingMatches(s[1..]);
    }
  }

  /** One escaped character matches that character. */
  lemma {:induction false} EscapedCharMatches(c: char, rest: string, s: string)
    ensures Like(EscapedChar(c) + rest, s) <==> s != "" && Lower(s[0]) == Lower(c) && Like(rest, s[1..])
  {
    var p := EscapedChar(c) + rest;
    if Special(c) {
      assert p[0] == '\\' && p[1] == c && p[2..] == rest;
    } else {
      assert p[0] == c && p[1..] == rest;
    }
  }

  lemma {:induction false} EscapedMatches(root: string, rest: string, s: string)
    ensures Like(EscapeEach(root) + rest, s) <==> StartsCi(s, root) && Like(rest, s[|root|..])
  {
    if root == "" {
      assert EscapeEach(root) + rest == rest && s[0..] == s;
    } else {
      var tail := root[1..];
      assert EscapeEach(root) + rest == EscapedChar(root[0]) + (EscapeEach(tail) + rest);
      EscapedCharMatches(root[0], EscapeEach(tail) + rest, s);
      if s != "" {
        EscapedMatches(tail, rest, s[1..]);
        StartsCiStep(s, root);
        assert StartsCi(s, root) ==> s[1..][|tail|..] == s[|root|..];
      }
    }
  }

  lemma {:induction false} StartsCiStep(s: string, prefix: string)
    requires s != "" && prefix != ""
    ensures StartsCi(s, prefix) <==> Lower(s[0]) == Lower(prefix[0]) && StartsCi(s[1..], prefix[1..])
  {
    if Lower(s[0]) == Lower(prefix[0]) && StartsCi(s[1..], prefix[1..]) {
      forall i | 0 <= i < |prefix| ensures Lower(s[i]) == Lower(prefix[i]) {
        assert i > 0 ==> s[i] == s[1..][i - 1] && prefix[i] == prefix[1..][i - 1];
      }
    }
    if StartsCi(s, prefix) {
      assert forall i :: 0 <= i < |prefix[1..]| ==> s[1..][i] == s[i + 1] && prefix[1..][i] == prefix[i + 1];
    }
  }

  lemma {:induction false} BelowMatches(s: string)
    ensures Like("/%", s) <==> s != "" && s[0] == '/'
  {
    assert "/%"[1..] == "%" && "/%"[0] == '/';
    if s != "" {
      AnythingMatches(s[1..]);
    }
  }

  /** The pattern matches exactly what lies below the directory. */
  lemma {:induction false} PatternIsExact(root: string, cwd: string)
    ensures Like(Escape(root) + "/%", cwd) <==> StartsCi(cwd, root + "/")
  {
    EscapeIsEach(root);
    EscapedMatches(root, "/%", cwd);
    if |root| <= |cwd| {
      BelowMatches(cwd[|root|..]);
    }
    assert StartsCi(cwd, root + "/") ==> Lower(cwd[|root|]) == Lower((root + "/")[|root|]);
    assert forall i :: 0 <= i < |root| ==> (root + "/")[i] == root[i];
  }

  // ---------------------------------------------------------------- the clause

  /** `cwd = ? OR cwd LIKE ? ESCAPE '\' OR git_root = ?`; a missing column matches nothing. */
  predicate Selected(filter: string, cwd: Option<string>, gitRoot: Option<string>) {
    var root := TrimEnd(filter);
    cwd == Some(root) || (cwd.Some? && Like(Escape(root) + "/%", cwd.value)) || gitRoot == Some(root)
  }

  /** A session is selected exactly when it runs in the directory, below it, or in its repository. */
  lemma {:induction false} SelectedMeans(filter: string, cwd: Option<string>, gitRoot: Option<string>)
    ensures Selected(filter, cwd, gitRoot) <==>
      var root := TrimEnd(filter);
      cwd == Some(root) || gitRoot == Some(root) || (cwd.Some? && StartsCi(cwd.value, root + "/"))
  {
    if cwd.Some? {
      PatternIsExact(TrimEnd(filter), cwd.value);
    }
  }
}
