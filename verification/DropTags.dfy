/**
Label cleaning: blocks of known tags are removed from a text, ASCII case aside.
*/
module DropTags {
  import opened Text
  import opened Wrappers

  const REMINDER_TAGS := ["system-reminder", "command-message", "command-name", "local-command-stdout"]
  const OUTPUT_TAGS := ["local-command-caveat", "local-command-output", "instructions", "environment_context"]
  const POLICY_TAGS := ["cwd", "approval_policy", "shell", "user_instructions"]
  const PLUGIN_TAGS := ["recommended_plugins", "skill", "user_action", "context"]
  const TASK_TAGS := ["task-notification", "task-id", "tool-use-id", "subagent_notification"]
  const TURN_TAGS := ["turn_aborted", "current_date", "timezone", "epoch"]
  const MODE_TAGS := ["collaboration_mode", "apps_instructions", "permissions", "total_tokens"]

  const DROP_TAGS: seq<string> :=
    REMINDER_TAGS + OUTPUT_TAGS + POLICY_TAGS + PLUGIN_TAGS + TASK_TAGS + TURN_TAGS + MODE_TAGS

  /** Where `c` first occurs, or the length. */
  function FindChar(s: string, c: char): (n: nat)
    ensures n <= |s| && (n < |s| ==> s[n] == c) && c !in s[..n]
  {
    if s == [] || s[0] == c then 0 else
      var n := 1 + FindChar(s[1..], c);
      assert s[..n] == [s[0]] + s[1..][..n - 1];
      n
  }

  function FindCi(s: string, needle: string): (r: Option<nat>)
    ensures r.Some? ==> r.value + |needle| <= |s|
  {
    if needle == "" || |s| < |needle| then None
    else if StartsCi(s, needle) then Some(0)
    else match FindCi(s[1..], needle)
      case None => None
      case Some(n) => Some(n + 1)
  }

  /** The needle occurs at `n`, ASCII case aside. */
  ghost predicate OccursAt(s: string, needle: string, n: nat) {
    n <= |s| && StartsCi(s[n..], needle)
  }

  /** It does, and nowhere before. */
  ghost predicate FirstAt(s: string, needle: string, n: nat) {
    OccursAt(s, needle, n) && forall j: nat :: j < n ==> !OccursAt(s, needle, j)
  }

  ghost predicate Nowhere(s: string, needle: string) {
    forall j: nat :: !OccursAt(s, needle, j)
  }

  lemma OccursInTail(s: string, needle: string, j: nat)
    requires s != ""
    ensures OccursAt(s, needle, j + 1) <==> OccursAt(s[1..], needle, j)
  {
    if j < |s| {
      assert s[1..][j..] == s[j + 1..];
    }
  }

  /** It is the first place where the needle occurs, ASCII case aside, or there is none. */
  lemma {:induction false} FindCiIsFirst(s: string, needle: string)
    requires needle != ""
    ensures match FindCi(s, needle)
            case None => Nowhere(s, needle)
            case Some(n) => FirstAt(s, needle, n)
  {
    assert s[0..] == s && (OccursAt(s, needle, 0) <==> StartsCi(s, needle));
    if |s| < |needle| {
    } else if !StartsCi(s, needle) {
      FindCiIsFirst(s[1..], needle);
      forall j: nat ensures OccursAt(s, needle, j) <==> j > 0 && OccursAt(s[1..], needle, j - 1) {
        if j > 0 {
          OccursInTail(s, needle, j - 1);
        }
      }
    }
  }

  /** And the first place is the one found. */
  lemma FoundCi(s: string, needle: string, n: nat)
    requires needle != "" && FirstAt(s, needle, n)
    ensures FindCi(s, needle) == Some(n)
  {
    FindCiIsFirst(s, needle);
  }

  /** The first listed tag that the text begins with. */
  function TagOf(s: string, tags: seq<string>): (r: Option<string>)
    ensures r.Some? ==> r.value in tags && StartsCi(s, r.value)
    ensures r.None? ==> forall tag :: tag in tags ==> !StartsCi(s, tag)
  {
    if tags == [] then None
    else if StartsCi(s, tags[0]) then Some(tags[0])
    else TagOf(s, tags[1..])
  }

  /** What is left to read after the block whose tag `after` begins with; `None` where it does not end. */
  function AfterBlock(after: string, tag: string): (r: Option<string>)
    ensures r.Some? ==> |r.value| < |after|
  {
    var end := FindChar(after, '>');
    if end == |after| then None else
      var body, close := after[end + 1..], "</" + tag + ">";
      match FindCi(body, close)
      case None => None
      case Some(n) => Some(body[n + |close|..])
  }

  /** What to do at a `<`: keep it, drop all the rest, or go on behind a block. */
  datatype Step = Keep | Cut | Resume(rest: string)

  function StepAt(after: string, tags: seq<string>): (r: Step)
    ensures r.Keep? <==> TagOf(after, tags).None?
    ensures r.Resume? ==> |r.rest| < |after|
  {
    var tag := TagOf(after, tags);
    if tag.None? then Keep else
      var rest := AfterBlock(after, tag.value);
      if rest.None? then Cut else Resume(rest.value)
  }

  /** The text without the blocks of `tags`. */
  function Stripped(s: string, tags: seq<string>): string
    decreases |s|
  {
    var lt := FindChar(s, '<');
    if lt == |s| then s else
      var after := s[lt + 1..];
      match StepAt(after, tags)
      case Keep => Join(s[..lt], '<', Stripped(after, tags))
      case Cut => s[..lt]
      case Resume(rest) => Join(s[..lt], ' ', Stripped(rest, tags))
  }

  function Join(a: string, c: char, b: string): (r: string)
    ensures |a| < |r| && r[..|a|] == a && r[|a|] == c && r[|a| + 1..] == b
  {
    a + [c] + b
  }

  method Strip(raw: string, tags: seq<string>) returns (out: string)
    ensures out == Stripped(raw, tags)
  {
    out := "";
    var rest := raw;
    var lt := FindChar(rest, '<');
    while lt < |rest|
      invariant lt == FindChar(rest, '<') && Stripped(raw, tags) == out + Stripped(rest, tags)
      decreases |rest|
    {
      var after := rest[lt + 1..];
      var tag := TagOf(after, tags);
      if tag.None? {
        Joins(out, rest[..lt], '<', Stripped(after, tags));
        out := out + rest[..lt] + ['<'];
        rest := after;
      } else {
        var next := AfterBlock(after, tag.value);
        if next.None? {
          out := out + rest[..lt];
          return;
        }
        Joins(out, rest[..lt], ' ', Stripped(next.value, tags));
        out := out + rest[..lt] + [' '];
        rest := next.value;
      }
      lt := FindChar(rest, '<');
    }
    out := out + rest;
  }

  lemma Joins(a: string, b: string, c: char, d: string)
    ensures a + Join(b, c, d) == a + b + [c] + d
  {
  }

  // ---------------------------------------------------------------- what happens at the first bracket

  /** Of the tags in the list that `s` begins with, `tag` comes first. */
  ghost predicate IsFirstTag(s: string, tag: string, tags: seq<string>) {
    exists i :: 0 <= i < |tags| && tags[i] == tag && StartsCi(s, tag) &&
      forall j :: 0 <= j < i ==> !StartsCi(s, tags[j])
  }

  lemma {:induction false} FoundChar(a: string, c: char, b: string)
    requires c !in a
    ensures FindChar(a + [c] + b, c) == |a|
  {
    if a == [] {
      assert a + [c] + b == [c] + b;
    } else {
      assert a[0] in a && forall x :: x in a[1..] ==> x in a;
      FoundChar(a[1..], c, b);
      assert (a + [c] + b)[1..] == a[1..] + [c] + b;
    }
  }

  lemma {:induction false} FoundTag(s: string, tag: string, tags: seq<string>)
    requires IsFirstTag(s, tag, tags)
    ensures TagOf(s, tags) == Some(tag)
  {
    var i :| 0 <= i < |tags| && tags[i] == tag && StartsCi(s, tag) && forall j :: 0 <= j < i ==> !StartsCi(s, tags[j]);
    if i == 0 {
    } else {
      assert tags[1..][i - 1] == tag && forall j :: 0 <= j < i - 1 ==> tags[1..][j] == tags[j + 1];
      FoundTag(s, tag, tags[1..]);
    }
  }

  lemma AtBracket(a: string, after: string, tags: seq<string>)
    requires '<' !in a
    ensures Stripped(a + "<" + after, tags) ==
      match StepAt(after, tags)
      case Keep => Join(a, '<', Stripped(after, tags))
      case Cut => a
      case Resume(rest) => Join(a, ' ', Stripped(rest, tags))
  {
    var s := a + "<" + after;
    FoundChar(a, '<', after);
    assert s == a + ['<'] + after && s[..|a|] == a && s[|a| + 1..] == after;
  }

  lemma BehindBlock(head: string, rest: string, tag: string, n: nat)
    requires '>' !in head && FindCi(rest, "</" + tag + ">") == Some(n)
    ensures AfterBlock(head + ">" + rest, tag) == Some(rest[n + |"</" + tag + ">"|..])
  {
    var after := head + ">" + rest;
    FoundChar(head, '>', rest);
    assert after == head + ['>'] + rest && after[|head| + 1..] == rest;
  }

  lemma BlockLeft(a: string, head: string, rest: string, tag: string, n: nat, tags: seq<string>)
    requires '<' !in a && '>' !in head
    requires TagOf(head + ">" + rest, tags) == Some(tag) && FindCi(rest, "</" + tag + ">") == Some(n)
    ensures Stripped(a + "<" + (head + ">" + rest), tags)
         == a + " " + Stripped(rest[n + |"</" + tag + ">"|..], tags)
  {
    AtBracket(a, head + ">" + rest, tags);
    BehindBlock(head, rest, tag, n);
  }

  /** A block goes, and what follows it is cleaned: from the bracket of its opening tag through the first closing tag
      behind that tag's end, in whatever case the tag is written. A space takes its place. */
  lemma BlockRemoved(a: string, head: string, rest: string, tag: string, n: nat, tags: seq<string>)
    requires '<' !in a && '>' !in head && IsFirstTag(head + ">" + rest, tag, tags)
    requires FirstAt(rest, "</" + tag + ">", n)
    ensures n + |"</" + tag + ">"| <= |rest|
    ensures Stripped(a + "<" + (head + ">" + rest), tags)
         == a + " " + Stripped(rest[n + |"</" + tag + ">"|..], tags)
  {
    FoundTag(head + ">" + rest, tag, tags);
    FoundCi(rest, "</" + tag + ">", n);
    BlockLeft(a, head, rest, tag, n, tags);
  }

  /** A block that does not end takes all the rest with it: no `>`, or no closing tag behind it. */
  lemma BlockCut(a: string, after: string, tag: string, tags: seq<string>)
    requires '<' !in a && IsFirstTag(after, tag, tags) && '>' !in after
    ensures Stripped(a + "<" + after, tags) == a
  {
    AtBracket(a, after, tags);
    FoundTag(after, tag, tags);
  }

  lemma UnclosedBlockCut(a: string, head: string, body: string, tag: string, tags: seq<string>)
    requires '<' !in a && '>' !in head && IsFirstTag(head + ">" + body, tag, tags)
    requires Nowhere(body, "</" + tag + ">")
    ensures Stripped(a + "<" + (head + ">" + body), tags) == a
  {
    var after := head + ">" + body;
    AtBracket(a, after, tags);
    FoundTag(after, tag, tags);
    FoundChar(head, '>', body);
    assert after == head + ['>'] + body && after[|head| + 1..] == body;
    FindCiIsFirst(body, "</" + tag + ">");
  }

  /** A bracket that opens no listed tag is kept. */
  lemma BracketKept(a: string, after: string, tags: seq<string>)
    requires '<' !in a && forall tag :: tag in tags ==> !StartsCi(after, tag)
    ensures Stripped(a + "<" + after, tags) == a + "<" + Stripped(after, tags)
  {
    AtBracket(a, after, tags);
  }

  // ---------------------------------------------------------------- no opener is left

  /** The `<` at `i` is directly followed by a tag. */
  ghost predicate OpensAt(s: string, i: nat, tags: seq<string>) {
    i < |s| && s[i] == '<' && exists tag :: tag in tags && StartsCi(s[i + 1..], tag)
  }

  ghost predicate HasOpener(s: string, tags: seq<string>) {
    exists i: nat :: OpensAt(s, i, tags)
  }

  /** Neither `<` nor a space occurs in the tag. */
  predicate Plain(s: string) {
    forall i :: 0 <= i < |s| ==> s[i] != '<' && s[i] != ' '
  }

  ghost predicate AllPlain(tags: seq<string>) {
    forall tag :: tag in tags ==> Plain(tag)
  }

  /** Cleaning keeps the text up to its first `<`; what follows there is a `<`, a space or the end. */
  lemma StrippedHead(s: string, tags: seq<string>)
    ensures var lt := FindChar(s, '<');
      && s[..lt] <= Stripped(s, tags)
      && (lt < |Stripped(s, tags)| ==> Stripped(s, tags)[lt] == '<' || Stripped(s, tags)[lt] == ' ')
  {
  }

  /** So cleaning brings no tag together: what begins with a tag after cleaning did so before. */
  lemma {:induction false} NoTagFormed(s: string, tag: string, tags: seq<string>)
    requires Plain(tag) && StartsCi(Stripped(s, tags), tag)
    ensures StartsCi(s, tag)
  {
    var lt := FindChar(s, '<');
    StrippedHead(s, tags);
    var out := Stripped(s, tags);
    assert forall i :: 0 <= i < |tag| ==> tag[i] != '<' && tag[i] != ' ' && Lower(out[i]) == Lower(tag[i]);
    assert |tag| <= lt;
  }

  lemma {:induction false} OpenerInTail(s: string, i: nat, n: nat, tags: seq<string>)
    requires n <= i && n <= |s|
    ensures OpensAt(s, i, tags) <==> OpensAt(s[n..], i - n, tags)
  {
    if i < |s| {
      assert s[n..][i - n + 1..] == s[i + 1..];
    }
  }

  /** Whatever the text, no `<` of the cleaned text is directly followed by a tag. */
  lemma {:induction false} NoOpenerLeft(s: string, tags: seq<string>)
    requires AllPlain(tags)
    ensures !HasOpener(Stripped(s, tags), tags)
    decreases |s|, 3
  {
    forall i: nat ensures !OpensAt(Stripped(s, tags), i, tags) {
      NoOpenerAt(s, i, tags);
    }
  }

  /** The shape of the cleaned text of `s`, by what is done at its first `<`. */
  lemma Shape(s: string, tags: seq<string>)
    ensures var lt := FindChar(s, '<');
      lt < |s| ==>
        var step := StepAt(s[lt + 1..], tags);
        && (step.Keep? ==> Stripped(s, tags) == Join(s[..lt], '<', Stripped(s[lt + 1..], tags)))
        && (step.Resume? ==> Stripped(s, tags) == Join(s[..lt], ' ', Stripped(step.rest, tags)))
  {
  }

  lemma NoOpenerInHead(s: string, i: nat, tags: seq<string>)
    requires i < FindChar(s, '<')
    ensures !OpensAt(Stripped(s, tags), i, tags)
  {
    StrippedHead(s, tags);
    assert s[i] in s[..FindChar(s, '<')];
  }

  lemma {:induction false} NoOpenerAt(s: string, i: nat, tags: seq<string>)
    requires AllPlain(tags)
    ensures !OpensAt(Stripped(s, tags), i, tags)
    decreases |s|, 2
  {
    var out, lt := Stripped(s, tags), FindChar(s, '<');
    if i < lt {
      NoOpenerInHead(s, i, tags);
    } else if lt < |s| {
      var after := s[lt + 1..];
      var step := StepAt(after, tags);
      Shape(s, tags);
      if step.Keep? {
        KeptBracket(out, lt, after, Stripped(after, tags), i, tags);
      } else if step.Resume? {
        RemovedBlock(out, lt, step.rest, Stripped(step.rest, tags), i, tags);
      }
    } else {
      StrippedHead(s, tags);
    }
  }

  lemma {:induction false} RemovedBlock(out: string, lt: nat, next: string, rest: string, i: nat, tags: seq<string>)
    requires AllPlain(tags) && rest == Stripped(next, tags)
    requires lt < |out| && out[lt] == ' ' && out[lt + 1..] == rest && lt <= i
    ensures !OpensAt(out, i, tags)
    decreases |next|, 4
  {
    if i == lt {
    } else {
      NoOpenerLeft(next, tags);
      OpenerInTail(out, i, lt + 1, tags);
    }
  }

  lemma {:induction false} KeptBracket(out: string, lt: nat, after: string, rest: string, i: nat, tags: seq<string>)
    requires AllPlain(tags) && rest == Stripped(after, tags) && TagOf(after, tags).None?
    requires lt < |out| && out[lt + 1..] == rest && lt <= i
    ensures !OpensAt(out, i, tags)
    decreases |after|, 4
  {
    if i == lt {
      forall tag | tag in tags ensures !StartsCi(out[i + 1..], tag) {
        if StartsCi(rest, tag) {
          NoTagFormed(after, tag, tags);
        }
      }
    } else {
      NoOpenerLeft(after, tags);
      OpenerInTail(out, i, lt + 1, tags);
    }
  }

  lemma {:induction false} CleanTail(s: string, lt: nat, tags: seq<string>)
    requires !HasOpener(s, tags) && lt < |s| && s[lt] == '<'
    ensures !HasOpener(s[lt + 1..], tags) && TagOf(s[lt + 1..], tags).None?
  {
    var after := s[lt + 1..];
    assert !OpensAt(s, lt, tags);
    forall i: nat ensures !OpensAt(after, i, tags) {
      assert !OpensAt(s, lt + 1 + i, tags);
      OpenerInTail(s, lt + 1 + i, lt + 1, tags);
    }
  }

  lemma Rejoined(s: string, lt: nat)
    requires lt < |s| && s[lt] == '<'
    ensures Join(s[..lt], '<', s[lt + 1..]) == s
  {
  }

  /** A text without openers comes back as it is. */
  lemma {:induction false} CleanUnchanged(s: string, tags: seq<string>)
    requires !HasOpener(s, tags)
    ensures Stripped(s, tags) == s
    decreases |s|
  {
    var lt := FindChar(s, '<');
    if lt == |s| {
    } else {
      CleanTail(s, lt, tags);
      Shape(s, tags);
      CleanUnchanged(s[lt + 1..], tags);
      Rejoined(s, lt);
    }
  }

  /** Cleaning a cleaned text changes nothing. */
  lemma {:induction false} StripTwice(s: string, tags: seq<string>)
    requires AllPlain(tags)
    ensures Stripped(Stripped(s, tags), tags) == Stripped(s, tags)
  {
    NoOpenerLeft(s, tags);
    CleanUnchanged(Stripped(s, tags), tags);
  }

  lemma ReminderTagsPlain()
    ensures AllPlain(REMINDER_TAGS)
  {
    assert Plain("system-reminder");
    assert Plain("command-message");
    assert Plain("command-name");
    assert Plain("local-command-stdout");
  }

  lemma OutputTagsPlain()
    ensures AllPlain(OUTPUT_TAGS)
  {
    assert Plain("local-command-caveat");
    assert Plain("local-command-output");
    assert Plain("instructions");
    assert Plain("environment_context");
  }

  lemma PolicyTagsPlain()
    ensures AllPlain(POLICY_TAGS)
  {
    assert Plain("cwd");
    assert Plain("approval_policy");
    assert Plain("shell");
    assert Plain("user_instructions");
  }

  lemma PluginTagsPlain()
    ensures AllPlain(PLUGIN_TAGS)
  {
    assert Plain("recommended_plugins");
    assert Plain("skill");
    assert Plain("user_action");
    assert Plain("context");
  }

  lemma TaskTagsPlain()
    ensures AllPlain(TASK_TAGS)
  {
    assert Plain("task-notification");
    assert Plain("task-id");
    assert Plain("tool-use-id");
    assert Plain("subagent_notification");
  }

  lemma TurnTagsPlain()
    ensures AllPlain(TURN_TAGS)
  {
    assert Plain("turn_aborted");
    assert Plain("current_date");
    assert Plain("timezone");
    assert Plain("epoch");
  }

  lemma ModeTagsPlain()
    ensures AllPlain(MODE_TAGS)
  {
    assert Plain("collaboration_mode");
    assert Plain("apps_instructions");
    assert Plain("permissions");
    assert Plain("total_tokens");
  }

  lemma PlainTogether(a: seq<string>, b: seq<string>)
    requires AllPlain(a) && AllPlain(b)
    ensures AllPlain(a + b)
  {
  }

  lemma DropTagsArePlain()
    ensures AllPlain(DROP_TAGS)
  {
    ReminderTagsPlain();
    OutputTagsPlain();
    PolicyTagsPlain();
    PluginTagsPlain();
    TaskTagsPlain();
    TurnTagsPlain();
    ModeTagsPlain();
    PlainTogether(REMINDER_TAGS, OUTPUT_TAGS);
    PlainTogether(REMINDER_TAGS + OUTPUT_TAGS, POLICY_TAGS);
    PlainTogether(REMINDER_TAGS + OUTPUT_TAGS + POLICY_TAGS, PLUGIN_TAGS);
    PlainTogether(REMINDER_TAGS + OUTPUT_TAGS + POLICY_TAGS + PLUGIN_TAGS, TASK_TAGS);
    PlainTogether(REMINDER_TAGS + OUTPUT_TAGS + POLICY_TAGS + PLUGIN_TAGS + TASK_TAGS, TURN_TAGS);
    PlainTogether(REMINDER_TAGS + OUTPUT_TAGS + POLICY_TAGS + PLUGIN_TAGS + TASK_TAGS + TURN_TAGS, MODE_TAGS);
  }

  /** The cleaning of labels: no listed tag opens in the result, and a text in which none opens is kept. */
  method StripDropTags(raw: string) returns (out: string)
    ensures !HasOpener(out, DROP_TAGS)
    ensures !HasOpener(raw, DROP_TAGS) ==> out == raw
    ensures out == Stripped(raw, DROP_TAGS)
  {
    out := Strip(raw, DROP_TAGS);
    DropTagsArePlain();
    NoOpenerLeft(raw, DROP_TAGS);
    if !HasOpener(raw, DROP_TAGS) {
      CleanUnchanged(raw, DROP_TAGS);
    }
  }
}
