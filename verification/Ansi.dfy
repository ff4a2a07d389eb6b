/**
Removing terminal escape sequences from UTF-8 text, byte by byte, against the same on characters.
*/
module Ansi {

  type Byte = b: int | 0 <= b < 0x100

  /** A Unicode scalar value. */
  type Scalar = c: int | 0 <= c < 0xD800 || 0xE000 <= c < 0x110000

  const ESC := 0x1b
  const BEL := 0x07

  predicate IsAlpha(b: int) {
    0x41 <= b <= 0x5a || 0x61 <= b <= 0x7a
  }

  // ---------------------------------------------------------------- UTF-8, section 3 of RFC 3629

  function Encode(c: Scalar): (bytes: seq<Byte>)
    ensures bytes != [] && |bytes| == Width(bytes[0])
    ensures c < 0x80 ==> bytes == [c]
    ensures c >= 0x80 ==> forall i :: 0 <= i < |bytes| ==> bytes[i] >= 0x80
    ensures !Continues(bytes[0])
  {
    if c < 0x80 then [c]
    else if c < 0x800 then [0xC0 + c / 0x40, 0x80 + c % 0x40]
    else if c < 0x10000 then [0xE0 + c / 0x1000, 0x80 + c / 0x40 % 0x40, 0x80 + c % 0x40]
    else [0xF0 + c / 0x40000, 0x80 + c / 0x1000 % 0x40, 0x80 + c / 0x40 % 0x40, 0x80 + c % 0x40]
  }

  /** A byte inside a character; slicing a string there would panic. */
  predicate Continues(b: Byte) {
    0x80 <= b < 0xC0
  }

  /** The length of the character that begins with `b`. */
  function Width(b: Byte): nat {
    if b < 0x80 then 1 else if b < 0xE0 then 2 else if b < 0xF0 then 3 else 4
  }

  function Utf8(cs: seq<Scalar>): seq<Byte> {
    if cs == [] then [] else Encode(cs[0]) + Utf8(cs[1..])
  }

  /** The character in a sequence of bytes, by the number of bytes. */
  function Decode(bytes: seq<int>): int
    requires 1 <= |bytes| <= 4
  {
    if |bytes| == 1 then bytes[0]
    else if |bytes| == 2 then (bytes[0] - 0xC0) * 0x40 + (bytes[1] - 0x80)
    else if |bytes| == 3 then (bytes[0] - 0xE0) * 0x1000 + (bytes[1] - 0x80) * 0x40 + (bytes[2] - 0x80)
    else (bytes[0] - 0xF0) * 0x40000 + (bytes[1] - 0x80) * 0x1000 + (bytes[2] - 0x80) * 0x40 + (bytes[3] - 0x80)
  }

  lemma Digits(c: nat)
    ensures c == 0x40 * (c / 0x40) + c % 0x40
    ensures c == 0x1000 * (c / 0x1000) + 0x40 * (c / 0x40 % 0x40) + c % 0x40
    ensures c == 0x40000 * (c / 0x40000) + 0x1000 * (c / 0x1000 % 0x40) + 0x40 * (c / 0x40 % 0x40) + c % 0x40
  {
    assert c / 0x1000 == c / 0x40 / 0x40 && c / 0x40000 == c / 0x1000 / 0x40;
  }

  /** Every character can be read back. */
  lemma EncodeDecodes(c: Scalar)
    ensures |Encode(c)| == if c < 0x80 then 1 else if c < 0x800 then 2 else if c < 0x10000 then 3 else 4
    ensures Decode(Encode(c)) == c
  {
    Digits(c);
    var e: seq<int> := Encode(c);
    if c < 0x800 {
    } else if c < 0x10000 {
      assert e == [0xE0 + c / 0x1000, 0x80 + c / 0x40 % 0x40, 0x80 + c % 0x40];
    } else {
      assert e == [0xF0 + c / 0x40000, 0x80 + c / 0x1000 % 0x40, 0x80 + c / 0x40 % 0x40, 0x80 + c % 0x40];
    }
  }

  // ---------------------------------------------------------------- escape sequences

  /** How much of `s` a control sequence takes: up to and including the first letter. */
  function CsiLength(s: seq<int>): (n: nat)
    ensures n <= |s|
  {
    if s == [] then 0 else if IsAlpha(s[0]) then 1 else 1 + CsiLength(s[1..])
  }

  predicate Terminates(s: seq<int>) {
    |s| > 1 && s[0] == ESC && s[1] == 0x5c
  }

  /** How much an operating system command takes: up to and including the bell or the terminator. */
  function OscLength(s: seq<int>): (n: nat)
    ensures n <= |s|
  {
    if s == [] then 0 else if s[0] == BEL then 1 else if Terminates(s) then 2 else 1 + OscLength(s[1..])
  }

  /** How much the escape sequence at the head of `s` takes. */
  function EscapeLength(s: seq<int>): (n: nat)
    requires s != [] && s[0] == ESC
    ensures 1 <= n <= |s|
  {
    if |s| > 1 && s[1] == 0x5b then 2 + CsiLength(s[2..])
    else if |s| > 1 && s[1] == 0x5d then 2 + OscLength(s[2..])
    else 1
  }

  /** The text without escape sequences, character by character. */
  function Stripped(cs: seq<Scalar>): seq<Scalar> {
    if cs == [] then []
    else if cs[0] == ESC then Stripped(cs[EscapeLength(cs)..])
    else [cs[0]] + Stripped(cs[1..])
  }

  lemma {:induction false} NoEscapeLeft(cs: seq<Scalar>)
    ensures ESC !in Stripped(cs)
    decreases |cs|
  {
    if cs == [] {
    } else {
      NoEscapeLeft(if cs[0] == ESC then cs[EscapeLength(cs)..] else cs[1..]);
    }
  }

  lemma {:induction false} PlainUnchanged(cs: seq<Scalar>)
    requires ESC !in cs
    ensures Stripped(cs) == cs
  {
    if cs == [] {
    } else {
      assert cs[0] in cs && forall c :: c in cs[1..] ==> c in cs;
      PlainUnchanged(cs[1..]);
    }
  }

  // ---------------------------------------------------------------- what an escape sequence is

  lemma {:induction false} PlainHead(a: seq<Scalar>, rest: seq<Scalar>)
    requires ESC !in a
    ensures Stripped(a + rest) == a + Stripped(rest)
  {
    if a == [] {
      assert a + rest == rest;
    } else {
      assert a[0] in a && forall c :: c in a[1..] ==> c in a;
      PlainHead(a[1..], rest);
      assert (a + rest)[1..] == a[1..] + rest;
    }
  }

  /** Text, then an escape sequence: the text is kept, the sequence goes, and what follows is stripped. */
  lemma SequenceGoes(a: seq<Scalar>, e: seq<Scalar>, c: seq<Scalar>)
    requires ESC !in a && e != [] && e[0] == ESC && EscapeLength(e + c) == |e|
    ensures Stripped(a + e + c) == a + Stripped(c)
  {
    assert a + e + c == a + (e + c) && (e + c)[|e|..] == c;
    PlainHead(a, e + c);
  }

  predicate IsLetter(c: int) {
    'A' as int <= c <= 'Z' as int || 'a' as int <= c <= 'z' as int
  }

  /** A control sequence: an escape, a left bracket, and everything up to the first letter. */
  lemma ControlSequenceGoes(a: seq<Scalar>, body: seq<Scalar>, letter: Scalar, c: seq<Scalar>)
    requires ESC !in a && (forall x :: x in body ==> !IsLetter(x)) && IsLetter(letter)
    ensures Stripped(a + ([ESC, 0x5b] + body + [letter]) + c) == a + Stripped(c)
  {
    var e, t := [ESC, 0x5b] + body + [letter], [letter] + c;
    assert (e + c)[2..] == body + t;
    assert forall i :: 0 <= i < |body| ==> body[i] in body;
    CsiSkips(body, t);
    SequenceGoes(a, e, c);
  }

  /** One without a letter goes on to the end of the text. */
  lemma OpenControlSequenceCuts(a: seq<Scalar>, body: seq<Scalar>)
    requires ESC !in a && (forall x :: x in body ==> !IsLetter(x))
    ensures Stripped(a + ([ESC, 0x5b] + body)) == a
  {
    var e: seq<Scalar> := [ESC, 0x5b] + body;
    assert e[2..] == body + [] && e + [] == e && a + e + [] == a + e;
    assert forall i :: 0 <= i < |body| ==> body[i] in body;
    CsiSkips(body, []);
    SequenceGoes(a, e, []);
    assert a + [] == a;
  }

  /** Neither a bell nor the string terminator, an escape and a backslash, lies in `body` followed by `rest`
      before the end of `body`. */
  ghost predicate Unended(body: seq<int>, rest: seq<int>) {
    forall i :: 0 <= i < |body| ==> body[i] != BEL && !Terminates((body + rest)[i..])
  }

  lemma {:induction false} OscBody(body: seq<int>, rest: seq<int>)
    requires Unended(body, rest)
    ensures OscLength(body + rest) == |body| + OscLength(rest)
  {
    if body == [] {
      assert body + rest == rest;
    } else {
      assert (body + rest)[1..] == body[1..] + rest && (body + rest)[0..] == body + rest;
      forall i | 0 <= i < |body[1..]| ensures body[1..][i] != BEL && !Terminates((body[1..] + rest)[i..]) {
        assert (body[1..] + rest)[i..] == (body + rest)[i + 1..];
      }
      OscBody(body[1..], rest);
    }
  }

  /** An operating system command: an escape, a right bracket, and everything up to the first bell or string
      terminator, which goes with it. */
  lemma CommandGoes(a: seq<Scalar>, body: seq<Scalar>, end: seq<Scalar>, c: seq<Scalar>)
    requires ESC !in a && (end == [BEL] || end == [ESC, 0x5c]) && Unended(body, end + c)
    ensures Stripped(a + ([ESC, 0x5d] + body + end) + c) == a + Stripped(c)
  {
    var e, t := [ESC, 0x5d] + body + end, end + c;
    assert (e + c)[2..] == body + t;
    OscBody(body, t);
    assert t[0] == end[0] && (|end| > 1 ==> t[1] == end[1]);
    SequenceGoes(a, e, c);
  }

  /** One that is not ended goes on to the end of the text. */
  lemma OpenCommandCuts(a: seq<Scalar>, body: seq<Scalar>)
    requires ESC !in a && Unended(body, [])
    ensures Stripped(a + ([ESC, 0x5d] + body)) == a
  {
    var e: seq<Scalar> := [ESC, 0x5d] + body;
    assert e[2..] == body + [] && e + [] == e && a + e + [] == a + e;
    OscBody(body, []);
    SequenceGoes(a, e, []);
    assert a + [] == a;
  }

  /** Any other escape character goes alone. */
  lemma LoneEscapeGoes(a: seq<Scalar>, c: seq<Scalar>)
    requires ESC !in a && (c == [] || (c[0] != 0x5b && c[0] != 0x5d))
    ensures Stripped(a + [ESC] + c) == a + Stripped(c)
  {
    assert c != [] ==> ([ESC] + c)[1] == c[0];
    SequenceGoes(a, [ESC], c);
  }

  // ---------------------------------------------------------------- bytes against characters

  lemma {:induction false} CsiSkips(e: seq<int>, t: seq<int>)
    requires forall i :: 0 <= i < |e| ==> !IsAlpha(e[i])
    ensures CsiLength(e + t) == |e| + CsiLength(t)
  {
    if e == [] {
      assert e + t == t;
    } else {
      CsiSkips(e[1..], t);
      assert (e + t)[1..] == e[1..] + t;
    }
  }

  lemma {:induction false} OscSkips(e: seq<int>, t: seq<int>)
    requires forall i :: 0 <= i < |e| ==> e[i] != BEL && e[i] != ESC
    ensures OscLength(e + t) == |e| + OscLength(t)
  {
    if e == [] {
      assert e + t == t;
    } else {
      OscSkips(e[1..], t);
      assert (e + t)[1..] == e[1..] + t;
    }
  }

  lemma Behind<T>(head: seq<T>, tail: seq<T>, n: nat)
    requires n <= |tail|
    ensures (head + tail)[|head| + n..] == tail[n..]
  {
  }

  lemma {:induction false} CsiOnBytes(cs: seq<Scalar>)
    ensures Utf8(cs)[CsiLength(Utf8(cs))..] == Utf8(cs[CsiLength(cs)..])
  {
    if cs == [] {
    } else {
      var e, t := Encode(cs[0]), Utf8(cs[1..]);
      if IsAlpha(cs[0]) {
        assert Utf8(cs)[1..] == t;
      } else {
        CsiOnBytes(cs[1..]);
        CsiSkips(e, t);
        Behind(e, t, CsiLength(t));
        Behind([cs[0]], cs[1..], CsiLength(cs[1..]));
        assert [cs[0]] + cs[1..] == cs;
      }
    }
  }

  /** The first byte tells an ASCII character. */
  lemma FirstByte(cs: seq<Scalar>, b: int)
    requires 0 <= b < 0x80
    ensures (cs != [] && cs[0] == b) <==> (Utf8(cs) != [] && Utf8(cs)[0] == b)
    ensures cs != [] && cs[0] == b ==> Utf8(cs)[1..] == Utf8(cs[1..])
  {
  }

  lemma OscAtTerminator(cs: seq<Scalar>)
    requires Terminates(cs)
    ensures Terminates(Utf8(cs)) && Utf8(cs)[2..] == Utf8(cs[2..])
  {
    FirstByte(cs, ESC);
    FirstByte(cs[1..], 0x5c);
    assert cs[2..] == cs[1..][1..] && Utf8(cs)[2..] == Utf8(cs)[1..][1..];
  }

  lemma OscInside(cs: seq<Scalar>)
    requires cs != [] && cs[0] != BEL && !Terminates(cs)
    ensures OscLength(Utf8(cs)) == |Encode(cs[0])| + OscLength(Utf8(cs[1..]))
  {
    FirstByte(cs[1..], 0x5c);
    OscStep(cs[0], Utf8(cs[1..]));
  }

  lemma {:induction false} OscOnBytes(cs: seq<Scalar>)
    ensures Utf8(cs)[OscLength(Utf8(cs))..] == Utf8(cs[OscLength(cs)..])
  {
    if cs == [] {
    } else if cs[0] == BEL {
      FirstByte(cs, BEL);
    } else if Terminates(cs) {
      OscAtTerminator(cs);
    } else {
      var e, t, rest := Encode(cs[0]), Utf8(cs[1..]), cs[1..];
      OscOnBytes(rest);
      OscInside(cs);
      Behind(e, t, OscLength(t));
      Behind([cs[0]], rest, OscLength(rest));
      assert [cs[0]] + rest == cs;
    }
  }

  lemma {:induction false} OscStep(c: Scalar, t: seq<int>)
    requires c != BEL && !Terminates([c] + t)
    ensures OscLength(Encode(c) + t) == |Encode(c)| + OscLength(t)
  {
    var e := Encode(c);
    if c == ESC {
      assert (e + t)[1..] == t && e + t == [c] + t;
    } else {
      OscSkips(e, t);
    }
  }

  lemma {:induction false} EscapeOnBytes(cs: seq<Scalar>)
    requires cs != [] && cs[0] == ESC
    ensures Utf8(cs) != [] && Utf8(cs)[0] == ESC
    ensures Utf8(cs)[EscapeLength(Utf8(cs))..] == Utf8(cs[EscapeLength(cs)..])
  {
    var bs := Utf8(cs);
    FirstByte(cs, ESC);
    FirstByte(cs[1..], 0x5b);
    FirstByte(cs[1..], 0x5d);
    if |cs| > 1 && (cs[1] == 0x5b || cs[1] == 0x5d) {
      assert bs[2..] == bs[1..][1..] && cs[2..] == cs[1..][1..];
      CsiOnBytes(cs[2..]);
      OscOnBytes(cs[2..]);
      var n := EscapeLength(cs) - 2;
      assert cs[EscapeLength(cs)..] == cs[2..][n..];
      assert bs[EscapeLength(bs)..] == bs[2..][EscapeLength(bs) - 2..];
    }
  }

  // ---------------------------------------------------------------- the scanner

  /** The next character of a string sliced at `i`; slicing inside a character is a panic. */
  method NextChar(input: seq<Byte>, i: nat) returns (ch: seq<Byte>)
    requires i < |input| && !Continues(input[i])
    ensures ch == if i + Width(input[i]) <= |input| then input[i..i + Width(input[i])] else input[i..]
  {
    var n := Width(input[i]);
    ch := if i + n <= |input| then input[i..i + n] else input[i..];
  }

  method SkipCsi(input: seq<Byte>, start: nat) returns (i: nat)
    requires start <= |input|
    ensures i == start + CsiLength(input[start..])
  {
    i := start;
    while i < |input| && !IsAlpha(input[i])
      invariant start <= i <= |input| && start + CsiLength(input[start..]) == i + CsiLength(input[i..])
    {
      assert input[i..][1..] == input[i + 1..];
      i := i + 1;
    }
    if i < |input| {
      i := i + 1;
    }
  }

  method SkipOsc(input: seq<Byte>, start: nat) returns (i: nat)
    requires start <= |input|
    ensures i == start + OscLength(input[start..])
  {
    i := start;
    while i < |input| && input[i] != BEL && !(input[i] == ESC && i + 1 < |input| && input[i + 1] == 0x5c)
      invariant start <= i <= |input| && start + OscLength(input[start..]) == i + OscLength(input[i..])
    {
      assert input[i..][1..] == input[i + 1..];
      i := i + 1;
    }
    if i < |input| && input[i] == BEL {
      i := i + 1;
    } else if i + 1 < |input| && input[i] == ESC {
      i := i + 2;
    }
  }

  method SkipEscape(input: seq<Byte>, i: nat) returns (next: nat)
    requires i < |input| && input[i] == ESC
    ensures next == i + EscapeLength(input[i..])
  {
    if i + 1 < |input| && input[i + 1] == 0x5b {
      assert input[i..][2..] == input[i + 2..];
      next := SkipCsi(input, i + 2);
    } else if i + 1 < |input| && input[i + 1] == 0x5d {
      assert input[i..][2..] == input[i + 2..];
      next := SkipOsc(input, i + 2);
    } else {
      next := i + 1;
    }
  }

  /** Position `i` of the bytes is the beginning of the text `rest`, and `out` with the rest of it is the whole. */
  ghost predicate At(text: seq<Scalar>, input: seq<Byte>, i: nat, rest: seq<Scalar>, out: seq<Byte>) {
    i <= |input| && input[i..] == Utf8(rest) && Utf8(Stripped(text)) == out + Utf8(Stripped(rest))
  }

  lemma {:induction false} Copied(text: seq<Scalar>, input: seq<Byte>, i: nat, rest: seq<Scalar>, out: seq<Byte>)
    requires At(text, input, i, rest, out) && rest != [] && rest[0] != ESC
    ensures i < |input| && !Continues(input[i]) && i + Width(input[i]) <= |input|
    ensures input[i..i + Width(input[i])] == Encode(rest[0])
    ensures At(text, input, i + Width(input[i]), rest[1..], out + Encode(rest[0]))
  {
    var e, s := Encode(rest[0]), Stripped(rest[1..]);
    Cut(input, i, e, Utf8(rest[1..]));
    assert ([rest[0]] + s)[1..] == s;
    assert out + (e + Utf8(s)) == out + e + Utf8(s);
  }

  lemma {:induction false} Cut(input: seq<Byte>, i: nat, e: seq<Byte>, t: seq<Byte>)
    requires i <= |input| && input[i..] == e + t && e != []
    ensures i + |e| <= |input| && input[i] == e[0] && input[i..i + |e|] == e && input[i + |e|..] == t
  {
    assert input[i] == input[i..][0];
    assert input[i..i + |e|] == input[i..][..|e|];
    assert input[i + |e|..] == input[i..][|e|..];
  }

  lemma {:induction false} Skipped(text: seq<Scalar>, input: seq<Byte>, i: nat, rest: seq<Scalar>, out: seq<Byte>)
    requires At(text, input, i, rest, out) && rest != [] && rest[0] == ESC
    ensures i < |input| && input[i] == ESC
    ensures At(text, input, i + EscapeLength(input[i..]), rest[EscapeLength(rest)..], out)
  {
    EscapeOnBytes(rest);
    assert input[i] == input[i..][0];
    var n := EscapeLength(input[i..]);
    assert input[i + n..] == input[i..][n..];
  }

  /** On any UTF-8 text the bytes that come out are those of the characters that should: every character is
      copied whole, from a character boundary. */
  method StripAnsi(input: seq<Byte>, ghost text: seq<Scalar>) returns (out: seq<Byte>)
    requires input == Utf8(text)
    ensures out == Utf8(Stripped(text))
  {
    if ESC !in input {
      PlainBytes(text);
      PlainUnchanged(text);
      return input;
    }
    out := [];
    var i := 0;
    ghost var rest := text;
    assert input[0..] == input;
    while i < |input|
      invariant At(text, input, i, rest, out)
      decreases |input| - i
    {
      assert rest != [];
      FirstByte(rest, ESC);
      assert input[i] == input[i..][0];
      if input[i] == ESC {
        Skipped(text, input, i, rest, out);
        rest := rest[EscapeLength(rest)..];
        i := SkipEscape(input, i);
      } else {
        Copied(text, input, i, rest, out);
        var ch := NextChar(input, i);
        rest := rest[1..];
        out := out + ch;
        i := i + |ch|;
      }
    }
    assert rest == [] by {
      assert Utf8(rest) == [];
    }
  }

  lemma {:induction false} PlainBytes(cs: seq<Scalar>)
    requires ESC !in Utf8(cs)
    ensures ESC !in cs
  {
    if cs == [] {
    } else {
      FirstByte(cs, ESC);
      assert forall b :: b in Utf8(cs[1..]) ==> b in Utf8(cs);
      PlainBytes(cs[1..]);
      assert cs == [cs[0]] + cs[1..];
    }
  }
}
