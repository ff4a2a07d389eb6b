/** ASCII case, which is all the case there is to the label scanner and to LIKE. */
module Text {

  function Lower(c: char): char {
    if 'A' <= c <= 'Z' then c - 'A' + 'a' else c
  }

  /** The two cases of an ASCII letter are 32 apart; nothing else is folded together. */
  lemma SameLetter(c: char, d: char)
    ensures Lower(c) == Lower(d) <==>
      || c == d
      || ('A' <= c <= 'Z' && d as int == c as int + 32)
      || ('A' <= d <= 'Z' && c as int == d as int + 32)
  {
  }

  /** `s` begins with `prefix`, ASCII case aside. */
  predicate StartsCi(s: string, prefix: string) {
    |prefix| <= |s| && forall i :: 0 <= i < |prefix| ==> Lower(s[i]) == Lower(prefix[i])
  }
}
