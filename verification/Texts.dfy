/** Texts as the source normalises them before it compares them. */
module Texts {
  /** What `str.strip` takes away. */
  predicate Blank(c: char) {
    || '\t' <= c <= '\r' || '\U{1c}' <= c <= ' ' || '\U{2000}' <= c <= '\U{200a}'
    || c in ['\U{85}', '\U{a0}', '\U{1680}', '\U{2028}', '\U{2029}', '\U{202f}', '\U{205f}', '\U{3000}']
  }

  function StripLeft(s: string): string {
    if s != "" && Blank(s[0]) then StripLeft(s[1..]) else s
  }

  function StripRight(s: string): string {
    if s != "" && Blank(s[|s| - 1]) then StripRight(s[..|s| - 1]) else s
  }

  function Strip(s: string): string {
    StripRight(StripLeft(s))
  }

  function Lower(s: string): string {
    seq(|s|, i requires 0 <= i < |s| => if 'A' <= s[i] <= 'Z' then (s[i] as int + 32) as char else s[i])
  }

  function Upper(s: string): string {
    seq(|s|, i requires 0 <= i < |s| => if 'a' <= s[i] <= 'z' then (s[i] as int - 32) as char else s[i])
  }

  /** The characters that Unicode calls white space, by number. */
  lemma BlankIff(c: char)
    ensures Blank(c) <==>
              || 9 <= c as int <= 13
              || 28 <= c as int <= 32
              || c as int in {0x85, 0xA0, 0x1680, 0x2028, 0x2029, 0x202F, 0x205F, 0x3000}
              || 0x2000 <= c as int <= 0x200A
  {
  }

  ghost predicate AllBlank(s: string) {
    forall i :: 0 <= i < |s| ==> Blank(s[i])
  }

  ghost predicate Trimmed(s: string) {
    s != "" ==> !Blank(s[0]) && !Blank(s[|s| - 1])
  }

  lemma {:induction false} StrippedLeft(s: string) returns (a: string)
    ensures s == a + StripLeft(s) && AllBlank(a)
    ensures StripLeft(s) != "" ==> !Blank(StripLeft(s)[0])
  {
    hide Blank;
    a := "";
    if s != "" && Blank(s[0]) {
      var rest := StrippedLeft(s[1..]);
      a := [s[0]] + rest;
      assert s == [s[0]] + s[1..];
    }
  }

  lemma {:induction false} StrippedRight(s: string) returns (b: string)
    ensures s == StripRight(s) + b && AllBlank(b)
    ensures StripRight(s) != "" ==> !Blank(StripRight(s)[|StripRight(s)| - 1])
  {
    hide Blank;
    b := "";
    if s != "" && Blank(s[|s| - 1]) {
      var rest := StrippedRight(s[..|s| - 1]);
      b := rest + [s[|s| - 1]];
      assert s == s[..|s| - 1] + [s[|s| - 1]];
    }
  }

  /** Stripping takes the blanks off both ends and nothing else. */
  lemma StripTakesBlanks(s: string) returns (a: string, b: string)
    ensures s == a + Strip(s) + b
    ensures AllBlank(a) && AllBlank(b) && Trimmed(Strip(s))
  {
    hide Blank, StripLeft, StripRight;
    a := StrippedLeft(s);
    b := StrippedRight(StripLeft(s));
    var value := Strip(s);
    if value != "" {
      assert StripLeft(s)[0] == value[0];
    }
  }

  lemma {:induction false} StripLeftOf(a: string, t: string)
    requires AllBlank(a) && t != "" && !Blank(t[0])
    ensures StripLeft(a + t) == t
  {
    hide Blank;
    if a == "" {
      assert a + t == t;
    } else {
      assert (a + t)[1..] == a[1..] + t;
      StripLeftOf(a[1..], t);
    }
  }

  lemma {:induction false} StripRightOf(t: string, b: string)
    requires AllBlank(b) && t != "" && !Blank(t[|t| - 1])
    ensures StripRight(t + b) == t
  {
    hide Blank;
    if b == "" {
      assert t + b == t;
    } else {
      assert (t + b)[..|t + b| - 1] == t + b[..|b| - 1];
      StripRightOf(t, b[..|b| - 1]);
    }
  }

  /** What is between the blanks is all of it. */
  lemma StripOf(a: string, t: string, b: string)
    requires AllBlank(a) && AllBlank(b) && t != "" && Trimmed(t)
    ensures Strip(a + t + b) == t
  {
    hide Blank, StripLeft, StripRight;
    assert a + t + b == a + (t + b);
    StripLeftOf(a, t + b);
    StripRightOf(t, b);
  }

  const LOWER := "abcdefghijklmnopqrstuvwxyz"
  const UPPER := "ABCDEFGHIJKLMNOPQRSTUVWXYZ"

  lemma LettersInOrder(k: nat)
    requires k < 26
    ensures LOWER[k] as int == 97 + k && UPPER[k] as int == 65 + k
  {
  }

  /** The two cases of the 26 letters. */
  lemma CasesPair(s: string, i: nat, k: nat)
    requires i < |s| && k < 26 && (s[i] == LOWER[k] || s[i] == UPPER[k])
    ensures |Lower(s)| == |Upper(s)| == |s|
    ensures Lower(s)[i] == LOWER[k] && Upper(s)[i] == UPPER[k]
  {
    LettersInOrder(k);
  }

  /** Every other character is its own. */
  lemma OthersStay(s: string, i: nat)
    requires i < |s| && s[i] !in LOWER && s[i] !in UPPER
    ensures |Lower(s)| == |Upper(s)| == |s|
    ensures Lower(s)[i] == Upper(s)[i] == s[i]
  {
    if 'A' <= s[i] <= 'Z' {
      LettersInOrder(s[i] as int - 65);
    }
    if 'a' <= s[i] <= 'z' {
      LettersInOrder(s[i] as int - 97);
    }
  }
}
