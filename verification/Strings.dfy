/** The few operations on text that names and parameters are built with. */
module Strings {

  /** The part of a text before the first occurrence of a separator: all of it if there is none. */
  function Before(s: string, sep: char): (r: string)
    ensures sep !in r && r <= s
    ensures |r| < |s| ==> s[|r|] == sep
  {
    if s == "" || s[0] == sep then "" else [s[0]] + Before(s[1..], sep)
  }

  /** The part of a text after the first occurrence of a separator: nothing if there is none. */
  function After(s: string, sep: char): string {
    var n := |Before(s, sep)|;
    if n == |s| then "" else s[n + 1..]
  }

  /** The first part is found again exactly if it does not contain the separator itself. */
  lemma BeforeOfJoin(a: string, sep: char, b: string)
    ensures Before(a + [sep] + b, sep) == a <==> sep !in a
  {
    var s := a + [sep] + b;
    var r := Before(s, sep);
    if sep !in a {
      assert s[|a|] == sep && forall i :: 0 <= i < |a| ==> s[i] == a[i];
      assert forall i :: 0 <= i < |r| ==> r[i] == s[i] && r[i] != sep;
      assert |r| == |a|;
    }
  }

  /** A text is cut at its last separator in only one way. */
  lemma LastCutIsUnique(x: string, y: string, x': string, y': string, sep: char)
    requires sep !in y && sep !in y' && x + [sep] + y == x' + [sep] + y'
    ensures x == x' && y == y'
  {
    var s, s' := x + [sep] + y, x' + [sep] + y';
    assert s[|x|] == sep && forall i :: |x| < i < |s| ==> s[i] == y[i - |x| - 1];
    assert s'[|x'|] == sep && forall i :: |x'| < i < |s'| ==> s'[i] == y'[i - |x'| - 1];
    assert |x| == |x'|;
    assert x == s[..|x|] && x' == s'[..|x'|] && y == s[|x| + 1..] && y' == s'[|x'| + 1..];
  }

  /** Lower case, exact for every text that is compared with an ASCII one: two letters outside ASCII map into it. */
  function LowerChar(ch: char): char {
    if 'A' <= ch <= 'Z' then ch + ' '
    else if ch == '\U{0130}' then 'i'
    else if ch == '\U{212A}' then 'k'
    else ch
  }

  function ToLower(s: string): (r: string)
    ensures |r| == |s| && forall i :: 0 <= i < |s| ==> r[i] == LowerChar(s[i])
  {
    if s == "" then "" else [LowerChar(s[0])] + ToLower(s[1..])
  }
}
