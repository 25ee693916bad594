/** The parts of Python's `str` that the modelled code relies on. */
module Text {

  /** `str.isspace` for one character; `\s` in a pattern accepts the same characters. */
  predicate IsSpace(c: char) {
    c == ' ' || '\U{0009}' <= c <= '\U{000D}' || '\U{001C}' <= c <= '\U{001F}' || c == '\U{0085}'
    || c == '\U{00A0}' || c == '\U{1680}' || '\U{2000}' <= c <= '\U{200A}'
    || c == '\U{2028}' || c == '\U{2029}' || c == '\U{202F}' || c == '\U{205F}' || c == '\U{3000}'
  }

  function LStrip(s: string): string {
    if s != "" && IsSpace(s[0]) then LStrip(s[1..]) else s
  }

  function RStrip(s: string): string {
    if s != "" && IsSpace(s[|s|-1]) then RStrip(s[..|s|-1]) else s
  }

  function Strip(s: string): string { RStrip(LStrip(s)) }

  predicate Blank(s: string) { Strip(s) == "" }

  predicate StartsWith(s: string, prefix: string) { prefix <= s }

  predicate EndsWith(s: string, suffix: string) {
    |suffix| <= |s| && s[|s| - |suffix|..] == suffix
  }

  predicate IsDigit(c: char) { '0' <= c <= '9' }

  /** `str.isdigit`, on ASCII. */
  predicate AllDigits(s: string) { s != "" && forall i :: 0 <= i < |s| ==> IsDigit(s[i]) }

  /** `int(s)` for a string of digits. */
  function ParseNat(s: string): nat
    requires forall i :: 0 <= i < |s| ==> IsDigit(s[i])
  {
    if s == "" then 0
    else assert IsDigit(s[|s|-1]); 10 * ParseNat(s[..|s|-1]) + (s[|s|-1] as int - '0' as int)
  }

  function LowerChar(c: char): char {
    if 'A' <= c <= 'Z' then ((c as int) + 32) as char else c
  }

  /** `str.lower`, on ASCII. */
  function Lower(s: string): (r: string)
    ensures |r| == |s|
    ensures forall i :: 0 <= i < |s| ==> r[i] == LowerChar(s[i])
  {
    seq(|s|, i requires 0 <= i < |s| => LowerChar(s[i]))
  }

  function UpperChar(c: char): char {
    if 'a' <= c <= 'z' then ((c as int) - 32) as char else c
  }

  /** `str.upper`, on ASCII. */
  function Upper(s: string): (r: string)
    ensures |r| == |s|
    ensures forall i :: 0 <= i < |s| ==> r[i] == UpperChar(s[i])
  {
    seq(|s|, i requires 0 <= i < |s| => UpperChar(s[i]))
  }

  predicate SpaceFree(s: string) { forall i :: 0 <= i < |s| ==> !IsSpace(s[i]) }

  lemma StripSpaceFree(s: string)
    requires s == "" || (!IsSpace(s[0]) && !IsSpace(s[|s|-1]))
    ensures Strip(s) == s
  {
  }

  /** What is stripped is white space on both sides, and nothing else goes. */
  lemma {:induction false} StripSplits(s: string) returns (left: string, right: string)
    ensures s == left + Strip(s) + right
    ensures forall c :: c in left + right ==> IsSpace(c)
    ensures Strip(s) != "" ==> !IsSpace(Strip(s)[0]) && !IsSpace(Strip(s)[|Strip(s)|-1])
  {
    left := LStripSplits(s);
    right := RStripSplits(LStrip(s));
    var t := RStrip(LStrip(s));
    if t != "" { assert t[0] == LStrip(s)[0]; }
  }

  lemma LStripSplits(s: string) returns (left: string)
    ensures s == left + LStrip(s)
    ensures forall c :: c in left ==> IsSpace(c)
    ensures LStrip(s) != "" ==> !IsSpace(LStrip(s)[0])
  {
    if s != "" && IsSpace(s[0]) {
      left := LStripSplits(s[1..]);
      left := [s[0]] + left;
    } else {
      left := "";
    }
  }

  lemma RStripSplits(s: string) returns (right: string)
    ensures s == RStrip(s) + right
    ensures forall c :: c in right ==> IsSpace(c)
    ensures RStrip(s) != "" ==> !IsSpace(RStrip(s)[|RStrip(s)|-1])
  {
    if s != "" && IsSpace(s[|s|-1]) {
      right := RStripSplits(s[..|s|-1]);
      right := right + [s[|s|-1]];
    } else {
      right := "";
    }
  }
}
