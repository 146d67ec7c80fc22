/** Decimal text: Go's `Sprintf("%d", n)` as the printer and Python's `int(s)` as the parser. */
module Decimal {
  import opened Options
  import opened Text

  function DigitChar(d: nat): (c: char)
    requires d < 10
    ensures '0' <= c <= '9'
  {
    ('0' as int + d) as char
  }

  function DigitValue(c: char): (d: Option<nat>)
    ensures d.Some? ==> d.value < 10 && DigitChar(d.value) == c
  {
    if '0' <= c <= '9' then Some(c as int - '0' as int) else None
  }

  function PrintNat(n: nat): (s: string)
    ensures s != "" && forall i :: 0 <= i < |s| ==> '0' <= s[i] <= '9'
  {
    if n < 10 then [DigitChar(n)] else PrintNat(n / 10) + [DigitChar(n % 10)]
  }

  /** `fmt.Sprintf("%d", n)` */
  function Print(n: int): string {
    if n < 0 then "-" + PrintNat(-n) else PrintNat(n)
  }

  /** Digits, with single underscores allowed between two of them. */
  function ParseDigits(s: string): Option<nat>
    decreases |s|
  {
    if s == "" then None
    else
      var front, last := s[..|s| - 1], DigitValue(s[|s| - 1]);
      if last.None? then None
      else if front == "" then last
      else
        var front' := if front[|front| - 1] == '_' then front[..|front| - 1] else front;
        var high := ParseDigits(front');
        if high.None? then None else Some(10 * high.value + last.value)
  }

  function StripLeft(s: string): string {
    if s != "" && IsSpace(s[0]) then StripLeft(s[1..]) else s
  }

  function StripRight(s: string): string {
    if s != "" && IsSpace(s[|s| - 1]) then StripRight(s[..|s| - 1]) else s
  }

  /** `int(s)`, with None for the ValueError. */
  function ParseInt(s: string): Option<int> {
    var t := StripRight(StripLeft(s));
    if t == "" then None
    else if t[0] == '-' then
      var m := ParseDigits(t[1..]);
      if m.None? then None else Some(-(m.value as int))
    else
      var m := ParseDigits(if t[0] == '+' then t[1..] else t);
      if m.None? then None else Some(m.value)
  }

  lemma {:induction false} ParsePrintNat(n: nat)
    ensures ParseDigits(PrintNat(n)) == Some(n)
  {
    var s := PrintNat(n);
    if n >= 10 {
      var high := PrintNat(n / 10);
      ParsePrintNat(n / 10);
      assert s[..|s| - 1] == high;
      assert DigitValue(s[|s| - 1]) == Some(n % 10);
      assert high[|high| - 1] != '_';
    }
  }

  lemma NothingToStrip(s: string)
    requires s != "" && !IsSpace(s[0]) && !IsSpace(s[|s| - 1])
    ensures StripRight(StripLeft(s)) == s
  {
  }

  lemma DigitsAreNotSpaces(c: char)
    requires '0' <= c <= '9' || c == '-'
    ensures !IsSpace(c)
  {
  }

  /** Parsing undoes printing, for every integer. */
  lemma ParsePrint(n: int)
    ensures ParseInt(Print(n)) == Some(n)
  {
    var s, digits := Print(n), PrintNat(if n < 0 then -n else n);
    ParsePrintNat(if n < 0 then -n else n);
    assert s == if n < 0 then "-" + digits else digits;
    assert s[|s| - 1] == digits[|digits| - 1];
    DigitsAreNotSpaces(s[0]);
    DigitsAreNotSpaces(s[|s| - 1]);
    NothingToStrip(s);
    assert n < 0 ==> s[1..] == digits;
  }
}
