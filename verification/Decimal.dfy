/** Printing and parsing of the "start-end" text of a partition. */
module Decimal {
  import opened Prelude

  const MAX_INT: int := 0x7FFF_FFFF_FFFF_FFFF

  function Digit(d: nat): char
    requires d < 10
  {
    ('0' as int + d) as char
  }

  /** fmt's %d for a number that is not negative. */
  function Show(n: nat): (s: string)
    ensures s != ""
  {
    if n < 10 then [Digit(n)] else Show(n / 10) + [Digit(n % 10)]
  }

  function ParseDigits(s: string): Option<nat> {
    if s == "" then Some(0)
    else
      var c := s[|s| - 1];
      var front := ParseDigits(s[..|s| - 1]);
      if front.None? || !('0' <= c <= '9') then None else Some(front.value * 10 + (c as int - '0' as int))
  }

  /** strconv.Atoi on text without a minus sign: an optional plus sign, digits, a bounded result. */
  function Atoi(s: string): Option<nat> {
    var digits := if s != "" && s[0] == '+' then s[1..] else s;
    if digits == "" then None
    else
      var n := ParseDigits(digits);
      if n.None? || n.value > MAX_INT then None else n
  }

  /** strings.Split(s, "-") */
  function SplitDash(s: string): (pieces: seq<string>)
    ensures pieces != []
  {
    if s == "" then [""]
    else
      var rest := SplitDash(s[1..]);
      if s[0] == '-' then [""] + rest else [[s[0]] + rest[0]] + rest[1..]
  }

  predicate AllDigits(s: string) {
    forall i | 0 <= i < |s| :: '0' <= s[i] <= '9'
  }

  lemma {:induction false} ShowParses(n: nat)
    ensures AllDigits(Show(n)) && ParseDigits(Show(n)) == Some(n)
  {
    if n < 10 {
      assert [Digit(n)][..0] == "";
    } else {
      var s := Show(n);
      ShowParses(n / 10);
      assert s[..|s| - 1] == Show(n / 10);
    }
  }

  lemma {:induction false} LeadingZero(s: string)
    ensures ParseDigits("0" + s) == ParseDigits(s)
  {
    var z := "0" + s;
    if s == "" {
      assert z[..0] == "";
    } else {
      assert z[..|z| - 1] == "0" + s[..|s| - 1];
      LeadingZero(s[..|s| - 1]);
    }
  }

  lemma AtoiShow(n: nat)
    requires n <= MAX_INT
    ensures Atoi(Show(n)) == Some(n)
  {
    ShowParses(n);
  }

  lemma {:induction false} NoDashNoSplit(a: string)
    requires AllDigits(a)
    ensures SplitDash(a) == [a]
  {
    if a != "" {
      NoDashNoSplit(a[1..]);
      assert a == [a[0]] + a[1..];
    }
  }

  lemma {:induction false} SplitAtDash(a: string, b: string)
    requires AllDigits(a) && AllDigits(b)
    ensures SplitDash(a + "-" + b) == [a, b]
  {
    var s := a + "-" + b;
    if a == "" {
      assert s[1..] == b;
      NoDashNoSplit(b);
    } else {
      assert s[1..] == a[1..] + "-" + b;
      SplitAtDash(a[1..], b);
      assert a == [a[0]] + a[1..];
    }
  }

  /** The text of a segment and the numbers it stands for. */
  function ShowSegment(start: nat, end: nat): string {
    Show(start) + "-" + Show(end)
  }

  function ParseSegment(text: string): Option<(nat, nat)> {
    var pieces := SplitDash(text);
    if |pieces| != 2 then None
    else
      var start, end := Atoi(pieces[0]), Atoi(pieces[1]);
      if start.None? || end.None? || end.value <= start.value then None else Some((start.value, end.value))
  }

  lemma SegmentRoundTrip(start: nat, end: nat)
    requires start < end <= MAX_INT
    ensures ParseSegment(ShowSegment(start, end)) == Some((start, end))
  {
    ShowParses(start);
    ShowParses(end);
    SplitAtDash(Show(start), Show(end));
    AtoiShow(start);
    AtoiShow(end);
  }
}
