/** What the jump hash of a key literal is computed from: the type switch of GetIndex and strconv's integers. */
module HashKeys {
  import opened Prelude
  import opened Decimal
  import opened SqlExpr

  const TWO_63: int := 0x8000_0000_0000_0000
  const TWO_64: int := 0x1_0000_0000_0000_0000

  /** Numbers are hashed as unsigned 64-bit integers, strings by their text. */
  datatype HashKey = Number(n: nat) | Text(s: string)

  function DigitValue(c: char): Option<nat> {
    if '0' <= c <= '9' then Some(c as int - '0' as int)
    else if 'a' <= LowerChar(c) <= 'f' then Some(LowerChar(c) as int - 'a' as int + 10)
    else None
  }

  function ParseBase(s: string, base: nat): Option<nat> {
    if s == "" then Some(0)
    else
      var d := DigitValue(s[|s| - 1]);
      var front := ParseBase(s[..|s| - 1], base);
      if front.None? || d.None? || d.value >= base then None else Some(front.value * base + d.value)
  }

  /** strconv.ParseUint with base 0: a prefix gives the base, and a leading zero means octal. */
  function ParseUint(s: string): Option<nat> {
    if s == "" then None
    else if s[0] != '0' then ParseDigits(s)
    else if |s| >= 3 && LowerChar(s[1]) == 'b' then ParseBase(s[2..], 2)
    else if |s| >= 3 && LowerChar(s[1]) == 'o' then ParseBase(s[2..], 8)
    else if |s| >= 3 && LowerChar(s[1]) == 'x' then ParseBase(s[2..], 16)
    else ParseBase(s[1..], 8)
  }

  /** A sign and a magnitude as a 64-bit integer. */
  function FitInt(neg: bool, un: Option<nat>): Option<int> {
    if un.None? || un.value > TWO_63 || (un.value == TWO_63 && !neg) then None
    else Some(if neg then -(un.value as int) else un.value)
  }

  /** strconv.ParseInt with base 0 and 64 bits. */
  function ParseInt(s: string): Option<int> {
    var signed := s != "" && (s[0] == '-' || s[0] == '+');
    FitInt(s != "" && s[0] == '-', ParseUint(if signed then s[1..] else s))
  }

  /** What GetIndex hashes; `float` is ParseFloat followed by the conversion to an unsigned integer. */
  function KeyOf(v: SqlVal, float: string -> Option<nat>): Option<HashKey> {
    match v.typ
    case IntVal =>
      var n := ParseInt(v.text);
      if n.None? then None else Some(Number(n.value % TWO_64))
    case FloatVal =>
      var n := float(v.text);
      if n.None? then None else Some(Number(n.value))
    case StrVal => Some(Text(v.text))
    case OtherVal => None
  }

  // ----- Octal and decimal ---------------------------------------------------------------------

  /** Read in base 8, digits give less than in base 10, unless the number has one digit only. */
  lemma {:induction false} OctalIsLess(s: string)
    requires AllDigits(s)
    ensures ParseDigits(s).Some?
    ensures ParseBase(s, 8).Some? ==> ParseBase(s, 8).value <= ParseDigits(s).value
    ensures ParseBase(s, 8) == ParseDigits(s) <==> ParseDigits(s).value < 8
  {
    if s != "" {
      OctalIsLess(s[..|s| - 1]);
    }
  }

  /** Digits are read as they are written exactly when no zero makes them octal. */
  lemma UintReadsAsWritten(s: string)
    requires s != "" && AllDigits(s)
    ensures ParseDigits(s).Some?
    ensures ParseUint(s) == ParseDigits(s) <==> s[0] != '0' || ParseDigits(s).value < 8
    ensures ParseUint(s).Some? ==> ParseUint(s).value <= ParseDigits(s).value
  {
    OctalIsLess(s);
    if s[0] == '0' {
      assert s == "0" + s[1..];
      LeadingZero(s[1..]);
      OctalIsLess(s[1..]);
      assert |s| >= 3 ==> '0' <= s[1] <= '9';
    }
  }

  /** Digits with or without a minus sign. */
  function Signed(neg: bool, s: string): string { if neg then "-" + s else s }

  lemma ParseSigned(neg: bool, s: string)
    requires s != "" && AllDigits(s)
    ensures ParseInt(Signed(neg, s)) == FitInt(neg, ParseUint(s))
  {
    assert ("-" + s)[1..] == s;
    assert '0' <= s[0] <= '9';
  }

  /** An integer is read as it is written exactly when it fits 64 bits and no zero makes it octal. */
  lemma IntReadsAsWritten(neg: bool, s: string)
    requires s != "" && AllDigits(s)
    ensures ParseDigits(s).Some?
    ensures var n := if neg then -(ParseDigits(s).value as int) else ParseDigits(s).value;
            ParseInt(Signed(neg, s)) == Some(n) <==> -TWO_63 <= n < TWO_63 && (s[0] != '0' || -8 < n < 8)
  {
    ParseSigned(neg, s);
    UintReadsAsWritten(s);
  }

  /**
    An unsigned integer literal is hashed as the number it stands for in SQL exactly when that fits 63
    bits and no zero makes it octal.
  */
  lemma ReadsAsWritten(s: string, rank: real, float: string -> Option<nat>)
    requires s != "" && AllDigits(s)
    ensures ParseDigits(s).Some?
    ensures var n := ParseDigits(s).value;
            KeyOf(SqlVal(IntVal, s, rank), float) == Some(Number(n)) <==> n < TWO_63 && (s[0] != '0' || n < 8)
  {
    ParseSigned(false, s);
    UintReadsAsWritten(s);
    HashesFit(ParseUint(s));
  }

  lemma HashesFit(un: Option<nat>)
    ensures FitInt(false, un).Some? ==> FitInt(false, un).value % TWO_64 == un.value
  {
  }

  /** 9223372036854775808 is refused. */
  lemma TooLargeIsRefused(rank: real, float: string -> Option<nat>)
    ensures KeyOf(SqlVal(IntVal, Show(TWO_63), rank), float) == None
  {
    NoLeadingZero(TWO_63);
    ParseSigned(false, Show(TWO_63));
    UintParses(TWO_63);
  }

  // ----- Plain integers ---------------------------------------------------------------------------

  function ShowInt(n: int): string { if n < 0 then "-" + Show(-n) else Show(n) }

  function AsReal(n: int): real { n as real }

  /** A literal as a client prints a 64-bit integer. */
  predicate Prints(v: SqlVal, n: int) {
    v.typ == IntVal && -TWO_63 <= n < TWO_63 && v.text == ShowInt(n) && v.rank == AsReal(n)
  }

  ghost predicate PlainInt(v: SqlVal) {
    exists n :: Prints(v, n)
  }

  lemma {:induction false} NoLeadingZero(n: nat)
    ensures Show(n) != "" && AllDigits(Show(n)) && (Show(n)[0] == '0' ==> n == 0)
  {
    ShowParses(n);
    if n >= 10 {
      NoLeadingZero(n / 10);
    }
  }

  lemma UintParses(n: nat)
    ensures ParseUint(Show(n)) == Some(n)
  {
    NoLeadingZero(n);
    ShowParses(n);
    UintReadsAsWritten(Show(n));
  }

  lemma IntParses(n: int)
    requires -TWO_63 <= n < TWO_63
    ensures ParseInt(ShowInt(n)) == Some(n)
  {
    var m := if n < 0 then -n else n;
    NoLeadingZero(m);
    ParseSigned(n < 0, Show(m));
    UintParses(m);
  }

  /** Plain integers that SQL takes as equal are hashed alike. */
  lemma PlainIntsAgree(a: SqlVal, b: SqlVal, float: string -> Option<nat>)
    requires PlainInt(a) && PlainInt(b) && a.rank == b.rank
    ensures KeyOf(a, float).Some? && KeyOf(a, float) == KeyOf(b, float)
  {
    var m :| Prints(a, m);
    var n :| Prints(b, n);
    assert m == n;
    IntParses(m);
  }

  // ----- Literals that are equal in SQL and hashed differently -------------------------------------

  /** 1 and '1'. */
  lemma NumberAndString(float: string -> Option<nat>)
    ensures KeyOf(SqlVal(IntVal, "1", 1.0), float) == Some(Number(1))
    ensures KeyOf(SqlVal(StrVal, "1", 1.0), float) == Some(Text("1"))
  {
    IntParses(1);
    assert ShowInt(1) == "1";
  }

  /** 010 and 10: SQL reads both as ten. */
  lemma OctalAndDecimal(float: string -> Option<nat>)
    ensures KeyOf(SqlVal(IntVal, "010", 10.0), float) == Some(Number(8))
    ensures KeyOf(SqlVal(IntVal, "10", 10.0), float) == Some(Number(10))
  {
    assert "010"[1..] == "10" && "10"[..1] == "1" && "1"[..0] == "";
    assert ParseBase("1", 8) == Some(1) && ParseBase("10", 8) == Some(8);
    assert ParseDigits("1") == Some(1) && ParseDigits("10") == Some(10);
  }
}
