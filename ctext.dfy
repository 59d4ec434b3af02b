/** The few pieces of the C library that the id synthesis in
    _ut_config_item_get relies on, over strings as `seq<char>`:
    `atoi` (decimal parse), the `%d` conversion of `snprintf`, and
    `strrchr` (last occurrence of a character). */
module CText {

  datatype Option<+T> = None | Some(value: T)

  /** The characters `isspace` accepts in the C locale. */
  predicate IsSpace(c: char) {
    c == ' ' || c == '\t' || c == '\n' || c == '\U{000B}' || c == '\U{000C}' || c == '\r'
  }

  predicate IsDigit(c: char) {
    '0' <= c <= '9'
  }

  function DigitValue(c: char): (d: nat)
    requires IsDigit(c)
    ensures d < 10
  {
    c as int - '0' as int
  }

  function DigitChar(d: nat): (c: char)
    requires d < 10
    ensures IsDigit(c) && DigitValue(c) == d
  {
    (d + '0' as int) as char
  }

  predicate AllDigits(s: string) {
    forall k :: 0 <= k < |s| ==> IsDigit(s[k])
  }

  /** The leading white space that `atoi` skips. */
  function SkipSpace(s: string): (t: string)
    ensures |t| <= |s|
    ensures t == [] || !IsSpace(t[0])
  {
    if s != [] && IsSpace(s[0]) then SkipSpace(s[1..]) else s
  }

  /** The longest prefix of `s` made of decimal digits. */
  function LeadingDigits(s: string): (ds: string)
    ensures AllDigits(ds) && ds <= s
    ensures |ds| < |s| ==> !IsDigit(s[|ds|])
  {
    if s != [] && IsDigit(s[0]) then [s[0]] + LeadingDigits(s[1..]) else []
  }

  /** The number a string of digits denotes, most significant digit first. */
  function DigitsValue(ds: string): nat
    requires AllDigits(ds)
  {
    if ds == [] then 0 else DigitsValue(ds[..|ds| - 1]) * 10 + DigitValue(ds[|ds| - 1])
  }

  /** C `atoi`: skip white space, read an optional sign, then as many decimal
      digits as follow; a string with no digits there gives 0. */
  function Atoi(s: string): (r: int)
    ensures r < 0 ==> SkipSpace(s) != [] && SkipSpace(s)[0] == '-'
    ensures r > 0 ==> SkipSpace(s) == [] || SkipSpace(s)[0] != '-'
  {
    var t := SkipSpace(s);
    if t != [] && t[0] == '-' then -(DigitsValue(LeadingDigits(t[1..])) as int)
    else if t != [] && t[0] == '+' then DigitsValue(LeadingDigits(t[1..]))
    else DigitsValue(LeadingDigits(t))
  }

  /** Decimal digits of a natural number, without leading zeros. */
  function Digits(n: nat): (ds: string)
    ensures ds != [] && AllDigits(ds)
    ensures |ds| > 1 ==> ds[0] != '0'
    ensures n > 0 ==> ds[0] != '0'
  {
    if n < 10 then [DigitChar(n)] else Digits(n / 10) + [DigitChar(n % 10)]
  }

  /** The `%d` conversion of `printf`. */
  function FormatInt(n: int): (s: string)
    ensures s != [] && '.' !in s
    ensures n >= 0 ==> AllDigits(s)
    ensures n < 0 ==> s[0] == '-' && AllDigits(s[1..])
    ensures n >= 0 && |s| > 1 ==> s[0] != '0'
    ensures n < 0 ==> |s| > 1 && s[1] != '0'
  {
    if n < 0 then "-" + Digits(-n) else Digits(n)
  }

  /** C `strrchr(s, c)`: the index of the last occurrence of `c`, if any. */
  function LastIndexOf(s: string, c: char): (r: Option<nat>)
    ensures r.None? <==> c !in s
    ensures r.Some? ==> r.value < |s| && s[r.value] == c && c !in s[r.value + 1..]
  {
    if s == [] then None
    else if s[|s| - 1] == c then Some(|s| - 1)
    else
      var r := LastIndexOf(s[..|s| - 1], c);
      assert s == s[..|s| - 1] + [s[|s| - 1]];
      r
  }

  /** The text after the last `c` in `s`, or None when `c` does not occur. */
  function AfterLast(s: string, c: char): Option<string> {
    match LastIndexOf(s, c)
    case None => None
    case Some(k) => Some(s[k + 1..])
  }

  lemma LeadingDigitsOfDigits(ds: string)
    requires AllDigits(ds)
    ensures LeadingDigits(ds) == ds
  {
  }

  lemma {:induction false} DigitsValueOfDigits(n: nat)
    ensures DigitsValue(Digits(n)) == n
  {
    if n >= 10 {
      DigitsValueOfDigits(n / 10);
      var ds := Digits(n);
      assert ds[..|ds| - 1] == Digits(n / 10);
    }
  }

  /** `atoi` of a run of digits is the number it denotes. */
  lemma AtoiOfDigits(ds: string)
    requires ds != [] && AllDigits(ds)
    ensures Atoi(ds) == DigitsValue(ds)
  {
    LeadingDigitsOfDigits(ds);
    assert !IsSpace(ds[0]);
  }

  /** `atoi` of a '-' followed by a run of digits is the negated number. */
  lemma AtoiOfNegDigits(ds: string)
    requires ds != [] && AllDigits(ds)
    ensures Atoi("-" + ds) == -(DigitsValue(ds) as int)
  {
    LeadingDigitsOfDigits(ds);
    var s := "-" + ds;
    assert SkipSpace(s) == s;
    assert s[1..] == ds;
  }

  /** `atoi` reads back every number that `%d` writes. */
  lemma AtoiFormatInt(n: int)
    ensures Atoi(FormatInt(n)) == n
  {
    if n < 0 {
      AtoiOfNegDigits(Digits(-n));
      DigitsValueOfDigits(-n);
    } else {
      AtoiOfDigits(Digits(n));
      DigitsValueOfDigits(n);
    }
  }

  /** Text in which no digit follows the leading white space and the
      optional sign: nothing there for `atoi` to read. */
  predicate NoNumber(s: string) {
    var t := SkipSpace(s);
    var u := if t != [] && (t[0] == '-' || t[0] == '+') then t[1..] else t;
    u == [] || !IsDigit(u[0])
  }

  /** `atoi` gives 0 when no digit follows the white space and optional sign. */
  lemma AtoiNotNumeric(s: string)
    requires NoNumber(s)
    ensures Atoi(s) == 0
  {
  }

  /** The last occurrence of `c` in `p + [c] + q`, when `q` has none, is the one after `p`. */
  lemma AfterLastSplit(p: string, c: char, q: string)
    requires c !in q
    ensures AfterLast(p + [c] + q, c) == Some(q)
  {
    var s := p + [c] + q;
    var r := LastIndexOf(s, c);
    assert s[|p|] == c;
    assert s[|p| + 1..] == q;
  }
}
