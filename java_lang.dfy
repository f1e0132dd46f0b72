/** The few pieces of the Java platform the parameter mapper relies on:
    `Integer.parseInt` (radix 10), `String.split` with a one-character
    separator, with and without a limit, and `String.startsWith`.
    `Integer.toString` is given as the partner of `Integer.parseInt`. */
module JavaLang {
  import opened Wrappers

  const Int32Min: int := -0x8000_0000
  const Int32Max: int := 0x7fff_ffff

  /** The values of a Java `int`. */
  type Int32 = x: int | Int32Min <= x <= Int32Max

  predicate IsDigit(c: char) { '0' <= c <= '9' }

  predicate AllDigits(s: string) {
    forall i :: 0 <= i < |s| ==> IsDigit(s[i])
  }

  function DigitValue(c: char): (d: nat)
    requires IsDigit(c)
    ensures d < 10
  {
    (c as int) - ('0' as int)
  }

  function DigitChar(d: nat): (c: char)
    requires d < 10
    ensures IsDigit(c) && DigitValue(c) == d
  {
    ('0' as int + d) as char
  }

  /** The value of a string of decimal digits, most significant first. */
  function DigitsValue(s: string): nat
    requires AllDigits(s)
  {
    if |s| == 0 then 0 else DigitsValue(s[..|s| - 1]) * 10 + DigitValue(s[|s| - 1])
  }

  predicate IsSign(c: char) { c == '-' || c == '+' }

  /** The loop of `Integer.parseInt`: the digits of `s` from `i` on,
      accumulated onto `acc`, or `None` at the first character that is not a
      digit. */
  function ParseDigits(s: string, i: nat, acc: nat): Option<nat>
    requires i <= |s|
    decreases |s| - i
  {
    if i == |s| then Some(acc)
    else if IsDigit(s[i]) then ParseDigits(s, i + 1, acc * 10 + DigitValue(s[i]))
    else None
  }

  /** `Integer.parseInt(s)`: an optional sign, then at least one decimal digit,
      and a value that fits in an `int`; anything else is a
      `NumberFormatException`, here `None`. */
  function ParseInt(s: string): Option<Int32> {
    if |s| == 0 then None
    else
      var start := if IsSign(s[0]) then 1 else 0;
      if start == |s| then None
      else match ParseDigits(s, start, 0)
        case None => None
        case Some(m) =>
          var v: int := if s[0] == '-' then -(m as int) else m;
          if Int32Min <= v <= Int32Max then Some(v) else None
  }

  /** The decimal digits of `n`, without leading zeros. */
  function FormatNat(n: nat): (r: string)
    ensures |r| > 0 && AllDigits(r)
  {
    if n < 10 then [DigitChar(n)] else FormatNat(n / 10) + [DigitChar(n % 10)]
  }

  /** `Integer.toString(n)`. */
  function FormatInt(n: int): string {
    if n < 0 then "-" + FormatNat(-n) else FormatNat(n)
  }

  lemma {:induction false} DigitsValueOfFormatNat(n: nat)
    ensures DigitsValue(FormatNat(n)) == n
  {
    if n >= 10 {
      var s := FormatNat(n);
      assert s[..|s| - 1] == FormatNat(n / 10);
      DigitsValueOfFormatNat(n / 10);
    }
  }

  /** Scanning from `i` is scanning the suffix from its start. */
  lemma {:induction false} ParseDigitsSuffix(s: string, i: nat, acc: nat)
    requires i <= |s|
    ensures ParseDigits(s, i, acc) == ParseDigits(s[i..], 0, acc)
    decreases |s| - i
  {
    if i < |s| && IsDigit(s[i]) {
      var acc' := acc * 10 + DigitValue(s[i]);
      ParseDigitsSuffix(s, i + 1, acc');
      ParseDigitsSuffix(s[i..], 1, acc');
      assert s[i..][1..] == s[i + 1..];
    }
  }

  /** On a string of digits the loop computes its decimal value. */
  lemma {:induction false} ParseDigitsValue(s: string, i: nat)
    requires AllDigits(s) && i <= |s|
    ensures ParseDigits(s, i, DigitsValue(s[..i])) == Some(DigitsValue(s))
    decreases |s| - i
  {
    if i == |s| {
      assert s[..i] == s;
    } else {
      assert s[..i + 1][..i] == s[..i];
      ParseDigitsValue(s, i + 1);
    }
  }

  /** The loop succeeds exactly when every character from `i` on is a digit. */
  lemma {:induction false} ParseDigitsRejects(s: string, i: nat, acc: nat)
    requires i <= |s|
    ensures ParseDigits(s, i, acc).Some? <==> forall k :: i <= k < |s| ==> IsDigit(s[k])
    decreases |s| - i
  {
    if i < |s| && IsDigit(s[i]) {
      ParseDigitsRejects(s, i + 1, acc * 10 + DigitValue(s[i]));
    }
  }

  /** What `Integer.parseInt` accepts: a non-empty string of decimal digits,
      perhaps after one leading sign. */
  lemma ParseIntAccepts(s: string)
    requires ParseInt(s).Some?
    ensures |s| > 0
    ensures forall i :: 0 <= i < |s| ==> IsDigit(s[i]) || (i == 0 && IsSign(s[i]))
  {
    var start := if IsSign(s[0]) then 1 else 0;
    ParseDigitsRejects(s, start, 0);
  }

  /** `s` without its leading sign, if it has one. */
  function Unsigned(s: string): (r: string)
    ensures |r| <= |s|
  {
    if |s| > 0 && IsSign(s[0]) then s[1..] else s
  }

  /** The syntax `Integer.parseInt` accepts in radix 10: at most one leading
      sign, then one or more decimal digits. */
  predicate IntSyntax(s: string) {
    |Unsigned(s)| > 0 && AllDigits(Unsigned(s))
  }

  /** The value the text denotes, as an unbounded integer. */
  function SignedValue(s: string): int
    requires IntSyntax(s)
  {
    if s[0] == '-' then -(DigitsValue(Unsigned(s)) as int) else DigitsValue(Unsigned(s))
  }

  /** What `Integer.parseInt` returns, in both directions: the value the text
      denotes when the text is a signed decimal numeral whose value fits in an
      `int`, and a `NumberFormatException` otherwise, an out-of-range value
      included. */
  lemma ParseIntMeaning(s: string)
    ensures ParseInt(s) ==
      if IntSyntax(s) && Int32Min <= SignedValue(s) <= Int32Max then Some(SignedValue(s)) else None
  {
    if |s| > 0 {
      var start := if IsSign(s[0]) then 1 else 0;
      var d := s[start..];
      assert Unsigned(s) == d;
      ParseDigitsSuffix(s, start, 0);
      ParseDigitsRejects(d, 0, 0);
      if AllDigits(d) {
        assert d[..0] == "";
        ParseDigitsValue(d, 0);
      }
    }
  }

  /** Non-canonical numerals are read by value; a sign needs digits after it. */
  lemma ParseIntNonCanonical()
    ensures ParseInt("+7") == Some(7) && ParseInt("007") == Some(7) && ParseInt("-0") == Some(0)
    ensures ParseInt("-") == None && ParseInt("+-1") == None
  {
    ParseIntMeaning("+7");
    assert Unsigned("+7") == "7";
    ParseIntMeaning("007");
    assert Unsigned("007") == "007";
    assert "007"[..2] == "00" && "00"[..1] == "0";
    ParseIntMeaning("-0");
    assert Unsigned("-0") == "0";
    ParseIntMeaning("+-1");
    assert Unsigned("+-1") == "-1";
  }

  /** Appending a digit shifts the value one decimal place. */
  lemma DigitsValueSnoc(s: string, c: char)
    requires AllDigits(s) && IsDigit(c)
    ensures AllDigits(s + [c]) && DigitsValue(s + [c]) == DigitsValue(s) * 10 + DigitValue(c)
  {
    assert (s + [c])[..|s|] == s;
  }

  /** The decimal value of the ten digits of 2^31, the first `int` overflow. */
  lemma DigitsValueTwoPow31()
    ensures AllDigits("2147483648") && DigitsValue("2147483648") == 0x8000_0000
  {
    var digits := "2147483648";
    var k := 0;
    while k < |digits|
      invariant k <= |digits| && AllDigits(digits[..k])
      invariant DigitsValue(digits[..k]) == [0, 2, 21, 214, 2147, 21474, 214748, 2147483, 21474836, 214748364, 2147483648][k]
    {
      DigitsValueSnoc(digits[..k], digits[k]);
      assert digits[..k + 1] == digits[..k] + [digits[k]];
      k := k + 1;
    }
    assert digits[..k] == digits;
  }

  /** 2^31 overflows an `int` while its negation is the least `int`. */
  lemma ParseIntRangeEdges()
    ensures ParseInt("2147483648") == None && ParseInt("+2147483648") == None
    ensures ParseInt("-2147483648") == Some(Int32Min)
  {
    DigitsValueTwoPow31();
    ParseIntMeaning("2147483648");
    assert Unsigned("2147483648") == "2147483648";
    ParseIntMeaning("+2147483648");
    assert Unsigned("+2147483648") == "2147483648";
    ParseIntMeaning("-2147483648");
    assert Unsigned("-2147483648") == "2147483648";
  }

  /** The loop reads back the digits `FormatNat` writes. */
  lemma ParseDigitsFormatNat(m: nat)
    ensures ParseDigits(FormatNat(m), 0, 0) == Some(m)
  {
    var digits := FormatNat(m);
    assert digits[..0] == "";
    ParseDigitsValue(digits, 0);
    DigitsValueOfFormatNat(m);
  }

  /** `Integer.parseInt` reads back every `int` that `Integer.toString` writes. */
  lemma ParseIntFormatInt(n: Int32)
    ensures ParseInt(FormatInt(n)) == Some(n)
  {
    var s := FormatInt(n);
    if n < 0 {
      var m: nat := -(n as int);
      assert s == "-" + FormatNat(m);
      assert s[0] == '-' && s[1..] == FormatNat(m);
      ParseDigitsSuffix(s, 1, 0);
      ParseDigitsFormatNat(m);
    } else {
      assert s == FormatNat(n) && !IsSign(s[0]);
      ParseDigitsFormatNat(n);
    }
  }

  /** An integer never contains the pair separator. */
  lemma ParseIntHasNoComma(s: string)
    requires ParseInt(s).Some?
    ensures ',' !in s
  {
    ParseIntAccepts(s);
  }

  /** The position of the first `c` in `s`, as `String.indexOf`. */
  function IndexOf(s: string, c: char): (r: Option<nat>)
    ensures r.Some? ==> r.value < |s| && s[r.value] == c && c !in s[..r.value]
    ensures r.None? ==> c !in s
  {
    if |s| == 0 then None
    else if s[0] == c then Some(0)
    else match IndexOf(s[1..], c)
      case None => None
      case Some(i) => Some(i + 1)
  }

  /** `s.split(sep, 2)`: the text before the first separator and, when
      there is one, everything after it, further separators included. */
  function SplitLimit2(s: string, sep: char): (r: seq<string>)
    ensures |r| == 1 || |r| == 2
  {
    match IndexOf(s, sep)
    case None => [s]
    case Some(i) => [s[..i], s[i + 1..]]
  }

  /** One piece when there is no separator; otherwise the separator-free text
      before the first separator and all of the rest, which put back together
      give the input. */
  lemma SplitLimit2Pieces(s: string, sep: char)
    ensures var r := SplitLimit2(s, sep);
      && (|r| == 1 <==> sep !in s)
      && (|r| == 1 ==> r[0] == s)
      && (|r| == 2 ==> s == r[0] + [sep] + r[1] && sep !in r[0])
  {
    match IndexOf(s, sep)
    case None =>
    case Some(i) =>
      assert s == s[..i] + [sep] + s[i + 1..];
  }

  /** Every piece of `s` between separators, empty pieces included. */
  function SplitAll(s: string, sep: char): (r: seq<string>)
    ensures |r| > 0
    ensures forall k :: 0 <= k < |r| ==> sep !in r[k]
    decreases |s|
  {
    match IndexOf(s, sep)
    case None => [s]
    case Some(i) => [s[..i]] + SplitAll(s[i + 1..], sep)
  }

  /** The pieces with `sep` put back between them. */
  function Join(parts: seq<string>, sep: char): string {
    if |parts| == 0 then ""
    else if |parts| == 1 then parts[0]
    else parts[0] + [sep] + Join(parts[1..], sep)
  }

  /** Splitting loses nothing: joining the pieces gives the input back. */
  lemma {:induction false} JoinSplitAll(s: string, sep: char)
    ensures Join(SplitAll(s, sep), sep) == s
    decreases |s|
  {
    match IndexOf(s, sep)
    case None =>
    case Some(i) =>
      var rest := SplitAll(s[i + 1..], sep);
      JoinSplitAll(s[i + 1..], sep);
      assert SplitAll(s, sep) == [s[..i]] + rest;
      assert s == s[..i] + [sep] + s[i + 1..];
  }

  /** Splitting the joined pieces, none of which holds the separator, gives
      the pieces back. */
  lemma {:induction false} SplitAllJoin(parts: seq<string>, sep: char)
    requires |parts| > 0
    requires forall k :: 0 <= k < |parts| ==> sep !in parts[k]
    ensures SplitAll(Join(parts, sep), sep) == parts
  {
    var s := Join(parts, sep);
    if |parts| == 1 {
      assert IndexOf(s, sep).None?;
    } else {
      var p := parts[0];
      var rest := Join(parts[1..], sep);
      assert s == p + [sep] + rest;
      assert s[|p|] == sep && s[..|p|] == p;
      assert IndexOf(s, sep) == Some(|p|);
      assert s[|p| + 1..] == rest;
      SplitAllJoin(parts[1..], sep);
      assert parts == [p] + parts[1..];
    }
  }

  function DropTrailingEmpty(parts: seq<string>): (r: seq<string>)
    ensures r <= parts
    ensures forall k :: |r| <= k < |parts| ==> parts[k] == ""
    ensures |r| > 0 ==> r[|r| - 1] != ""
  {
    if |parts| > 0 && parts[|parts| - 1] == "" then DropTrailingEmpty(parts[..|parts| - 1])
    else parts
  }

  /** `s.split(sep)` (limit 0): the input itself when it holds no separator,
      otherwise every piece with the trailing empty pieces removed. */
  function Split(s: string, sep: char): (r: seq<string>)
    ensures r <= SplitAll(s, sep)
    ensures forall k :: |r| <= k < |SplitAll(s, sep)| ==> SplitAll(s, sep)[k] == ""
  {
    if sep !in s then [s] else DropTrailingEmpty(SplitAll(s, sep))
  }

  /** `s.startsWith(prefix)`. */
  predicate StartsWith(s: string, prefix: string) {
    |prefix| <= |s| && s[..|prefix|] == prefix
  }
}
