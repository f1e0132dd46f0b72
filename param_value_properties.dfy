/** Properties of the value conversions: booleans are strict, integers read
    back what `Integer.toString` writes, an integer pair needs exactly one
    comma, and the low-complexity filter is on unless its value starts with
    "no". */
module ParamValueProperties {
  import opened Wrappers
  import opened JavaLang
  import opened Json
  import opened MultiBlastServiceParams
  import opened NormalizeProperties

  // -------------------------------------------------------------------------
  // Booleans
  // -------------------------------------------------------------------------

  /** A last character that is not a quote survives the replacement. */
  lemma UnquotedKeepsLast(s: string)
    requires |s| > 0 && s[|s| - 1] != '\''
    ensures |Unquoted(s)| > 0 && Unquoted(s)[|Unquoted(s)| - 1] == s[|s| - 1]
  {
  }

  /** A value whose quotes come off to leave "true" is "true" with at most a
      quote at each end. */
  lemma UnquotedTrue(s: string)
    requires Unquoted(s) == "true"
    ensures s == "true" || s == "'true" || s == "true'" || s == "'true'"
  {
    var start := if OpeningQuote(s) then 1 else 0;
    var n := |s|;
    assert n >= 4;
    if s[n - 1] == '\'' {
      assert ClosingQuote(s) == Some(n - 1);
      assert s[start..n - 1] == "true";
      assert s == s[..start] + s[start..n - 1] + [s[n - 1]];
    } else {
      UnquotedKeepsLast(s);
      assert ClosingQuote(s) == None;
      assert s == s[..start] + s[start..];
    }
  }

  /** "true", bare or with only a leading quote, normalises to "true". */
  lemma TrueSpellingsBare()
    ensures Normalize("true") == "true" && Normalize("'true") == "true"
  {
    NormalizeUnquotedValue("true");
    assert "'true" == "'" + "true";
    NormalizeLeadingOnly("true");
  }

  /** "true" with a trailing quote, or quoted at both ends, normalises to
      "true". */
  lemma TrueSpellingsQuoted()
    ensures Normalize("true'") == "true" && Normalize("'true'") == "true"
  {
    assert "true'" == "true" + "'";
    NormalizeTrailingOnly("true");
    assert "'true'" == "'" + "true" + "'";
    NormalizeQuoted("true");
  }

  /** The values the boolean reads as true. */
  lemma NormalizeIsTrue(s: string)
    ensures Normalize(s) == "true" <==> s == "true" || s == "'true" || s == "true'" || s == "'true'"
  {
    TrueSpellingsBare();
    TrueSpellingsQuoted();
    if Normalize(s) == "true" {
      NormalizeIsUnquoted(s);
      UnquotedTrue(s);
    }
  }

  /** `getBooleanParamValue` is true exactly for "true", quoted or not; any
      other spelling ("True", "yes", "1", "true" with a line break) is false. */
  lemma BooleanTrueExactly(params: Params, p: ParamName)
    requires Name(p) in params
    ensures var v := params[Name(p)];
      GetBooleanParamValue(params, p) == Success(true)
      <==> v == "true" || v == "'true" || v == "true'" || v == "'true'"
  {
    NormalizeIsTrue(params[Name(p)]);
  }

  /** Capitalised, doubly quoted or followed by a line break, "true" reads as
      false. */
  lemma BooleanOtherSpellings(params: Params, p: ParamName)
    requires Name(p) in params
    requires var v := params[Name(p)]; v == "True" || v == "''true''" || v == "'true'\n"
    ensures GetBooleanParamValue(params, p) == Success(false)
  {
    BooleanTrueExactly(params, p);
  }

  // -------------------------------------------------------------------------
  // Integers
  // -------------------------------------------------------------------------

  /** `Integer.toString` writes no quote. */
  lemma FormatIntHasNoQuote(n: Int32)
    ensures '\'' !in FormatInt(n)
  {
    ParseIntFormatInt(n);
    ParseIntAccepts(FormatInt(n));
  }

  /** `getIntParamValue` reads back any `int` written out in decimal,
      whether or not it is quoted. */
  lemma IntParamRoundTrip(params: Params, p: ParamName, n: Int32)
    requires Name(p) in params
    requires params[Name(p)] == FormatInt(n) || params[Name(p)] == "'" + FormatInt(n) + "'"
    ensures GetIntParamValue(params, p) == Success(n)
  {
    FormatIntHasNoQuote(n);
    NormalizeUnquotedValue(FormatInt(n));
    NormalizeQuoted(FormatInt(n));
    ParseIntFormatInt(n);
  }

  // -------------------------------------------------------------------------
  // Integer pairs
  // -------------------------------------------------------------------------

  /** The first separator of `x + [c] + y` is the one after `x` when `x`
      holds none. */
  lemma IndexOfAfter(x: string, y: string, c: char)
    requires c !in x
    ensures IndexOf(x + [c] + y, c) == Some(|x|)
  {
    var s := x + [c] + y;
    assert s[|x|] == c && s[..|x|] == x;
  }

  /** `paramValueToIntPair` reads back any two `int`s written out in decimal
      with a comma between them. */
  lemma IntPairRoundTrip(a: Int32, b: Int32)
    ensures ParamValueToIntPair(FormatInt(a) + "," + FormatInt(b)) == Success((a, b))
  {
    var x, y := FormatInt(a), FormatInt(b);
    ParseIntFormatInt(a);
    ParseIntFormatInt(b);
    ParseIntHasNoComma(x);
    IndexOfAfter(x, y, ',');
    var v := x + [','] + y;
    assert v[..|x|] == x && v[|x| + 1..] == y;
  }

  /** A pair that converts has exactly one comma, and the two numbers are
      the texts on either side of it. */
  lemma IntPairSuccess(v: string)
    requires ParamValueToIntPair(v).Success?
    ensures IndexOf(v, ',').Some?
    ensures var i := IndexOf(v, ',').value;
      && ParseInt(v[..i]) == Some(ParamValueToIntPair(v).value.0)
      && ParseInt(v[i + 1..]) == Some(ParamValueToIntPair(v).value.1)
      && ',' !in v[i + 1..]
  {
    var i := IndexOf(v, ',').value;
    ParseIntHasNoComma(v[i + 1..]);
  }

  /** How a pair fails: a first part that is not an integer is reported
      first, then a missing comma, then a second part that is not an
      integer (which includes any second comma). */
  lemma IntPairFailure(v: string)
    ensures var parts := SplitLimit2(v, ',');
      ParamValueToIntPair(v).Failure? <==>
        ParseInt(parts[0]).None? || |parts| == 1 || ParseInt(parts[1]).None?
    ensures var parts := SplitLimit2(v, ',');
      ParseInt(parts[0]).None? ==> ParamValueToIntPair(v) == Failure(NumberFormat(parts[0]))
    ensures ParseInt(SplitLimit2(v, ',')[0]).Some? && ',' !in v ==>
      ParamValueToIntPair(v) == Failure(IndexOutOfBounds(v))
    ensures var parts := SplitLimit2(v, ',');
      ParseInt(parts[0]).Some? && |parts| == 2 && ParseInt(parts[1]).None? ==>
        ParamValueToIntPair(v) == Failure(NumberFormat(parts[1]))
  {
    SplitLimit2Pieces(v, ',');
  }

  /** Three values are never a pair: the text after the first comma, which
      holds the second comma, is not an integer. */
  lemma IntPairRejectsThreeParts(x: string, y: string, z: string)
    requires ',' !in x
    ensures ParamValueToIntPair(x + "," + y + "," + z).Failure?
  {
    var v := x + [','] + (y + "," + z);
    assert x + "," + y + "," + z == v;
    IndexOfAfter(x, y + "," + z, ',');
    assert v[|x| + 1..] == y + "," + z;
    assert ',' in y + "," + z by { assert (y + "," + z)[|y|] == ','; }
    if ParseInt(y + "," + z).Some? {
      ParseIntHasNoComma(y + "," + z);
    }
  }

  /** A well-formed pair and a bare number. */
  lemma IntPairExamples()
    ensures ParamValueToIntPair("4,5") == Success((4, 5))
    ensures ParamValueToIntPair("4") == Failure(IndexOutOfBounds("4"))
  {
    IntPairRoundTrip(4, 5);
    assert FormatInt(4) == "4" && FormatInt(5) == "5";
    assert ParseInt("4") == Some(4);
    assert IndexOf("4", ',') == None;
  }

  /** Three numbers, and a first part that is not a number even though the
      comma is missing as well. */
  lemma IntPairRejectedExamples()
    ensures ParamValueToIntPair("4,5,6") == Failure(NumberFormat("5,6"))
    ensures ParamValueToIntPair("x") == Failure(NumberFormat("x"))
  {
    assert ParseInt("4") == Some(4);
    IndexOfAfter("4", "5,6", ',');
    assert "4,5,6"[..1] == "4" && "4,5,6"[2..] == "5,6";
    assert ParseInt("5,6") == None;
    assert ParseInt("x") == None;
  }

  /** A quoted pair reads like the bare pair. */
  lemma IntPairQuoted(params: Params, p: ParamName, a: Int32, b: Int32)
    requires Name(p) in params
    requires params[Name(p)] == "'" + FormatInt(a) + "," + FormatInt(b) + "'"
    ensures GetIntPairParamValue(params, p) == Success((a, b))
  {
    assert params[Name(p)] == "'" + (FormatInt(a) + "," + FormatInt(b)) + "'";
    NormalizeQuoted(FormatInt(a) + "," + FormatInt(b));
    IntPairRoundTrip(a, b);
  }

  // -------------------------------------------------------------------------
  // Low-complexity filter
  // -------------------------------------------------------------------------

  /** `parseDust`/`parseSeg`: the filter is disabled exactly when the
      normalised value begins with the letters "no" (case matters). */
  lemma FilterEnabledUnlessNo(v: string)
    ensures FilterJson(v).fields.Keys == {Enabled}
    ensures FilterJson(v).fields[Enabled] == JBool(!(|v| >= 2 && v[0] == 'n' && v[1] == 'o'))
  {
    if |v| >= 2 && v[0] == 'n' && v[1] == 'o' {
      assert v[..2] == "no";
    }
  }

  /** A quoted "no" disables the filter. */
  lemma FilterQuotedNo()
    ensures FilterJson(Normalize("'no'")).fields[Enabled] == JBool(false)
  {
    NormalizeQuoted("no");
    FilterEnabledUnlessNo("no");
  }

  /** "No" does not disable the filter: the test is case-sensitive. */
  lemma FilterCapitalNo()
    ensures FilterJson(Normalize("No")).fields[Enabled] == JBool(true)
  {
    NormalizeUnquotedValue("No");
    FilterEnabledUnlessNo("No");
  }
}
