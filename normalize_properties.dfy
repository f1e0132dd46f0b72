/** Properties of the quote stripping every parameter read goes through,
    `value.replaceAll("^'|'$", "")`: it never lengthens a value, only ever
    removes quotes, and agrees with a direct description of its two matches
    (a quote at the start, and a quote just before the end anchor), which
    act independently of each other. */
module NormalizeProperties {
  import opened Wrappers
  import opened MultiBlastServiceParams

  /** The position `'$` matches at, other than the first character (which
      `^'` removes anyway): the last character, the one before a final line
      terminator, or the one before a final `\r\n`. */
  function ClosingQuote(s: string): Option<nat> {
    var n := |s|;
    if n >= 2 && s[n - 1] == '\'' then Some(n - 1)
    else if n >= 3 && s[n - 2] == '\'' && IsLineTerminator(s[n - 1]) then Some(n - 2)
    else if n >= 4 && s[n - 3] == '\'' && s[n - 2] == '\r' && s[n - 1] == '\n' then Some(n - 3)
    else None
  }

  /** Whether `^'` matches. */
  predicate OpeningQuote(s: string) {
    |s| > 0 && s[0] == '\''
  }

  /** The input with the opening quote and the closing quote cut out, each
      when present. */
  function Unquoted(s: string): string {
    var start := if OpeningQuote(s) then 1 else 0;
    match ClosingQuote(s)
    case None => s[start..]
    case Some(j) => s[start..j] + s[j + 1..]
  }

  /** The scan removes exactly the opening quote and the closing quote. */
  lemma RemovedIsQuote(s: string, i: nat)
    requires i < |s|
    ensures Removed(s, i) <==> (i == 0 && OpeningQuote(s)) || ClosingQuote(s) == Some(i)
  {
  }

  /** A stretch with nothing removed is copied unchanged. */
  lemma {:induction false} StripFromKeeps(s: string, i: nat, j: nat)
    requires i <= j <= |s|
    requires forall k :: i <= k < j ==> !Removed(s, k)
    ensures StripFrom(s, i) == s[i..j] + StripFrom(s, j)
    decreases j - i
  {
    if i < j {
      StripFromKeeps(s, i + 1, j);
      assert !Removed(s, i);
      assert StripFrom(s, i) == [s[i]] + StripFrom(s, i + 1);
      assert s[i..j] == [s[i]] + s[i + 1..j];
    }
  }

  /** The scan never lengthens its input. */
  lemma {:induction false} StripFromNotLonger(s: string, i: nat)
    requires i <= |s|
    ensures |StripFrom(s, i)| <= |s| - i
    decreases |s| - i
  {
    if i < |s| {
      StripFromNotLonger(s, i + 1);
    }
  }

  /** The scan only removes characters. */
  lemma {:induction false} StripFromSubMultiset(s: string, i: nat)
    requires i <= |s|
    ensures multiset(StripFrom(s, i)) <= multiset(s[i..])
    decreases |s| - i
  {
    if i < |s| {
      StripFromSubMultiset(s, i + 1);
      assert s[i..] == [s[i]] + s[i + 1..];
    }
  }

  /** After the opening quote, the scan keeps everything up to `j` when the
      closing quote is not before `j`. */
  lemma StripFromUpTo(s: string, j: nat)
    requires (if OpeningQuote(s) then 1 else 0) <= j <= |s|
    requires forall k :: 0 < k < j ==> ClosingQuote(s) != Some(k)
    ensures StripFrom(s, 0) == s[(if OpeningQuote(s) then 1 else 0)..j] + StripFrom(s, j)
  {
    var start := if OpeningQuote(s) then 1 else 0;
    forall k | start <= k < j
      ensures !Removed(s, k)
    {
      RemovedIsQuote(s, k);
    }
    StripFromKeeps(s, start, j);
  }

  /** Without a closing quote, only the opening quote (if any) goes. */
  lemma NormalizeWithoutClosingQuote(s: string)
    requires ClosingQuote(s).None?
    ensures Normalize(s) == s[(if OpeningQuote(s) then 1 else 0)..]
  {
    StripFromUpTo(s, |s|);
  }

  /** The closing quote goes and the line terminator after it, if any, stays. */
  lemma StripFromClosingQuote(s: string, j: nat)
    requires ClosingQuote(s) == Some(j)
    ensures j < |s| && StripFrom(s, j) == s[j + 1..]
  {
    RemovedIsQuote(s, j);
    StripFromKeeps(s, j + 1, |s|);
    assert s[j + 1..|s|] == s[j + 1..];
  }

  /** With a closing quote at `j`, it goes as well as the opening quote (if
      any). */
  lemma NormalizeWithClosingQuote(s: string, j: nat)
    requires ClosingQuote(s) == Some(j)
    ensures j < |s| && Normalize(s) == s[(if OpeningQuote(s) then 1 else 0)..j] + s[j + 1..]
  {
    StripFromUpTo(s, j);
    StripFromClosingQuote(s, j);
  }

  /** The replacement agrees with the direct description of its matches. */
  lemma NormalizeIsUnquoted(s: string)
    ensures Normalize(s) == Unquoted(s)
  {
    match ClosingQuote(s)
    case None => NormalizeWithoutClosingQuote(s);
    case Some(j) => NormalizeWithClosingQuote(s, j);
  }

  /** The replacement never lengthens a value... */
  lemma NormalizeNotLonger(s: string)
    ensures |Normalize(s)| <= |s|
  {
    StripFromNotLonger(s, 0);
  }

  /** ...removes at most two characters... */
  lemma NormalizeRemovesAtMostTwo(s: string)
    ensures |Normalize(s)| >= |s| - 2
  {
    NormalizeIsUnquoted(s);
  }

  /** The characters of `s` other than quotes, in order. */
  function WithoutQuotes(s: string): string {
    if |s| == 0 then "" else (if s[0] == '\'' then "" else [s[0]]) + WithoutQuotes(s[1..])
  }

  lemma {:induction false} WithoutQuotesAppend(a: string, b: string)
    ensures WithoutQuotes(a + b) == WithoutQuotes(a) + WithoutQuotes(b)
  {
    if |a| > 0 {
      assert (a + b)[1..] == a[1..] + b;
      WithoutQuotesAppend(a[1..], b);
    } else {
      assert a + b == b;
    }
  }

  /** The scan keeps every character other than a quote, in order. */
  lemma {:induction false} StripFromKeepsOthers(s: string, i: nat)
    requires i <= |s|
    ensures WithoutQuotes(StripFrom(s, i)) == WithoutQuotes(s[i..])
    decreases |s| - i
  {
    if i < |s| {
      StripFromKeepsOthers(s, i + 1);
      assert s[i..][1..] == s[i + 1..];
      var head := if Removed(s, i) then "" else [s[i]];
      WithoutQuotesAppend(head, StripFrom(s, i + 1));
    }
  }

  /** ...and only ever removes quotes: apart from quotes, the value keeps
      every character, in order. */
  lemma NormalizeOnlyRemovesQuotes(s: string)
    ensures multiset(Normalize(s)) <= multiset(s)
    ensures WithoutQuotes(Normalize(s)) == WithoutQuotes(s)
  {
    assert s[0..] == s;
    StripFromSubMultiset(s, 0);
    StripFromKeepsOthers(s, 0);
  }

  /** A value quoted at both ends loses exactly its two quotes, whatever it
      holds in between. */
  lemma NormalizeQuoted(t: string)
    ensures Normalize("'" + t + "'") == t
  {
    var s := "'" + t + "'";
    NormalizeIsUnquoted(s);
    assert ClosingQuote(s) == Some(|s| - 1);
    assert s[1..|s| - 1] == t;
  }

  /** A leading quote alone is removed when the value has no other quote. */
  lemma NormalizeLeadingOnly(t: string)
    requires '\'' !in t
    ensures Normalize("'" + t) == t
  {
    var s := "'" + t;
    NormalizeIsUnquoted(s);
    assert ClosingQuote(s) == None by {
      if |s| >= 2 { assert s[|s| - 1] == t[|t| - 1]; }
      if |s| >= 3 { assert s[|s| - 2] == t[|t| - 2]; }
      if |s| >= 4 { assert s[|s| - 3] == t[|t| - 3]; }
    }
  }

  /** A trailing quote alone is removed when the value has no other quote. */
  lemma NormalizeTrailingOnly(t: string)
    requires '\'' !in t
    ensures Normalize(t + "'") == t
  {
    var s := t + "'";
    NormalizeIsUnquoted(s);
    if |t| == 0 {
      assert OpeningQuote(s) && ClosingQuote(s) == None;
    } else {
      assert !OpeningQuote(s) by { assert s[0] == t[0]; }
      assert ClosingQuote(s) == Some(|t|);
      assert s[..|t|] == t;
    }
  }

  /** A value without quotes is left as it is. */
  lemma NormalizeUnquotedValue(t: string)
    requires '\'' !in t
    ensures Normalize(t) == t
  {
    NormalizeIsUnquoted(t);
    assert ClosingQuote(t) == None by {
      if |t| >= 2 { assert t[|t| - 1] in t; }
      if |t| >= 3 { assert t[|t| - 2] in t; }
      if |t| >= 4 { assert t[|t| - 3] in t; }
    }
    assert t[0..] == t;
  }

  /** `$` also matches before a final line terminator, so the quote before
      it goes and the terminator stays. */
  lemma NormalizeBeforeFinalTerminator(t: string, c: char)
    requires IsLineTerminator(c)
    ensures Normalize("'" + t + "'" + [c]) == t + [c]
  {
    var s := "'" + t + "'" + [c];
    NormalizeIsUnquoted(s);
    assert ClosingQuote(s) == Some(|s| - 2);
    assert s[1..|s| - 2] == t && s[|s| - 1..] == [c];
  }

  /** The same holds before a final `\r\n`. */
  lemma NormalizeBeforeFinalCrLf(t: string)
    ensures Normalize("'" + t + "'\r\n") == t + "\r\n"
  {
    var s := "'" + t + "'\r\n";
    NormalizeIsUnquoted(s);
    assert ClosingQuote(s) == Some(|s| - 3);
    assert s[1..|s| - 3] == t && s[|s| - 2..] == "\r\n";
  }

  /** Only one quote goes from each end. */
  lemma NormalizeOneQuotePerEnd()
    ensures Normalize("''1e-5''") == "'1e-5'"
    ensures Normalize("'") == ""
    ensures Normalize("''") == ""
  {
    NormalizeQuoted("'1e-5'");
    NormalizeIsUnquoted("'");
    NormalizeQuoted("");
  }
}
