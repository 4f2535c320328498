/** A model of decimal.TryParse (and of decimal.Parse, which accepts the same strings and
    throws where TryParse returns false): optional white space around an optionally signed
    run of digits with at most one decimal point. Values are exact reals. */
module DecimalParse {
  import opened Wrappers
  import opened Text

  /** The white space NumberStyles.AllowLeadingWhite and AllowTrailingWhite skip:
      U+0009..U+000D and U+0020 (narrower than Char.IsWhiteSpace). */
  predicate IsNumberWhite(c: char)
  {
    c == ' ' || ('\t' <= c <= '\r')
  }

  predicate AllDigits(s: string)
  {
    forall i :: 0 <= i < |s| ==> IsDigit(s[i])
  }

  /** Number of leading number-white characters. */
  function LeadingWhite(s: string): (n: nat)
    ensures n <= |s|
    ensures forall i :: 0 <= i < n ==> IsNumberWhite(s[i])
    ensures n < |s| ==> !IsNumberWhite(s[n])
  {
    if |s| > 0 && IsNumberWhite(s[0]) then 1 + LeadingWhite(s[1..]) else 0
  }

  /** Number of trailing number-white characters. */
  function TrailingWhite(s: string): (n: nat)
    ensures n <= |s|
    ensures forall i :: |s| - n <= i < |s| ==> IsNumberWhite(s[i])
    ensures n < |s| ==> !IsNumberWhite(s[|s| - 1 - n])
  {
    if |s| > 0 && IsNumberWhite(s[|s| - 1]) then 1 + TrailingWhite(s[..|s| - 1]) else 0
  }

  /** The text between the leading and the trailing white space. */
  function TrimWhite(s: string): (t: string)
    ensures LeadingWhite(s) + |t| <= |s|
    ensures t == s[LeadingWhite(s)..LeadingWhite(s) + |t|]
  {
    var rest := s[LeadingWhite(s)..];
    var t := rest[..|rest| - TrailingWhite(rest)];
    assert t == s[LeadingWhite(s)..LeadingWhite(s) + |t|];
    t
  }

  function Pow10(n: nat): (p: nat)
    ensures p >= 1
  {
    if n == 0 then 1 else 10 * Pow10(n - 1)
  }

  /** The value of a run of decimal digits, most significant first. */
  function DigitsValue(ds: string): nat
    requires AllDigits(ds)
  {
    if ds == [] then 0
    else 10 * DigitsValue(ds[..|ds| - 1]) + (ds[|ds| - 1] as int - '0' as int)
  }

  /** The value of the digits `whole` "." `frac`. */
  function FixedPoint(whole: string, frac: string): (v: real)
    requires AllDigits(whole) && AllDigits(frac)
    ensures v >= 0.0
  {
    DigitsValue(whole) as real + DigitsValue(frac) as real / Pow10(|frac|) as real
  }

  /** Digits with at most one decimal point and at least one digit; no sign. */
  function ParseUnsigned(t: string): (r: Option<real>)
    ensures r.Some? ==> r.value >= 0.0
  {
    var i := IndexOf(t, '.');
    var whole := t[..i];
    var frac := if i < |t| then t[i + 1..] else "";
    if AllDigits(whole) && AllDigits(frac) && |whole| + |frac| > 0
    then Some(FixedPoint(whole, frac))
    else None
  }

  /** decimal.TryParse(s, out v): Some(v) when it returns true, None when it returns false. */
  function ParseDecimal(s: string): Option<real>
  {
    ParseSigned(TrimWhite(s))
  }

  /** An optional leading sign, then an unsigned number. */
  function ParseSigned(t: string): Option<real>
  {
    if |t| > 0 && (t[0] == '-' || t[0] == '+') then
      match ParseUnsigned(t[1..])
      case Some(v) => Some(if t[0] == '-' then -v else v)
      case None => None
    else ParseUnsigned(t)
  }

  /** Whatever ParseUnsigned accepts holds a digit. */
  lemma UnsignedHasDigit(t: string) returns (k: nat)
    requires ParseUnsigned(t).Some?
    ensures k < |t| && IsDigit(t[k])
  {
    var i := IndexOf(t, '.');
    if i > 0 {
      k := 0;
    } else {
      assert |t[i + 1..]| > 0;
      k := 1;
      assert t[1..][0] == t[1];
    }
  }

  /** A string TryParse accepts holds a digit, so it is never blank: a blank or
      whitespace-only amount or income never parses. */
  lemma ParsedIsNotBlank(s: string)
    requires ParseDecimal(s).Some?
    ensures exists k :: 0 <= k < |s| && IsDigit(s[k])
    ensures !IsBlank(s)
  {
    var t := TrimWhite(s);
    var a := LeadingWhite(s);
    var j;
    if |t| > 0 && (t[0] == '-' || t[0] == '+') {
      var k := UnsignedHasDigit(t[1..]);
      j := k + 1;
      assert t[j] == t[1..][k];
    } else {
      j := UnsignedHasDigit(t);
    }
    assert s[a + j] == t[j];
    DigitMakesNonBlank(s, a + j);
  }

  lemma NoBlankParses(s: string)
    requires IsBlank(s)
    ensures ParseDecimal(s) == None
  {
    if ParseDecimal(s).Some? {
      ParsedIsNotBlank(s);
    }
  }

  /** What the ledger relies on a decimal parser for: blank text never parses. */
  ghost predicate RejectsBlank(tryParse: string -> Option<real>)
  {
    forall s :: IsBlank(s) ==> tryParse(s) == None
  }

  lemma ParseDecimalRejectsBlank()
    ensures RejectsBlank(ParseDecimal)
  {
    forall s | IsBlank(s) ensures ParseDecimal(s) == None {
      NoBlankParses(s);
    }
  }

  /** A plain digit string parses to its value. */
  lemma ParseDigits(ds: string)
    requires |ds| > 0 && AllDigits(ds)
    ensures ParseDecimal(ds) == Some(DigitsValue(ds) as real)
  {
    NoDot(ds);
    assert ds[0] != '-' && ds[0] != '+';
    assert TrimWhite(ds) == ds by { Untrimmed(ds); }
    assert ds[..|ds|] == ds;
    assert FixedPoint(ds, "") == DigitsValue(ds) as real by {
      assert DigitsValue("") == 0 && Pow10(0) == 1;
    }
    assert ParseUnsigned(ds) == Some(FixedPoint(ds, ""));
  }

  /** A digit string with a decimal point parses to whole part plus fraction. */
  lemma ParseFixedPoint(w: string, f: string)
    requires AllDigits(w) && AllDigits(f) && |w| + |f| > 0
    ensures ParseDecimal(w + "." + f) == Some(FixedPoint(w, f))
  {
    var t := w + "." + f;
    NoDot(w);
    DotAfterDigits(w, f);
    assert t[0] != '-' && t[0] != '+' by {
      if |w| > 0 { assert t[0] == w[0]; } else { assert t[0] == '.'; }
    }
    assert TrimWhite(t) == t by { Untrimmed(t); }
    assert t[..|w|] == w;
    assert t[|w| + 1..] == f;
  }

  /** A leading minus sign negates the value of the rest. */
  lemma ParseNegated(s: string)
    requires |s| > 0 && s[0] != '-' && s[0] != '+' && !IsNumberWhite(s[0])
    requires !IsNumberWhite(s[|s| - 1])
    ensures ParseDecimal("-" + s) == (match ParseDecimal(s)
                                      case Some(v) => Some(-v)
                                      case None => None)
  {
    var m := "-" + s;
    Untrimmed(s);
    Untrimmed(m);
    assert m[0] == '-' && m[1..] == s;
    assert ParseSigned(s) == ParseUnsigned(s);
  }

  lemma NoDot(ds: string)
    requires AllDigits(ds)
    ensures IndexOf(ds, '.') == |ds|
  {
    if |ds| > 0 {
      assert AllDigits(ds[1..]) by {
        forall i | 0 <= i < |ds[1..]| ensures IsDigit(ds[1..][i]) { assert ds[1..][i] == ds[i + 1]; }
      }
      NoDot(ds[1..]);
    }
  }

  lemma DotAfterDigits(w: string, f: string)
    requires AllDigits(w)
    ensures IndexOf(w + "." + f, '.') == |w|
  {
    var t := w + "." + f;
    if |w| == 0 {
      assert t[0] == '.';
    } else {
      assert t[0] == w[0];
      assert t[1..] == w[1..] + "." + f;
      assert AllDigits(w[1..]) by {
        forall i | 0 <= i < |w[1..]| ensures IsDigit(w[1..][i]) { assert w[1..][i] == w[i + 1]; }
      }
      DotAfterDigits(w[1..], f);
    }
  }

  lemma Untrimmed(s: string)
    requires |s| > 0 && !IsNumberWhite(s[0]) && !IsNumberWhite(s[|s| - 1])
    ensures TrimWhite(s) == s
  {
    assert LeadingWhite(s) == 0;
    assert s[0..] == s;
    assert TrailingWhite(s) == 0;
  }
}
