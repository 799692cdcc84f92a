/** Token amounts as decimal text: the parser accepts many spellings, the formatter writes the
    shortest one. */
module Format {
  import opened Wrappers
  import opened Constants

  const DECIMALS: nat := 8

  // ── Digits ───────────────────────────────────────────────────────────────

  predicate IsDigit(c: char) {
    '0' <= c <= '9'
  }

  predicate IsDigits(s: string) {
    forall i :: 0 <= i < |s| ==> IsDigit(s[i])
  }

  function DigitChar(d: nat): (c: char)
    requires d < 10
    ensures IsDigit(c)
  {
    ('0' as int + d) as char
  }

  function DigitValue(c: char): (d: nat)
    requires IsDigit(c)
    ensures d < 10
  {
    c as int - '0' as int
  }

  function Value(s: string): nat
    requires IsDigits(s)
  {
    if s == "" then 0 else 10 * Value(s[..|s| - 1]) + DigitValue(s[|s| - 1])
  }

  /** Decimal without leading zeros. */
  function Digits(n: nat): (s: string)
    ensures IsDigits(s) && s != ""
  {
    if n < 10 then [DigitChar(n)] else Digits(n / 10) + [DigitChar(n % 10)]
  }

  /** Exactly k digits. */
  function Fixed(n: nat, k: nat): (s: string)
    ensures IsDigits(s) && |s| == k
  {
    if k == 0 then "" else Fixed(n / 10, k - 1) + [DigitChar(n % 10)]
  }

  function Pow10(k: nat): nat {
    if k == 0 then 1 else 10 * Pow10(k - 1)
  }

  lemma ValueSnoc(s: string, c: char)
    requires IsDigits(s) && IsDigit(c)
    ensures IsDigits(s + [c]) && Value(s + [c]) == 10 * Value(s) + DigitValue(c)
  {
    assert (s + [c])[..|s|] == s;
  }

  lemma {:induction false} DigitsRead(n: nat)
    ensures Value(Digits(n)) == n
  {
    if n < 10 {
      ValueSnoc("", DigitChar(n));
      assert "" + [DigitChar(n)] == [DigitChar(n)];
    } else {
      DigitsRead(n / 10);
      ValueSnoc(Digits(n / 10), DigitChar(n % 10));
    }
  }

  /** No spelling of a number is shorter than its digits, and a spelling without leading zeros is
      its digits. */
  lemma {:induction false} DigitsAreShortest(s: string)
    requires IsDigits(s) && s != ""
    ensures |Digits(Value(s))| <= |s|
    ensures (|s| == 1 || s[0] != '0') ==> Digits(Value(s)) == s
    ensures (|s| == 1 || s[0] != '0') && |s| > 1 ==> Value(s) >= 10
  {
    var n := |s| - 1;
    var init := s[..n];
    if n == 0 {
      assert Value(init) == 0;
      assert s == [s[0]];
    } else {
      DigitsAreShortest(init);
      assert s == init + [s[n]];
      if Value(init) > 0 {
        assert Value(s) / 10 == Value(init) && Value(s) % 10 == DigitValue(s[n]);
      }
      if s[0] != '0' && |init| == 1 {
        assert Value(init[..0]) == 0;
      }
    }
  }

  lemma {:induction false} FixedReads(n: nat, k: nat)
    requires n < Pow10(k)
    ensures Value(Fixed(n, k)) == n
  {
    if k > 0 {
      FixedReads(n / 10, k - 1);
      ValueSnoc(Fixed(n / 10, k - 1), DigitChar(n % 10));
    }
  }

  lemma {:induction false} FixedIsTheText(s: string)
    requires IsDigits(s)
    ensures Value(s) < Pow10(|s|) && Fixed(Value(s), |s|) == s
  {
    if s != "" {
      var n := |s| - 1;
      FixedIsTheText(s[..n]);
      assert Value(s) / 10 == Value(s[..n]) && Value(s) % 10 == DigitValue(s[n]);
      assert s == s[..n] + [s[n]];
    }
  }

  // ── Zeros at either end ──────────────────────────────────────────────────

  function Zeros(k: nat): (s: string)
    ensures |s| == k && IsDigits(s) && forall i :: 0 <= i < k ==> s[i] == '0'
  {
    seq(k, _ => '0')
  }

  function PadStart(s: string, k: nat): string {
    if |s| >= k then s else Zeros(k - |s|) + s
  }

  lemma {:induction false} FixedZero(k: nat)
    ensures Fixed(0, k) == Zeros(k)
  {
    if k > 0 {
      FixedZero(k - 1);
      assert Zeros(k) == Zeros(k - 1) + ['0'];
    }
  }

  lemma {:induction false} PaddedIsFixed(n: nat, k: nat)
    requires n < Pow10(k) && k > 0
    ensures PadStart(Digits(n), k) == Fixed(n, k)
  {
    if n < 10 {
      FixedZero(k - 1);
      assert n / 10 == 0 && n % 10 == n;
    } else {
      PaddedIsFixed(n / 10, k - 1);
      DigitsFit(n / 10, k - 1);
      assert Zeros(k - |Digits(n)|) + Digits(n) == (Zeros(k - |Digits(n)|) + Digits(n / 10)) + [DigitChar(n % 10)];
    }
  }

  lemma {:induction false} DigitsFit(n: nat, k: nat)
    requires n < Pow10(k) && k > 0
    ensures |Digits(n)| <= k
  {
    if n >= 10 {
      DigitsFit(n / 10, k - 1);
    }
  }

  function StripZeros(s: string): string {
    if s == "" || s[|s| - 1] != '0' then s else StripZeros(s[..|s| - 1])
  }

  lemma {:induction false} Stripped(s: string)
    ensures var t := StripZeros(s);
            && |t| <= |s|
            && s == t + Zeros(|s| - |t|)
            && (t == "" || t[|t| - 1] != '0')
    ensures IsDigits(s) ==> IsDigits(StripZeros(s))
  {
    if s != "" && s[|s| - 1] == '0' {
      var n := |s| - 1;
      Stripped(s[..n]);
      var t := StripZeros(s[..n]);
      assert s == s[..n] + ['0'];
      assert Zeros(|s| - |t|) == Zeros(n - |t|) + ['0'];
    }
  }

  /** Padding zeros onto a text and stripping again never lengthens it. */
  lemma {:induction false} StripIgnoresZeros(s: string, k: nat)
    ensures StripZeros(s + Zeros(k)) == StripZeros(s)
    ensures |StripZeros(s)| <= |s|
  {
    Stripped(s);
    if k == 0 {
      assert s + Zeros(0) == s;
    } else {
      StripIgnoresZeros(s, k - 1);
      assert (s + Zeros(k))[..|s| + k - 1] == s + Zeros(k - 1);
    }
  }

  // ── Spaces ───────────────────────────────────────────────────────────────

  /** What trimming removes. */
  predicate IsSpace(c: char) {
    || '\t' <= c <= '\r' || c == ' '
    || c == '\U{00A0}' || c == '\U{1680}' || '\U{2000}' <= c <= '\U{200A}'
    || c == '\U{2028}' || c == '\U{2029}' || c == '\U{202F}' || c == '\U{205F}'
    || c == '\U{3000}' || c == '\U{FEFF}'
  }

  function TrimStart(s: string): (r: string)
    ensures |r| <= |s|
  {
    if s != "" && IsSpace(s[0]) then TrimStart(s[1..]) else s
  }

  function TrimEnd(s: string): (r: string)
    ensures |r| <= |s|
  {
    if s != "" && IsSpace(s[|s| - 1]) then TrimEnd(s[..|s| - 1]) else s
  }

  function Trim(s: string): (r: string)
    ensures |r| <= |s|
  {
    TrimEnd(TrimStart(s))
  }

  // ── Parsing and formatting ───────────────────────────────────────────────

  datatype FormatError = NotADecimal | TooManyDecimals

  function DotAt(s: string): (k: nat)
    ensures k <= |s| && (forall i :: 0 <= i < k ==> s[i] != '.') && (k < |s| ==> s[k] == '.')
  {
    if s == "" || s[0] == '.' then 0 else 1 + DotAt(s[1..])
  }

  function Whole(s: string): string {
    s[..DotAt(s)]
  }

  function Fraction(s: string): string {
    if DotAt(s) == |s| then "" else s[DotAt(s) + 1..]
  }

  /** One or more digits, then perhaps a dot and one or more digits. */
  predicate IsDecimal(s: string) {
    && Whole(s) != "" && IsDigits(Whole(s))
    && IsDigits(Fraction(s)) && (DotAt(s) < |s| ==> Fraction(s) != "")
  }

  function Padded(fraction: string): (s: string)
    requires |fraction| <= DECIMALS
    ensures |s| == DECIMALS && (IsDigits(fraction) ==> IsDigits(s))
  {
    (fraction + Zeros(DECIMALS))[..DECIMALS]
  }

  function ParseDisplayTokens(input: string): Result<nat, FormatError> {
    var s := Trim(input);
    if !IsDecimal(s) then Err(NotADecimal)
    else if |Fraction(s)| > DECIMALS then Err(TooManyDecimals)
    else Ok(Value(Whole(s)) * ATOMS_PER_TOKEN + Value(Padded(Fraction(s))))
  }

  function AtomsToDisplay(atoms: nat): string {
    var whole, frac := atoms / ATOMS_PER_TOKEN, atoms % ATOMS_PER_TOKEN;
    if frac == 0 then Digits(whole)
    else Digits(whole) + "." + StripZeros(PadStart(Digits(frac), DECIMALS))
  }

  // ── The round trip ───────────────────────────────────────────────────────

  lemma PowOfDecimals()
    ensures Pow10(DECIMALS) == ATOMS_PER_TOKEN
  {
    assert Pow10(4) == 10_000;
  }

  lemma DotBetween(w: string, f: string)
    requires IsDigits(w)
    ensures DotAt(w + "." + f) == |w| && DotAt(w) == |w|
    ensures Whole(w + "." + f) == w && Fraction(w + "." + f) == f
    ensures Whole(w) == w && Fraction(w) == ""
  {
    var s := w + "." + f;
    assert s[|w|] == '.';
    assert forall i :: 0 <= i < |w| ==> s[i] == w[i] && IsDigit(s[i]);
    assert s[..|w|] == w && s[|w| + 1..] == f;
  }

  lemma TrimmedAlready(s: string)
    requires s != "" && IsDigit(s[0]) && IsDigit(s[|s| - 1])
    ensures Trim(s) == s
  {
  }

  lemma ValueOfZeros()
    ensures Value(Zeros(DECIMALS)) == 0
  {
    PowOfDecimals();
    FixedZero(DECIMALS);
    FixedReads(0, DECIMALS);
  }

  lemma {:induction false} NonZeroDigitCounts(s: string, i: nat)
    requires IsDigits(s) && i < |s| && s[i] != '0'
    ensures Value(s) > 0
  {
    if i < |s| - 1 {
      NonZeroDigitCounts(s[..|s| - 1], i);
    }
  }

  /** The written fraction, when there is one: at most eight digits, the last not zero, and
      padding gives the fraction back. */
  lemma FractionText(frac: nat)
    requires 0 < frac < ATOMS_PER_TOKEN
    ensures var f := StripZeros(PadStart(Digits(frac), DECIMALS));
            && f != "" && |f| <= DECIMALS && IsDigits(f) && f[|f| - 1] != '0'
            && Padded(f) == Fixed(frac, DECIMALS)
            && Value(Padded(f)) == frac
  {
    hide Value, Fixed, StripZeros, Digits, PadStart, Padded;
    PowOfDecimals();
    PaddedIsFixed(frac, DECIMALS);
    FixedReads(frac, DECIMALS);
    Stripped(Fixed(frac, DECIMALS));
    PaddingRestores(Fixed(frac, DECIMALS));
    ValueOfPadding();
  }

  lemma PaddingRestores(s: string)
    requires |s| == DECIMALS
    ensures |StripZeros(s)| <= DECIMALS && Padded(StripZeros(s)) == s
  {
    Stripped(s);
    hide StripZeros;
    var f := StripZeros(s);
    assert (f + Zeros(DECIMALS))[..DECIMALS] == f + Zeros(DECIMALS - |f|);
  }

  /** What a text with these parts parses to. */
  lemma ParseParts(w: string, f: string, s: string)
    requires w != "" && IsDigits(w) && IsDigits(f) && |f| <= DECIMALS
    requires s == if f == "" then w else w + "." + f
    ensures ParseDisplayTokens(s) == Ok(Value(w) * ATOMS_PER_TOKEN + Value(Padded(f)))
  {
    hide Value, Padded, Trim;
    DotBetween(w, f);
    if f == "" {
      TrimmedAlready(w);
    } else {
      assert s[0] == w[0] && s[|s| - 1] == f[|f| - 1];
      TrimmedAlready(s);
    }
  }

  /** Formatting and parsing again is the identity on every amount. */
  lemma ParseOfDisplay(atoms: nat)
    ensures ParseDisplayTokens(AtomsToDisplay(atoms)) == Ok(atoms)
  {
    hide Digits, Value, ParseDisplayTokens, StripZeros, PadStart, Padded;
    var whole, frac := atoms / ATOMS_PER_TOKEN, atoms % ATOMS_PER_TOKEN;
    DigitsRead(whole);
    if frac == 0 {
      ValueOfPadding();
      ParseParts(Digits(whole), "", Digits(whole));
    } else {
      FractionText(frac);
      ParseParts(Digits(whole), StripZeros(PadStart(Digits(frac), DECIMALS)), AtomsToDisplay(atoms));
    }
  }

  lemma ValueOfPadding()
    ensures Value(Padded("")) == 0
  {
    ValueOfZeros();
    assert Padded("") == Zeros(DECIMALS);
  }

  /** The whole and fractional parts of an accepted text are those of its value. */
  lemma AcceptedParts(s: string)
    requires IsDecimal(s) && |Fraction(s)| <= DECIMALS
    ensures var v := Value(Whole(s)) * ATOMS_PER_TOKEN + Value(Padded(Fraction(s)));
            && v / ATOMS_PER_TOKEN == Value(Whole(s))
            && v % ATOMS_PER_TOKEN == Value(Padded(Fraction(s)))
            && PadStart(Digits(v % ATOMS_PER_TOKEN), DECIMALS) == Padded(Fraction(s))
  {
    PowOfDecimals();
    FixedIsTheText(Padded(Fraction(s)));
    PaddedIsFixed(Value(Padded(Fraction(s))), DECIMALS);
  }

  /** No leading zero before the units digit, no trailing zero, no bare dot, no spaces. */
  predicate IsCanonical(s: string) {
    && IsDecimal(s)
    && (|Whole(s)| == 1 || s[0] != '0')
    && (Fraction(s) != "" ==> s[|s| - 1] != '0')
  }

  lemma {:induction false} DigitsHaveNoLeadingZero(n: nat)
    ensures |Digits(n)| == 1 || Digits(n)[0] != '0'
  {
    if n >= 10 {
      DigitsHaveNoLeadingZero(n / 10);
      assert Digits(n)[0] == Digits(n / 10)[0];
    }
  }

  lemma DisplayIsCanonical(atoms: nat)
    ensures IsCanonical(AtomsToDisplay(atoms))
  {
    var whole, frac := atoms / ATOMS_PER_TOKEN, atoms % ATOMS_PER_TOKEN;
    var w := Digits(whole);
    DigitsHaveNoLeadingZero(whole);
    if frac == 0 {
      DotBetween(w, "");
    } else {
      var f := StripZeros(PadStart(Digits(frac), DECIMALS));
      FractionText(frac);
      DotBetween(w, f);
      assert (w + "." + f)[0] == w[0];
    }
  }

  /** No accepted spelling of an amount is shorter than the displayed one, and a canonical
      spelling is the displayed one. */
  lemma DisplayIsShortest(input: string)
    requires ParseDisplayTokens(input).Ok?
    ensures var d := AtomsToDisplay(ParseDisplayTokens(input).value);
            && IsCanonical(d)
            && ParseDisplayTokens(d) == ParseDisplayTokens(input)
            && |d| <= |input|
            && (IsCanonical(input) ==> d == input)
  {
    hide Trim, Value, Digits, StripZeros, PadStart, IsDecimal, IsCanonical;
    var s := Trim(input);
    ParseOfDisplay(ParseDisplayTokens(input).value);
    DisplayIsCanonical(ParseDisplayTokens(input).value);
    DisplayIsNoLonger(s);
    if IsCanonical(input) {
      CanonicalNeedsNoTrim(input);
      CanonicalIsDisplay(input);
    }
  }

  lemma DisplayIsNoLonger(s: string)
    requires IsDecimal(s) && |Fraction(s)| <= DECIMALS
    ensures |AtomsToDisplay(Value(Whole(s)) * ATOMS_PER_TOKEN + Value(Padded(Fraction(s))))| <= |s|
  {
    var f := Fraction(s);
    AcceptedParts(s);
    DigitsAreShortest(Whole(s));
    assert Padded(f) == f + Zeros(DECIMALS - |f|);
    StripIgnoresZeros(f, DECIMALS - |f|);
    ValueOfPadding();
    hide Value, Digits, StripZeros, PadStart;
    assert |s| == |Whole(s)| + if f == "" then 0 else 1 + |f|;
  }

  lemma CanonicalNeedsNoTrim(s: string)
    requires IsCanonical(s)
    ensures Trim(s) == s
  {
    assert s[0] == Whole(s)[0];
    if DotAt(s) < |s| {
      assert s[|s| - 1] == Fraction(s)[|Fraction(s)| - 1];
    } else {
      assert s[|s| - 1] == Whole(s)[|Whole(s)| - 1];
    }
    TrimmedAlready(s);
  }

  lemma NoZeroToStrip(s: string)
    requires s != "" && s[|s| - 1] != '0'
    ensures StripZeros(s) == s
  {
  }

  lemma CanonicalIsDisplay(s: string)
    requires IsCanonical(s) && |Fraction(s)| <= DECIMALS
    ensures AtomsToDisplay(Value(Whole(s)) * ATOMS_PER_TOKEN + Value(Padded(Fraction(s)))) == s
  {
    hide Value, Digits, StripZeros, PadStart, IsDigit;
    var f := Fraction(s);
    AcceptedParts(s);
    DigitsAreShortest(Whole(s));
    assert Whole(s)[0] == s[0];
    if f == "" {
      ValueOfPadding();
      assert s == Whole(s);
    } else {
      assert s == Whole(s) + "." + f;
      assert f[|f| - 1] == s[|s| - 1];
      assert Padded(f) == f + Zeros(DECIMALS - |f|);
      StripIgnoresZeros(f, DECIMALS - |f|);
      Stripped(f);
      NoZeroToStrip(f);
      NonZeroDigitCounts(Padded(f), |f| - 1);
    }
  }
}
