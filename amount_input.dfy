/**
 * The amount text box shared by the three forms (AddIncomeForm.jsx,
 * WithdrawForm.jsx, DirectIncomeForm.jsx): the accepted-input language of
 * `handleMontoChange`, the number `parseFloat(monto) || 0` reads from it, and
 * the two-decimal rendering `toFixed(2)` writes into it.
 */
module AmountInput {

  /** `\d` of a JavaScript regular expression without the `u` flag: an ASCII digit. */
  predicate IsDigit(c: char)
  {
    '0' <= c <= '9'
  }

  predicate AllDigits(s: string)
  {
    forall i :: 0 <= i < |s| ==> IsDigit(s[i])
  }

  /** Position `k` holds the '.', with only digits before it and at most two digits after it. */
  ghost predicate DotAt(s: string, k: nat)
    requires k < |s|
  {
    s[k] == '.' && AllDigits(s[..k]) && AllDigits(s[k + 1..]) && |s| - (k + 1) <= 2
  }

  /**
   * The language of `^\d*\.?\d{0,2}$` stated directly: only digits, or digits,
   * one '.', and at most two digits after it.
   */
  ghost predicate InLanguage(s: string)
  {
    AllDigits(s) || exists k: nat :: k < |s| && DotAt(s, k)
  }

  /** `/^\d*\.?\d{0,2}$/.test(s)`, scanned left to right. */
  function PatternTest(s: string): bool
  {
    if s == [] then true
    else if IsDigit(s[0]) then PatternTest(s[1..])
    else s[0] == '.' && |s| <= 3 && AllDigits(s[1..])
  }

  /** Past a leading digit, the dot moves one position. */
  lemma DotAtShift(s: string, k: nat)
    requires s != [] && IsDigit(s[0]) && k < |s| - 1
    ensures DotAt(s[1..], k) <==> DotAt(s, k + 1)
  {
    var t := s[1..];
    assert s[..k + 1] == [s[0]] + t[..k];
    assert s[k + 2..] == t[k + 1..];
  }

  /** A leading digit changes nothing about membership. */
  lemma LanguageDigitCons(s: string)
    requires s != [] && IsDigit(s[0])
    ensures InLanguage(s) <==> InLanguage(s[1..])
  {
    var t := s[1..];
    assert AllDigits(s) <==> AllDigits(t) by {
      assert forall i :: 0 <= i < |t| ==> t[i] == s[i + 1];
    }
    if k: nat :| k < |t| && DotAt(t, k) {
      DotAtShift(s, k);
    }
    if k: nat :| k < |s| && DotAt(s, k) {
      assert k != 0;
      DotAtShift(s, k - 1);
    }
  }

  /** A text that starts with anything but a digit is in the language only as a '.' and at most two digits. */
  lemma LanguageNonDigitHead(s: string)
    requires s != [] && !IsDigit(s[0])
    ensures InLanguage(s) <==> s[0] == '.' && |s| <= 3 && AllDigits(s[1..])
  {
    if s[0] == '.' && |s| <= 3 && AllDigits(s[1..]) {
      assert s[..0] == [];
      assert DotAt(s, 0);
    }
    if k: nat :| k < |s| && DotAt(s, k) {
      if k > 0 {
        assert s[..k][0] == s[0];
      }
    }
  }

  /** The scanner recognises exactly the language. */
  lemma {:induction false} PatternTestIsLanguage(s: string)
    ensures PatternTest(s) <==> InLanguage(s)
  {
    if s == [] {
    } else if IsDigit(s[0]) {
      PatternTestIsLanguage(s[1..]);
      LanguageDigitCons(s);
    } else {
      LanguageNonDigitHead(s);
    }
  }

  /** The guard of `handleMontoChange`: `value === '' || /^\d*\.?\d{0,2}$/.test(value)`. */
  predicate Accepts(value: string)
  {
    value == "" || PatternTest(value)
  }

  /** The `value === ''` alternative adds nothing: the pattern already matches the empty text. */
  lemma AcceptsIsPattern(value: string)
    ensures Accepts(value) <==> PatternTest(value)
    ensures Accepts(value) <==> InLanguage(value)
  {
    PatternTestIsLanguage(value);
  }

  /**
   * `handleMontoChange` of the three forms: the typed value replaces the
   * stored one only if it is accepted, so an accepted text stays accepted.
   */
  function OnChange(current: string, value: string): (r: string)
    ensures Accepts(current) ==> Accepts(r)
    ensures Accepts(value) ==> r == value
    ensures !Accepts(value) ==> r == current
  {
    if Accepts(value) then value else current
  }

  /** The digits before the '.' and the digits after it. */
  function Split(s: string): (r: (string, string))
    requires PatternTest(s)
    ensures AllDigits(r.0) && AllDigits(r.1) && |r.1| <= 2
    ensures s == r.0 + r.1 || s == r.0 + "." + r.1
    ensures AllDigits(s) ==> r == (s, "")
  {
    if s == [] then ("", "")
    else if IsDigit(s[0]) then
      var r := Split(s[1..]);
      SplitStep(s, r.0, r.1);
      ([s[0]] + r.0, r.1)
    else
      assert s == "" + "." + s[1..];
      ("", s[1..])
  }

  /** A leading digit joins the integer part of the rest's split. */
  lemma SplitStep(s: string, a: string, b: string)
    requires |s| > 0 && IsDigit(s[0]) && AllDigits(a)
    requires s[1..] == a + b || s[1..] == a + "." + b
    requires AllDigits(s[1..]) ==> a == s[1..] && b == ""
    ensures AllDigits([s[0]] + a)
    ensures s == [s[0]] + a + b || s == [s[0]] + a + "." + b
    ensures AllDigits(s) ==> [s[0]] + a == s && b == ""
  {
    var h := [s[0]] + a;
    forall i | 0 <= i < |h| ensures IsDigit(h[i]) {
      if i > 0 { assert h[i] == a[i - 1]; }
    }
    assert s == [s[0]] + s[1..];
    if AllDigits(s) {
      forall i | 0 <= i < |s[1..]| ensures IsDigit(s[1..][i]) { assert s[1..][i] == s[i + 1]; }
    }
  }

  /** The value of one decimal digit. */
  function DigitValue(c: char): (r: nat)
    requires IsDigit(c)
    ensures r < 10
  {
    c as int - '0' as int
  }

  /** The digit character of a value below ten. */
  function DigitChar(d: nat): (c: char)
    requires d < 10
    ensures IsDigit(c) && DigitValue(c) == d
  {
    ('0' as int + d) as char
  }

  /** The number a string of decimal digits denotes. */
  function DigitsValue(ds: string): nat
    requires AllDigits(ds)
  {
    if ds == [] then 0 else 10 * DigitsValue(ds[..|ds| - 1]) + DigitValue(ds[|ds| - 1])
  }

  function Pow10(n: nat): (r: nat)
    ensures r >= 1
  {
    if n == 0 then 1 else 10 * Pow10(n - 1)
  }

  /**
   * `parseFloat(monto) || 0` on an accepted text: the integer digits plus the
   * fraction digits over ten to their count. '' and '.' (NaN for `parseFloat`)
   * read as zero through the same formula.
   */
  function ParseAmount(s: string): (r: real)
    requires Accepts(s)
    ensures r >= 0.0
  {
    var parts := Split(s);
    DigitsValue(parts.0) as real + DigitsValue(parts.1) as real / Pow10(|parts.1|) as real
  }

  /** The amount in whole cents: what the text denotes times one hundred. */
  function Cents(s: string): nat
    requires Accepts(s)
  {
    var parts := Split(s);
    100 * DigitsValue(parts.0)
      + if |parts.1| == 0 then 0
        else if |parts.1| == 1 then 10 * DigitsValue(parts.1)
        else DigitsValue(parts.1)
  }

  /** Every accepted amount is a whole number of cents. */
  lemma ParseAmountIsCents(s: string)
    requires Accepts(s)
    ensures ParseAmount(s) == Cents(s) as real / 100.0
  {
    var parts := Split(s);
    var i, f := DigitsValue(parts.0) as real, DigitsValue(parts.1) as real;
    if |parts.1| == 1 {
      assert Pow10(1) == 10;
      assert i + f / 10.0 == (100.0 * i + 10.0 * f) / 100.0;
    } else if |parts.1| == 2 {
      assert Pow10(2) == 100;
    }
  }

  /** A digit string denotes a positive number exactly when one of its digits is not '0'. */
  lemma {:induction false} DigitsValuePositive(ds: string)
    requires AllDigits(ds)
    ensures DigitsValue(ds) > 0 <==> exists i :: 0 <= i < |ds| && ds[i] != '0'
  {
    if ds != [] {
      var init := ds[..|ds| - 1];
      DigitsValuePositive(init);
      if exists i :: 0 <= i < |init| && init[i] != '0' {
        var i :| 0 <= i < |init| && init[i] != '0';
        assert ds[i] != '0';
      }
      if exists i :: 0 <= i < |ds| && ds[i] != '0' {
        var i :| 0 <= i < |ds| && ds[i] != '0';
        if i < |ds| - 1 {
          assert init[i] != '0';
        }
      }
    }
  }

  /** A text holds a digit other than '0'. */
  predicate HasNonzeroDigit(s: string)
  {
    exists i :: 0 <= i < |s| && '1' <= s[i] <= '9'
  }

  /** A nonzero digit of a concatenation is one of either part. */
  lemma NonzeroDigitOfConcat(x: string, y: string)
    ensures HasNonzeroDigit(x + y) <==> HasNonzeroDigit(x) || HasNonzeroDigit(y)
  {
    var s := x + y;
    if HasNonzeroDigit(s) {
      var k :| 0 <= k < |s| && '1' <= s[k] <= '9';
      if k < |x| {
        assert x[k] == s[k];
      } else {
        assert y[k - |x|] == s[k];
      }
    }
    if HasNonzeroDigit(x) {
      var i :| 0 <= i < |x| && '1' <= x[i] <= '9';
      assert s[i] == x[i];
    }
    if HasNonzeroDigit(y) {
      var i :| 0 <= i < |y| && '1' <= y[i] <= '9';
      assert s[|x| + i] == y[i];
    }
  }

  /** Among digits, a nonzero digit is one that is not '0'. */
  lemma NonzeroDigitOfDigits(a: string)
    requires AllDigits(a)
    ensures HasNonzeroDigit(a) <==> exists i :: 0 <= i < |a| && a[i] != '0'
  {
  }

  lemma NonzeroDigitOfParts(a: string, b: string, s: string)
    requires AllDigits(a) && AllDigits(b)
    requires s == a + b || s == a + "." + b
    ensures HasNonzeroDigit(s) <==> (exists i :: 0 <= i < |a| && a[i] != '0') || (exists i :: 0 <= i < |b| && b[i] != '0')
  {
    NonzeroDigitOfDigits(a);
    NonzeroDigitOfDigits(b);
    if s == a + b {
      NonzeroDigitOfConcat(a, b);
    } else {
      NonzeroDigitOfConcat(a + ".", b);
      NonzeroDigitOfConcat(a, ".");
      assert !HasNonzeroDigit(".");
    }
  }

  /** The amount read from an accepted text is positive exactly when the text holds a digit other than '0'. */
  lemma ParseAmountPositive(s: string)
    requires Accepts(s)
    ensures ParseAmount(s) > 0.0 <==> HasNonzeroDigit(s)
  {
    var parts := Split(s);
    DigitsValuePositive(parts.0);
    DigitsValuePositive(parts.1);
    NonzeroDigitOfParts(parts.0, parts.1, s);
    ParseAmountIsCents(s);
    assert Cents(s) > 0 <==> DigitsValue(parts.0) > 0 || DigitsValue(parts.1) > 0;
  }

  /** A text of digits only, such as "1000", is accepted and reads as the integer it writes. */
  lemma ParseDigits(s: string)
    requires AllDigits(s)
    ensures Accepts(s)
    ensures ParseAmount(s) == DigitsValue(s) as real
  {
    AcceptsIsPattern(s);
  }

  /** What `parseFloat(...) || 0` makes of texts without fraction digits. */
  lemma ParseWholeExamples()
    ensures ParseAmount("") == 0.0 && ParseAmount(".") == 0.0
    ensures ParseAmount("007") == 7.0 && ParseAmount("5.") == 5.0
  {
    assert "007"[..2] == "00" && "00"[..1] == "0" && "0"[..0] == "";
    assert "007"[1..] == "07" && "07"[1..] == "7" && "7"[1..] == "";
    assert ['7'] + "" == "7" && ['0'] + "7" == "07" && ['0'] + "07" == "007";
    assert "7"[0] == '7' && "07"[0] == '0' && "007"[0] == '0';
    assert Split("7") == ("7", "");
    assert Split("07") == ("07", "");
    assert Split("007") == ("007", "");
    assert DigitsValue("0") == 0 && DigitsValue("00") == 0 && DigitsValue("007") == 7;
    assert "5."[0] == '5' && "5."[1..] == "." && Split(".") == ("", "") && ['5'] + "" == "5";
    assert Split("5.") == ("5", "");
  }

  /** What `parseFloat(...) || 0` makes of texts with fraction digits. */
  lemma ParseFractionExamples()
    ensures ParseAmount(".05") == 0.05 && ParseAmount("12.5") == 12.5
  {
    assert ".05"[1..] == "05" && "05"[..1] == "0" && "0"[..0] == "";
    assert Split(".05") == ("", "05");
    assert "12.5"[1..] == "2.5" && "2.5"[1..] == ".5" && ".5"[1..] == "5";
    assert ".5"[0] == '.' && Split(".5") == ("", "5");
    assert "2.5"[0] == '2' && ['2'] + "" == "2" && Split("2.5") == ("2", "5");
    assert "12.5"[0] == '1' && ['1'] + "2" == "12" && Split("12.5") == ("12", "5");
    assert "12"[..1] == "1" && "1"[..0] == "" && "5"[..0] == "";
  }

  // ---------------------------------------------------------------------------
  // Writing amounts back into the box (`toFixed(2)`)

  /** The decimal digits of a natural number, without leading zeros. */
  function NatDigits(n: nat): (r: string)
    ensures AllDigits(r) && |r| >= 1
    ensures DigitsValue(r) == n
  {
    if n < 10 then
      [DigitChar(n)]
    else
      var r := NatDigits(n / 10) + [DigitChar(n % 10)];
      assert r[..|r| - 1] == NatDigits(n / 10);
      r
  }

  /** A whole number of cents written with exactly two decimals. */
  function RenderCents(c: nat): (r: string)
  {
    var m := c % 100;
    NatDigits(c / 100) + "." + [DigitChar(m / 10), DigitChar(m % 10)]
  }

  /** Writing cents then reading the box gives back the same amount. */
  lemma RenderCentsRoundTrip(c: nat)
    ensures Accepts(RenderCents(c))
    ensures ParseAmount(RenderCents(c)) == c as real / 100.0
  {
    var m := c % 100;
    var ip, fp := NatDigits(c / 100), [DigitChar(m / 10), DigitChar(m % 10)];
    var s := RenderCents(c);
    assert AllDigits(fp);
    assert s == ip + ['.'] + fp;
    RenderPattern(ip, fp);
    SplitWithDot(ip, fp);
    ParseAmountIsCents(s);
    TwoDigitsValue(m / 10, m % 10);
    CentsDigits(c);
  }

  /** The whole part, the tens of cents and the cents put a number of cents back together. */
  lemma CentsDigits(c: nat)
    ensures 100 * (c / 100) + 10 * (c % 100 / 10) + c % 100 % 10 == c
  {
  }

  /** Two digit characters denote ten times the first plus the second. */
  lemma TwoDigitsValue(a: nat, b: nat)
    requires a < 10 && b < 10
    ensures AllDigits([DigitChar(a), DigitChar(b)])
    ensures DigitsValue([DigitChar(a), DigitChar(b)]) == 10 * a + b
  {
    var fp := [DigitChar(a), DigitChar(b)];
    assert fp[..1] == [DigitChar(a)];
    assert fp[..1][..0] == [];
    assert DigitsValue(fp[..1]) == a;
  }

  /** Digits, a '.', and at most two digits match the pattern. */
  lemma {:induction false} RenderPattern(ip: string, fp: string)
    requires AllDigits(ip) && AllDigits(fp) && |fp| <= 2
    ensures PatternTest(ip + "." + fp)
  {
    if ip == [] {
      assert (ip + "." + fp)[1..] == fp;
    } else {
      RenderPattern(ip[1..], fp);
      assert (ip + "." + fp)[1..] == ip[1..] + "." + fp;
    }
  }

  /** The parts `Split` finds in digits, a '.', and digits. */
  lemma {:induction false} SplitWithDot(ip: string, fp: string)
    requires AllDigits(ip) && AllDigits(fp) && |fp| <= 2
    ensures PatternTest(ip + "." + fp) && Split(ip + "." + fp) == (ip, fp)
  {
    RenderPattern(ip, fp);
    if ip == [] {
      assert (ip + "." + fp)[1..] == fp;
    } else {
      SplitWithDot(ip[1..], fp);
      assert (ip + "." + fp)[1..] == ip[1..] + "." + fp;
      assert [ip[0]] + ip[1..] == ip;
    }
  }

  /**
   * The cents `x.toFixed(2)` shows for a non-negative amount: the integer
   * nearest to `100 * x`, the larger one on a tie.
   */
  function RoundCents(x: real): (c: nat)
    requires x >= 0.0
    ensures c as real - 0.5 <= 100.0 * x < c as real + 0.5
  {
    (100.0 * x + 0.5).Floor
  }

  /** `x.toFixed(2)` for a non-negative amount. */
  function ToFixed2(x: real): string
    requires x >= 0.0
  {
    RenderCents(RoundCents(x))
  }

  /** The text `toFixed(2)` writes is accepted and reads back within half a cent of the amount. */
  lemma ToFixed2ReadsBack(x: real)
    requires x >= 0.0
    ensures Accepts(ToFixed2(x))
    ensures x - 0.005 < ParseAmount(ToFixed2(x)) <= x + 0.005
  {
    RenderCentsRoundTrip(RoundCents(x));
  }

  // ---------------------------------------------------------------------------
  // What the three submit handlers share

  /** Why a submit handler returns before calling the provider. */
  datatype Rejection = AmountNotPositive | InsufficientBalance

  /** The outcome of a submit: a rejection, or the call made to the provider. */
  datatype Submission<R> = Rejected(reason: Rejection) | Submitted(request: R)

  /** The `maxLength` of every description input. */
  const MaxDescription: nat := 50

  /**
   * The submit button's `disabled` in the two income dialogs:
   * `montoNum <= 0 || isSubmitting`.
   */
  function IncomeSubmitDisabled(monto: string, isSubmitting: bool): (r: bool)
    requires Accepts(monto)
    ensures r <==> !HasNonzeroDigit(monto) || isSubmitting
  {
    ParseAmountPositive(monto);
    ParseAmount(monto) <= 0.0 || isSubmitting
  }

  /** `descripcion || fallback`: an empty description gives way to the default. */
  function DescriptionOr(typed: string, fallback: string): (r: string)
    ensures r != "" <== typed != "" || fallback != ""
    ensures typed != "" ==> r == typed
    ensures typed == "" ==> r == fallback
  {
    if typed == "" then fallback else typed
  }
}
