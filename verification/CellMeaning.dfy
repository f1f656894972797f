/** What the cells of a row mean: texts, dates and decimal numbers, by laws that do not mention how they are parsed. */
module CellMeaning {
  import opened Results
  import opened Text
  import opened Tables
  import opened SalesContract
  import Gregorian

  // ----- Digits -----

  /** The decimal digits of a number, by division and remainder, without leading zeros. */
  function Digits(n: nat): (s: string)
    ensures s != []
  {
    if n < 10 then [DigitChar(n)] else Digits(n / 10) + [DigitChar(n % 10)]
  }

  function DigitChar(n: nat): (c: char)
    requires n < 10
    ensures IsDigit(c) && c as int == '0' as int + n
  {
    (48 + n) as char
  }

  /** Exactly `width` digits. */
  function PaddedDigits(n: nat, width: nat): (s: string)
    ensures |s| == width
  {
    if width == 0 then [] else PaddedDigits(n / 10, width - 1) + [DigitChar(n % 10)]
  }

  function Zeros(n: nat): (s: string)
    ensures |s| == n
  {
    seq(n, i => '0')
  }

  lemma NumberLast(s: string, c: char)
    requires AllDigits(s) && IsDigit(c)
    ensures AllDigits(s + [c]) && Number(s + [c]) == Number(s) * 10 + (c as int - '0' as int)
  {
    assert (s + [c])[..|s|] == s;
  }

  lemma {:induction false} DigitsMean(n: nat)
    ensures AllDigits(Digits(n)) && Number(Digits(n)) == n
    ensures Digits(n)[0] == '0' <==> n == 0
  {
    if n < 10 {
      assert Digits(n) == [] + [DigitChar(n)];
      NumberLast([], DigitChar(n));
    } else {
      DigitsMean(n / 10);
      NumberLast(Digits(n / 10), DigitChar(n % 10));
    }
  }

  lemma {:induction false} DigitsBound(n: nat, width: nat)
    requires n < Power10(width) && width >= 1
    ensures |Digits(n)| <= width
  {
    if n >= 10 {
      DigitsBound(n / 10, width - 1);
    }
  }

  lemma {:induction false} PaddedMean(n: nat, width: nat)
    requires n < Power10(width)
    ensures AllDigits(PaddedDigits(n, width)) && Number(PaddedDigits(n, width)) == n
  {
    if width > 0 {
      PaddedMean(n / 10, width - 1);
      NumberLast(PaddedDigits(n / 10, width - 1), DigitChar(n % 10));
    }
  }

  lemma {:induction false} LeadingZerosIgnored(zeros: nat, s: string)
    requires AllDigits(s)
    ensures AllDigits(Zeros(zeros) + s) && Number(Zeros(zeros) + s) == Number(s)
    decreases |s|, zeros
  {
    if s == [] {
      if zeros > 0 {
        LeadingZerosIgnored(zeros - 1, []);
        assert Zeros(zeros - 1) + [] == Zeros(zeros - 1) && Zeros(zeros) + [] == Zeros(zeros - 1) + ['0'];
        NumberLast(Zeros(zeros - 1), '0');
      }
    } else {
      var n := |s| - 1;
      LeadingZerosIgnored(zeros, s[..n]);
      assert s == s[..n] + [s[n]] && s[n] in s;
      assert Zeros(zeros) + s == (Zeros(zeros) + s[..n]) + [s[n]];
      NumberLast(s[..n], s[n]);
      NumberLast(Zeros(zeros) + s[..n], s[n]);
    }
  }

  lemma TenTimes(n: int, k: nat)
    ensures n * Power10(k + 1) == n * Power10(k) * 10
  {
    var p := Power10(k);
    assert n * (10 * p) == n * p * 10;
  }

  lemma {:induction false} TrailingZerosScale(s: string, zeros: nat)
    requires AllDigits(s)
    ensures AllDigits(s + Zeros(zeros)) && Number(s + Zeros(zeros)) == Number(s) * Power10(zeros)
  {
    hide Power10, AllDigits, Number;
    NoShift();
    if zeros == 0 {
      assert s + Zeros(0) == s;
    } else {
      TrailingZerosScale(s, zeros - 1);
      assert s + Zeros(zeros) == (s + Zeros(zeros - 1)) + ['0'];
      NumberLast(s + Zeros(zeros - 1), '0');
      TenTimes(Number(s), zeros - 1);
    }
  }

  lemma {:induction false} Powers(a: nat, b: nat)
    ensures Power10(a + b) == Power10(a) * Power10(b)
  {
    if a > 0 {
      Powers(a - 1, b);
    }
  }

  // ----- Decimal numbers -----

  /** An optional minus, a whole part, and a fraction after a point unless it is empty. */
  function DecimalString(negative: bool, whole: string, fraction: string): string {
    (if negative then "-" else "") + whole + (if fraction == [] then "" else "." + fraction)
  }

  lemma {:induction false} DotAfterDigits(whole: string, rest: string)
    requires AllDigits(whole) && (rest == [] || rest[0] == '.')
    ensures DotIndex(whole + rest) == |whole|
  {
    if whole == [] {
      assert whole + rest == rest;
    } else {
      assert whole[0] in whole && (whole + rest)[0] == whole[0] && (whole + rest)[1..] == whole[1..] + rest;
      DotAfterDigits(whole[1..], rest);
    }
  }

  predicate DecimalParts(whole: string, fraction: string) {
    whole != [] && AllDigits(whole) && AllDigits(fraction)
  }

  function Unsigned(whole: string, fraction: string): string {
    whole + if fraction == [] then "" else "." + fraction
  }

  lemma UnsignedEnds(whole: string, fraction: string)
    requires DecimalParts(whole, fraction)
    ensures var s := Unsigned(whole, fraction);
            s != [] && IsDigit(s[0]) && IsDigit(s[|s| - 1])
  {
    var s := Unsigned(whole, fraction);
    assert s[0] == whole[0] && whole[0] in whole;
    if fraction == [] {
      assert s[|s| - 1] == whole[|whole| - 1] && whole[|whole| - 1] in whole;
    } else {
      assert s[|s| - 1] == fraction[|fraction| - 1] && fraction[|fraction| - 1] in fraction;
    }
  }

  lemma UnsignedDot(whole: string, fraction: string)
    requires DecimalParts(whole, fraction)
    ensures var s := Unsigned(whole, fraction);
            && DotIndex(s) == |whole| && s[..|whole|] == whole && (|whole| < |s| <==> fraction != [])
            && (fraction != [] ==> s[|whole| + 1..] == fraction)
  {
    DotAfterDigits(whole, if fraction == [] then "" else "." + fraction);
  }

  lemma SignedText(negative: bool, whole: string, fraction: string)
    requires DecimalParts(whole, fraction)
    ensures var s, body := DecimalString(negative, whole, fraction), Unsigned(whole, fraction);
            && s == (if negative then "-" + body else body) && s != []
            && (s[0] == '-' <==> negative) && (negative ==> s[1..] == body)
            && Strip(s) == s
  {
    hide Strip;
    UnsignedEnds(whole, fraction);
    var s, body := DecimalString(negative, whole, fraction), Unsigned(whole, fraction);
    assert s == (if negative then "-" else "") + body;
    assert s[|s| - 1] == body[|body| - 1];
    assert Trimmed(s);
  }

  lemma ParsedParts(negative: bool, whole: string, fraction: string)
    requires DecimalParts(whole, fraction)
    ensures ParseDecimal(DecimalString(negative, whole, fraction)) == Some(DecimalText(negative, whole, fraction))
    ensures Strip(DecimalString(negative, whole, fraction)) == DecimalString(negative, whole, fraction) != []
  {
    hide Strip, Unsigned, DecimalString, AllDigits, DotIndex;
    SignedText(negative, whole, fraction);
    UnsignedDot(whole, fraction);
  }

  lemma UnsignedShape(body: string)
    ensures var dot := DotIndex(body);
            body == Unsigned(body[..dot], if dot < |body| then body[dot + 1..] else [])
            || (dot < |body| && body[dot + 1..] == [])
  {
    var dot := DotIndex(body);
    if dot < |body| {
      assert body == body[..dot] + "." + body[dot + 1..];
    }
  }

  /** Everything that is parsed has this form. */
  lemma ParsedShape(s: string)
    ensures var p := ParseDecimal(s);
            p.Some? ==> DecimalParts(p.value.whole, p.value.fraction)
                        && s == DecimalString(p.value.negative, p.value.whole, p.value.fraction)
  {
    hide AllDigits, DotIndex, Unsigned;
    var p := ParseDecimal(s);
    if p.Some? {
      var body := if p.value.negative then s[1..] else s;
      UnsignedShape(body);
      UnsignedIs(p.value.negative, p.value.whole, p.value.fraction);
      assert s == (if p.value.negative then "-" else "") + body;
    }
  }

  lemma UnsignedIs(negative: bool, whole: string, fraction: string)
    ensures DecimalString(negative, whole, fraction) == (if negative then "-" else "") + Unsigned(whole, fraction)
  {
  }

  /** The whole part has at most `limit` digits before which there are only zeros. */
  predicate WholeFits(whole: string, limit: nat) {
    forall i | 0 <= i < |whole| - limit :: whole[i] == '0'
  }

  lemma {:induction false} LeadingDigits(whole: string, limit: nat)
    ensures |WithoutLeadingZeros(whole)| <= limit <==> WholeFits(whole, limit)
  {
    if whole != [] && whole[0] == '0' {
      LeadingDigits(whole[1..], limit);
      assert WholeFits(whole, limit) <==> WholeFits(whole[1..], limit) by {
        if WholeFits(whole[1..], limit) {
          forall i | 0 <= i < |whole| - limit ensures whole[i] == '0' {
            assert i > 0 ==> whole[i] == whole[1..][i - 1];
          }
        }
        if WholeFits(whole, limit) {
          assert forall i | 0 <= i < |whole[1..]| - limit :: whole[1..][i] == whole[i + 1];
        }
      }
    }
  }

  /** The digits of both parts read as one number. */
  lemma {:induction false} JoinedDigits(whole: string, fraction: string)
    requires AllDigits(whole) && AllDigits(fraction)
    ensures AllDigits(whole + fraction)
    ensures Number(whole + fraction) == Number(whole) * Power10(|fraction|) + Number(fraction)
  {
    hide Power10, Number;
    NoShift();
    NoDigits();
    if fraction == [] {
      assert whole + fraction == whole;
    } else {
      var n := |fraction| - 1;
      JoinedDigits(whole, fraction[..n]);
      assert fraction == fraction[..n] + [fraction[n]] && fraction[n] in fraction;
      assert whole + fraction == (whole + fraction[..n]) + [fraction[n]];
      NumberLast(whole + fraction[..n], fraction[n]);
      NumberLast(fraction[..n], fraction[n]);
      TenTimes(Number(whole), n);
    }
  }

  lemma ScaledMeans(negative: bool, whole: string, fraction: string, places: nat)
    requires DecimalParts(whole, fraction) && |fraction| <= places
    ensures AllDigits(whole + fraction)
    ensures Scaled(DecimalText(negative, whole, fraction), places)
            == Signed(negative, Number(whole + fraction) * Power10(places - |fraction|))
  {
    hide AllDigits, Number, Power10;
    JoinedDigits(whole, fraction);
    Powers(|fraction|, places - |fraction|);
    ScaledProduct(Number(whole), Number(fraction), Power10(|fraction|), Power10(places - |fraction|));
  }

  function Signed(negative: bool, magnitude: nat): int {
    if negative then 0 - magnitude else magnitude
  }

  /** Which decimal texts are accepted, what number they mean, and which issue the others have. */
  lemma DecimalMeans(negative: bool, whole: string, fraction: string, row: nat, column: Column, maxDigits: nat,
                     places: nat)
    requires DecimalParts(whole, fraction) && places <= maxDigits
    ensures AllDigits(whole + fraction)
    ensures var s := DecimalString(negative, whole, fraction);
            DecimalField(s, row, column, maxDigits, places)
            == if |s| > 64 || |fraction| > places || !WholeFits(whole, maxDigits - places)
               then (None, [Issue(Some(row), column, DecimalPrecisionExceeded, ContractPhase)])
               else (Some(Signed(negative, Number(whole + fraction) * Power10(places - |fraction|))), [])
  {
    hide ParseDecimal, Strip, DecimalString, WithoutLeadingZeros, Number, WholeFits, AllDigits, Scaled, Power10, Signed;
    ParsedParts(negative, whole, fraction);
    LeadingDigits(whole, maxDigits - places);
    JoinedDigits(whole, fraction);
    if |fraction| <= places {
      ScaledMeans(negative, whole, fraction, places);
    }
  }

  lemma ScaledProduct(a: int, b: int, p: int, q: int)
    ensures (a * p + b) * q == a * (p * q) + b * q
  {
  }

  /** A text is accepted only if it has that form; otherwise the one issue says why not. */
  lemma DecimalRefused(raw: string, row: nat, column: Column, maxDigits: nat, places: nat)
    requires places <= maxDigits
    ensures var r := DecimalField(raw, row, column, maxDigits, places);
            && (r.0.Some? ==> exists negative: bool, whole: string, fraction: string ::
                  DecimalParts(whole, fraction) && Strip(raw) == DecimalString(negative, whole, fraction))
            && (Strip(raw) == [] ==> r == (None, [Issue(Some(row), column, RequiredValueMissing, ContractPhase)]))
            && (|Strip(raw)| > 64 ==> r == (None, [Issue(Some(row), column, DecimalPrecisionExceeded, ContractPhase)]))
            && (0 < |Strip(raw)| <= 64
                && !(exists negative: bool, whole: string, fraction: string ::
                       DecimalParts(whole, fraction) && Strip(raw) == DecimalString(negative, whole, fraction))
                ==> r == (None, [Issue(Some(row), column, DecimalInvalidFormat, ContractPhase)]))
  {
    hide ParseDecimal, Strip, DecimalString, WithoutLeadingZeros, Scaled, DecimalParts;
    var p := ParseDecimal(Strip(raw));
    ParsedShape(Strip(raw));
  }

  function Quotient(n: nat, p: nat): nat
    requires p >= 1
  {
    n / p
  }

  function Remainder(n: nat, p: nat): (r: nat)
    requires p >= 1
    ensures r < p
  {
    n % p
  }

  /** The decimal text of a number in units of the last place. */
  function Rendered(n: int, places: nat): string {
    var magnitude: nat, p := if n < 0 then -n else n, Power10(places);
    DecimalString(n < 0, Digits(Quotient(magnitude, p)), PaddedDigits(Remainder(magnitude, p), places))
  }

  /** The decimal text of every number within the digit limits is accepted and means that number. */
  lemma DecimalRoundTrip(n: int, row: nat, column: Column, maxDigits: nat, places: nat)
    requires places < maxDigits <= 62 && n < Power10(maxDigits) && n + Power10(maxDigits) > 0
    ensures DecimalField(Rendered(n, places), row, column, maxDigits, places) == (Some(n), [])
  {
    hide DecimalField, DecimalString, Number, WholeFits, AllDigits, Power10, Quotient, Remainder;
    var magnitude: nat, p := if n < 0 then -n else n, Power10(places);
    var whole, fraction := Digits(Quotient(magnitude, p)), PaddedDigits(Remainder(magnitude, p), places);
    DigitsMean(Quotient(magnitude, p));
    PaddedMean(Remainder(magnitude, p), places);
    Powers(maxDigits - places, places);
    QuotientBound(magnitude, p, Power10(maxDigits - places));
    DigitsBound(Quotient(magnitude, p), maxDigits - places);
    DecimalMeans(n < 0, whole, fraction, row, column, maxDigits, places);
    JoinedDigits(whole, fraction);
    ShortFits(whole, maxDigits - places);
    DecimalLength(n < 0, whole, fraction);
    NoShift();
  }

  lemma NoShift()
    ensures Power10(0) == 1
  {
  }

  lemma NoDigits()
    ensures AllDigits([]) && Number([]) == 0
  {
  }

  lemma QuotientBound(n: nat, p: nat, q: nat)
    requires p >= 1 && n < q * p
    ensures Quotient(n, p) < q && Quotient(n, p) * p + Remainder(n, p) == n
  {
  }

  lemma ShortFits(whole: string, limit: nat)
    requires |whole| <= limit
    ensures WholeFits(whole, limit)
  {
  }

  lemma DecimalLength(negative: bool, whole: string, fraction: string)
    ensures |DecimalString(negative, whole, fraction)|
            == (if negative then 1 else 0) + |whole| + if fraction == [] then 0 else 1 + |fraction|
  {
  }

  /** Zeros before the whole part and after the fraction do not change the number. */
  lemma ZerosIgnored(negative: bool, whole: string, fraction: string, leading: nat, trailing: nat, row: nat,
                     column: Column, maxDigits: nat, places: nat)
    requires DecimalParts(whole, fraction) && places <= maxDigits
    requires DecimalField(DecimalString(negative, Zeros(leading) + whole, fraction + Zeros(trailing)), row, column,
                          maxDigits,
                          places).0.Some?
    ensures DecimalField(DecimalString(negative, Zeros(leading) + whole, fraction + Zeros(trailing)), row, column,
                         maxDigits,
                         places)
            == DecimalField(DecimalString(negative, whole, fraction), row, column, maxDigits, places)
  {
    hide DecimalField, DecimalString, Number, AllDigits, WholeFits, Power10;
    LeadingZerosIgnored(leading, whole);
    TrailingZerosScale(fraction, trailing);
    DecimalMeans(negative, Zeros(leading) + whole, fraction + Zeros(trailing), row, column, maxDigits, places);
    DecimalMeans(negative, whole, fraction, row, column, maxDigits, places);
    DecimalLength(negative, Zeros(leading) + whole, fraction + Zeros(trailing));
    DecimalLength(negative, whole, fraction);
    FitsWithZeros(whole, leading, maxDigits - places);
    JoinedDigits(Zeros(leading) + whole, fraction + Zeros(trailing));
    JoinedDigits(whole, fraction);
    Powers(|fraction|, trailing);
    Powers(trailing, places - |fraction| - trailing);
    var a, b, p, t, q := Number(whole), Number(fraction), Power10(|fraction|), Power10(trailing),
      Power10(places - |fraction| - trailing);
    TrailingProduct(a, b, p, t, q);
  }

  lemma TrailingProduct(a: int, b: int, p: int, t: int, q: int)
    ensures (a * (p * t) + b * t) * q == (a * p + b) * (t * q)
  {
  }

  lemma FitsWithZeros(whole: string, leading: nat, limit: nat)
    requires WholeFits(Zeros(leading) + whole, limit)
    ensures WholeFits(whole, limit)
  {
    forall i | 0 <= i < |whole| - limit ensures whole[i] == '0' {
      assert (Zeros(leading) + whole)[leading + i] == whole[i];
    }
  }

  /** A leading minus negates the number. */
  lemma MinusNegates(whole: string, fraction: string, row: nat, column: Column, maxDigits: nat, places: nat)
    requires DecimalParts(whole, fraction) && places <= maxDigits
    requires DecimalField(DecimalString(true, whole, fraction), row, column, maxDigits, places).0.Some?
    ensures var plus, minus := DecimalField(DecimalString(false, whole, fraction), row, column, maxDigits, places).0,
              DecimalField(DecimalString(true, whole, fraction), row, column, maxDigits, places).0;
            plus.Some? && minus.value == -plus.value && plus.value >= 0
  {
    hide DecimalField, DecimalString, Number, AllDigits, WholeFits, Power10;
    DecimalMeans(true, whole, fraction, row, column, maxDigits, places);
    DecimalMeans(false, whole, fraction, row, column, maxDigits, places);
    DecimalLength(true, whole, fraction);
    DecimalLength(false, whole, fraction);
  }

  // ----- Dates -----

  function DateString(d: Gregorian.Date): string
    requires d.year >= 0 && d.month >= 0 && d.day >= 0
  {
    PaddedDigits(d.year, 4) + "-" + PaddedDigits(d.month, 2) + "-" + PaddedDigits(d.day, 2)
  }

  lemma PowersAre()
    ensures Power10(2) == 100 && Power10(4) == 10_000
  {
    assert Power10(1) == 10;
    assert Power10(3) == 10 * Power10(2);
  }

  lemma DateParts(year: string, month: string, day: string)
    requires |year| == 4 && |month| == 2 && |day| == 2 && AllDigits(year) && AllDigits(month) && AllDigits(day)
    ensures var s := year + "-" + month + "-" + day;
            && IsoPattern(s) && IsoDate(s) == Gregorian.Date(Number(year), Number(month), Number(day)) && Strip(s) == s
  {
    hide Strip, Number;
    var s := year + "-" + month + "-" + day;
    assert s[..4] == year && s[5..7] == month && s[8..] == day;
    assert s[0] == year[0] && year[0] in year && s[9] == day[1] && day[1] in day;
    assert Trimmed(s);
  }

  /** The text of every supported date is accepted and means that date. */
  lemma DateRoundTrip(d: Gregorian.Date, row: nat)
    requires Gregorian.IsDate(d) && d.year <= 9998
    ensures DateField(DateString(d), row) == (Some(Gregorian.Ordinal(d)), [])
  {
    hide AllDigits, Number, IsoPattern, Strip, Gregorian.Ordinal, Power10, PaddedDigits, IsoDate;
    PowersAre();
    PaddedMean(d.year, 4);
    PaddedMean(d.month, 2);
    PaddedMean(d.day, 2);
    DateParts(PaddedDigits(d.year, 4), PaddedDigits(d.month, 2), PaddedDigits(d.day, 2));
  }

  /** A text is accepted only if it is the text of a supported date; otherwise the one issue says why not. */
  lemma DateMeans(raw: string, row: nat)
    ensures var r := DateField(raw, row);
            && (Strip(raw) == []
                ==> r == (None, [Issue(Some(row), TransactionDateColumn, RequiredValueMissing, ContractPhase)]))
            && (Strip(raw) != [] && r.0.None?
                ==> r == (None, [Issue(Some(row), TransactionDateColumn, DateInvalidFormat, ContractPhase)]))
            && (r.0.Some? ==> exists d :: Gregorian.IsDate(d) && d.year <= 9998 && Strip(raw) == DateString(d)
                                          && r.0.value == Gregorian.Ordinal(d))
  {
    hide Strip, Gregorian.Ordinal, Number, DateString, Gregorian.IsDate, IsoDate;
    var r := DateField(raw, row);
    if r.0.Some? {
      IsoDateShape(Strip(raw));
    }
  }

  lemma IsoDateShape(s: string)
    requires IsoPattern(s) && Gregorian.IsDate(IsoDate(s))
    ensures s == DateString(IsoDate(s))
  {
    hide AllDigits, Number;
    assert s == s[..4] + "-" + s[5..7] + "-" + s[8..];
    SameDigits(s[..4]);
    SameDigits(s[5..7]);
    SameDigits(s[8..]);
  }

  lemma {:induction false} SameDigits(s: string)
    requires AllDigits(s)
    ensures PaddedDigits(Number(s), |s|) == s
  {
    if s != [] {
      var n := |s| - 1;
      assert s == s[..n] + [s[n]] && s[n] in s;
      SameDigits(s[..n]);
      NumberLast(s[..n], s[n]);
      LastDigit(Number(s[..n]), s[n]);
    }
  }

  lemma LastDigit(n: nat, c: char)
    requires IsDigit(c)
    ensures var m := n * 10 + (c as int - '0' as int);
            m / 10 == n && DigitChar(m % 10) == c
  {
  }

  // ----- Texts -----

  /** ASCII whitespace as `str.strip` removes it. */
  predicate Whitespace(s: string) {
    forall i | 0 <= i < |s| :: s[i] == ' ' || 9 <= s[i] as int <= 13 || 28 <= s[i] as int <= 31
  }

  lemma BlankFirst(blank: string)
    requires Whitespace(blank) && blank != []
    ensures IsSpace(blank[0]) && IsSpace(blank[|blank| - 1])
    ensures Whitespace(blank[1..]) && Whitespace(blank[..|blank| - 1])
  {
  }

  lemma BlankCharacter(c: char)
    ensures Whitespace([c]) <==> IsSpace(c)
    ensures IsSpace(c) <==> c == ' ' || 9 <= c as int <= 13 || 28 <= c as int <= 31
  {
    assert [c][0] == c;
  }

  lemma {:induction false} StripLeft(blank: string, text: string)
    requires Whitespace(blank)
    ensures LeftStrip(blank + text) == LeftStrip(text)
  {
    hide Whitespace;
    if blank == [] {
      assert blank + text == text;
    } else {
      BlankFirst(blank);
      assert (blank + text)[0] == blank[0] && (blank + text)[1..] == blank[1..] + text;
      StripLeft(blank[1..], text);
    }
  }

  lemma {:induction false} StripRight(text: string, blank: string)
    requires Whitespace(blank)
    ensures RightStrip(text + blank) == RightStrip(text)
  {
    hide Whitespace;
    if blank == [] {
      assert text + blank == text;
    } else {
      BlankFirst(blank);
      var s, n := text + blank, |blank| - 1;
      assert s[|s| - 1] == blank[n] && s[..|s| - 1] == text + blank[..n];
      StripRight(text, blank[..n]);
    }
  }

  lemma NothingToStrip(s: string)
    ensures s == [] || !Whitespace([s[0]]) ==> LeftStrip(s) == s
    ensures s == [] || !Whitespace([s[|s| - 1]]) ==> RightStrip(s) == s
  {
    hide Whitespace, IsSpace;
    if s != [] {
      BlankCharacter(s[0]);
      BlankCharacter(s[|s| - 1]);
    }
  }

  /** Stripping removes the whitespace around a text and nothing else. */
  lemma StripMeans(before: string, text: string, after: string)
    requires Whitespace(before) && Whitespace(after)
    requires text == [] || (!Whitespace([text[0]]) && !Whitespace([text[|text| - 1]]))
    ensures Strip(before + text + after) == text
  {
    hide Whitespace, LeftStrip, RightStrip;
    assert before + text + after == before + (text + after);
    StripLeft(before, text + after);
    if text == [] {
      assert text + after == after + [] && [] + after == after;
      StripLeft(after, []);
      NothingToStrip([]);
    } else {
      assert (text + after)[0] == text[0];
      NothingToStrip(text + after);
      StripRight(text, after);
      NothingToStrip(text);
    }
  }

  /** Nothing is left exactly of whitespace. */
  lemma BlankText(s: string)
    ensures Strip(s) == [] <==> Whitespace(s)
  {
    hide LeftStrip, RightStrip, IsSpace;
    var left := LeftStrip(s);
    if Strip(s) == [] {
      forall i | 0 <= i < |s| ensures s[i] == ' ' || 9 <= s[i] as int <= 13 || 28 <= s[i] as int <= 31 {
        BlankCharacter(s[i]);
      }
    }
    if Whitespace(s) {
      StripMeans(s, "", "");
      assert s + "" + "" == s;
    }
  }

  /** Upper-casing changes the letters a to z and nothing else. */
  lemma UpperMeans(s: string, i: nat)
    requires i < |s|
    ensures |Upper(s)| == |s|
    ensures Upper(s)[i] as int == if 'a' <= s[i] <= 'z' then s[i] as int - 'a' as int + 'A' as int else s[i] as int
  {
  }

  /** What a text cell means, and which issues it has. */
  lemma TextMeans(raw: string, row: nat, column: Column, required: bool, maxLength: nat, uppercase: bool, i: Issue)
    ensures var value, r := Strip(raw), TextField(raw, row, column, required, maxLength, uppercase);
            && r.0 == (if value == [] then None else Some(if uppercase then Upper(value) else value))
            && (i in r.1 <==>
                  && i.row == Some(row) && i.column == column && i.phase == ContractPhase
                  && match i.code
                     case RequiredValueMissing => value == [] && required
                     case ValueTooLong => |value| > maxLength && value != []
                     case InvalidControlCharacter => exists c | c in value :: c as int < 32 || c as int == 127
                     case _ => false)
  {
    hide Strip;
    var value := Strip(raw);
    ControlsAre(value);
  }

  lemma ControlsAre(s: string)
    ensures (exists c | c in s :: IsControl(c)) <==> exists c | c in s :: c as int < 32 || c as int == 127
    ensures (exists c | c in Upper(s) :: IsControl(c)) <==> exists c | c in s :: c as int < 32 || c as int == 127
  {
    if c :| c in s && (c as int < 32 || c as int == 127) {
      var k :| 0 <= k < |s| && s[k] == c;
      assert IsControl(c) && Upper(s)[k] == c && Upper(s)[k] in Upper(s);
    }
    if c :| c in Upper(s) && IsControl(c) {
      var k :| 0 <= k < |s| && Upper(s)[k] == c;
      assert s[k] in s;
    }
  }
}
