/** Percentages as the dashboard shows them: FormatPercent in dashboard/internal/store/store.go. */
module Percent {
  import opened Base

  function Digit(d: nat): char
    requires d < 10
  {
    '0' + d as char
  }

  predicate IsDigit(c: char) {
    '0' <= c <= '9'
  }

  /** "%d" of a number that is not negative. */
  function Decimal(n: nat): string {
    if n < 10 then [Digit(n)] else Decimal(n / 10) + [Digit(n % 10)]
  }

  /** "%02d" of a number below a hundred. */
  function TwoDigits(n: nat): string
    requires n < 100
  {
    [Digit(n / 10), Digit(n % 10)]
  }

  function TrimRight(s: string, c: char): string {
    if s != [] && s[|s| - 1] == c then TrimRight(s[..|s| - 1], c) else s
  }

  /** Hundredths of a percent, rounded down. */
  function BasisPoints(success: nat, total: nat): nat
    requires total > 0
  {
    success * 10000 / total
  }

  function FormatPercent(success: nat, total: int): string {
    if total <= 0 then ""
    else if success >= total then "100%"
    else
      var bp := BasisPoints(success, total);
      assert bp % 100 < 100;
      TrimRight(TrimRight(Decimal(bp / 100) + "." + TwoDigits(bp % 100), '0'), '.') + "%"
  }

  // ------------------------------------------------------- reading it back

  /** The number a string of digits stands for. */
  function Number(s: string): Option<nat> {
    if s == [] || !IsDigit(s[|s| - 1]) then None
    else
      var d := (s[|s| - 1] - '0') as nat;
      if |s| == 1 then Some(d)
      else
        var rest := Number(s[..|s| - 1]);
        if rest.None? then None else Some(rest.value * 10 + d)
  }

  function PointAt(s: string): nat {
    if s == [] || s[0] == '.' then 0 else 1 + PointAt(s[1..])
  }

  /** A decimal with at most two places, in hundredths. */
  function Hundredths(s: string): Option<nat> {
    var i := PointAt(s);
    if i > |s| then None
    else
      var whole := Number(s[..i]);
      if whole.None? then None
      else if i == |s| then Some(whole.value * 100)
      else
        var places := s[i + 1..];
        var frac := Number(places);
        if frac.None? || |places| > 2 then None
        else Some(whole.value * 100 + if |places| == 1 then frac.value * 10 else frac.value)
  }

  lemma {:induction false} DecimalReads(n: nat)
    ensures Number(Decimal(n)) == Some(n)
    ensures Decimal(n) != [] && forall i :: 0 <= i < |Decimal(n)| ==> IsDigit(Decimal(n)[i])
    ensures |Decimal(n)| > 1 ==> Decimal(n)[0] != '0'
  {
    if n >= 10 {
      DecimalReads(n / 10);
      var s := Decimal(n);
      assert s[..|s| - 1] == Decimal(n / 10);
      if |Decimal(n / 10)| == 1 {
        assert n / 10 < 10 by { LongDecimal(n / 10); }
      }
    }
  }

  lemma {:induction false} LongDecimal(n: nat)
    ensures n >= 10 ==> |Decimal(n)| > 1
  {
    if n >= 10 {
      LongDecimal(n / 10);
      assert |Decimal(n / 10)| >= 1;
    }
  }

  lemma {:induction false} PointAfter(whole: string, rest: string)
    requires forall i :: 0 <= i < |whole| ==> whole[i] != '.'
    requires rest == [] || rest[0] == '.'
    ensures PointAt(whole + rest) == |whole|
  {
    if whole == [] {
      assert whole + rest == rest;
    } else {
      assert (whole + rest)[1..] == whole[1..] + rest;
      PointAfter(whole[1..], rest);
    }
  }

  lemma TrimDrops(s: string, c: char)
    ensures TrimRight(s + [c], c) == TrimRight(s, c)
  {
    assert (s + [c])[..|s|] == s;
  }

  lemma TrimStops(s: string, c: char)
    requires s != [] && s[|s| - 1] != c
    ensures TrimRight(s, c) == s
  {
  }

  /** What the two trims leave of the places. */
  function Places(n: nat): string
    requires n < 100
  {
    if n % 10 != 0 then "." + TwoDigits(n) else if n != 0 then "." + [Digit(n / 10)] else ""
  }

  lemma DigitIs(d: nat)
    requires d < 10
    ensures IsDigit(Digit(d)) && (Digit(d) == '0' <==> d == 0) && Number([Digit(d)]) == Some(d)
  {
  }

  lemma TrimNone(c: string, a: char, b: char)
    requires b != '0' && b != '.'
    ensures TrimRight(TrimRight(c + [a] + [b], '0'), '.') == c + [a] + [b]
  {
    hide TrimRight;
    TrimStops(c + [a] + [b], '0');
    TrimStops(c + [a] + [b], '.');
  }

  lemma TrimOne(c: string, a: char)
    requires a != '0' && a != '.'
    ensures TrimRight(TrimRight(c + [a] + ['0'], '0'), '.') == c + [a]
  {
    hide TrimRight;
    TrimDrops(c + [a], '0');
    TrimStops(c + [a], '0');
    TrimStops(c + [a], '.');
  }

  lemma TrimAll(whole: string)
    requires whole != [] && IsDigit(whole[|whole| - 1])
    ensures TrimRight(TrimRight(whole + "." + ['0'] + ['0'], '0'), '.') == whole
  {
    hide TrimRight;
    TrimDrops(whole + "." + ['0'], '0');
    TrimDrops(whole + ".", '0');
    TrimStops(whole + ".", '0');
    TrimDrops(whole, '.');
    TrimStops(whole, '.');
  }

  lemma Trimmed(whole: string, n: nat)
    requires whole != [] && IsDigit(whole[|whole| - 1]) && n < 100
    ensures TrimRight(TrimRight(whole + "." + TwoDigits(n), '0'), '.') == whole + Places(n)
  {
    hide TrimRight, Digit, Number, IsDigit, TwoDigits;
    var a, b := Digit(n / 10), Digit(n % 10);
    DigitIs(n / 10);
    DigitIs(n % 10);
    NotPoint(n / 10);
    NotPoint(n % 10);
    PointThen(whole, n);
    if n % 10 != 0 {
      TrimNone(whole + ".", a, b);
    } else if n != 0 {
      TrimOne(whole + ".", a);
    } else {
      TrimAll(whole);
    }
  }

  lemma PointThen(whole: string, n: nat)
    requires n < 100
    ensures var a, b := Digit(n / 10), Digit(n % 10);
            && whole + "." + TwoDigits(n) == whole + "." + [a] + [b]
            && whole + Places(n) ==
               if n % 10 != 0 then whole + "." + [a] + [b] else if n != 0 then whole + "." + [a] else whole
  {
    hide Digit;
  }

  lemma NotPoint(d: nat)
    requires d < 10
    ensures Digit(d) != '.'
  {
  }

  lemma NumberOfTwo(a: nat, b: nat)
    requires a < 10 && b < 10
    ensures Number([Digit(a), Digit(b)]) == Some(a * 10 + b)
  {
    hide Digit;
    DigitIs(a);
    DigitIs(b);
    assert [Digit(a), Digit(b)][..1] == [Digit(a)];
    LastDigit([Digit(a), Digit(b)], b);
  }

  lemma LastDigit(s: string, d: nat)
    requires |s| > 1 && d < 10 && s[|s| - 1] == Digit(d) && Number(s[..|s| - 1]).Some?
    ensures Number(s) == Some(Number(s[..|s| - 1]).value * 10 + d)
  {
  }

  /** Where the places begin. */
  lemma SplitAtPoint(whole: string, places: string)
    requires forall i :: 0 <= i < |whole| ==> IsDigit(whole[i])
    requires places != []
    ensures var s := whole + ("." + places);
            PointAt(s) == |whole| < |s| && s[..|whole|] == whole && s[|whole| + 1..] == places
  {
    hide PointAt;
    PointAfter(whole, "." + places);
  }

  lemma HundredthsAt(s: string)
    requires PointAt(s) < |s| && Number(s[..PointAt(s)]).Some? && Number(s[PointAt(s) + 1..]).Some?
    requires |s[PointAt(s) + 1..]| <= 2
    ensures var i := PointAt(s);
            var whole, places := Number(s[..i]).value, Number(s[i + 1..]).value;
            Hundredths(s) == Some(whole * 100 + if |s[i + 1..]| == 1 then places * 10 else places)
  {
    hide Number, PointAt;
  }

  lemma DecimalReadsBack(whole: string, places: string)
    requires Number(whole).Some? && forall i :: 0 <= i < |whole| ==> IsDigit(whole[i])
    requires 1 <= |places| <= 2 && Number(places).Some?
    ensures Hundredths(whole + ("." + places)) ==
            Some(Number(whole).value * 100 + if |places| == 1 then Number(places).value * 10 else Number(places).value)
  {
    hide Number, PointAt, Hundredths, IsDigit;
    SplitAtPoint(whole, places);
    HundredthsAt(whole + ("." + places));
  }

  lemma WholeReadsBack(whole: string)
    requires Number(whole).Some? && forall i :: 0 <= i < |whole| ==> IsDigit(whole[i])
    ensures Hundredths(whole) == Some(Number(whole).value * 100)
  {
    hide Number, PointAt;
    PointAfter(whole, "");
    assert whole + "" == whole && whole[..|whole|] == whole;
  }

  lemma PlacesRead(whole: string, n: nat)
    requires Number(whole).Some? && forall i :: 0 <= i < |whole| ==> IsDigit(whole[i])
    requires n < 100
    ensures Hundredths(whole + Places(n)) == Some(Number(whole).value * 100 + n)
  {
    hide Digit, Number, Hundredths;
    if n % 10 != 0 {
      NumberOfTwo(n / 10, n % 10);
      DecimalReadsBack(whole, TwoDigits(n));
    } else if n != 0 {
      DigitIs(n / 10);
      DecimalReadsBack(whole, [Digit(n / 10)]);
    } else {
      WholeReadsBack(whole);
      assert whole + "" == whole;
    }
  }

  lemma HundredReads()
    ensures Hundredths("100") == Some(10000)
  {
    NumberOfTwo(1, 0);
    assert "100"[..2] == [Digit(1), Digit(0)];
    LastDigit("100", 0);
    PlacesRead("100", 0);
    assert "100" + Places(0) == "100";
  }

  /** Below a hundred percent: the digits, then the places that say something. */
  lemma ShownAs(success: nat, total: nat)
    requires success < total
    ensures var bp := BasisPoints(success, total);
            FormatPercent(success, total) == Decimal(bp / 100) + Places(bp % 100) + "%"
  {
    hide TrimRight, Number, Decimal, BasisPoints;
    var bp := BasisPoints(success, total);
    DecimalReads(bp / 100);
    Trimmed(Decimal(bp / 100), bp % 100);
  }

  lemma PlacesEnd(whole: string, n: nat)
    requires n < 100 && whole != [] && forall i :: 0 <= i < |whole| ==> IsDigit(whole[i])
    ensures var s := whole + Places(n);
            && ('.' in s ==> |s| > 1 && s[|s| - 1] != '0' && s[|s| - 1] != '.')
            && (|s| > |whole| ==> s[|whole|] == '.') && (|s| == |whole| ==> n == 0)
  {
    hide Digit;
    DigitIs(n / 10);
    DigitIs(n % 10);
    var s := whole + Places(n);
    if n == 0 {
      assert s == whole;
    } else {
      assert s[|s| - 1] == Places(n)[|Places(n)| - 1];
    }
  }

  /**
   * Read back as a decimal, what is shown is the percentage rounded down to
   * two decimals; it is 100% exactly when nothing failed, and has no trailing
   * zeros after the point.
   */
  lemma ShowsThePercentage(success: nat, total: nat)
    requires total > 0
    ensures var text := FormatPercent(success, total);
            && text != [] && text[|text| - 1] == '%'
            && (text == "100%" <==> success >= total)
            && ('.' in text ==> |text| > 2 && text[|text| - 2] != '0' && text[|text| - 2] != '.')
            && (text[0] == '0' ==> text == "0%" || text[1] == '.')
    ensures var text := FormatPercent(success, total);
            var shown := Hundredths(text[..|text| - 1]);
            && shown.Some? && shown.value <= 10000
            && (if success >= total then shown.value == 10000
                else shown.value * total <= success * 10000 < (shown.value + 1) * total)
  {
    hide Hundredths, Number, Decimal, Places, BasisPoints;
    HundredReads();
    if success >= total {
      assert "100%"[..3] == "100";
    } else {
      var bp := BasisPoints(success, total);
      RoundedDown(success, total);
      ShownAs(success, total);
      hide FormatPercent;
      var whole, text := Decimal(bp / 100), FormatPercent(success, total);
      DecimalReads(bp / 100);
      PlacesRead(whole, bp % 100);
      PlacesEnd(whole, bp % 100);
      var shown := whole + Places(bp % 100);
      assert text[..|text| - 1] == shown;
      assert "100%"[..3] == "100";
      assert text[0] == whole[0];
    }
  }

  lemma RoundedDown(success: nat, total: nat)
    requires total > 0
    ensures var bp := BasisPoints(success, total);
            bp * total <= success * 10000 < (bp + 1) * total && (success < total ==> bp < 10000)
  {
    var bp := BasisPoints(success, total);
    var r := success * 10000 % total;
    assert success * 10000 == bp * total + r;
    if success < total {
      assert bp * total < 10000 * total;
    }
  }

  /** A better ratio never shows a lower percentage. */
  lemma ShownMonotone(success: nat, total: nat, more: nat, all: nat)
    requires 0 < total && 0 < all && success * all <= more * total
    ensures var a, b := FormatPercent(success, total), FormatPercent(more, all);
            && a != [] && b != []
            && var x, y := Hundredths(a[..|a| - 1]), Hundredths(b[..|b| - 1]);
               x.Some? && y.Some? && x.value <= y.value
  {
    hide FormatPercent, Hundredths, BasisPoints;
    ShowsThePercentage(success, total);
    ShowsThePercentage(more, all);
    var x, y := Hundredths(FormatPercent(success, total)[..|FormatPercent(success, total)| - 1]).value,
                Hundredths(FormatPercent(more, all)[..|FormatPercent(more, all)| - 1]).value;
    if success >= total {
      AboveOne(success, total, more, all);
    }
    if success < total && more < all {
      RatioOrder(success, total, more, all, x, y);
    }
  }

  lemma AboveOne(success: nat, total: nat, more: nat, all: nat)
    requires 0 < total && 0 < all && success * all <= more * total && success >= total
    ensures more >= all
  {
    assert total * all <= success * all;
    assert more < all ==> more * total < all * total;
  }

  lemma RatioOrder(success: nat, total: nat, more: nat, all: nat, p: nat, q: nat)
    requires 0 < total && 0 < all && success * all <= more * total
    requires p * total <= success * 10000 && more * 10000 < (q + 1) * all
    ensures p <= q
  {
    assert p * total * all <= success * 10000 * all;
    assert more * 10000 * total < (q + 1) * all * total;
    assert q < p ==> (q + 1) * (all * total) <= p * (all * total);
  }
}
