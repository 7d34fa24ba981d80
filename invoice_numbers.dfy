/** Invoice numbers as generateInvoiceNumber builds them
    (backend/routes/sales.js): "INV-", the four-digit year, two-digit month
    and day, "-", and the last six digits of the millisecond clock. The clock
    reading is a parameter. */
module InvoiceNumbers {
  import opened Common

  const SuffixModulus: nat := 1000000

  /** year, padStart(2, '0') of month and day, concatenated. */
  function DatePart(year: nat, month: nat, day: nat): string {
    DecimalString(year) + PadStart2(DecimalString(month)) + PadStart2(DecimalString(day))
  }

  /** String(date.getTime()).slice(-6) */
  function TimeSuffix(millis: nat): string {
    TakeLast(DecimalString(millis), 6)
  }

  function InvoiceNumber(year: nat, month: nat, day: nat, millis: nat): string {
    "INV-" + DatePart(year, month, day) + "-" + TimeSuffix(millis)
  }

  lemma Pow10Values()
    ensures Pow10(2) == 100 && Pow10(3) == 1000 && Pow10(4) == 10000
    ensures Pow10(5) == 100000 && Pow10(6) == SuffixModulus
  {
  }

  /** The suffix is the clock reading modulo one million, written with six
      digits once the clock is past 100000 ms. */
  lemma TimeSuffixValue(millis: nat)
    ensures AllDigits(TimeSuffix(millis))
    ensures ParseDecimal(TimeSuffix(millis)) == millis % SuffixModulus
    ensures millis >= 100000 ==> |TimeSuffix(millis)| == 6
  {
    Pow10Values();
    var s := DecimalString(millis);
    if |s| <= 6 {
      ParseDecimalString(millis);
      if millis >= SuffixModulus {
        DecimalLengthAtLeast(millis, 6);
      }
    } else {
      var a, b := s[..|s| - 6], s[|s| - 6..];
      assert s == a + b;
      ParseDecimalString(millis);
      ParseDecimalAppend(a, b);
      ParseDecimalBound(b);
      ModOfDecomposition(millis, ParseDecimal(a), ParseDecimal(b), SuffixModulus);
    }
    if millis >= 100000 {
      DecimalLengthAtLeast(millis, 5);
    }
  }

  /** Zero padding does not change the value. */
  lemma PadStart2Value(s: string)
    ensures ParseDecimal(PadStart2(s)) == ParseDecimal(s)
    ensures AllDigits(s) ==> AllDigits(PadStart2(s))
  {
    if |s| == 0 {
      assert ParseDecimal("0") == 0;
    } else if |s| == 1 {
      ParseDecimalAppend("0", s);
      assert ParseDecimal("0") == 0;
    }
  }

  /** Two sales on the same day get the same invoice number exactly when
      their clock readings agree modulo one million; the UNIQUE constraint
      on sales.invoice then rejects the second one. */
  lemma InvoiceCollision(year: nat, month: nat, day: nat, t1: nat, t2: nat)
    requires t1 >= 100000 && t2 >= 100000
    ensures InvoiceNumber(year, month, day, t1) == InvoiceNumber(year, month, day, t2)
        <==> t1 % SuffixModulus == t2 % SuffixModulus
  {
    var prefix := "INV-" + DatePart(year, month, day) + "-";
    var s1, s2 := TimeSuffix(t1), TimeSuffix(t2);
    TimeSuffixValue(t1);
    TimeSuffixValue(t2);
    if t1 % SuffixModulus == t2 % SuffixModulus {
      ParseDecimalInjective(s1, s2);
    }
    if InvoiceNumber(year, month, day, t1) == InvoiceNumber(year, month, day, t2) {
      assert s1 == (prefix + s1)[|prefix|..];
      assert s2 == (prefix + s2)[|prefix|..];
    }
  }

  /** For a four-digit year and a calendar month and day, the number is 19
      characters: "INV-", yyyymmdd, "-", and six digits, each field reading
      back as the value it was built from. */
  lemma InvoiceLayout(year: nat, month: nat, day: nat, millis: nat)
    requires 1000 <= year <= 9999 && 1 <= month <= 12 && 1 <= day <= 31
    requires millis >= 100000
    ensures var inv := InvoiceNumber(year, month, day, millis);
      && |inv| == 19
      && inv[..4] == "INV-" && inv[12] == '-'
      && AllDigits(inv[4..12]) && AllDigits(inv[13..])
      && ParseDecimal(inv[4..8]) == year
      && ParseDecimal(inv[8..10]) == month
      && ParseDecimal(inv[10..12]) == day
      && ParseDecimal(inv[13..]) == millis % SuffixModulus
  {
    Pow10Values();
    var y, m, d := DecimalString(year), PadStart2(DecimalString(month)), PadStart2(DecimalString(day));
    var s := TimeSuffix(millis);
    DecimalLength(year, 3);
    DecimalLengthAtMost(month, 2);
    DecimalLengthAtMost(day, 2);
    PadStart2Value(DecimalString(month));
    PadStart2Value(DecimalString(day));
    ParseDecimalString(year);
    ParseDecimalString(month);
    ParseDecimalString(day);
    TimeSuffixValue(millis);
    var inv := InvoiceNumber(year, month, day, millis);
    assert inv == "INV-" + y + m + d + "-" + s;
    assert inv[..4] == "INV-";
    assert inv[4..8] == y;
    assert inv[8..10] == m;
    assert inv[10..12] == d;
    assert inv[4..12] == y + m + d;
    assert inv[13..] == s;
  }
}
