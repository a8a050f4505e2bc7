/**
 * The "Created Date" column of the customization-type and inquiry-category tables: a dash
 * for a missing date, otherwise the day, the month and the year as dd-mm-yyyy.
 */
module CreatedDate {
  import opened Wrappers
  import opened Text

  /**
   * The calendar fields `new Date(value)` yields: `getDate()`, the zero-based `getMonth()` and
   * `getFullYear()`.
   */
  datatype CalendarDate = CalendarDate(day: int, month0: int, year: int)

  predicate AllDigits(s: string) {
    forall i :: 0 <= i < |s| ==> IsDigit(s[i])
  }

  /** The column's `render`: "-" for a falsy value, else `${day}-${month}-${year}` with day and month padded to two digits. */
  function RenderCreatedAt(value: Option<string>, d: CalendarDate): (r: string)
    ensures !Truthy(value) ==> r == "-"
  {
    if !Truthy(value) then "-"
    else PadStart2(IntToDecimal(d.day)) + "-" + PadStart2(IntToDecimal(d.month0 + 1)) + "-" + IntToDecimal(d.year)
  }

  /** A number below 100 padded to two places is two digits that read back as the number. */
  lemma PaddedReadsBack(n: nat)
    requires n < 100
    ensures var p := PadStart2(NatToDecimal(n)); |p| == 2 && AllDigits(p) && DecimalValue(p) == n
  {
    var s := NatToDecimal(n);
    DecimalRoundTrip(n);
    if n < 10 {
      DecimalLeadingZero(s);
    } else {
      assert |NatToDecimal(n / 10)| == 1;
    }
  }

  /**
   * `r` reads as dd-mm-yyyy: two digits, a dash, two digits, a dash and at least one digit, the
   * three fields reading back as `day`, `month` and `year`.
   */
  predicate ReadsAsDate(r: string, day: int, month: int, year: int) {
    |r| >= 7 && r[2] == '-' && r[5] == '-'
    && AllDigits(r[..2]) && AllDigits(r[3..5]) && AllDigits(r[6..])
    && DecimalValue(r[..2]) == day && DecimalValue(r[3..5]) == month && DecimalValue(r[6..]) == year
  }

  /** Where the pieces of `a x b y c` sit when `a` and `b` have two items each. */
  lemma TwoTwoPieces<T>(a: seq<T>, x: T, b: seq<T>, y: T, c: seq<T>)
    requires |a| == 2 && |b| == 2
    ensures var r := a + [x] + b + [y] + c;
      |r| == 6 + |c| && r[2] == x && r[5] == y && r[..2] == a && r[3..5] == b && r[6..] == c
  {
    var r := a + [x] + b + [y] + c;
    assert r[..2] == a;
    assert r[3..5] == b;
    assert r[6..] == c;
  }

  /** The three fields of a dd-mm-… string sit at fixed places and read back as their numbers. */
  lemma DashedFields(dd: string, mm: string, yyyy: string)
    requires |dd| == 2 && |mm| == 2 && |yyyy| >= 1
    requires AllDigits(dd) && AllDigits(mm) && AllDigits(yyyy)
    ensures ReadsAsDate(dd + "-" + mm + "-" + yyyy, DecimalValue(dd), DecimalValue(mm), DecimalValue(yyyy))
  {
    TwoTwoPieces(dd, '-', mm, '-', yyyy);
  }

  /**
   * A present date of a real day and month renders as two digits, a dash, two digits, a dash
   * and the year's digits, and each field reads back as the day, the one-based month and the year.
   */
  lemma RenderedDateReadsBack(value: Option<string>, d: CalendarDate)
    requires Truthy(value) && 1 <= d.day <= 31 && 0 <= d.month0 <= 11 && d.year >= 0
    ensures ReadsAsDate(RenderCreatedAt(value, d), d.day, d.month0 + 1, d.year)
  {
    var dd := PadStart2(NatToDecimal(d.day));
    var mm := PadStart2(NatToDecimal(d.month0 + 1));
    var yyyy := NatToDecimal(d.year);
    assert RenderCreatedAt(value, d) == dd + "-" + mm + "-" + yyyy by {
      assert IntToDecimal(d.day) == NatToDecimal(d.day);
      assert IntToDecimal(d.month0 + 1) == NatToDecimal(d.month0 + 1);
      assert IntToDecimal(d.year) == yyyy;
    }
    assert |dd| == 2 && AllDigits(dd) && DecimalValue(dd) == d.day by {
      PaddedReadsBack(d.day);
    }
    assert |mm| == 2 && AllDigits(mm) && DecimalValue(mm) == d.month0 + 1 by {
      PaddedReadsBack(d.month0 + 1);
    }
    assert AllDigits(yyyy) && DecimalValue(yyyy) == d.year by {
      DecimalRoundTrip(d.year);
    }
    DashedFields(dd, mm, yyyy);
  }
}
