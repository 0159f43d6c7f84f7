/** Canonical instants, `YYYY-MM-DDTHH:MM:SS.mmmZ`, and the time they name. */
module Instants {
  import opened Text

  predicate LeapYear(y: nat) {
    y % 4 == 0 && (y % 100 != 0 || y % 400 == 0)
  }

  function MonthLength(y: nat, m: nat): (d: nat)
    ensures 28 <= d <= 31
  {
    if m == 2 then (if LeapYear(y) then 29 else 28)
    else if m in {4, 6, 9, 11} then 30
    else 31
  }

  /** Days from 0000-01-01 to January 1 of year `y`. */
  function DaysBeforeYear(y: nat): nat {
    if y == 0 then 0 else DaysBeforeYear(y - 1) + 365 + (if LeapYear(y - 1) then 1 else 0)
  }

  /** Days from January 1 to the first of month `m`. */
  function DaysBeforeMonth(y: nat, m: nat): nat {
    if m <= 1 then 0 else DaysBeforeMonth(y, m - 1) + MonthLength(y, m - 1)
  }

  function Field(s: string, lo: nat, hi: nat): nat
    requires lo <= hi <= |s| && AllDigits(s[lo..hi])
  {
    Decimal(s[lo..hi])
  }

  predicate WellShaped(s: string) {
    && |s| == 24
    && AllDigits(s[0..4]) && s[4] == '-'
    && AllDigits(s[5..7]) && s[7] == '-'
    && AllDigits(s[8..10]) && s[10] == 'T'
    && AllDigits(s[11..13]) && s[13] == ':'
    && AllDigits(s[14..16]) && s[16] == ':'
    && AllDigits(s[17..19]) && s[19] == '.'
    && AllDigits(s[20..23]) && s[23] == 'Z'
  }

  /** The regular expression together with the date being a real one, which is
      what `new Date(value).toISOString() === value` adds to it. */
  predicate Canonical(s: string) {
    && WellShaped(s)
    && 1 <= Field(s, 5, 7) <= 12
    && 1 <= Field(s, 8, 10) <= MonthLength(Field(s, 0, 4), Field(s, 5, 7))
    && Field(s, 11, 13) < 24
    && Field(s, 14, 16) < 60
    && Field(s, 17, 19) < 60
  }

  /** `Date.parse`: milliseconds since 1970-01-01. */
  function Millis(s: string): int
    requires Canonical(s)
  {
    (Day(s) - 719528) * 86400000 + InDay(s)
  }

  function Day(s: string): nat
    requires Canonical(s)
  {
    DaysBeforeYear(Field(s, 0, 4)) + DaysBeforeMonth(Field(s, 0, 4), Field(s, 5, 7)) + Field(s, 8, 10) - 1
  }

  function InDay(s: string): (ms: nat)
    requires Canonical(s)
    ensures ms < 86400000
  {
    DecimalBound(s[20..23]);
    Field(s, 11, 13) * 3600000 + Field(s, 14, 16) * 60000 + Field(s, 17, 19) * 1000 + Field(s, 20, 23)
  }

  lemma {:induction false} YearsMonotone(y: nat, z: nat)
    requires y < z
    ensures DaysBeforeYear(y) + 365 + (if LeapYear(y) then 1 else 0) <= DaysBeforeYear(z)
    decreases z
  {
    if y < z - 1 {
      YearsMonotone(y, z - 1);
    }
  }

  lemma {:induction false} MonthsMonotone(y: nat, m: nat, n: nat)
    requires 1 <= m < n
    ensures DaysBeforeMonth(y, m) + MonthLength(y, m) <= DaysBeforeMonth(y, n)
    decreases n
  {
    if m < n - 1 {
      MonthsMonotone(y, m, n - 1);
    }
  }

  /** A date stays inside its year. */
  lemma YearHolds(y: nat, m: nat)
    requires 1 <= m <= 12
    ensures DaysBeforeMonth(y, m) + MonthLength(y, m) <= 365 + (if LeapYear(y) then 1 else 0)
  {
    if m < 12 {
      MonthsMonotone(y, m, 12);
    }
    assert DaysBeforeMonth(y, 3) == 31 + MonthLength(y, 2);
    assert DaysBeforeMonth(y, 5) == DaysBeforeMonth(y, 3) + 61;
    assert DaysBeforeMonth(y, 7) == DaysBeforeMonth(y, 5) + 61;
    assert DaysBeforeMonth(y, 9) == DaysBeforeMonth(y, 7) + 62;
    assert DaysBeforeMonth(y, 11) == DaysBeforeMonth(y, 9) + 61;
  }

  /** Equal fields before the first difference, a smaller one at it. */
  lemma FieldOrder(a: string, b: string, k: nat, lo: nat, hi: nat)
    requires |a| == |b| && hi <= |a| && lo <= k < hi
    requires AllDigits(a[lo..hi]) && AllDigits(b[lo..hi])
    requires a[..k] == b[..k] && a[k] < b[k]
    ensures Field(a, lo, hi) < Field(b, lo, hi)
  {
    var x, y := a[lo..hi], b[lo..hi];
    forall i | 0 <= i < k - lo
      ensures x[i] == y[i]
    {
      assert a[..k][lo + i] == b[..k][lo + i];
    }
    DecimalOrder(x, y, k - lo);
  }

  lemma SameField(a: string, b: string, k: nat, lo: nat, hi: nat)
    requires |a| == |b| && k <= |a| && lo <= hi <= k && a[..k] == b[..k]
    ensures a[lo..hi] == b[lo..hi]
  {
    assert a[lo..hi] == a[..k][lo..hi];
    assert b[lo..hi] == b[..k][lo..hi];
  }

  lemma EarlierDay(a: string, b: string, k: nat)
    requires Canonical(a) && Canonical(b) && k < 10
    requires a[..k] == b[..k] && a[k] < b[k]
    ensures Day(a) < Day(b)
  {
    var y, z := Field(a, 0, 4), Field(b, 0, 4);
    YearHolds(y, Field(a, 5, 7));
    if k < 4 {
      FieldOrder(a, b, k, 0, 4);
      YearsMonotone(y, z);
    } else {
      assert a[4] == '-' && a[7] == '-';
      SameField(a, b, k, 0, 4);
      if k < 7 {
        FieldOrder(a, b, k, 5, 7);
        MonthsMonotone(y, Field(a, 5, 7), Field(b, 5, 7));
      } else {
        SameField(a, b, k, 5, 7);
        FieldOrder(a, b, k, 8, 10);
      }
    }
  }

  lemma EarlierInDay(a: string, b: string, k: nat)
    requires Canonical(a) && Canonical(b) && 10 <= k < 24
    requires a[..k] == b[..k] && a[k] < b[k]
    ensures Day(a) == Day(b) && InDay(a) < InDay(b)
  {
    SameField(a, b, k, 0, 4);
    SameField(a, b, k, 5, 7);
    SameField(a, b, k, 8, 10);
    DecimalBound(a[20..23]);
    if k < 13 {
      FieldOrder(a, b, k, 11, 13);
    } else {
      SameField(a, b, k, 11, 13);
      if k < 16 {
        FieldOrder(a, b, k, 14, 16);
      } else {
        SameField(a, b, k, 14, 16);
        if k < 19 {
          FieldOrder(a, b, k, 17, 19);
        } else {
          SameField(a, b, k, 17, 19);
          FieldOrder(a, b, k, 20, 23);
        }
      }
    }
  }

  lemma EarlierAt(a: string, b: string, k: nat)
    requires Canonical(a) && Canonical(b) && k < 24
    requires a[..k] == b[..k] && a[k] < b[k]
    ensures Millis(a) < Millis(b)
  {
    if k < 10 {
      EarlierDay(a, b, k);
    } else {
      EarlierInDay(a, b, k);
    }
  }

  /** Canonical instants compare as strings exactly as they compare in time
      (section 5.1 of RFC 3339), so the scripts may mix both comparisons. */
  lemma OrderAgrees(a: string, b: string)
    requires Canonical(a) && Canonical(b)
    ensures Less(a, b) <==> Millis(a) < Millis(b)
    ensures a == b <==> Millis(a) == Millis(b)
  {
    if a == b {
      Irreflexive(a);
    } else {
      var k := FirstDifference(a, b);
      if a[k] < b[k] {
        EarlierAt(a, b, k);
      } else {
        EarlierAt(b, a, k);
      }
    }
  }

  lemma {:induction false} Irreflexive(a: string)
    ensures !Less(a, a)
  {
    if a != "" {
      Irreflexive(a[1..]);
    }
  }

  // ----- The calendar, counted another way -----

  lemma FourthYear(y: nat)
    ensures (y + 4) / 4 == (y + 3) / 4 + if y % 4 == 0 then 1 else 0
  {
  }

  lemma FullCentury(y: nat)
    ensures (y + 100) / 100 == (y + 99) / 100 + if y % 100 == 0 then 1 else 0
  {
  }

  lemma FourthCentury(y: nat)
    ensures (y + 400) / 400 == (y + 399) / 400 + if y % 400 == 0 then 1 else 0
  {
    var centuries, years := y / 400, y % 400;
    assert y == 400 * centuries + years;
  }

  lemma CenturiesAreFourths(y: nat)
    ensures y % 400 == 0 ==> y % 100 == 0
    ensures y % 100 == 0 ==> y % 4 == 0
  {
    if y % 100 == 0 {
      assert y == 4 * (25 * (y / 100));
    }
  }

  /** The years before `y`: every fourth is a day longer, but of the full centuries only every fourth. */
  lemma {:induction false} YearsCounted(y: nat)
    ensures DaysBeforeYear(y) == 365 * y + (y + 3) / 4 - (y + 99) / 100 + (y + 399) / 400
  {
    if y > 0 {
      YearsCounted(y - 1);
      FourthYear(y - 1);
      FullCentury(y - 1);
      FourthCentury(y - 1);
      CenturiesAreFourths(y - 1);
    }
  }

  /** Twelve months make a year. */
  lemma MonthsCounted(y: nat)
    ensures DaysBeforeMonth(y, 13) == DaysBeforeYear(y + 1) - DaysBeforeYear(y)
  {
    assert DaysBeforeMonth(y, 11) == 276 + MonthLength(y, 2) by {
      assert DaysBeforeMonth(y, 2) == 31;
      assert DaysBeforeMonth(y, 3) == 31 + MonthLength(y, 2);
      assert DaysBeforeMonth(y, 5) == DaysBeforeMonth(y, 3) + 61;
      assert DaysBeforeMonth(y, 7) == DaysBeforeMonth(y, 5) + 61;
      assert DaysBeforeMonth(y, 9) == DaysBeforeMonth(y, 7) + 62;
      assert DaysBeforeMonth(y, 11) == DaysBeforeMonth(y, 9) + 61;
    }
    assert DaysBeforeMonth(y, 12) == DaysBeforeMonth(y, 11) + MonthLength(y, 11);
    assert DaysBeforeMonth(y, 13) == DaysBeforeMonth(y, 12) + MonthLength(y, 12);
  }

  /** Time starts in 1970. */
  lemma EpochIsZero(s: string)
    requires Canonical(s) && Field(s, 0, 4) == 1970 && Field(s, 5, 7) == 1 && Field(s, 8, 10) == 1
    ensures Millis(s) == InDay(s)
  {
    hide InDay, DaysBeforeYear, MonthLength, Decimal;
    var y := Field(s, 0, 4);
    YearsCounted(y);
  }
}
