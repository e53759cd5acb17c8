/** The Gregorian calendar as both runtimes use it, and date-times ordered
    chronologically (field by field). */
module Calendar {

  predicate IsLeapYear(y: int)
  {
    y % 4 == 0 && (y % 100 != 0 || y % 400 == 0)
  }

  function DaysInMonth(y: int, m: int): (n: int)
    requires 1 <= m <= 12
    ensures 28 <= n <= 31
  {
    if m == 2 then (if IsLeapYear(y) then 29 else 28)
    else if m == 4 || m == 6 || m == 9 || m == 11 then 30
    else 31
  }

  /** A naive date-time with second resolution. */
  datatype DateTime = DateTime(year: int, month: int, day: int, hour: int, minute: int, second: int)

  /** What Python's `datetime` accepts: years 1 to 9999 and real calendar days. */
  predicate ValidDateTime(d: DateTime)
  {
    1 <= d.year <= 9999 && 1 <= d.month <= 12 && 1 <= d.day <= DaysInMonth(d.year, d.month)
    && 0 <= d.hour < 24 && 0 <= d.minute < 60 && 0 <= d.second < 60
  }

  /** Chronological order: the fields compared from the year down to the second. */
  predicate Before(a: DateTime, b: DateTime)
  {
    if a.year != b.year then a.year < b.year
    else if a.month != b.month then a.month < b.month
    else if a.day != b.day then a.day < b.day
    else if a.hour != b.hour then a.hour < b.hour
    else if a.minute != b.minute then a.minute < b.minute
    else a.second < b.second
  }

  predicate NotAfter(a: DateTime, b: DateTime) { a == b || Before(a, b) }

  lemma BeforeIsStrictTotalOrder(a: DateTime, b: DateTime, c: DateTime)
    ensures !Before(a, a)
    ensures Before(a, b) && Before(b, c) ==> Before(a, c)
    ensures a != b ==> Before(a, b) || Before(b, a)
    ensures !(Before(a, b) && Before(b, a))
  {
  }

  predicate SortedAscending(s: seq<DateTime>)
  {
    forall i, j :: 0 <= i < j < |s| ==> NotAfter(s[i], s[j])
  }

  lemma SortedCons(h: DateTime, t: seq<DateTime>)
    requires SortedAscending(t)
    requires forall y :: y in t ==> NotAfter(h, y)
    ensures SortedAscending([h] + t)
  {
    forall i, j | 0 <= i < j < |[h] + t|
      ensures NotAfter(([h] + t)[i], ([h] + t)[j])
    {
      if i == 0 {
        assert ([h] + t)[j] == t[j - 1];
        assert t[j - 1] in t;
      } else {
        assert ([h] + t)[i] == t[i - 1] && ([h] + t)[j] == t[j - 1];
      }
    }
  }

  /** Places `x` after every element that is not after it. */
  function InsertAscending(s: seq<DateTime>, x: DateTime): (r: seq<DateTime>)
    requires SortedAscending(s)
    ensures SortedAscending(r) && multiset(r) == multiset(s) + multiset{x}
  {
    if s == [] then [x]
    else if Before(x, s[0]) then
      assert forall y :: y in s ==> NotAfter(s[0], y);
      forall y | y in s
        ensures NotAfter(x, y)
      {
        BeforeIsStrictTotalOrder(x, s[0], y);
      }
      SortedCons(x, s);
      [x] + s
    else
      var rest := InsertAscending(s[1..], x);
      assert s == [s[0]] + s[1..];
      BeforeIsStrictTotalOrder(s[0], x, x);
      forall y | y in rest
        ensures NotAfter(s[0], y)
      {
        assert y in multiset(rest);
        if y != x {
          assert y in s[1..];
          var k :| 0 <= k < |s[1..]| && s[1..][k] == y;
          assert s[k + 1] == y;
        }
      }
      SortedCons(s[0], rest);
      [s[0]] + rest
  }

  /** `sorted(dates)`: the same date-times in chronological order. */
  function SortAscending(s: seq<DateTime>): (r: seq<DateTime>)
    ensures SortedAscending(r) && multiset(r) == multiset(s)
  {
    if s == [] then []
    else
      assert s == s[..|s| - 1] + [s[|s| - 1]];
      InsertAscending(SortAscending(s[..|s| - 1]), s[|s| - 1])
  }
}
