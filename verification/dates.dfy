/** The date line of the share card, `getFormattedDate` (App.js:116-120). The
    clock reading `new Date()` becomes three parameters: the month index that
    `getMonth()` returns (0 to 11), the day of the month and the full year. */
module Dates {

  const MonthNames: seq<string> :=
    ["Jan", "Feb", "Mar", "Apr", "May", "Jun", "Jul", "Aug", "Sep", "Oct", "Nov", "Dec"]

  predicate IsDigit(c: char) {
    '0' <= c <= '9'
  }

  predicate AllDigits(s: string) {
    forall i :: 0 <= i < |s| ==> IsDigit(s[i])
  }

  /** The decimal digits of `n`, as a template literal prints a non-negative
      integer: at least one digit and no leading zero. */
  function Digits(n: nat): (s: string)
    ensures 1 <= |s| && AllDigits(s)
    ensures |s| > 1 ==> s[0] != '0'
  {
    if n < 10 then ['0' + n as char] else Digits(n / 10) + ['0' + (n % 10) as char]
  }

  /** The number a string of decimal digits denotes. */
  function DigitsValue(s: string): nat
    requires AllDigits(s)
  {
    if s == [] then 0 else DigitsValue(s[..|s| - 1]) * 10 + (s[|s| - 1] - '0') as nat
  }

  /** Reading back the digits printed for `n` gives `n`. */
  lemma {:induction false} DigitsRoundTrip(n: nat)
    ensures DigitsValue(Digits(n)) == n
  {
    if n >= 10 {
      DigitsRoundTrip(n / 10);
      var s := Digits(n);
      assert s[..|s| - 1] == Digits(n / 10);
    }
  }

  /** How a template literal prints an integer: the digits of its magnitude,
      after a minus sign when it is negative. */
  function NumberText(x: int): (s: string)
    ensures 1 <= |s|
    ensures s[0] == '-' <==> x < 0
    ensures forall i :: 0 < i < |s| ==> IsDigit(s[i])
    ensures x >= 0 ==> AllDigits(s) && DigitsValue(s) == x
    ensures x < 0 ==> AllDigits(s[1..]) && DigitsValue(s[1..]) == -x
  {
    if x < 0 then
      DigitsRoundTrip(-x);
      var s := "-" + Digits(-x);
      assert s[1..] == Digits(-x);
      s
    else
      DigitsRoundTrip(x);
      Digits(x)
  }

  /** `getFormattedDate()` for the given month index, day and year, as in "Oct 11, 2026". */
  function FormattedDate(month: nat, day: nat, year: int): (r: string)
    requires month < 12
    ensures 4 <= |r| && r[..3] == MonthNames[month] && r[3] == ' '
  {
    MonthNamesShape();
    MonthNames[month] + " " + Digits(day) + ", " + NumberText(year)
  }

  /** Every month name has three letters, and no two are the same. */
  lemma MonthNamesShape()
    ensures |MonthNames| == 12
    ensures forall m :: 0 <= m < 12 ==> |MonthNames[m]| == 3
    ensures forall m, n :: 0 <= m < n < 12 ==> MonthNames[m] != MonthNames[n]
  {
  }

  /** Two different dates never print the same: the month, the day and the
      year can each be read back from the text. */
  lemma FormattedDateInjective(m1: nat, d1: nat, y1: int, m2: nat, d2: nat, y2: int)
    requires m1 < 12 && m2 < 12
    requires FormattedDate(m1, d1, y1) == FormattedDate(m2, d2, y2)
    ensures m1 == m2 && d1 == d2 && y1 == y2
  {
    MonthNameInjective(m1, m2);
    var tail1 := DateTail(m1, d1, y1);
    var tail2 := DateTail(m2, d2, y2);
    SplitAtComma(Digits(d1), NumberText(y1), Digits(d2), NumberText(y2));
    DigitsRoundTrip(d1);
    DigitsRoundTrip(d2);
    NumberTextInjective(y1, y2);
  }

  /** After the month name and its space comes "<day>, <year>". */
  lemma DateTail(m: nat, d: nat, y: int) returns (tail: string)
    requires m < 12
    ensures tail == Digits(d) + ", " + NumberText(y)
    ensures tail == FormattedDate(m, d, y)[4..]
  {
    MonthNamesShape();
    tail := Digits(d) + ", " + NumberText(y);
    assert FormattedDate(m, d, y) == MonthNames[m] + " " + tail;
  }

  /** Different month indexes have different names. */
  lemma MonthNameInjective(m1: nat, m2: nat)
    requires m1 < 12 && m2 < 12 && MonthNames[m1] == MonthNames[m2]
    ensures m1 == m2
  {
    MonthNamesShape();
  }

  /** Different integers print differently. */
  lemma NumberTextInjective(x: int, y: int)
    requires NumberText(x) == NumberText(y)
    ensures x == y
  {
    var t := NumberText(x);
    assert (x < 0) == (y < 0) by {
      assert t[0] == NumberText(y)[0];
    }
    if x < 0 {
      var dx, dy := Digits(-x), Digits(-y);
      assert t == "-" + dx && t == "-" + dy;
      assert dx == t[1..] == dy;
      DigitsInjective(-x, -y);
    } else {
      DigitsInjective(x, y);
    }
  }

  /** Different non-negative integers have different digits. */
  lemma DigitsInjective(a: nat, b: nat)
    requires Digits(a) == Digits(b)
    ensures a == b
  {
    DigitsRoundTrip(a);
    DigitsRoundTrip(b);
  }

  /** The position of the first comma in `s`, or |s| when there is none. */
  function CommaIndex(s: string): (k: nat)
    ensures k <= |s|
    ensures forall i :: 0 <= i < k ==> s[i] != ','
    ensures k < |s| ==> s[k] == ','
  {
    if s == [] || s[0] == ',' then 0 else 1 + CommaIndex(s[1..])
  }

  /** A run of digits followed by ", " ends where the first comma is. */
  lemma SplitAtComma(a: string, b: string, c: string, e: string)
    requires AllDigits(a) && AllDigits(c)
    requires a + ", " + b == c + ", " + e
    ensures a == c && b == e
  {
    var s := a + ", " + b;
    assert forall i :: 0 <= i < |a| ==> s[i] == a[i] && s[i] != ',';
    assert forall i :: 0 <= i < |c| ==> s[i] == c[i] && s[i] != ',';
    assert s[|a|] == ',' && s[|c|] == ',';
    var k := CommaIndex(s);
    assert k <= |a| && k <= |c|;
    assert |a| == k == |c|;
    assert a == s[..|a|] == c;
    assert b == s[|a| + 2..] == e;
  }
}
