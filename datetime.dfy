/**
 * utils/datetime.js: `dateFormat` renders a Date as "Sun, 05 Jan 2020 09:03:07".
 * The Date getters are foreign; their results are the integer fields of DateFields.
 */
module DateTime {
  import opened Numbers

  const Days: seq<string> := ["Sun", "Mon", "Tue", "Wed", "Thu", "Fri", "Sat"]
  const Months: seq<string> :=
    ["Jan", "Feb", "Mar", "Apr", "May", "Jun", "Jul", "Aug", "Sep", "Oct", "Nov", "Dec"]

  /** What getDay, getDate, getMonth, getFullYear, getHours, getMinutes and getSeconds return. */
  datatype DateFields = DateFields(
    day: int, date: int, month: int, year: int, hours: int, minutes: int, seconds: int)

  /** The ranges a valid Date's getDay and getMonth are guaranteed to return. */
  predicate Indexable(f: DateFields) {
    0 <= f.day < 7 && 0 <= f.month < 12
  }

  /** The ranges of a valid Date's getDate, getHours, getMinutes and getSeconds. */
  predicate InRange(f: DateFields) {
    Indexable(f) && 1 <= f.date <= 31 && 0 <= f.hours < 24 && 0 <= f.minutes < 60 && 0 <= f.seconds < 60
  }

  lemma NameTables()
    ensures |Days| == 7 && |Months| == 12
    ensures forall i :: 0 <= i < 7 ==> |Days[i]| == 3
    ensures forall i :: 0 <= i < 12 ==> |Months[i]| == 3
  {
  }

  lemma DayNamesDistinct(i: int, j: int)
    requires 0 <= i < 7 && 0 <= j < 7 && Days[i] == Days[j]
    ensures i == j
  {
    assert Days[i][..2] == Days[j][..2];
  }

  lemma MonthNamesDistinct(i: int, j: int)
    requires 0 <= i < 12 && 0 <= j < 12 && Months[i] == Months[j]
    ensures i == j
  {
    assert Months[i][..3] == Months[j][..3];
  }

  /**
   * The nested `trimpad`, applied to `val + ''`: the last two characters of a
   * longer string, a '0' in front of a shorter one.
   */
  function Trimpad(val: string): (r: string)
    ensures |val| >= 1 ==> |r| == 2
  {
    if |val| > 2 then
      val[|val| - 2..]
    else if |val| < 2 then
      "0" + val
    else
      val
  }

  /**
   * What trimpad keeps: a string of two or more characters loses all but its
   * last two; a shorter one gets a single '0' in front.
   */
  lemma TrimpadWindow(val: string)
    ensures |val| >= 2 ==> val == val[..|val| - 2] + Trimpad(val)
    ensures |val| < 2 ==> Trimpad(val) == "0" + val
  {
  }

  lemma TrimpadIdempotent(val: string)
    requires |val| >= 1
    ensures Trimpad(Trimpad(val)) == Trimpad(val)
  {
  }

  /** For a non-negative integer, trimpad gives its value modulo 100 as two digits. */
  lemma TrimpadOfNat(n: int)
    requires n >= 0
    ensures Trimpad(Decimal(n)) == TwoDigits(n % 100)
  {
    var s := NatDigits(n);
    if n >= 100 {
      var t := NatDigits(n / 10);
      assert s == t + [DigitChar(n % 10)];
      var q, m := n / 100, n % 100;
      assert n == 100 * q + m;
      assert n / 10 == 10 * q + m / 10;
      assert (n / 10) % 10 == m / 10;
      assert n % 10 == m % 10;
      assert s[|s| - 2..] == [t[|t| - 1], DigitChar(n % 10)];
    } else if n >= 10 {
      assert s == NatDigits(n / 10) + [DigitChar(n % 10)];
    }
  }

  /** For 0..99, trimpad is the two-digit zero-padded decimal. */
  lemma TrimpadTwoDigits(n: int)
    requires 0 <= n < 100
    ensures Trimpad(Decimal(n)) == TwoDigits(n)
  {
    TrimpadOfNat(n);
  }

  /** `dateFormat` on the fields of a Date. */
  function DateFormat(f: DateFields): (r: string)
    requires Indexable(f)
    ensures |r| == 21 + |Decimal(f.year)|
  {
    Days[f.day] + ", " +
    Trimpad(Decimal(f.date)) + " " + Months[f.month] + " " + Decimal(f.year) + " " +
    Trimpad(Decimal(f.hours)) + ":" + Trimpad(Decimal(f.minutes)) + ":" + Trimpad(Decimal(f.seconds))
  }

  /** Fields with in-range two-digit parts. */
  predicate TwoDigitFields(f: DateFields) {
    Indexable(f) && 0 <= f.date < 100 && 0 <= f.hours < 100 && 0 <= f.minutes < 100 && 0 <= f.seconds < 100
  }

  /** "Sun, 05 Jan ": everything before the year. */
  function DatePrefix(f: DateFields): (r: string)
    requires TwoDigitFields(f)
    ensures |r| == 12
  {
    Days[f.day] + ", " + TwoDigits(f.date) + " " + Months[f.month] + " "
  }

  /** " 09:03:07": everything after the year. */
  function TimeSuffix(f: DateFields): (r: string)
    requires TwoDigitFields(f)
    ensures |r| == 9
  {
    " " + TwoDigits(f.hours) + ":" + TwoDigits(f.minutes) + ":" + TwoDigits(f.seconds)
  }

  /** Regrouping a left-nested concatenation of the time fields. */
  lemma RegroupSuffix(head: string, h: string, m: string, s: string)
    ensures head + " " + h + ":" + m + ":" + s == head + (" " + h + ":" + m + ":" + s)
  {
  }

  /**
   * For in-range fields the text is a fixed 12-character prefix, the year
   * neither padded nor trimmed, and a fixed 9-character suffix.
   */
  lemma DateFormatLayout(f: DateFields)
    requires TwoDigitFields(f)
    ensures DateFormat(f) == DatePrefix(f) + Decimal(f.year) + TimeSuffix(f)
  {
    TrimpadTwoDigits(f.date);
    TrimpadTwoDigits(f.hours);
    TrimpadTwoDigits(f.minutes);
    TrimpadTwoDigits(f.seconds);
    var h, m, s := TwoDigits(f.hours), TwoDigits(f.minutes), TwoDigits(f.seconds);
    var head := DatePrefix(f) + Decimal(f.year);
    assert DateFormat(f) == head + " " + h + ":" + m + ":" + s;
    RegroupSuffix(head, h, m, s);
  }

  /** For a four-digit year and in-range fields the text is exactly 25 characters. */
  lemma DateFormatLength(f: DateFields)
    requires InRange(f) && 1000 <= f.year < 10000
    ensures |DateFormat(f)| == 25
  {
    DateFormatLayout(f);
    DecimalLength(f.year);
  }

  lemma DatePrefixInjective(f: DateFields, g: DateFields)
    requires TwoDigitFields(f) && TwoDigitFields(g) && DatePrefix(f) == DatePrefix(g)
    ensures f.day == g.day && f.date == g.date && f.month == g.month
  {
    var p := DatePrefix(f);
    assert Days[f.day] == p[..3] == Days[g.day];
    assert TwoDigits(f.date) == p[5..7] == TwoDigits(g.date);
    assert Months[f.month] == p[8..11] == Months[g.month];
    DayNamesDistinct(f.day, g.day);
    MonthNamesDistinct(f.month, g.month);
  }

  lemma TimeSuffixInjective(f: DateFields, g: DateFields)
    requires TwoDigitFields(f) && TwoDigitFields(g) && TimeSuffix(f) == TimeSuffix(g)
    ensures f.hours == g.hours && f.minutes == g.minutes && f.seconds == g.seconds
  {
    var s := TimeSuffix(f);
    assert TwoDigits(f.hours) == s[1..3] == TwoDigits(g.hours);
    assert TwoDigits(f.minutes) == s[4..6] == TwoDigits(g.minutes);
    assert TwoDigits(f.seconds) == s[7..] == TwoDigits(g.seconds);
  }

  /** The format loses nothing: distinct in-range field sets give distinct texts. */
  lemma DateFormatInjective(f: DateFields, g: DateFields)
    requires TwoDigitFields(f) && TwoDigitFields(g)
    ensures DateFormat(f) == DateFormat(g) ==> f == g
  {
    if DateFormat(f) != DateFormat(g) {
      return;
    }
    DateFormatLayout(f);
    DateFormatLayout(g);
    var r := DateFormat(f);
    var y, z := Decimal(f.year), Decimal(g.year);
    var n := |y|;
    assert |z| == n;
    assert (DatePrefix(f) + y)[..12] == DatePrefix(f);
    assert (DatePrefix(g) + z)[..12] == DatePrefix(g);
    assert r[..12 + n] == DatePrefix(f) + y == DatePrefix(g) + z;
    assert y == (DatePrefix(f) + y)[12..] == (DatePrefix(g) + z)[12..] == z;
    assert TimeSuffix(f) == r[12 + n..] == TimeSuffix(g);
    DecimalInjective(f.year, g.year);
    DatePrefixInjective(f, g);
    TimeSuffixInjective(f, g);
  }
}
