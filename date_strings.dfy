/** The date strings the date lookup searches for, written out as `strftime` writes
    them in the C locale. */
module DateStrings {
  import opened Calendar

  predicate IsDigit(c: char) { '0' <= c <= '9' }

  predicate AllDigits(s: string) { forall i :: 0 <= i < |s| ==> IsDigit(s[i]) }

  function DigitChar(d: nat): (c: char)
    requires d < 10
    ensures IsDigit(c)
  {
    (48 + d) as char
  }

  function DigitValue(c: char): nat
    requires IsDigit(c)
  {
    c as int - 48
  }

  function Pow10(n: nat): nat {
    if n == 0 then 1 else 10 * Pow10(n - 1)
  }

  /** The decimal numeral of `n`, without leading zeros (Python's `str(n)`). */
  function Decimal(n: nat): (s: string)
    ensures |s| >= 1 && AllDigits(s)
  {
    if n < 10 then [DigitChar(n)] else Decimal(n / 10) + [DigitChar(n % 10)]
  }

  /** The number a string of digits denotes. */
  function ParseDecimal(s: string): nat
    requires AllDigits(s)
  {
    if s == [] then 0 else 10 * ParseDecimal(s[..|s| - 1]) + DigitValue(s[|s| - 1])
  }

  function Zeros(k: nat): (s: string)
    ensures |s| == k && AllDigits(s)
  {
    if k == 0 then [] else Zeros(k - 1) + ['0']
  }

  /** `n` zero-padded to at least `width` digits, as `%02d`-style directives write it. */
  function Padded(n: nat, width: nat): string {
    var s := Decimal(n);
    if |s| < width then Zeros(width - |s|) + s else s
  }

  lemma {:induction false} DecimalRoundTrip(n: nat)
    ensures ParseDecimal(Decimal(n)) == n
  {
    if n >= 10 {
      var s := Decimal(n);
      assert s[..|s| - 1] == Decimal(n / 10);
      DecimalRoundTrip(n / 10);
    }
  }

  lemma {:induction false} DecimalLength(n: nat, width: nat)
    requires 1 <= width && n < Pow10(width)
    ensures |Decimal(n)| <= width
  {
    if n >= 10 {
      DecimalLength(n / 10, width - 1);
    }
  }

  lemma {:induction false} LeadingZerosIgnored(k: nat, s: string)
    requires AllDigits(s)
    ensures AllDigits(Zeros(k) + s) && ParseDecimal(Zeros(k) + s) == ParseDecimal(s)
    decreases |s|
  {
    var z := Zeros(k);
    if s == [] {
      assert z + s == z;
      ZerosDenoteZero(k);
    } else {
      assert (z + s)[..|z + s| - 1] == z + s[..|s| - 1];
      LeadingZerosIgnored(k, s[..|s| - 1]);
    }
  }

  lemma {:induction false} ZerosDenoteZero(k: nat)
    ensures ParseDecimal(Zeros(k)) == 0
  {
    if k > 0 {
      assert Zeros(k)[..k - 1] == Zeros(k - 1);
      ZerosDenoteZero(k - 1);
    }
  }

  /** A padded numeral has exactly `width` digits when `n` fits, and reads back as `n`. */
  lemma PaddedRoundTrip(n: nat, width: nat)
    requires 1 <= width && n < Pow10(width)
    ensures |Padded(n, width)| == width
    ensures AllDigits(Padded(n, width)) && ParseDecimal(Padded(n, width)) == n
  {
    var s := Decimal(n);
    DecimalLength(n, width);
    DecimalRoundTrip(n);
    if |s| < width {
      var k := width - |s|;
      assert Padded(n, width) == Zeros(k) + s;
      LeadingZerosIgnored(k, s);
    } else {
      assert Padded(n, width) == s;
    }
  }

  const MONTH_NAMES: seq<string> := [
    "January", "February", "March", "April", "May", "June",
    "July", "August", "September", "October", "November", "December"]

  const MONTH_ABBREVIATIONS: seq<string> := [
    "Jan", "Feb", "Mar", "Apr", "May", "Jun",
    "Jul", "Aug", "Sep", "Oct", "Nov", "Dec"]

  function TwoDigits(n: nat): string { Padded(n, 2) }

  function FourDigits(n: nat): string { Padded(n, 4) }

  /** The `" %d, %Y"` tail shared by the two month-name formats. */
  function DayAndYear(d: CalendarDate): string {
    " " + TwoDigits(d.day) + ", " + FourDigits(d.year)
  }

  /** The six reformatted date strings, in the order they are searched:
      `%B %d, %Y`, `%b %d, %Y`, `%m/%d/%Y`, `%m/%d`, the day number, `%Y-%m-%d`. */
  function DateFormats(d: CalendarDate): (fs: seq<string>)
    ensures |fs| == 6
  {
    var mm, dd, yyyy := TwoDigits(d.month), TwoDigits(d.day), FourDigits(d.year);
    [ MONTH_NAMES[d.month - 1] + DayAndYear(d),
      MONTH_ABBREVIATIONS[d.month - 1] + DayAndYear(d),
      mm + "/" + dd + "/" + yyyy,
      mm + "/" + dd,
      Decimal(d.day),
      yyyy + "-" + mm + "-" + dd ]
  }

  /** The digits of `s` from `at`, `len` of them, denote `value`. */
  predicate FieldIs(s: string, at: nat, len: nat, value: nat) {
    at + len <= |s| && AllDigits(s[at..at + len]) && ParseDecimal(s[at..at + len]) == value
  }

  /** Where the three fields of `x` `s1` `y` `s2` `z` sit. */
  lemma ThreeFields(x: string, s1: char, y: string, s2: char, z: string)
    ensures var s := x + [s1] + y + [s2] + z;
      && |s| == |x| + |y| + |z| + 2
      && s[|x|] == s1 && s[|x| + 1 + |y|] == s2
      && s[..|x|] == x && s[|x| + 1..|x| + 1 + |y|] == y && s[|x| + |y| + 2..|s|] == z
  {
  }

  lemma PaddedFields(d: CalendarDate)
    ensures |TwoDigits(d.month)| == 2 && AllDigits(TwoDigits(d.month)) && ParseDecimal(TwoDigits(d.month)) == d.month
    ensures |TwoDigits(d.day)| == 2 && AllDigits(TwoDigits(d.day)) && ParseDecimal(TwoDigits(d.day)) == d.day
    ensures |FourDigits(d.year)| == 4 && AllDigits(FourDigits(d.year)) && ParseDecimal(FourDigits(d.year)) == d.year
  {
    assert Pow10(2) == 100 && Pow10(4) == 10000;
    PaddedRoundTrip(d.month, 2);
    PaddedRoundTrip(d.day, 2);
    PaddedRoundTrip(d.year, 4);
  }

  /** `%m/%d/%Y`: month, day and year, zero-padded to 2, 2 and 4 digits. */
  lemma SlashFormat(d: CalendarDate)
    ensures var f := DateFormats(d)[2];
      && |f| == 10 && f[2] == '/' && f[5] == '/'
      && FieldIs(f, 0, 2, d.month) && FieldIs(f, 3, 2, d.day) && FieldIs(f, 6, 4, d.year)
  {
    PaddedFields(d);
    var mm, dd, yyyy := TwoDigits(d.month), TwoDigits(d.day), FourDigits(d.year);
    assert DateFormats(d)[2] == mm + ['/'] + dd + ['/'] + yyyy;
    ThreeFields(mm, '/', dd, '/', yyyy);
  }

  /** `%Y-%m-%d`: year, month and day, zero-padded to 4, 2 and 2 digits. */
  lemma IsoFormat(d: CalendarDate)
    ensures var f := DateFormats(d)[5];
      && |f| == 10 && f[4] == '-' && f[7] == '-'
      && FieldIs(f, 0, 4, d.year) && FieldIs(f, 5, 2, d.month) && FieldIs(f, 8, 2, d.day)
  {
    PaddedFields(d);
    var mm, dd, yyyy := TwoDigits(d.month), TwoDigits(d.day), FourDigits(d.year);
    assert DateFormats(d)[5] == yyyy + ['-'] + mm + ['-'] + dd;
    ThreeFields(yyyy, '-', mm, '-', dd);
  }

  /** The numeric strategies search `MM/DD/YYYY`, then `MM/DD`, then the unpadded day,
      then `YYYY-MM-DD`: every padded field has its full width and reads back as the
      date's own component. */
  lemma NumericFormats(d: CalendarDate)
    ensures var fs := DateFormats(d);
      && |fs[2]| == 10 && fs[2][2] == '/' && fs[2][5] == '/'
      && FieldIs(fs[2], 0, 2, d.month) && FieldIs(fs[2], 3, 2, d.day) && FieldIs(fs[2], 6, 4, d.year)
      && fs[3] == fs[2][..5]
      && AllDigits(fs[4]) && ParseDecimal(fs[4]) == d.day && |fs[4]| == (if d.day < 10 then 1 else 2)
      && |fs[5]| == 10 && fs[5][4] == '-' && fs[5][7] == '-'
      && FieldIs(fs[5], 0, 4, d.year) && FieldIs(fs[5], 5, 2, d.month) && FieldIs(fs[5], 8, 2, d.day)
  {
    SlashFormat(d);
    IsoFormat(d);
    PaddedFields(d);
    var mm, dd, yyyy := TwoDigits(d.month), TwoDigits(d.day), FourDigits(d.year);
    assert (mm + "/" + dd + "/" + yyyy)[..5] == mm + "/" + dd;
    DecimalRoundTrip(d.day);
    if d.day >= 10 {
      assert Pow10(2) == 100;
      DecimalLength(d.day, 2);
    }
  }

  lemma AbbreviationsArePrefixes(i: nat)
    requires i < 12
    ensures |MONTH_NAMES[i]| >= 3 && MONTH_ABBREVIATIONS[i] == MONTH_NAMES[i][..3]
  {
    if i < 6 {
      assert MONTH_NAMES[0][..3] == "Jan" && MONTH_NAMES[1][..3] == "Feb" && MONTH_NAMES[2][..3] == "Mar";
      assert MONTH_NAMES[3][..3] == "Apr" && MONTH_NAMES[4][..3] == "May" && MONTH_NAMES[5][..3] == "Jun";
    } else {
      assert MONTH_NAMES[6][..3] == "Jul" && MONTH_NAMES[7][..3] == "Aug" && MONTH_NAMES[8][..3] == "Sep";
      assert MONTH_NAMES[9][..3] == "Oct" && MONTH_NAMES[10][..3] == "Nov" && MONTH_NAMES[11][..3] == "Dec";
    }
  }

  /** Replacing a word that starts a string by the word's first three letters. */
  lemma ShortenedWord(word: string, short: string, rest: string)
    requires |word| >= 3 && short == word[..3]
    ensures (word + rest)[..|word|] == word && short + rest == word[..3] + (word + rest)[|word|..]
  {
    assert (word + rest)[|word|..] == rest;
  }

  /** The two month-name strategies differ only in the month: the abbreviated form is
      the full form with the month name cut to its first three letters. */
  lemma MonthNameFormats(d: CalendarDate)
    ensures var fs, name := DateFormats(d), MONTH_NAMES[d.month - 1];
      && |name| >= 3 && |fs[0]| >= |name|
      && fs[0][..|name|] == name
      && fs[1] == name[..3] + fs[0][|name|..]
  {
    var name := MONTH_NAMES[d.month - 1];
    AbbreviationsArePrefixes(d.month - 1);
    ShortenedWord(name, MONTH_ABBREVIATIONS[d.month - 1], DayAndYear(d));
  }
}
