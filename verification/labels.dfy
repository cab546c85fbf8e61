/** The strings `plot_histogram` puts into the title: the mode label and the
    end date with its time of day cut off. */
module Labels {

  /** `"fasting"` for mode code 2, `"after eating"` for every other code. */
  function ModeLabel(mode: int): (name: string)
    ensures name == "fasting" <==> mode == 2
    ensures name == "fasting" || name == "after eating"
  {
    if mode == 2 then "fasting" else "after eating"
  }

  /** Python's `s[:-6]`: all but the last six characters, empty when `s` is shorter. */
  function TrimTime(s: string): (r: string)
    ensures |r| == if |s| >= 6 then |s| - 6 else 0
    ensures r <= s
  {
    if |s| >= 6 then s[..|s| - 6] else ""
  }

  /** A date and time as the date editor holds it. */
  datatype DateTime = DateTime(day: int, month: int, year: int, hour: int, minute: int)

  predicate Valid(d: DateTime) {
    1 <= d.day <= 31 && 1 <= d.month <= 12 && 0 <= d.year <= 9999
    && 0 <= d.hour < 24 && 0 <= d.minute < 60
  }

  function Digit(n: int): char
    requires 0 <= n < 10
  {
    ('0' as int + n) as char
  }

  /** Two decimal digits with a leading zero. */
  function Pad2(n: int): (r: string)
    requires 0 <= n < 100
    ensures |r| == 2
  {
    [Digit(n / 10), Digit(n % 10)]
  }

  /** Four decimal digits with leading zeros. */
  function Pad4(n: int): (r: string)
    requires 0 <= n < 10000
    ensures |r| == 4
  {
    Pad2(n / 100) + Pad2(n % 100)
  }

  /** The date in the `dd.MM.yyyy` layout. */
  function FormatDate(d: DateTime): (r: string)
    requires Valid(d)
    ensures |r| == 10
  {
    Pad2(d.day) + "." + Pad2(d.month) + "." + Pad4(d.year)
  }

  /** The date and time in the editor's display format `dd.MM.yyyy hh:mm`. */
  function FormatDateTime(d: DateTime): (r: string)
    requires Valid(d)
    ensures |r| == 16
  {
    FormatDate(d) + " " + Pad2(d.hour) + ":" + Pad2(d.minute)
  }

  /** Cutting six characters from a displayed date-time leaves exactly its date. */
  lemma TrimTimeKeepsDate(d: DateTime)
    requires Valid(d)
    ensures TrimTime(FormatDateTime(d)) == FormatDate(d)
  {
    var s := FormatDateTime(d);
    assert s == FormatDate(d) + (" " + Pad2(d.hour) + ":" + Pad2(d.minute));
  }

  /** The figure title. */
  function Title(mode: int, startDate: string, endDate: string): string {
    "Blood sugar -  " + ModeLabel(mode) + ", period " + startDate + " - " + TrimTime(endDate)
  }

  /** For an end date in the display format the title names the mode and the
      two calendar dates, without a time of day. */
  lemma TitleShowsDates(mode: int, startDate: string, d: DateTime)
    requires Valid(d)
    ensures Title(mode, startDate, FormatDateTime(d))
         == "Blood sugar -  " + ModeLabel(mode) + ", period " + startDate + " - " + FormatDate(d)
  {
    TrimTimeKeepsDate(d);
  }
}
