/** Local slot times: reading and printing them, resolving them in a zone, and when two slots overlap. */
module Slots {
  import opened Basics
  import opened Decimal

  datatype LocalDateTime = LocalDateTime(year: int, month: nat, day: nat, hours: nat, minutes: nat)

  datatype Resolution = Resolved(utc: int) | Malformed | Nonexistent

  // The calendar.

  predicate IsLeapYear(year: int) {
    year % 4 == 0 && (year % 100 != 0 || year % 400 == 0)
  }

  function MonthLength(year: int, month: nat): nat
    requires 1 <= month <= 12
  {
    if month == 2 then if IsLeapYear(year) then 29 else 28
    else if month in {4, 6, 9, 11} then 30
    else 31
  }

  /** Date.UTC takes a year below 100 for one of the twentieth century. */
  function DaysInMonth(year: nat, month: nat): nat
    requires 1 <= month <= 12
  {
    MonthLength(if year < 100 then 1900 + year else year, month)
  }

  /** A Gregorian date and a time of day that can be written with a year of four digits. */
  predicate OnCalendar(v: LocalDateTime) {
    && 0 <= v.year <= 9999
    && 1 <= v.month <= 12
    && 1 <= v.day <= MonthLength(v.year, v.month)
    && v.hours <= 23 && v.minutes <= 59
  }

  // Reading.

  /** ^(\\d{4})-(\\d{2})-(\\d{2})T(\\d{2}):(\\d{2})$ */
  predicate Matches(s: string) {
    && |s| == 16
    && s[4] == '-' && s[7] == '-' && s[10] == 'T' && s[13] == ':'
    && AllDigits(s[0..4]) && AllDigits(s[5..7]) && AllDigits(s[8..10]) && AllDigits(s[11..13]) && AllDigits(s[14..16])
  }

  function ParseLocalDateTime(s: string): Option<LocalDateTime> {
    if !Matches(s) then None
    else
      var v := LocalDateTime(Read(s[0..4]), Read(s[5..7]), Read(s[8..10]), Read(s[11..13]), Read(s[14..16]));
      if !(1 <= v.month <= 12) || !(1 <= v.day <= DaysInMonth(v.year, v.month)) || v.hours > 23 || v.minutes > 59 then None
      else Some(v)
  }

  // Printing.

  function PrintInt(n: int): string {
    if n < 0 then "-" + Print(-n) else Print(n)
  }

  function PadStart(s: string, length: nat): (r: string)
    ensures |r| == if |s| < length then length else |s|
    decreases length - |s|
  {
    if |s| >= length then s else PadStart("0" + s, length)
  }

  function FormatLocalDateTime(v: LocalDateTime): string {
    PadStart(PrintInt(v.year), 4) + "-" + PadStart(Print(v.month), 2) + "-" + PadStart(Print(v.day), 2)
    + "T" + PadStart(Print(v.hours), 2) + ":" + PadStart(Print(v.minutes), 2)
  }

  // Padded numbers.

  lemma {:induction false} ReadPadded(s: string, length: nat)
    requires AllDigits(s)
    ensures AllDigits(PadStart(s, length)) && Read(PadStart(s, length)) == Read(s)
    decreases length - |s|
  {
    if |s| < length {
      ReadLeadingZero(s);
      ReadPadded("0" + s, length);
    }
  }

  lemma {:induction false} ReadLeadingZero(s: string)
    requires forall i :: 0 <= i < |s| ==> IsDigit(s[i])
    ensures AllDigits("0" + s) && Read("0" + s) == Read(s)
    decreases |s|
  {
    if s == "" {
      assert "0" + s == "0" && "0"[..0] == "";
    } else {
      ReadLeadingZero(s[..|s| - 1]);
      assert ("0" + s)[..|s|] == "0" + s[..|s| - 1];
    }
  }

  lemma {:induction false} ReadBelow(s: string, k: nat)
    requires |s| == k && forall i :: 0 <= i < |s| ==> IsDigit(s[i])
    ensures Read(s) < Pow10(k)
    decreases k
  {
    if k > 0 {
      ReadBelow(s[..k - 1], k - 1);
    }
  }

  /** A text of k digits is its number padded to k. */
  lemma {:induction false} PadRead(s: string, k: nat)
    requires |s| == k && AllDigits(s)
    ensures PadStart(Print(Read(s)), k) == s
    decreases k
  {
    if |s| == 1 {
      assert s[..0] == "";
      assert Print(Read(s)) == s;
    } else if s[0] == '0' {
      var r := s[1..];
      assert s == "0" + r;
      PadRead(r, k - 1);
      ReadLeadingZero(r);
      PadMore(Print(Read(r)), k - 1);
    } else {
      PrintReadExact(s);
    }
  }

  lemma {:induction false} PadMore(s: string, k: nat)
    requires 0 < |s| <= k
    ensures PadStart(s, k + 1) == "0" + PadStart(s, k)
    decreases k - |s|
  {
    if |s| < k {
      PadMore("0" + s, k);
    }
  }

  lemma {:induction false} PrintReadExact(s: string)
    requires AllDigits(s) && s[0] != '0'
    ensures Print(Read(s)) == s && Read(s) > 0
    decreases |s|
  {
    if |s| == 1 {
      assert s[..0] == "";
    } else {
      var p := s[..|s| - 1];
      PrintReadExact(p);
      assert Read(s) / 10 == Read(p) && Read(s) % 10 == ValueOf(s[|s| - 1]);
    }
  }

  /** Every text of k digits is printed by exactly one number: below 10^k padding and reading are inverse. */
  lemma PadPrint(n: nat, k: nat)
    requires n < Pow10(k) && k > 0
    ensures |PadStart(Print(n), k)| == k && AllDigits(PadStart(Print(n), k)) && Read(PadStart(Print(n), k)) == n
  {
    PrintLength(n, k);
    ReadPrint(n);
    ReadPadded(Print(n), k);
  }

  // Parsing and printing are inverse.

  /** The one date of the calendar that the century rule of Date.UTC loses: year 0 is taken for 1900. */
  predicate Lost(v: LocalDateTime) {
    v.year == 0 && v.month == 2 && v.day == 29
  }

  /** The number of a day in the Gregorian calendar, counted from 1 March of year 0; years begin in March, so leap days end them. */
  function DayNumber(year: int, month: nat, day: nat): int
    requires 1 <= month <= 12
  {
    var y, m := if month <= 2 then year - 1 else year, if month <= 2 then month + 9 else month - 3;
    365 * y + y / 4 - y / 100 + y / 400 + (153 * m + 2) / 5 + day - 1
  }

  /** The lengths of the months are those by which the first days of following months are apart, in every year. */
  lemma MonthsAddUp(year: int, month: nat)
    requires 1 <= month <= 12
    ensures DayNumber(if month == 12 then year + 1 else year, month % 12 + 1, 1) - DayNumber(year, month, 1) == MonthLength(year, month)
  {
    if month == 2 {
      LeapDays(year);
    }
  }

  /** A leap year has one day more between the first of March before it and its own. */
  lemma LeapDays(year: int)
    ensures (year / 4 - year / 100 + year / 400) - ((year - 1) / 4 - (year - 1) / 100 + (year - 1) / 400) == if IsLeapYear(year) then 1 else 0
  {
    FourthYears(year);
    Centuries(year);
    FourthCenturies(year);
    assert year % 400 == 0 ==> year % 100 == 0;
    assert year % 100 == 0 ==> year % 4 == 0;
  }

  lemma FourthYears(year: int)
    ensures year / 4 - (year - 1) / 4 == if year % 4 == 0 then 1 else 0
  {
  }

  lemma Centuries(year: int)
    ensures year / 100 - (year - 1) / 100 == if year % 100 == 0 then 1 else 0
  {
  }

  lemma FourthCenturies(year: int)
    ensures year / 400 - (year - 1) / 400 == if year % 400 == 0 then 1 else 0
  {
  }

  lemma CenturyRule(year: nat, month: nat)
    requires 1 <= month <= 12
    ensures DaysInMonth(year, month) == if year == 0 && month == 2 then 28 else MonthLength(year, month)
  {
    if 0 < year < 100 {
      assert IsLeapYear(1900 + year) <==> IsLeapYear(year);
    }
  }

  function Parts(y: string, m: string, d: string, h: string, n: string): string {
    y + "-" + m + "-" + d + "T" + h + ":" + n
  }

  lemma PartsAt(y: string, m: string, d: string, h: string, n: string)
    requires |y| == 4 && |m| == |d| == |h| == |n| == 2
    ensures var s := Parts(y, m, d, h, n);
            && |s| == 16 && s[4] == '-' && s[7] == '-' && s[10] == 'T' && s[13] == ':'
            && s[0..4] == y && s[5..7] == m && s[8..10] == d && s[11..13] == h && s[14..16] == n
  {
  }

  lemma PartsOf(s: string)
    requires Matches(s)
    ensures Parts(s[0..4], s[5..7], s[8..10], s[11..13], s[14..16]) == s
  {
  }

  lemma {:induction false} PadKeepsEnd(s: string, length: nat)
    ensures |PadStart(s, length)| >= |s| && PadStart(s, length)[|PadStart(s, length)| - |s|..] == s
    decreases length - |s|
  {
    if |s| < length {
      PadKeepsEnd("0" + s, length);
      var r := PadStart("0" + s, length);
      assert r[|r| - |s|..] == r[|r| - |s| - 1..][1..] == s;
    }
  }

  /** A padded integer that is all digits is not negative, and is read back from them. */
  lemma PaddedIntDigits(n: int, length: nat)
    requires AllDigits(PadStart(PrintInt(n), length))
    ensures n >= 0 && Read(PadStart(Print(n), length)) == n
  {
    var r := PadStart(PrintInt(n), length);
    PadKeepsEnd(PrintInt(n), length);
    var k := |r| - |PrintInt(n)|;
    assert r[k..][0] == PrintInt(n)[0] && IsDigit(r[k]);
    ReadPrint(n);
    ReadPadded(Print(n), length);
  }

  lemma PrintedParts(v: LocalDateTime)
    requires OnCalendar(v)
    ensures Matches(FormatLocalDateTime(v))
  {
    assert Pow10(4) == 10000 && Pow10(2) == 100;
    PadPrint(v.year, 4);
    PadPrint(v.month, 2);
    PadPrint(v.day, 2);
    PadPrint(v.hours, 2);
    PadPrint(v.minutes, 2);
    hide Print, Read, PadStart, MonthLength, Pow10;
    PartsAt(PadStart(PrintInt(v.year), 4), PadStart(Print(v.month), 2), PadStart(Print(v.day), 2),
            PadStart(Print(v.hours), 2), PadStart(Print(v.minutes), 2));
  }

  /** A print of the right shape is read back field by field. */
  lemma SamePrint(x: LocalDateTime, s: string)
    requires Matches(s) && FormatLocalDateTime(x) == s
    ensures x == LocalDateTime(Read(s[0..4]), Read(s[5..7]), Read(s[8..10]), Read(s[11..13]), Read(s[14..16]))
  {
    var y, m, d, h, n := PadStart(PrintInt(x.year), 4), PadStart(Print(x.month), 2), PadStart(Print(x.day), 2),
                         PadStart(Print(x.hours), 2), PadStart(Print(x.minutes), 2);
    assert s == Parts(y, m, d, h, n);
    assert |y| == 4 && |m| == |d| == |h| == |n| == 2;
    PartsAt(y, m, d, h, n);
    hide Print, Read, PadStart, Parts;
    PaddedIntDigits(x.year, 4);
    PaddedNat(x.month);
    PaddedNat(x.day);
    PaddedNat(x.hours);
    PaddedNat(x.minutes);
  }

  lemma PaddedNat(n: nat)
    ensures AllDigits(PadStart(Print(n), 2)) && Read(PadStart(Print(n), 2)) == n
  {
    ReadPrint(n);
    ReadPadded(Print(n), 2);
  }

  /** Printing a date on the calendar and reading it gives it back, but for one lost day. */
  lemma ParseFormat(v: LocalDateTime)
    requires OnCalendar(v)
    ensures ParseLocalDateTime(FormatLocalDateTime(v)) == if Lost(v) then None else Some(v)
  {
    CenturyRule(v.year, v.month);
    PrintedParts(v);
    SamePrint(v, FormatLocalDateTime(v));
    hide FormatLocalDateTime, Matches, MonthLength, DaysInMonth;
  }

  /** Whatever is accepted is on the calendar and is the print of what it was read as. */
  lemma FormatParse(s: string)
    requires ParseLocalDateTime(s).Some?
    ensures var v := ParseLocalDateTime(s).value; OnCalendar(v) && !Lost(v) && FormatLocalDateTime(v) == s
  {
    var v := ParseLocalDateTime(s).value;
    CenturyRule(v.year, v.month);
    assert Pow10(4) == 10000;
    ReadBelow(s[0..4], 4);
    PadRead(s[0..4], 4);
    PadRead(s[5..7], 2);
    PadRead(s[8..10], 2);
    PadRead(s[11..13], 2);
    PadRead(s[14..16], 2);
    PartsOf(s);
    hide Print, Read, PadStart, MonthLength, Pow10;
  }

  /** The accepted texts are exactly the prints of the dates on the calendar, with the one exception. */
  lemma AcceptedIff(s: string)
    ensures ParseLocalDateTime(s).Some? <==> exists v :: OnCalendar(v) && !Lost(v) && FormatLocalDateTime(v) == s
  {
    if ParseLocalDateTime(s).Some? {
      FormatParse(s);
    }
    if v :| OnCalendar(v) && !Lost(v) && FormatLocalDateTime(v) == s {
      ParseFormat(v);
    }
  }

  // Resolving in a zone.

  /** toInstant and toLocal are the two conversions of the zone, whatever its rules are. */
  function ResolveLocalTimeToUtc(s: string, toInstant: LocalDateTime -> int, toLocal: int -> LocalDateTime): Resolution {
    match ParseLocalDateTime(s)
    case None => Malformed
    case Some(v) =>
      var instant := toInstant(v);
      if FormatLocalDateTime(toLocal(instant)) != FormatLocalDateTime(v) then Nonexistent else Resolved(instant)
  }

  /** No other date prints like one that was read, even off the calendar. */
  lemma FormatTellsApart(x: LocalDateTime, v: LocalDateTime)
    requires OnCalendar(v) && FormatLocalDateTime(x) == FormatLocalDateTime(v)
    ensures x == v
  {
    PrintedParts(v);
    SamePrint(x, FormatLocalDateTime(v));
    SamePrint(v, FormatLocalDateTime(v));
  }

  /**
   A resolution is right, in any zone: the text resolves to an instant exactly when it was accepted, the zone maps it
   to that instant, and the zone shows that very local time there. Times that a zone skips are found this way.
   */
  lemma ResolvedIff(s: string, toInstant: LocalDateTime -> int, toLocal: int -> LocalDateTime, utc: int)
    ensures ResolveLocalTimeToUtc(s, toInstant, toLocal) == Resolved(utc) <==>
            ParseLocalDateTime(s).Some?
            && utc == toInstant(ParseLocalDateTime(s).value) && toLocal(utc) == ParseLocalDateTime(s).value
  {
    if ParseLocalDateTime(s).Some? {
      FormatParse(s);
      var v := ParseLocalDateTime(s).value;
      if FormatLocalDateTime(toLocal(toInstant(v))) == FormatLocalDateTime(v) {
        FormatTellsApart(toLocal(toInstant(v)), v);
      }
    }
    hide FormatLocalDateTime, ParseLocalDateTime;
  }

  // Slots.

  const MS_PER_MINUTE := 60 * 1000

  function SlotEndsAt(startsAt: int, durationMinutes: int): int {
    startsAt + durationMinutes * MS_PER_MINUTE
  }

  predicate SlotsOverlap(firstStart: int, firstDuration: int, secondStart: int, secondDuration: int) {
    firstStart < SlotEndsAt(secondStart, secondDuration) && secondStart < SlotEndsAt(firstStart, firstDuration)
  }

  ghost predicate Within(t: int, startsAt: int, durationMinutes: int) {
    startsAt <= t < SlotEndsAt(startsAt, durationMinutes)
  }

  /** The half-open intervals share an instant exactly when the slots overlap and neither is empty. */
  lemma ShareIff(firstStart: int, firstDuration: int, secondStart: int, secondDuration: int)
    ensures (exists t :: Within(t, firstStart, firstDuration) && Within(t, secondStart, secondDuration))
            <==> SlotsOverlap(firstStart, firstDuration, secondStart, secondDuration) && firstDuration > 0 && secondDuration > 0
  {
    if SlotsOverlap(firstStart, firstDuration, secondStart, secondDuration) && firstDuration > 0 && secondDuration > 0 {
      var t := if firstStart < secondStart then secondStart else firstStart;
      assert Within(t, firstStart, firstDuration) && Within(t, secondStart, secondDuration);
    }
  }
}
