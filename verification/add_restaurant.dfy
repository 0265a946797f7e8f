/** The add-restaurant screen: converting the form into the payloads it
    posts, the accordion of form sections, the schedule checkboxes, and the
    submission that posts restaurant, schedule, blocked days, table
    booking, order configuration and attachments one after another. */
module AddRestaurant {
  import opened Text
  import opened Util
  import opened JsValue

  // ---------------------------------------------------------------------
  // parseInt and toNum
  // ---------------------------------------------------------------------

  /** The longest prefix of s made of ASCII digits. */
  function LeadingDigits(s: string): (r: string)
    ensures AllDigits(r) && |r| <= |s| && r == s[..|r|]
    ensures |r| < |s| ==> !IsDigit(s[|r|])
    ensures AllDigits(s) ==> r == s
  {
    if s == [] || !IsDigit(s[0]) then [] else [s[0]] + LeadingDigits(s[1..])
  }

  /** `parseInt(v, 10)`: leading white space, an optional sign, then the
      longest run of digits; `None` stands for `NaN`. */
  function ParseInt(v: string): Option<int> {
    var s := TrimStart(v);
    var neg := s != [] && s[0] == '-';
    var d := LeadingDigits(SignlessBody(s));
    var n: int := DigitsValue(d);
    if d == [] then None else Some(if neg then -n else n)
  }

  /** A plain run of digits parses to its decimal value. */
  lemma ParseIntDigits(v: string)
    requires AllDigits(v) && v != []
    ensures ParseInt(v) == Some(DigitsValue(v))
  {
    assert !IsSpace(v[0]) by { assert IsDigit(v[0]); }
    assert TrimStart(v) == v;
    assert SignlessBody(v) == v;
  }

  /** s without one leading '+' or '-'. */
  function SignlessBody(s: string): string {
    if s != [] && (s[0] == '-' || s[0] == '+') then s[1..] else s
  }

  /** `toNum(v, def)`: the parsed integer when it is finite, else def. */
  function ToNum(v: string, def: int): int {
    match ParseInt(v)
    case Some(p) => p
    case None => def
  }

  // ---------------------------------------------------------------------
  // toTime
  // ---------------------------------------------------------------------

  /** "hh:mm:00" for a count of minutes; hours are not reduced modulo 24. */
  function MinutesToTime(total: nat): string {
    ClockText(total / 60, total % 60)
  }

  /** "hh:mm:00" with both fields zero-padded to two digits. */
  function ClockText(hours: nat, minutes: nat): string {
    PadStart(NatToString(hours), 2, '0') + ":" + PadStart(NatToString(minutes), 2, '0') + ":00"
  }

  /** `/^\d{1,2}:\d{2}$/` */
  predicate IsHourMinute(t: string) {
    (|t| == 4 || |t| == 5) && t[|t| - 3] == ':'
    && AllDigits(t[..|t| - 3]) && AllDigits(t[|t| - 2..])
  }

  /** `/^\d{1,2}:\d{2}:\d{2}$/` */
  predicate IsHourMinuteSecond(t: string) {
    (|t| == 7 || |t| == 8) && t[|t| - 6] == ':' && t[|t| - 3] == ':'
    && AllDigits(t[..|t| - 6]) && AllDigits(t[|t| - 5..|t| - 3]) && AllDigits(t[|t| - 2..])
  }

  /** `parseInt(m, 10) > 59` */
  predicate Exceeds59(m: string) {
    var p := ParseInt(m);
    p.Some? && p.value > 59
  }

  /** The compact "HHMM" conversion (`1305` to `13:05:00`): the last two
      characters are the minutes, the rest the hours. */
  function CompactTime(t: string): Option<string> {
    var k := if |t| >= 2 then |t| - 2 else 0;
    if Exceeds59(t[k..]) then None else Some(PadStart(t[..k], 2, '0') + ":" + t[k..] + ":00")
  }

  /** The "H:MM" / "HH:MM" branch. */
  function HourMinuteTime(t: string): Option<string>
    requires IsHourMinute(t)
  {
    var h, m := t[..|t| - 3], t[|t| - 2..];
    if Exceeds59(m) then None else Some(PadStart(h, 2, '0') + ":" + m + ":00")
  }

  /** The "H:MM:SS" / "HH:MM:SS" branch. */
  function HourMinuteSecondTime(t: string): Option<string>
    requires IsHourMinuteSecond(t)
  {
    var h, m, s := t[..|t| - 6], t[|t| - 5..|t| - 3], t[|t| - 2..];
    if Exceeds59(m) || Exceeds59(s) then None
    else Some(PadStart(h, 2, '0') + ":" + m + ":" + s)
  }

  /** The "only digits" branch: a count of minutes. */
  function MinutesTime(t: string): Option<string> {
    match ParseInt(t)
    case None => None
    case Some(total) => if total < 0 then None else Some(MinutesToTime(total))
  }

  /** The conversion of an already trimmed, non-empty input. */
  function TimeOfTrimmed(t: string): Option<string> {
    if t != [] && AllDigits(t) then MinutesTime(t)
    else if 3 <= |t| <= 4 && AllDigits(t) then CompactTime(t)
    else if IsHourMinute(t) then HourMinuteTime(t)
    else if IsHourMinuteSecond(t) then HourMinuteSecondTime(t)
    else None
  }

  /** `toTime(raw)`: the cancellation cut-off typed by the user, as
      "HH:MM:SS" or null. */
  function ToTime(raw: string): (r: Option<string>)
    ensures raw == [] ==> r.None?
    ensures IsBlank(raw) ==> r.None?
  {
    if raw == [] then None else TimeOfTrimmed(Trim(raw))
  }

  /** What `MinutesToTime` prints: an hour field of at least two digits
      holding total div 60, a two-digit minute field holding total mod 60,
      and zero seconds. */
  lemma MinutesToTimeMeaning(total: nat)
    ensures var s := MinutesToTime(total);
            var hh := PadStart(NatToString(total / 60), 2, '0');
            var mm := PadStart(NatToString(total % 60), 2, '0');
            && s == hh + ":" + mm + ":00"
            && |hh| >= 2 && AllDigits(hh) && DigitsValue(hh) == total / 60
            && |mm| == 2 && AllDigits(mm) && DigitsValue(mm) == total % 60
  {
    NatToStringRoundTrip(total / 60);
    NatToStringRoundTrip(total % 60);
    PadTwoValue(NatToString(total / 60));
    PadTwoValue(NatToString(total % 60));
    assert |NatToString(total % 60)| <= 2 by {
      if total % 60 >= 10 {
        assert NatToString(total % 60) == NatToString(total % 60 / 10) + [DigitChar(total % 60 % 10)];
      }
    }
  }

  /** A plain digit string is read as a number of minutes. This includes
      every three- or four-digit string, so the compact "HHMM" branch after
      it never decides anything. */
  lemma ToTimeDigits(raw: string)
    requires Trim(raw) != [] && AllDigits(Trim(raw))
    ensures ToTime(raw) == Some(MinutesToTime(DigitsValue(Trim(raw))))
  {
    ParseIntDigits(Trim(raw));
  }

  /** "1305" becomes 21:45:00 (1305 minutes), not the 13:05:00 that the
      compact branch would have produced. */
  lemma CompactExample()
    ensures ToTime("1305") == Some("21:45:00")
    ensures CompactTime("1305") == Some("13:05:00")
  {
    CompactExampleAsMinutes();
    CompactExampleAsClock();
  }

  lemma CompactExampleAsMinutes()
    ensures ToTime("1305") == Some("21:45:00")
  {
    var s := "1305";
    assert Trim(s) == s by {
      forall i | 0 <= i < |s| ensures !IsSpace(s[i]) { }
      TrimNoSpace(s);
    }
    assert DigitsValue(s) == 1305 by {
      assert s[..3] == "130";
      assert "130"[..2] == "13";
      assert "13"[..1] == "1";
    }
    ToTimeDigits(s);
    MinutesExample();
  }

  lemma MinutesExample()
    ensures MinutesToTime(1305) == "21:45:00"
  {
    assert 1305 / 60 == 21 && 1305 % 60 == 45;
    assert ClockText(21, 45) == "21:45:00" by {
      assert NatToString(21) == "21" by { assert NatToString(2) == "2"; }
      assert NatToString(45) == "45" by { assert NatToString(4) == "4"; }
      assert "21" + ":" + "45" + ":00" == "21:45:00";
    }
  }

  lemma CompactExampleAsClock()
    ensures CompactTime("1305") == Some("13:05:00")
  {
    var s := "1305";
    assert s[..2] == "13" && s[2..] == "05";
    MinutesWithinRange("05", 5);
    assert PadStart("13", 2, '0') == "13";
    assert "13" + ":" + "05" + ":00" == "13:05:00";
  }

  /** A two-digit minute field of value n <= 59 passes the range check. */
  lemma MinutesWithinRange(m: string, n: nat)
    requires |m| == 2 && AllDigits(m) && DigitsValue(m) == n && n <= 59
    ensures !Exceeds59(m)
  {
    ParseIntDigits(m);
  }

  /** "H:MM" and "HH:MM" are accepted exactly when the minutes are at most
      59; the hour is zero-padded to two digits and ":00" appended. */
  lemma ToTimeHourMinute(raw: string)
    requires IsHourMinute(Trim(raw))
    ensures var t := Trim(raw);
            var h, m := t[..|t| - 3], t[|t| - 2..];
            && (ToTime(raw).Some? <==> DigitsValue(m) <= 59)
            && (ToTime(raw).Some? ==> ToTime(raw).value == PadStart(h, 2, '0') + ":" + m + ":00")
  {
    var t := Trim(raw);
    assert !AllDigits(t) by { assert !IsDigit(t[|t| - 3]); }
    assert ToTime(raw) == HourMinuteTime(t);
    ParseIntDigits(t[|t| - 2..]);
  }

  /** "H:MM:SS" and "HH:MM:SS" are accepted exactly when minutes and
      seconds are both at most 59. */
  lemma ToTimeHourMinuteSecond(raw: string)
    requires IsHourMinuteSecond(Trim(raw))
    ensures var t := Trim(raw);
            var h, m, s := t[..|t| - 6], t[|t| - 5..|t| - 3], t[|t| - 2..];
            && (ToTime(raw).Some? <==> DigitsValue(m) <= 59 && DigitsValue(s) <= 59)
            && (ToTime(raw).Some? ==> ToTime(raw).value == PadStart(h, 2, '0') + ":" + m + ":" + s)
  {
    var t := Trim(raw);
    assert !AllDigits(t) by { assert !IsDigit(t[|t| - 3]); }
    assert !IsHourMinute(t);
    assert ToTime(raw) == HourMinuteSecondTime(t);
    var m, s := t[|t| - 5..|t| - 3], t[|t| - 2..];
    ParseIntDigits(m);
    ParseIntDigits(s);
    assert Exceeds59(m) <==> DigitsValue(m) > 59;
    assert Exceeds59(s) <==> DigitsValue(s) > 59;
  }

  /** Every other shape is rejected. */
  lemma ToTimeOtherShapes(raw: string)
    requires var t := Trim(raw);
             !(t != [] && AllDigits(t)) && !IsHourMinute(t) && !IsHourMinuteSecond(t)
    ensures ToTime(raw).None?
  {
  }

  /** The converter accepts its own output again unchanged as long as the
      hour field has two digits (fewer than 100 hours). */
  lemma ToTimeRereadsOwnOutput(total: nat)
    requires total / 60 < 100
    ensures ToTime(MinutesToTime(total)) == Some(MinutesToTime(total))
  {
    MinutesToTimeMeaning(total);
    var hh := PadStart(NatToString(total / 60), 2, '0');
    var mm := PadStart(NatToString(total % 60), 2, '0');
    assert |NatToString(total / 60)| <= 2 by {
      if total / 60 >= 10 {
        assert NatToString(total / 60) == NatToString(total / 60 / 10) + [DigitChar(total / 60 % 10)];
      }
    }
    ClockTextReread(hh, mm);
  }

  /** "hh:mm:00" with two-digit fields and valid minutes reads back as itself. */
  lemma ClockTextReread(hh: string, mm: string)
    requires |hh| == 2 && |mm| == 2 && AllDigits(hh) && AllDigits(mm) && DigitsValue(mm) <= 59
    ensures ToTime(hh + ":" + mm + ":00") == Some(hh + ":" + mm + ":00")
  {
    ClockTextBranch(hh, mm);
    ClockTextFieldsAccepted(hh, mm, hh + ":" + mm + ":00");
  }

  /** The "H:MM:SS" branch gives "hh:mm:00" back unchanged. */
  lemma ClockTextFieldsAccepted(hh: string, mm: string, s: string)
    requires |hh| == 2 && |mm| == 2 && AllDigits(hh) && AllDigits(mm) && DigitsValue(mm) <= 59
    requires s == hh + ":" + mm + ":00"
    ensures IsHourMinuteSecond(s) && HourMinuteSecondTime(s) == Some(s)
  {
    ClockTextShape(hh, mm);
    MinutesWithinRange(mm, DigitsValue(mm));
    assert DigitsValue("00") == 0 by { assert "00"[..1] == "0"; }
    MinutesWithinRange("00", 0);
    assert PadStart(hh, 2, '0') == hh;
    assert hh + ":" + mm + ":" + "00" == s;
  }

  /** "hh:mm:00" is read by the "H:MM:SS" branch. */
  lemma ClockTextBranch(hh: string, mm: string)
    requires |hh| == 2 && |mm| == 2 && AllDigits(hh) && AllDigits(mm)
    ensures IsHourMinuteSecond(hh + ":" + mm + ":00")
    ensures ToTime(hh + ":" + mm + ":00") == HourMinuteSecondTime(hh + ":" + mm + ":00")
  {
    var s := hh + ":" + mm + ":00";
    assert Trim(s) == s by {
      ClockTextNoSpace(hh, mm);
      TrimNoSpace(s);
    }
    assert s[2] == ':';
    ClockTextShape(hh, mm);
  }

  lemma ClockTextShape(hh: string, mm: string)
    requires |hh| == 2 && |mm| == 2 && AllDigits(hh) && AllDigits(mm)
    ensures var s := hh + ":" + mm + ":00";
            IsHourMinuteSecond(s) && s[..2] == hh && s[3..5] == mm && s[6..] == "00"
  {
    ClockTextFields(hh, mm);
  }

  lemma ClockTextNoSpace(hh: string, mm: string)
    requires |hh| == 2 && |mm| == 2 && AllDigits(hh) && AllDigits(mm)
    ensures var s := hh + ":" + mm + ":00";
            forall i :: 0 <= i < |s| ==> !IsSpace(s[i])
  {
    var s := hh + ":" + mm + ":00";
    forall i | 0 <= i < |s| ensures !IsSpace(s[i]) {
      if i < 2 { assert s[i] == hh[i]; assert IsDigit(hh[i]); }
      else if 3 <= i < 5 { assert s[i] == mm[i - 3]; assert IsDigit(mm[i - 3]); }
    }
  }

  lemma ClockTextFields(hh: string, mm: string)
    requires |hh| == 2 && |mm| == 2
    ensures var s := hh + ":" + mm + ":00";
            s[..2] == hh && s[3..5] == mm && s[6..] == "00"
  {
  }

  /** From 100 hours on the output no longer matches any accepted shape:
      6000 minutes print as "100:00:00", which the converter rejects. */
  lemma ToTimeHundredHours()
    ensures MinutesToTime(6000) == "100:00:00"
    ensures ToTime("100:00:00").None?
  {
    assert NatToString(100) == "100" by {
      assert NatToString(10) == "10" by { assert NatToString(1) == "1"; }
    }
    assert NatToString(0) == "0";
    var s := "100:00:00";
    forall i | 0 <= i < |s| ensures !IsSpace(s[i]) { }
    TrimNoSpace(s);
    assert !AllDigits(s) by { assert !IsDigit(s[3]); }
  }

  // ---------------------------------------------------------------------
  // Table booking
  // ---------------------------------------------------------------------

  datatype TableBookingData = TableBookingData(
    numberOfTables: string, minimumPerson: string, maximumPerson: string,
    canCancelBefore: string, bookingNotAvailableText: string, noOfFloors: string)

  datatype TablePayload = TablePayload(
    restaurant: Value, noOfTables: int, minPeople: int, maxPeople: int,
    canCancelBefore: Option<string>, bookingNotAvailableText: string, noOfFloors: int)

  /** The table-booking payload: the people range defaults to 1..min and is
      never inverted, tables default to 0 and floors to 1. */
  function TableBookingPayload(restaurant: Value, tb: TableBookingData): TablePayload
  {
    var minP := ToNum(tb.minimumPerson, 1);
    var maxP := ToNum(tb.maximumPerson, minP);
    TablePayload(
      restaurant,
      ToNum(tb.numberOfTables, 0),
      minP,
      if maxP < minP then minP else maxP,
      ToTime(tb.canCancelBefore),
      tb.bookingNotAvailableText,
      ToNum(tb.noOfFloors, 1))
  }

  /** The people range defaults to 1..min and is never inverted; tables
      default to 0 and floors to 1; the cut-off goes through `toTime`. */
  lemma TableBookingPayloadMeaning(restaurant: Value, tb: TableBookingData)
    ensures var r := TableBookingPayload(restaurant, tb);
            && r.maxPeople >= r.minPeople
            && (ParseInt(tb.minimumPerson).None? ==> r.minPeople == 1)
            && (ParseInt(tb.minimumPerson).Some? ==> r.minPeople == ParseInt(tb.minimumPerson).value)
            && (ParseInt(tb.maximumPerson).None? ==> r.maxPeople == r.minPeople)
            && (ParseInt(tb.maximumPerson).Some? ==>
                  r.maxPeople == if ParseInt(tb.maximumPerson).value < r.minPeople then r.minPeople
                                 else ParseInt(tb.maximumPerson).value)
            && (ParseInt(tb.numberOfTables).None? ==> r.noOfTables == 0)
            && (ParseInt(tb.noOfFloors).None? ==> r.noOfFloors == 1)
            && r.canCancelBefore == ToTime(tb.canCancelBefore)
            && r.restaurant == restaurant
  {
  }

  // ---------------------------------------------------------------------
  // Schedule
  // ---------------------------------------------------------------------

  datatype Weekday = Monday | Tuesday | Wednesday | Thursday | Friday | Saturday | Sunday

  /** Position of a day in the checkbox object, Monday first. */
  function DayIndex(d: Weekday): nat {
    match d
    case Monday => 0
    case Tuesday => 1
    case Wednesday => 2
    case Thursday => 3
    case Friday => 4
    case Saturday => 5
    case Sunday => 6
  }

  function DayAt(i: nat): (d: Weekday)
    requires i < 7
    ensures DayIndex(d) == i
  {
    [Monday, Tuesday, Wednesday, Thursday, Friday, Saturday, Sunday][i]
  }

  /** `dayCodeMap` */
  function DayCode(d: Weekday): string {
    match d
    case Monday => "mon"
    case Tuesday => "tue"
    case Wednesday => "wed"
    case Thursday => "thu"
    case Friday => "fri"
    case Saturday => "sat"
    case Sunday => "sun"
  }

  /** The day named in a checkbox name after its "day_" prefix. */
  function DayNamed(s: string): (r: Option<Weekday>)
    ensures r.Some? ==> s == DayName(r.value)
  {
    if s == "monday" then Some(Monday)
    else if s == "tuesday" then Some(Tuesday)
    else if s == "wednesday" then Some(Wednesday)
    else if s == "thursday" then Some(Thursday)
    else if s == "friday" then Some(Friday)
    else if s == "saturday" then Some(Saturday)
    else if s == "sunday" then Some(Sunday)
    else None
  }

  function DayName(d: Weekday): string {
    match d
    case Monday => "monday"
    case Tuesday => "tuesday"
    case Wednesday => "wednesday"
    case Thursday => "thursday"
    case Friday => "friday"
    case Saturday => "saturday"
    case Sunday => "sunday"
  }

  lemma DayNamedRoundTrip(d: Weekday)
    ensures DayNamed(DayName(d)) == Some(d)
  {
  }

  /** The checked days from position i of the week on, in week order. */
  function CheckedDaysFrom(checked: set<Weekday>, i: nat): (r: seq<Weekday>)
    requires i <= 7
    ensures forall k :: 0 <= k < |r| ==> r[k] in checked && DayIndex(r[k]) >= i
    ensures forall d :: d in checked && DayIndex(d) >= i ==> d in r
    ensures forall a, b :: 0 <= a < b < |r| ==> DayIndex(r[a]) < DayIndex(r[b])
    decreases 7 - i
  {
    if i == 7 then []
    else if DayAt(i) in checked then [DayAt(i)] + CheckedDaysFrom(checked, i + 1)
    else CheckedDaysFrom(checked, i + 1)
  }

  /** The day index a code stands for (7 for anything that is not a code). */
  function CodeIndex(c: string): nat {
    if c == "mon" then 0 else if c == "tue" then 1 else if c == "wed" then 2
    else if c == "thu" then 3 else if c == "fri" then 4 else if c == "sat" then 5
    else if c == "sun" then 6 else 7
  }

  lemma DayCodeIndex(d: Weekday)
    ensures CodeIndex(DayCode(d)) == DayIndex(d)
  {
  }

  lemma DayCodeInjective(a: Weekday, b: Weekday)
    requires DayCode(a) == DayCode(b)
    ensures a == b
  {
    DayCodeIndex(a);
    DayCodeIndex(b);
  }

  /** `operational_days`: the codes of the checked days, walked in the
      order of the checkbox object. */
  function OperationalDays(checked: set<Weekday>): seq<string> {
    Map(CheckedDaysFrom(checked, 0), DayCode)
  }

  /** A day's code is sent exactly when its box is checked. */
  lemma OperationalDaysMembership(checked: set<Weekday>, d: Weekday)
    ensures DayCode(d) in OperationalDays(checked) <==> d in checked
  {
    if DayCode(d) in OperationalDays(checked) {
      SentDayIsChecked(checked, d);
    }
    if d in checked {
      CheckedDayIsSent(checked, d);
    }
  }

  lemma SentDayIsChecked(checked: set<Weekday>, d: Weekday)
    requires DayCode(d) in OperationalDays(checked)
    ensures d in checked
  {
    var days := CheckedDaysFrom(checked, 0);
    var r := OperationalDays(checked);
    var k :| 0 <= k < |r| && r[k] == DayCode(d);
    assert r[k] == DayCode(days[k]);
    DayCodeInjective(days[k], d);
  }

  lemma CheckedDayIsSent(checked: set<Weekday>, d: Weekday)
    requires d in checked
    ensures DayCode(d) in OperationalDays(checked)
  {
    var days := CheckedDaysFrom(checked, 0);
    var r := OperationalDays(checked);
    assert d in days;
    var k :| 0 <= k < |days| && days[k] == d;
    assert r[k] == DayCode(d);
  }

  /** The codes come Monday first and none is sent twice. */
  lemma OperationalDaysOrdered(checked: set<Weekday>)
    ensures var r := OperationalDays(checked);
            forall a, b :: 0 <= a < b < |r| ==> CodeIndex(r[a]) < CodeIndex(r[b])
  {
    var days := CheckedDaysFrom(checked, 0);
    var r := OperationalDays(checked);
    forall a, b | 0 <= a < b < |r| ensures CodeIndex(r[a]) < CodeIndex(r[b]) {
      DayCodeIndex(days[a]);
      DayCodeIndex(days[b]);
    }
  }

  /** The schedule part of the form: checked days and the time inputs. */
  datatype ScheduleData = ScheduleData(
    operationalDays: set<Weekday>,
    startTime: string, endTime: string,
    bookingAllowed: bool, bookingStartTime: string, bookingEndTime: string,
    orderAllowed: bool, lastOrderTime: string)

  datatype SchedulePayload = SchedulePayload(
    restaurant: Value, operationalDays: seq<string>,
    startTime: Option<string>, endTime: Option<string>,
    breakStartTime: Option<string>, breakEndTime: Option<string>,
    bookingAllowed: bool, orderAllowed: bool, lastBookingTime: Option<string>)

  /** `s || null` */
  function OrNull(s: string): (r: Option<string>)
    ensures r.None? <==> s == []
    ensures r.Some? ==> r.value == s
  {
    if s == [] then None else Some(s)
  }

  /** The schedule payload: checked days as codes, empty times as null. */
  function ScheduleOf(restaurant: Value, s: ScheduleData): SchedulePayload
  {
    SchedulePayload(
      restaurant, OperationalDays(s.operationalDays),
      OrNull(s.startTime), OrNull(s.endTime),
      OrNull(s.bookingStartTime), OrNull(s.bookingEndTime),
      s.bookingAllowed, s.orderAllowed, OrNull(s.lastOrderTime))
  }

  /** The schedule payload sends the checked days as codes and every empty
      time as null; the booking window goes out as the break times and the
      last order time as the last booking time. */
  lemma ScheduleOfMeaning(restaurant: Value, s: ScheduleData, d: Weekday)
    ensures var r := ScheduleOf(restaurant, s);
            && (DayCode(d) in r.operationalDays <==> d in s.operationalDays)
            && (r.startTime.None? <==> s.startTime == [])
            && (r.endTime.None? <==> s.endTime == [])
            && (r.breakStartTime.None? <==> s.bookingStartTime == [])
            && (r.breakEndTime.None? <==> s.bookingEndTime == [])
            && (r.lastBookingTime.None? <==> s.lastOrderTime == [])
            && (s.startTime != [] ==> r.startTime == Some(s.startTime))
            && (s.endTime != [] ==> r.endTime == Some(s.endTime))
            && (s.bookingStartTime != [] ==> r.breakStartTime == Some(s.bookingStartTime))
            && (s.bookingEndTime != [] ==> r.breakEndTime == Some(s.bookingEndTime))
            && (s.lastOrderTime != [] ==> r.lastBookingTime == Some(s.lastOrderTime))
            && r.restaurant == restaurant
  {
    OperationalDaysMembership(s.operationalDays, d);
  }

  // ---------------------------------------------------------------------
  // Restaurant payload
  // ---------------------------------------------------------------------

  datatype FormData = FormData(
    restaurantName: string, mobileNumber: string, alternativeNumber: string,
    landlineNumber: string, deliveryTime: string, address: string,
    cuisines: string, drinkAlcohol: string, wheelchairAccessible: string,
    cashOnDelivery: string, pureVeg: string, costForTwo: string,
    termsAndConditions: string, closingMessage: string)

  /** A number field sent through `parseFloat`; floating point itself is
      not modelled, so the field records the text it would parse. */
  datatype FloatField = Zero | ParseFloatOf(raw: string)

  function FloatOrZero(s: string): FloatField {
    if s == [] then Zero else ParseFloatOf(s)
  }

  datatype RestaurantPayload = RestaurantPayload(
    restaurantName: string, address: string, number: string,
    alternativeNumber: string, landlineNumber: string, deliveryTime: string,
    servesAlcohol: bool, wheelchairAccessible: bool, cashOnDelivery: bool, pureVeg: bool,
    cuisines: seq<Value>, termsAndConditions: string, closingMessage: string,
    costForTwo: FloatField)

  /** The restaurant payload: blank secondary numbers fall back to the
      mobile number, each flag is set by exactly "yes", and at most one
      cuisine is sent. */
  function RestaurantPayloadOf(f: FormData): RestaurantPayload
  {
    RestaurantPayload(
      f.restaurantName, f.address, f.mobileNumber,
      if f.alternativeNumber != [] then f.alternativeNumber else f.mobileNumber,
      if f.landlineNumber != [] then f.landlineNumber else f.mobileNumber,
      f.deliveryTime,
      f.drinkAlcohol == "yes", f.wheelchairAccessible == "yes",
      f.cashOnDelivery == "yes", f.pureVeg == "yes",
      if f.cuisines != [] then [StrToNumber(f.cuisines)] else [],
      f.termsAndConditions, f.closingMessage,
      FloatOrZero(f.costForTwo))
  }

  /** Blank secondary numbers fall back to the mobile number, each flag is
      set by exactly "yes", and at most one cuisine is sent. */
  lemma RestaurantPayloadMeaning(f: FormData)
    ensures var r := RestaurantPayloadOf(f);
            && r.number == f.mobileNumber
            && r.alternativeNumber == (if f.alternativeNumber == [] then f.mobileNumber else f.alternativeNumber)
            && r.landlineNumber == (if f.landlineNumber == [] then f.mobileNumber else f.landlineNumber)
            && (r.alternativeNumber == [] ==> f.mobileNumber == [])
            && (r.servesAlcohol <==> f.drinkAlcohol == "yes")
            && (r.wheelchairAccessible <==> f.wheelchairAccessible == "yes")
            && (r.cashOnDelivery <==> f.cashOnDelivery == "yes")
            && (r.pureVeg <==> f.pureVeg == "yes")
            && |r.cuisines| <= 1 && (r.cuisines == [] <==> f.cuisines == [])
            && (r.cuisines != [] ==> r.cuisines[0] == StrToNumber(f.cuisines))
  {
  }

  // ---------------------------------------------------------------------
  // Blocked days and order configuration
  // ---------------------------------------------------------------------

  datatype BlockedDaysData = BlockedDaysData(
    orderBlocked: bool, bookingBlocked: bool, startDate: string, endDate: string)

  datatype BlockType = OrderBlock | BookingBlock

  datatype BlockedDayPayload = BlockedDayPayload(
    restaurant: Value, blockType: BlockType, startDate: Option<string>, endDate: Option<string>)

  /** One record per checked block type, order first; the schedule id is
      what the source sends under `restaurant`. */
  function BlockedDayPayloads(scheduleId: Value, b: BlockedDaysData): seq<BlockedDayPayload>
  {
    var order := BlockedDayPayload(scheduleId, OrderBlock, OrNull(b.startDate), OrNull(b.endDate));
    var booking := BlockedDayPayload(scheduleId, BookingBlock, OrNull(b.startDate), OrNull(b.endDate));
    (if b.orderBlocked then [order] else []) + (if b.bookingBlocked then [booking] else [])
  }

  /** One record per checked block type, each under the schedule id and
      the same date range. */
  lemma BlockedDayPayloadsMeaning(scheduleId: Value, b: BlockedDaysData)
    ensures var r := BlockedDayPayloads(scheduleId, b);
            && |r| == (if b.orderBlocked then 1 else 0) + (if b.bookingBlocked then 1 else 0)
            && (forall p :: p in r ==>
                  p.restaurant == scheduleId && p.startDate == OrNull(b.startDate) && p.endDate == OrNull(b.endDate))
            && ((exists p :: p in r && p.blockType == OrderBlock) <==> b.orderBlocked)
            && ((exists p :: p in r && p.blockType == BookingBlock) <==> b.bookingBlocked)
  {
    var r := BlockedDayPayloads(scheduleId, b);
    if b.orderBlocked {
      assert r[0].blockType == OrderBlock;
    }
    if b.bookingBlocked {
      assert r[|r| - 1].blockType == BookingBlock;
    }
  }

  datatype OrderConfigData = OrderConfigData(
    gstPercentage: string, deliveryCharge: string, serviceChargePercentage: string,
    minimumOrder: string, orderNotAllowedText: string)

  datatype OrderConfigPayload = OrderConfigPayload(
    restaurant: Value, gstPercentage: FloatField, deliveryCharge: FloatField,
    serviceCharge: FloatField, minimumOrder: Option<int>, orderNotAvailableText: string)

  /** The order configuration payload; an empty minimum order is 0 and an
      unparsable one is `NaN` (`None`). */
  function OrderConfigOf(restaurant: Value, o: OrderConfigData): OrderConfigPayload
  {
    OrderConfigPayload(
      restaurant, FloatOrZero(o.gstPercentage), FloatOrZero(o.deliveryCharge),
      FloatOrZero(o.serviceChargePercentage),
      if o.minimumOrder != [] then ParseInt(o.minimumOrder) else Some(0),
      o.orderNotAllowedText)
  }

  /** An empty minimum order is sent as 0; any other text goes through
      `parseInt`. */
  lemma OrderConfigMinimumOrder(restaurant: Value, o: OrderConfigData)
    ensures var r := OrderConfigOf(restaurant, o);
            && (o.minimumOrder == [] ==> r.minimumOrder == Some(0))
            && (o.minimumOrder != [] ==> r.minimumOrder == ParseInt(o.minimumOrder))
            && (AllDigits(o.minimumOrder) ==> r.minimumOrder == Some(DigitsValue(o.minimumOrder)))
  {
    if o.minimumOrder != [] && AllDigits(o.minimumOrder) {
      ParseIntDigits(o.minimumOrder);
    }
  }

  // ---------------------------------------------------------------------
  // Submission
  // ---------------------------------------------------------------------

  /** What the backend answers to one call: a response body, or an error
      together with the text `JSON.stringify` would give for it. */
  datatype Reply = Ok(body: Value) | Fail(err: Value, json: string)

  /** The backend's answers to every call the submission may make. Blocked
      days and uploads only matter through success or failure. */
  datatype Backend = Backend(
    restaurant: Reply, schedule: Reply,
    orderBlockOk: bool, bookingBlockOk: bool,
    tableBooking: Reply, orderConfigOk: bool,
    coverOk: bool, menuOk: bool, galleryOk: bool, otherOk: bool)

  /** Everything the form holds at submission time. */
  datatype SubmitInput = SubmitInput(
    form: FormData, schedule: ScheduleData, blocked: BlockedDaysData,
    table: TableBookingData, order: OrderConfigData,
    hasCover: bool, hasMenu: bool, galleryCount: nat, otherCount: nat)

  /** One request of the submission. A post carries what its payload is
      built from: `RestaurantPayloadOf(form)`, `ScheduleOf(restaurant,
      schedule)`, `TableBookingPayload(restaurant, table)` and
      `OrderConfigOf(restaurant, order)` give the body that goes out. */
  datatype Call =
    | CreateRestaurant(form: FormData)
    | CreateSchedule(restaurant: Value, schedule: ScheduleData)
    | CreateBlockedDay(blocked: BlockedDayPayload)
    | CreateTableBooking(restaurant: Value, table: TableBookingData)
    | CreateOrderConfig(restaurant: Value, order: OrderConfigData)
    | UploadCover | UploadMenu | UploadGallery | UploadOther

  /** `created?.id ?? created?.restaurant?.id ?? created?.restaurant_id ?? null` */
  function RestaurantIdOf(created: Value): Value
  {
    Coalesce(Get(created, "id"), Coalesce(Get(Get(created, "restaurant"), "id"),
      Coalesce(Get(created, "restaurant_id"), Null)))
  }

  /** The id is read from `id`, then `restaurant.id`, then
      `restaurant_id`; the first that is not nullish wins. */
  lemma RestaurantIdPrecedence(created: Value)
    ensures var r := RestaurantIdOf(created);
            && (!IsNullish(Get(created, "id")) ==> r == Get(created, "id"))
            && (IsNullish(Get(created, "id")) && !IsNullish(Get(Get(created, "restaurant"), "id")) ==>
                  r == Get(Get(created, "restaurant"), "id"))
            && (IsNullish(Get(created, "id")) && IsNullish(Get(Get(created, "restaurant"), "id")) ==>
                  r == Coalesce(Get(created, "restaurant_id"), Null))
  {
  }

  /** `sched?.id ?? sched?.schedule?.id ?? null` */
  function ScheduleIdOf(sched: Value): Value
  {
    Coalesce(Get(sched, "id"), Coalesce(Get(Get(sched, "schedule"), "id"), Null))
  }

  /** The schedule id is read from `id`, then `schedule.id`. */
  lemma ScheduleIdPrecedence(sched: Value)
    ensures var r := ScheduleIdOf(sched);
            && (!IsNullish(Get(sched, "id")) ==> r == Get(sched, "id"))
            && (IsNullish(Get(sched, "id")) ==> r == Coalesce(Get(Get(sched, "schedule"), "id"), Null))
  {
  }

  /** The restaurant id the first step leaves behind (falsy when it failed). */
  function ObtainedRestaurantId(b: Backend): Value {
    if b.restaurant.Ok? then RestaurantIdOf(b.restaurant.body) else Null
  }

  /** The schedule id the second step leaves behind (falsy when it failed or
      did not run). */
  function ObtainedScheduleId(b: Backend): Value {
    if Truthy(ObtainedRestaurantId(b)) && b.schedule.Ok? then ScheduleIdOf(b.schedule.body) else Null
  }

  /** `err?.detail || err?.message || JSON.stringify(err)` */
  function ErrorDetail(err: Value, json: string): string {
    if Truthy(Get(err, "detail")) then ToStr(Get(err, "detail"))
    else if Truthy(Get(err, "message")) then ToStr(Get(err, "message"))
    else json
  }

  /** `Promise.all` over the blocked-day posts rejects when any one does. */
  predicate BlockedDaysFail(b: BlockedDaysData, backend: Backend) {
    (b.orderBlocked && !backend.orderBlockOk) || (b.bookingBlocked && !backend.bookingBlockOk)
  }

  function BlockedCalls(scheduleId: Value, b: BlockedDaysData): seq<Call> {
    Map(BlockedDayPayloads(scheduleId, b), (p: BlockedDayPayload) => CreateBlockedDay(p))
  }

  // The requests and messages of each step, in the order the steps run.

  function ScheduleStepCalls(input: SubmitInput, backend: Backend): seq<Call> {
    var rid := ObtainedRestaurantId(backend);
    if Truthy(rid) then [CreateSchedule(rid, input.schedule)] else []
  }

  function BlockedStepCalls(input: SubmitInput, backend: Backend): seq<Call> {
    var sid := ObtainedScheduleId(backend);
    if Truthy(sid) then BlockedCalls(sid, input.blocked) else []
  }

  function TableStepCalls(input: SubmitInput, backend: Backend): seq<Call> {
    var rid := ObtainedRestaurantId(backend);
    if Truthy(rid) then [CreateTableBooking(rid, input.table)] else []
  }

  function OrderStepCalls(input: SubmitInput, backend: Backend): seq<Call> {
    var rid := ObtainedRestaurantId(backend);
    if Truthy(rid) then [CreateOrderConfig(rid, input.order)] else []
  }

  function UploadCalls(input: SubmitInput): seq<Call> {
    (if input.hasCover then [UploadCover] else [])
    + (if input.hasMenu then [UploadMenu] else [])
    + (if input.galleryCount > 0 then [UploadGallery] else [])
    + (if input.otherCount > 0 then [UploadOther] else [])
  }

  /** The requests the submission issues, in order. */
  function SubmitCalls(input: SubmitInput, backend: Backend): seq<Call> {
    [CreateRestaurant(input.form)]
    + ScheduleStepCalls(input, backend) + BlockedStepCalls(input, backend)
    + TableStepCalls(input, backend) + OrderStepCalls(input, backend)
    + UploadCalls(input)
  }

  function RestaurantStepErrors(backend: Backend): seq<string> {
    if !Truthy(ObtainedRestaurantId(backend)) then ["Error saving restaurant basic details"] else []
  }

  function ScheduleStepErrors(backend: Backend): seq<string> {
    if Truthy(ObtainedRestaurantId(backend)) && backend.schedule.Fail? then ["Error saving restaurant schedule"] else []
  }

  function BlockedStepErrors(input: SubmitInput, backend: Backend): seq<string> {
    if Truthy(ObtainedScheduleId(backend)) && BlockedDaysFail(input.blocked, backend) then ["Error saving blocked days"] else []
  }

  function TableStepErrors(backend: Backend): seq<string> {
    if Truthy(ObtainedRestaurantId(backend)) && backend.tableBooking.Fail?
    then ["Error saving table bookings: " + ErrorDetail(backend.tableBooking.err, backend.tableBooking.json)]
    else []
  }

  function OrderStepErrors(backend: Backend): seq<string> {
    if Truthy(ObtainedRestaurantId(backend)) && !backend.orderConfigOk then ["Error saving order configure"] else []
  }

  function UploadErrors(input: SubmitInput, backend: Backend): seq<string> {
    (if input.hasCover && !backend.coverOk then ["Error uploading cover image"] else [])
    + (if input.hasMenu && !backend.menuOk then ["Error uploading menu image"] else [])
    + (if input.galleryCount > 0 && !backend.galleryOk then ["Error uploading gallery images"] else [])
    + (if input.otherCount > 0 && !backend.otherOk then ["Error uploading other files"] else [])
  }

  /** The messages the submission collects, in order. */
  function SubmitErrors(input: SubmitInput, backend: Backend): seq<string> {
    RestaurantStepErrors(backend) + ScheduleStepErrors(backend) + BlockedStepErrors(input, backend)
    + TableStepErrors(backend) + OrderStepErrors(backend) + UploadErrors(input, backend)
  }

  /** The alert shown at the end. */
  function AlertMessage(allSuccess: bool, errors: seq<string>): string {
    if allSuccess then "All restaurant data saved successfully!"
    else "Some data could not be saved:\n" + Join(errors, "\n")
  }

  /** `handleSubmit`: the steps run in order, each in its own try block;
      later steps are gated on the ids earlier ones produced, and each
      failure appends one message. */
  method Submit(input: SubmitInput, backend: Backend)
    returns (calls: seq<Call>, errors: seq<string>, allSuccess: bool, message: string)
    ensures calls == SubmitCalls(input, backend)
    ensures errors == SubmitErrors(input, backend)
    ensures allSuccess <==> errors == []
    ensures message == AlertMessage(allSuccess, errors)
  {
    allSuccess := true;
    errors := [];
    var restaurantId: Value := Null;

    // Basic restaurant details
    calls := [CreateRestaurant(input.form)];
    if backend.restaurant.Ok? {
      restaurantId := RestaurantIdOf(backend.restaurant.body);
    }
    if !Truthy(restaurantId) {
      allSuccess := false;
      errors := errors + ["Error saving restaurant basic details"];
    }
    assert restaurantId == ObtainedRestaurantId(backend);
    assert errors == RestaurantStepErrors(backend) && (allSuccess <==> errors == []);

    // Schedule, then its blocked days
    var scheduleCalls, scheduleErrors := ScheduleSteps(input, backend, restaurantId);
    calls := calls + scheduleCalls;
    errors := errors + scheduleErrors;
    allSuccess := allSuccess && scheduleErrors == [];

    // Table bookings and order configuration
    var configCalls, configErrors := ConfigSteps(input, backend, restaurantId);
    calls := calls + configCalls;
    errors := errors + configErrors;
    allSuccess := allSuccess && configErrors == [];

    // Images and files, each only when provided
    var uploads, uploadErrors := Uploads(input, backend);
    calls := calls + uploads;
    errors := errors + uploadErrors;
    allSuccess := allSuccess && uploadErrors == [];
    Regroup([CreateRestaurant(input.form)], ScheduleStepCalls(input, backend),
            BlockedStepCalls(input, backend), TableStepCalls(input, backend),
            OrderStepCalls(input, backend), uploads);
    Regroup(RestaurantStepErrors(backend), ScheduleStepErrors(backend),
            BlockedStepErrors(input, backend), TableStepErrors(backend),
            OrderStepErrors(backend), uploadErrors);

    message := AlertMessage(allSuccess, errors);
  }

  /** The schedule step and, under the schedule id it yields, the blocked
      days posted together. */
  method ScheduleSteps(input: SubmitInput, backend: Backend, restaurantId: Value)
    returns (calls: seq<Call>, errors: seq<string>)
    requires restaurantId == ObtainedRestaurantId(backend)
    ensures calls == ScheduleStepCalls(input, backend) + BlockedStepCalls(input, backend)
    ensures errors == ScheduleStepErrors(backend) + BlockedStepErrors(input, backend)
  {
    calls, errors := [], [];
    var scheduleId: Value := Null;
    if Truthy(restaurantId) {
      calls := calls + [CreateSchedule(restaurantId, input.schedule)];
      if backend.schedule.Ok? {
        scheduleId := ScheduleIdOf(backend.schedule.body);
      } else {
        errors := errors + ["Error saving restaurant schedule"];
      }
    }
    assert scheduleId == ObtainedScheduleId(backend);
    if Truthy(scheduleId) {
      calls := calls + BlockedCalls(scheduleId, input.blocked);
      if BlockedDaysFail(input.blocked, backend) {
        errors := errors + ["Error saving blocked days"];
      }
    }
  }

  /** The table-booking and order-configuration steps, both gated on the
      restaurant id. */
  method ConfigSteps(input: SubmitInput, backend: Backend, restaurantId: Value)
    returns (calls: seq<Call>, errors: seq<string>)
    requires restaurantId == ObtainedRestaurantId(backend)
    ensures calls == TableStepCalls(input, backend) + OrderStepCalls(input, backend)
    ensures errors == TableStepErrors(backend) + OrderStepErrors(backend)
  {
    calls, errors := [], [];
    if Truthy(restaurantId) {
      calls := calls + [CreateTableBooking(restaurantId, input.table)];
      if backend.tableBooking.Fail? {
        errors := errors + ["Error saving table bookings: " + ErrorDetail(backend.tableBooking.err, backend.tableBooking.json)];
      }
      calls := calls + [CreateOrderConfig(restaurantId, input.order)];
      if !backend.orderConfigOk {
        errors := errors + ["Error saving order configure"];
      }
    }
  }

  /** The four uploads, each attempted only when something was chosen. */
  method Uploads(input: SubmitInput, backend: Backend) returns (calls: seq<Call>, errors: seq<string>)
    ensures calls == UploadCalls(input)
    ensures errors == UploadErrors(input, backend)
  {
    calls, errors := [], [];
    if input.hasCover {
      calls := calls + [UploadCover];
      if !backend.coverOk {
        errors := errors + ["Error uploading cover image"];
      }
    }
    if input.hasMenu {
      calls := calls + [UploadMenu];
      if !backend.menuOk {
        errors := errors + ["Error uploading menu image"];
      }
    }
    if input.galleryCount > 0 {
      calls := calls + [UploadGallery];
      if !backend.galleryOk {
        errors := errors + ["Error uploading gallery images"];
      }
    }
    if input.otherCount > 0 {
      calls := calls + [UploadOther];
      if !backend.otherOk {
        errors := errors + ["Error uploading other files"];
      }
    }
  }

  /** The calls that need a restaurant id. */
  predicate IsGatedCall(c: Call) {
    c.CreateSchedule? || c.CreateTableBooking? || c.CreateOrderConfig?
  }

  /** The restaurant is always posted first, and schedule, table booking
      and order configuration are posted exactly when a truthy restaurant
      id came back (the schedule right after the restaurant). */
  lemma SubmitGating(input: SubmitInput, backend: Backend)
    ensures var calls := SubmitCalls(input, backend);
            var rid := ObtainedRestaurantId(backend);
            && calls[0] == CreateRestaurant(input.form)
            && (Truthy(rid) ==> calls[1] == CreateSchedule(rid, input.schedule))
            && (Truthy(rid) ==> CreateTableBooking(rid, input.table) in calls
                                && CreateOrderConfig(rid, input.order) in calls)
            && (forall i :: 0 <= i < |calls| && IsGatedCall(calls[i]) ==> Truthy(rid))
  {
    var rid := ObtainedRestaurantId(backend);
    var calls := SubmitCalls(input, backend);
    var head := [CreateRestaurant(input.form)];
    if Truthy(rid) {
      var rest := BlockedStepCalls(input, backend) + TableStepCalls(input, backend)
                  + OrderStepCalls(input, backend) + UploadCalls(input);
      assert calls == head + [CreateSchedule(rid, input.schedule)] + rest;
      ConfigCallsPosted(input, backend);
    } else {
      SubmitCallsWithoutRestaurant(input, backend);
      UploadCallsUngated(input);
      forall i | 0 <= i < |calls| ensures !IsGatedCall(calls[i]) {
        if i > 0 {
          assert calls[i] == UploadCalls(input)[i - 1];
        }
      }
    }
  }

  /** With a truthy restaurant id the table booking and the order
      configuration are posted under it. */
  lemma ConfigCallsPosted(input: SubmitInput, backend: Backend)
    requires Truthy(ObtainedRestaurantId(backend))
    ensures var rid := ObtainedRestaurantId(backend);
            && CreateTableBooking(rid, input.table) in SubmitCalls(input, backend)
            && CreateOrderConfig(rid, input.order) in SubmitCalls(input, backend)
  {
    var rid := ObtainedRestaurantId(backend);
    var front := [CreateRestaurant(input.form)] + ScheduleStepCalls(input, backend)
                 + BlockedStepCalls(input, backend);
    var tail := [CreateTableBooking(rid, input.table), CreateOrderConfig(rid, input.order)] + UploadCalls(input);
    assert SubmitCalls(input, backend) == front + tail;
    assert SubmitCalls(input, backend)[|front|] == CreateTableBooking(rid, input.table);
    assert SubmitCalls(input, backend)[|front| + 1] == CreateOrderConfig(rid, input.order);
  }

  lemma SubmitCallsWithoutRestaurant(input: SubmitInput, backend: Backend)
    requires !Truthy(ObtainedRestaurantId(backend))
    ensures SubmitCalls(input, backend) == [CreateRestaurant(input.form)] + UploadCalls(input)
  {
    assert ScheduleStepCalls(input, backend) == [];
    assert BlockedStepCalls(input, backend) == [];
    assert TableStepCalls(input, backend) == [];
    assert OrderStepCalls(input, backend) == [];
  }

  lemma UploadCallsUngated(input: SubmitInput)
    ensures forall i :: 0 <= i < |UploadCalls(input)| ==> !IsGatedCall(UploadCalls(input)[i])
  {
  }

  predicate IsBlockedCall(c: Call) {
    c.CreateBlockedDay?
  }

  /** The blocked-day posts of a submission are exactly those of its
      blocked-days step: there are some only under a truthy schedule id,
      and each carries that id. */
  lemma SubmitBlockedCalls(input: SubmitInput, backend: Backend)
    ensures Filter(SubmitCalls(input, backend), IsBlockedCall) == BlockedStepCalls(input, backend)
    ensures BlockedStepCalls(input, backend) != [] ==> Truthy(ObtainedScheduleId(backend))
    ensures forall c :: c in BlockedStepCalls(input, backend) ==>
              c.CreateBlockedDay? && c.blocked.restaurant == ObtainedScheduleId(backend)
  {
    FilterBlockedCalls(input, backend);
    var sid := ObtainedScheduleId(backend);
    if Truthy(sid) {
      BlockedDayPayloadsMeaning(sid, input.blocked);
    }
  }

  /** Only the blocked-days step contributes blocked-day posts. */
  lemma FilterBlockedCalls(input: SubmitInput, backend: Backend)
    ensures Filter(SubmitCalls(input, backend), IsBlockedCall) == BlockedStepCalls(input, backend)
  {
    var pre := [CreateRestaurant(input.form)] + ScheduleStepCalls(input, backend);
    var blocked := BlockedStepCalls(input, backend);
    var post := TableStepCalls(input, backend) + OrderStepCalls(input, backend) + UploadCalls(input);
    assert forall i :: 0 <= i < |blocked| ==> IsBlockedCall(blocked[i]);
    assert SubmitCalls(input, backend) == pre + blocked + post;
    FilterMiddle(pre, blocked, post, IsBlockedCall);
  }

  /** A failed first step reports exactly one message for the skipped
      steps (none of schedule, blocked days, table booking or order
      configuration is attempted, so none of them reports). */
  lemma SubmitErrorsWithoutRestaurant(input: SubmitInput, backend: Backend)
    requires !Truthy(ObtainedRestaurantId(backend))
    ensures SubmitErrors(input, backend) == ["Error saving restaurant basic details"] + UploadErrors(input, backend)
  {
  }

  /** The submission succeeds exactly when every step it attempts
      succeeds. */
  lemma SubmitSuccessIff(input: SubmitInput, backend: Backend)
    ensures SubmitErrors(input, backend) == [] <==>
              && Truthy(ObtainedRestaurantId(backend))
              && backend.schedule.Ok?
              && !(Truthy(ObtainedScheduleId(backend)) && BlockedDaysFail(input.blocked, backend))
              && backend.tableBooking.Ok? && backend.orderConfigOk
              && UploadErrors(input, backend) == []
  {
  }

  /** A failed submission lists every message on its own line after the
      heading: the first message follows the heading, and each further
      message adds a line break and itself at the end. */
  lemma AlertMessageFailure(errors: seq<string>, next: string)
    requires errors != []
    ensures StartsWith(AlertMessage(false, errors), "Some data could not be saved:\n")
    ensures AlertMessage(false, [errors[0]]) == "Some data could not be saved:\n" + errors[0]
    ensures AlertMessage(false, errors + [next]) == AlertMessage(false, errors) + "\n" + next
    ensures AlertMessage(true, errors) == "All restaurant data saved successfully!"
  {
    var heading := "Some data could not be saved:\n";
    var joined := Join(errors, "\n");
    assert AlertMessage(false, errors) == heading + joined;
    PrefixOfConcat(heading, joined);
    JoinSnoc(errors, "\n", next);
    assert AlertMessage(false, errors + [next]) == heading + (joined + "\n" + next);
    assert heading + (joined + "\n" + next) == heading + joined + "\n" + next;
  }

  /** A string starts with any string it is built from. */
  lemma PrefixOfConcat(a: string, b: string)
    ensures StartsWith(a + b, a)
  {
    assert (a + b)[..|a|] == a;
  }

  // ---------------------------------------------------------------------
  // Form state: accordion and schedule inputs
  // ---------------------------------------------------------------------

  datatype Section = BasicDetails | RestaurantDetails | BlockedDays | TableBookings | OrderConfigure | Attachments

  /** The parts of the add-restaurant form that its handlers update in
      place: which accordion sections are open and the schedule inputs. */
  class AddRestaurantForm {
    var expanded: set<Section>
    var schedule: ScheduleData

    /** At most one section is open at a time. */
    ghost predicate Valid()
      reads this
    {
      |expanded| <= 1
    }

    constructor ()
      ensures Valid() && expanded == {}
      ensures schedule == ScheduleData({}, "", "", false, "", "", false, "")
    {
      expanded := {};
      schedule := ScheduleData({}, "", "", false, "", "", false, "");
    }

    /** `toggleSection(s)`: s flips, every other section closes. */
    method ToggleSection(s: Section)
      requires Valid()
      modifies this`expanded
      ensures Valid()
      ensures s in expanded <==> s !in old(expanded)
      ensures forall t :: t != s ==> t !in expanded
    {
      if s in expanded {
        expanded := {};
      } else {
        expanded := {s};
      }
    }

    /** `handleScheduleChange`: a "day_"/"day." checkbox sets that day, a
        checkbox sets its flag, any other input sets its text field. */
    method HandleScheduleChange(name: string, value: string, isCheckbox: bool, checked: bool)
      modifies this`schedule
      ensures (StartsWith(name, "day_") || StartsWith(name, "day.")) && DayNamed(name[4..]).Some? ==>
                schedule == old(schedule).(operationalDays :=
                  if checked then old(schedule).operationalDays + {DayNamed(name[4..]).value}
                  else old(schedule).operationalDays - {DayNamed(name[4..]).value})
      ensures (StartsWith(name, "day_") || StartsWith(name, "day.")) && DayNamed(name[4..]).None? ==>
                schedule == old(schedule)
      ensures !(StartsWith(name, "day_") || StartsWith(name, "day.")) && isCheckbox ==>
                schedule == if name == "bookingAllowed" then old(schedule).(bookingAllowed := checked)
                            else if name == "orderAllowed" then old(schedule).(orderAllowed := checked)
                            else old(schedule)
      ensures !(StartsWith(name, "day_") || StartsWith(name, "day.")) && !isCheckbox ==>
                schedule == SetTimeField(old(schedule), name, value)
    {
      if StartsWith(name, "day_") || StartsWith(name, "day.") {
        var day := DayNamed(name[4..]);
        if day.Some? {
          if checked {
            schedule := schedule.(operationalDays := schedule.operationalDays + {day.value});
          } else {
            schedule := schedule.(operationalDays := schedule.operationalDays - {day.value});
          }
        }
        return;
      }
      if isCheckbox {
        if name == "bookingAllowed" {
          schedule := schedule.(bookingAllowed := checked);
        } else if name == "orderAllowed" {
          schedule := schedule.(orderAllowed := checked);
        }
      } else {
        schedule := SetTimeField(schedule, name, value);
      }
    }
  }

  /** The text input named `name` takes `value`. */
  function SetTimeField(s: ScheduleData, name: string, value: string): ScheduleData {
    if name == "startTime" then s.(startTime := value)
    else if name == "endTime" then s.(endTime := value)
    else if name == "bookingStartTime" then s.(bookingStartTime := value)
    else if name == "bookingEndTime" then s.(bookingEndTime := value)
    else if name == "lastOrderTime" then s.(lastOrderTime := value)
    else s
  }
}
