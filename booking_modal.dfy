/** The booking form of frontend/src/components/BookingModal.js: the 12-hour to
    24-hour conversion of the entered times, the price preview, the hour count shown
    beside it, and when the submit button is enabled. Turning a date-time string into
    milliseconds (`new Date(...)`) is a given function; `None` stands for an invalid
    date, whose arithmetic gives `NaN`. */
module BookingModal {
  import opened Wrappers
  import opened Text
  import Pricing
  import Database
  import BookingController

  /** The options of the two period selects. */
  datatype Period = AM | PM

  /** The hour rule of convertTo24Hour. */
  function HourTo24(h: int, p: Period): int
  {
    if p == PM && h != 12 then h + 12
    else if p == AM && h == 12 then 0
    else h
  }

  /** The clock reading a 24-hour hour is shown as. */
  function From24(r: int): (int, Period)
    requires 0 <= r <= 23
  {
    if r == 0 then (12, AM)
    else if r < 12 then (r, AM)
    else if r == 12 then (12, PM)
    else (r - 12, PM)
  }

  /** On the hours 1 to 12 with either period the rule is a bijection onto 0 to 23,
      with `From24` as its inverse: PM adds twelve except at 12, 12 AM is 0, and any
      other AM hour is kept. */
  lemma HourTo24Bijection(h: int, p: Period, r: int)
    ensures 1 <= h <= 12 ==> 0 <= HourTo24(h, p) <= 23 && From24(HourTo24(h, p)) == (h, p)
    ensures 0 <= r <= 23 ==> 1 <= From24(r).0 <= 12 && HourTo24(From24(r).0, From24(r).1) == r
  {
  }

  /** The text before the first ':', all of the text when it has none. */
  function FirstField(s: string): (f: string)
    ensures f <= s && ':' !in f
    ensures |f| < |s| ==> s[|f|] == ':'
  {
    if s == [] || s[0] == ':' then [] else [s[0]] + FirstField(s[1..])
  }

  /** The second piece of `s.split(':')`; `None` (undefined) when there is no ':'. A
      third piece, if any, is dropped. */
  function SecondField(s: string): (m: Option<string>)
    ensures m.None? <==> ':' !in s
    ensures m.Some? ==> ':' !in m.value
  {
    var f := FirstField(s);
    if |f| == |s| then None else Some(FirstField(s[|f| + 1..]))
  }

  lemma {:induction false} FieldsOfJoined(f: string, m: string)
    requires ':' !in f && ':' !in m
    ensures FirstField(f + ":" + m) == f
    ensures SecondField(f + ":" + m) == Some(m)
  {
    if f == [] {
      assert f + ":" + m == [':'] + m;
      assert (f + ":" + m)[1..] == m + [];
      FieldsOfPlain(m);
    } else {
      assert (f + ":" + m)[1..] == f[1..] + ":" + m;
      FieldsOfJoined(f[1..], m);
    }
  }

  lemma {:induction false} FieldsOfPlain(m: string)
    requires ':' !in m
    ensures FirstField(m) == m
  {
    if m != [] {
      FieldsOfPlain(m[1..]);
    }
  }

  /** How an hour value prints: `NaN` for a failed parse, else zero-padded to two. */
  function HourText(h: Option<int>): string
  {
    if h.None? then "NaN" else PadStart(IntToString(h.value), 2, '0')
  }

  /** convertTo24Hour(time, period). `NaN` stays `NaN` under `+ 12`. */
  function ConvertTo24Hour(time: string, p: Period): (r: string)
    ensures |r| >= 3
  {
    var hours := ParseInt(FirstField(time));
    var converted := if hours.Some? then Some(HourTo24(hours.value, p)) else None;
    var minutes := SecondField(time);
    HourText(converted) + ":" + (if minutes.Some? then minutes.value else "undefined")
  }

  /** The result splits at its last colon into the printed hour and the printed
      minutes. */
  lemma ConvertParts(time: string, p: Period) returns (head: string, tail: string)
    ensures ConvertTo24Hour(time, p) == head + ":" + tail
    ensures ParseInt(FirstField(time)).None? ==> head == "NaN"
    ensures tail == if SecondField(time).Some? then SecondField(time).value else "undefined"
  {
    var hours := ParseInt(FirstField(time));
    head := HourText(if hours.Some? then Some(HourTo24(hours.value, p)) else None);
    tail := if SecondField(time).Some? then SecondField(time).value else "undefined";
  }

  /** An hour that does not parse prints as `NaN`. */
  lemma UnreadHourIsNaN(time: string, p: Period)
    requires ParseInt(FirstField(time)).None?
    ensures ConvertTo24Hour(time, p)[..4] == "NaN:"
  {
    var head, tail := ConvertParts(time, p);
    assert (head + ":" + tail)[..4] == "NaN:";
  }

  /** Without a colon the minutes are absent and print as `undefined`. */
  lemma MissingMinutesUndefined(time: string, p: Period)
    requires ':' !in time
    ensures var r := ConvertTo24Hour(time, p); |r| >= 10 && r[|r| - 9..] == "undefined" && r[|r| - 10] == ':'
  {
    var head, tail := ConvertParts(time, p);
    Suffix(head + ":", tail);
  }

  /** Minutes that are present are copied after a colon at the end of the result. */
  lemma MinutesCopied(time: string, p: Period, m: string)
    requires SecondField(time) == Some(m)
    ensures var r := ConvertTo24Hour(time, p); |r| > |m| && r[|r| - |m|..] == m && r[|r| - |m| - 1] == ':'
  {
    var head, tail := ConvertParts(time, p);
    Suffix(head + ":", tail);
  }

  lemma Suffix(front: string, back: string)
    ensures (front + back)[|front|..] == back
  {
  }

  /** The conversion once the hour has been read from the first field: the hour
      rule's result printed and padded, then the minutes as they were. */
  lemma {:induction false} ConvertParsed(time: string, p: Period, h: nat, m: string)
    requires ParseInt(FirstField(time)) == Some(h) && SecondField(time) == Some(m)
    ensures ConvertTo24Hour(time, p) == PadStart(NatToString(HourTo24(h, p)), 2, '0') + ":" + m
  {
    assert HourText(Some(HourTo24(h, p))) == PadStart(NatToString(HourTo24(h, p)), 2, '0');
  }

  /** An hour written with leading zeros, then ':' and the minutes, is read back as
      that hour and those minutes. */
  lemma {:induction false} ReadPadded(time: string, h: nat, width: nat, m: string)
    requires ':' !in m && time == PadStart(NatToString(h), width, '0') + ":" + m
    ensures ParseInt(FirstField(time)) == Some(h) && SecondField(time) == Some(m)
  {
    var f := PadStart(NatToString(h), width, '0');
    assert forall i :: 0 <= i < |f| ==> IsDigit(f[i]);
    FieldsOfJoined(f, m);
    ParseIntPaddedNat(h, width, []);
    assert f + [] == f;
  }

  /** A 12-hour reading `h:m`, its hour written with any number of leading zeros,
      becomes the 24-hour hour zero-padded to two digits, with the minutes copied. */
  lemma {:induction false} ConvertTwelveHour(h: nat, width: nat, m: string, p: Period)
    requires 1 <= h <= 12 && ':' !in m
    ensures ConvertTo24Hour(PadStart(NatToString(h), width, '0') + ":" + m, p)
            == PadStart(NatToString(HourTo24(h, p)), 2, '0') + ":" + m
  {
    ConvertReading(PadStart(NatToString(h), width, '0') + ":" + m, h, width, m, p);
  }

  /** The conversion of any padded reading `time` of a non-negative hour. */
  lemma {:induction false} ConvertReading(time: string, h: nat, width: nat, m: string, p: Period)
    requires ':' !in m && time == PadStart(NatToString(h), width, '0') + ":" + m
    ensures ConvertTo24Hour(time, p) == PadStart(NatToString(HourTo24(h, p)), 2, '0') + ":" + m
  {
    ReadPadded(time, h, width, m);
    ConvertParsed(time, p, h, m);
  }

  /** The time input delivers a 24-hour reading; with PM selected an afternoon hour
      is pushed past 23 (`14:30` becomes `26:30`), which no date accepts. */
  lemma {:induction false} AfternoonReadingWithPM(h: nat, m: string)
    requires 13 <= h <= 23 && ':' !in m
    ensures ConvertTo24Hour(PadStart(NatToString(h), 2, '0') + ":" + m, PM) == NatToString(h + 12) + ":" + m
    ensures 25 <= h + 12 <= 35
  {
    ConvertReading(PadStart(NatToString(h), 2, '0') + ":" + m, h, 2, m, PM);
  }

  /** The form fields the preview reads. */
  datatype Form = Form(
    startDate: string, startTime: string, startPeriod: Period,
    endDate: string, endTime: string, endPeriod: Period)

  /** The string handed to `new Date(...)`. */
  function Stamp(date: string, time: string, p: Period): string
  {
    date + "T" + ConvertTo24Hour(time, p)
  }

  predicate Filled(f: Form)
  {
    f.startDate != "" && f.startTime != "" && f.endDate != "" && f.endTime != ""
  }

  /** calculatePrice: 0 until all four date and time fields are filled; then the
      hours rounded up times the rate when that hour count is positive, else 0. */
  function CalculatePrice(f: Form, rate: int, toMillis: string -> Option<int>): (price: int)
    ensures !Filled(f) ==> price == 0
  {
    if !Filled(f) then 0
    else
      var start := toMillis(Stamp(f.startDate, f.startTime, f.startPeriod));
      var end := toMillis(Stamp(f.endDate, f.endTime, f.endPeriod));
      if start.None? || end.None? then 0
      else
        var hours := Pricing.CeilHours(end.value - start.value);
        if hours > 0 then hours * rate else 0
  }

  /** A positive preview is exactly what the backend charges for the request the form
      sends, when both sides read the timestamps the same way; and a preview is
      positive only for a filled form, readable times, an end after the start and a
      positive rate. */
  lemma PreviewMatchesBackend(f: Form, rate: int, toMillis: string -> Option<int>, user: Database.UserId, slot: Database.SlotId)
    requires CalculatePrice(f, rate, toMillis) > 0
    ensures Filled(f) && rate > 0
    ensures var start := toMillis(Stamp(f.startDate, f.startTime, f.startPeriod));
            var end := toMillis(Stamp(f.endDate, f.endTime, f.endPeriod));
      && start.Some? && end.Some? && start.value < end.value
      && CalculatePrice(f, rate, toMillis) == Pricing.Charge(start.value, end.value, rate)
      && CalculatePrice(f, rate, toMillis) ==
         BookingController.NewBooking(user, BookingController.BookingRequest(slot, "", "", start.value, end.value), rate).totalPrice
  {
    var start := toMillis(Stamp(f.startDate, f.startTime, f.startPeriod));
    var end := toMillis(Stamp(f.endDate, f.endTime, f.endPeriod));
    Pricing.CeilHoursSign(end.value - start.value);
  }

  /** `Math.ceil(a / b)` for a positive divisor. */
  function CeilDiv(a: int, b: int): (q: int)
    requires b > 0
    ensures (q - 1) * b < a <= q * b
  {
    -((-a) / b)
  }

  /** The hour count shown beside the price: `ceil(totalPrice / rate)` when the price
      is positive, else 0. */
  function DisplayedHours(f: Form, rate: int, toMillis: string -> Option<int>): int
  {
    var total := CalculatePrice(f, rate, toMillis);
    if total > 0 && rate > 0 then CeilDiv(total, rate) else 0
  }

  /** The shown hours are the hours charged for, whenever there is a price. */
  lemma DisplayedHoursExact(f: Form, rate: int, toMillis: string -> Option<int>)
    requires CalculatePrice(f, rate, toMillis) > 0
    ensures var start := toMillis(Stamp(f.startDate, f.startTime, f.startPeriod)).value;
            var end := toMillis(Stamp(f.endDate, f.endTime, f.endPeriod)).value;
      DisplayedHours(f, rate, toMillis) == Pricing.CeilHours(end - start)
  {
    var start := toMillis(Stamp(f.startDate, f.startTime, f.startPeriod)).value;
    var end := toMillis(Stamp(f.endDate, f.endTime, f.endPeriod)).value;
    var hours := Pricing.CeilHours(end - start);
    var q := CeilDiv(hours * rate, rate);
    if q > hours {
      assert (q - 1) * rate >= hours * rate by {
        MulMono(hours, q - 1, rate);
      }
    }
  }

  lemma MulMono(a: int, b: int, c: int)
    requires a <= b && c > 0
    ensures a * c <= b * c
  {
  }

  /** The submit button is enabled only while no request is pending and the price is
      positive. */
  predicate SubmitEnabled(loading: bool, f: Form, rate: int, toMillis: string -> Option<int>)
  {
    !loading && CalculatePrice(f, rate, toMillis) > 0
  }

  /** The form can only submit an interval whose end lies after its start, the check
      the backend itself does not make. */
  lemma SubmitImpliesOrderedInterval(loading: bool, f: Form, rate: int, toMillis: string -> Option<int>)
    requires SubmitEnabled(loading, f, rate, toMillis)
    ensures Filled(f)
    ensures toMillis(Stamp(f.startDate, f.startTime, f.startPeriod)).Some?
    ensures toMillis(Stamp(f.endDate, f.endTime, f.endPeriod)).Some?
    ensures toMillis(Stamp(f.startDate, f.startTime, f.startPeriod)).value
            < toMillis(Stamp(f.endDate, f.endTime, f.endPeriod)).value
  {
    PreviewMatchesBackend(f, rate, toMillis, 0, 0);
  }
}
