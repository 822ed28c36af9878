/**
 * Auction status and remaining-time helpers of
 * frontend/src/utils/auctionStatus.ts. Times are whole seconds.
 */
module AuctionStatus {
  import opened Common
  import opened Text
  import Countdown

  /** `AuctionStatus`: the string values are 'not_started', 'live' and 'ended'. */
  datatype Status = NotInitialized | Live | Ended

  datatype Color = Green | Red | Yellow

  /** `AuctionStatusInfo`. */
  datatype StatusInfo = StatusInfo(
    status: Status,
    labelText: string,
    color: Color,
    bgColor: string,
    textColor: string,
    borderColor: string,
    canBid: bool)

  /** `mapAuctionStatus(statusCode)`: the contract's numeric status code, total over all integers. */
  function MapAuctionStatus(statusCode: int): (s: Status)
    ensures s == Live <==> statusCode == 1
    ensures s == Ended <==> statusCode == 2
    ensures s == NotInitialized <==> statusCode != 1 && statusCode != 2
  {
    if statusCode == 1 then Live
    else if statusCode == 2 then Ended
    else NotInitialized
  }

  /** `getAuctionStatus(isInitialized, endTime, currentTimeSeconds)`; `None` is a null end time. */
  function GetAuctionStatus(isInitialized: bool, endTime: Option<int>, now: int): (s: Status)
    ensures s == NotInitialized <==> !isInitialized || endTime.None?
    ensures s == Ended <==> isInitialized && endTime.Some? && now >= endTime.value
    ensures s == Live <==> isInitialized && endTime.Some? && now < endTime.value
  {
    if !isInitialized || endTime.None? then NotInitialized
    else if now >= endTime.value then Ended
    else Live
  }

  /**
   * `getStatusInfo(status)`. Only a live auction accepts bids. The
   * `default` branch of the source cannot be reached from a closed enum.
   */
  function GetStatusInfo(s: Status): (info: StatusInfo)
    ensures info.status == s
    ensures info.canBid <==> s == Live
    ensures info.color == (match s case Live => Green case Ended => Red case NotInitialized => Yellow)
  {
    match s
    case Live =>
      StatusInfo(Live, "LIVE", Green, "bg-emerald-500/10", "text-emerald-500", "border-emerald-500/20", true)
    case Ended =>
      StatusInfo(Ended, "ENDED", Red, "bg-red-500/10", "text-red-500", "border-red-500/20", false)
    case NotInitialized =>
      StatusInfo(NotInitialized, "NOT INITIALIZED", Yellow, "bg-amber-500/10", "text-amber-500", "border-amber-500/20", false)
  }

  /** `getTimeRemaining(endTime, currentTimeSeconds)`: never negative. */
  function GetTimeRemaining(endTime: int, now: int): (r: int)
    ensures r >= 0
    ensures r == 0 <==> endTime <= now
    ensures r > 0 ==> r == endTime - now
  {
    Max(0, endTime - now)
  }

  // ------------------------------------------------------------ h:m:s

  datatype Hms = Hms(hours: nat, minutes: nat, secs: nat)

  /** `floor(s / 3600)`, `floor((s % 3600) / 60)` and `s % 60` for a positive whole number of seconds. */
  function SplitHms(seconds: nat): (t: Hms)
    ensures t.minutes < 60 && t.secs < 60
    ensures t.hours * 3600 + t.minutes * 60 + t.secs == seconds
  {
    var hours := seconds / 3600;
    var rest := seconds % 3600;
    var minutes := rest / 60;
    var secs := seconds % 60;
    assert seconds == 60 * (60 * hours + minutes) + rest % 60;
    assert rest % 60 == secs;
    Hms(hours, minutes, secs)
  }

  /** `n.toString().padStart(2, '0')`. */
  function Field(n: nat): (f: string)
    ensures |f| >= 2
    ensures n < 100 ==> |f| == 2
    ensures forall i :: 0 <= i < |f| ==> IsDigit(f[i])
    ensures DigitsValue(f) == n
  {
    NatToStringRoundTrip(n);
    PadStart2Value(NatToString(n));
    if n < 100 then (NatToStringLength(n); PadStart2(NatToString(n)))
    else PadStart2(NatToString(n))
  }

  /** `formatTimeRemaining(seconds)`: `'00:00:00'` when nothing remains, else hours:MM:SS. */
  function FormatTimeRemaining(seconds: int): (r: string)
    ensures seconds <= 0 ==> r == "00:00:00"
    ensures IsClock(r)
  {
    ClockFields("00", "00", "00");
    if seconds <= 0 then "00:00:00"
    else
      var t := SplitHms(seconds);
      Join3(Field(t.hours), Field(t.minutes), Field(t.secs), ":");
      ClockFields(Field(t.hours), Field(t.minutes), Field(t.secs));
      Join([Field(t.hours), Field(t.minutes), Field(t.secs)], ":")
  }

  /** A string of the shape digits `:` two digits `:` two digits, with at least two hour digits. */
  predicate IsClock(r: string) {
    |r| >= 8 && r[|r| - 3] == ':' && r[|r| - 6] == ':'
    && (forall i :: 0 <= i < |r| - 6 ==> IsDigit(r[i]))
    && IsDigit(r[|r| - 5]) && IsDigit(r[|r| - 4])
    && IsDigit(r[|r| - 2]) && IsDigit(r[|r| - 1])
  }

  function ClockHours(r: string): nat
    requires IsClock(r)
  {
    DigitsValue(r[..|r| - 6])
  }

  function ClockMinutes(r: string): nat
    requires IsClock(r)
  {
    10 * DigitValue(r[|r| - 5]) + DigitValue(r[|r| - 4])
  }

  function ClockSeconds(r: string): nat
    requires IsClock(r)
  {
    10 * DigitValue(r[|r| - 2]) + DigitValue(r[|r| - 1])
  }

  /**
   * Reading the clock back gives the remaining seconds (0 when nothing
   * remains), and its minutes and seconds fields are below 60.
   */
  lemma FormatTimeRemainingRoundTrip(seconds: int)
    ensures var r := FormatTimeRemaining(seconds);
      && ClockHours(r) * 3600 + ClockMinutes(r) * 60 + ClockSeconds(r) == Max(0, seconds)
      && ClockMinutes(r) < 60 && ClockSeconds(r) < 60
  {
    if seconds <= 0 {
      ZeroClock();
    } else {
      PositiveClockRoundTrip(seconds);
    }
  }

  /** The round trip for a positive number of seconds, field by field. */
  lemma PositiveClockRoundTrip(seconds: int)
    requires seconds > 0
    ensures var r := FormatTimeRemaining(seconds);
      && ClockHours(r) * 3600 + ClockMinutes(r) * 60 + ClockSeconds(r) == seconds
      && ClockMinutes(r) < 60 && ClockSeconds(r) < 60
  {
    var t := SplitHms(seconds);
    var h, m, s := Field(t.hours), Field(t.minutes), Field(t.secs);
    var r := FormatTimeRemaining(seconds);
    Join3(h, m, s, ":");
    assert r == h + ":" + m + ":" + s;
    ClockFields(h, m, s);
    assert ClockHours(r) == t.hours && ClockMinutes(r) == t.minutes && ClockSeconds(r) == t.secs;
  }

  /** The clock shown when nothing remains reads as zero. */
  lemma ZeroClock()
    ensures IsClock("00:00:00")
    ensures ClockHours("00:00:00") == 0 && ClockMinutes("00:00:00") == 0 && ClockSeconds("00:00:00") == 0
  {
    assert "00:00:00" == "00" + ":" + "00" + ":" + "00";
    ClockFields("00", "00", "00");
    ZerosValue("00");
  }

  /** A clock assembled from digit fields reads back field by field. */
  lemma ClockFields(h: string, m: string, s: string)
    requires |h| >= 2 && |m| == 2 && |s| == 2
    requires forall i :: 0 <= i < |h| ==> IsDigit(h[i])
    requires IsDigit(m[0]) && IsDigit(m[1]) && IsDigit(s[0]) && IsDigit(s[1])
    ensures var r := h + ":" + m + ":" + s;
      && IsClock(r)
      && ClockHours(r) == DigitsValue(h)
      && ClockMinutes(r) == DigitsValue(m)
      && ClockSeconds(r) == DigitsValue(s)
  {
    var tail := ":" + m + ":" + s;
    var r := h + tail;
    assert r == h + ":" + m + ":" + s;
    assert tail == [':', m[0], m[1], ':', s[0], s[1]];
    assert r[..|r| - 6] == h;
    assert forall i :: 0 <= i < |r| - 6 ==> r[i] == h[i];
    assert r[|r| - 6..] == tail;
    DigitsValue2(m);
    DigitsValue2(s);
  }

  /** A number followed by its unit letter, as the remaining-time texts show it. */
  datatype Shown = Shown(value: nat, unit: char)

  function UnitSeconds(unit: char): nat {
    match unit
    case 'd' => 86400
    case 'h' => 3600
    case 'm' => 60
    case _ => 1
  }

  /** The seconds a list of shown parts stands for. */
  function ShownSeconds(parts: seq<Shown>): nat {
    if parts == [] then 0 else parts[0].value * UnitSeconds(parts[0].unit) + ShownSeconds(parts[1..])
  }

  /** The seconds three shown parts stand for. */
  lemma ShownSecondsOf3(a: Shown, b: Shown, c: Shown)
    ensures ShownSeconds([a, b, c])
         == a.value * UnitSeconds(a.unit) + b.value * UnitSeconds(b.unit) + c.value * UnitSeconds(c.unit)
  {
    assert [a, b, c][1..] == [b, c] && [b, c][1..] == [c] && [c][1..] == [];
    assert ShownSeconds([c]) == c.value * UnitSeconds(c.unit);
    assert ShownSeconds([b, c]) == b.value * UnitSeconds(b.unit) + c.value * UnitSeconds(c.unit);
  }

  /** A part as text: the decimal digits of its value, read back as that value, then its unit letter. */
  function ShowPart(p: Shown): (s: string)
    ensures |s| >= 2 && s[|s| - 1] == p.unit
    ensures forall i :: 0 <= i < |s| - 1 ==> IsDigit(s[i])
    ensures DigitsValue(s[..|s| - 1]) == p.value
    ensures s[0] == '0' ==> |s| == 2
  {
    var digits := NatToString(p.value);
    NatToStringRoundTrip(p.value);
    assert (digits + [p.unit])[..|digits|] == digits;
    digits + [p.unit]
  }

  /** The seconds of a concatenation of parts add up. */
  lemma {:induction false} ShownSecondsAppend(a: seq<Shown>, b: seq<Shown>)
    ensures ShownSeconds(a + b) == ShownSeconds(a) + ShownSeconds(b)
  {
    if a == [] {
      assert a + b == b;
    } else {
      assert (a + b)[1..] == a[1..] + b;
      ShownSecondsAppend(a[1..], b);
    }
  }

  /**
   * The unit letter `formatTimeRemainingHuman` ends with: seconds below one
   * hour when some remain, otherwise minutes when some remain, otherwise hours.
   */
  function HumanUnit(t: Hms): char {
    if t.hours == 0 && t.secs > 0 then 's' else if t.minutes > 0 then 'm' else 'h'
  }

  /** The field of a split time that a unit letter names. */
  function HmsField(t: Hms, unit: char): nat {
    if unit == 'h' then t.hours else if unit == 'm' then t.minutes else t.secs
  }

  /**
   * The parts `formatTimeRemainingHuman` pushes, as values: hours, minutes
   * and seconds, each only when non-zero, and seconds only below one hour.
   */
  function HumanShown(t: Hms): (parts: seq<Shown>)
    ensures |parts| <= 3
    ensures forall i :: 0 <= i < |parts| ==> parts[i].value > 0 && parts[i].unit in "hms"
    ensures forall i, j :: 0 <= i < j < |parts| ==> UnitSeconds(parts[i].unit) > UnitSeconds(parts[j].unit)
    ensures forall i :: 0 <= i < |parts| && parts[i].unit == 's' ==> t.hours == 0
    ensures parts == [] <==> t.hours == 0 && t.minutes == 0 && t.secs == 0
    ensures parts != [] ==> parts[|parts| - 1].unit == HumanUnit(t)
  {
    PartIf(t.hours > 0, Shown(t.hours, 'h'))
    + PartIf(t.minutes > 0, Shown(t.minutes, 'm'))
    + PartIf(t.hours == 0 && t.secs > 0, Shown(t.secs, 's'))
  }

  /**
   * Which parts `formatTimeRemainingHuman` pushes and what each holds: an
   * hours part exactly when there are hours, a minutes part exactly when
   * there are minutes, a seconds part exactly when there are seconds and no
   * hours, each holding its own field of the split time.
   */
  lemma HumanShownFields(t: Hms)
    ensures var parts := HumanShown(t);
      && (forall i :: 0 <= i < |parts| ==> parts[i].value == HmsField(t, parts[i].unit))
      && ((exists i :: 0 <= i < |parts| && parts[i].unit == 'h') <==> t.hours > 0)
      && ((exists i :: 0 <= i < |parts| && parts[i].unit == 'm') <==> t.minutes > 0)
      && ((exists i :: 0 <= i < |parts| && parts[i].unit == 's') <==> t.hours == 0 && t.secs > 0)
  {
    var hs := PartIf(t.hours > 0, Shown(t.hours, 'h'));
    var ms := PartIf(t.minutes > 0, Shown(t.minutes, 'm'));
    var ss := PartIf(t.hours == 0 && t.secs > 0, Shown(t.secs, 's'));
    var parts := hs + ms + ss;
    assert parts == HumanShown(t);
    if t.hours > 0 {
      assert parts[0].unit == 'h';
    }
    if t.minutes > 0 {
      assert parts[|hs|].unit == 'm';
    }
    if t.hours == 0 && t.secs > 0 {
      assert parts[|hs| + |ms|].unit == 's';
    }
  }

  /** `if (shown) parts.push(part)`, as the list pushed. */
  function PartIf(shown: bool, part: Shown): (parts: seq<Shown>)
    ensures parts == (if shown then [part] else [])
    ensures ShownSeconds(parts) == if shown then part.value * UnitSeconds(part.unit) else 0
  {
    if shown then assert [part][1..] == []; [part] else []
  }

  /** The parts add up to the hours and minutes, plus the seconds only when there are no hours. */
  lemma HumanShownValue(t: Hms)
    ensures ShownSeconds(HumanShown(t)) == t.hours * 3600 + t.minutes * 60 + (if t.hours == 0 then t.secs else 0)
  {
    var hs := PartIf(t.hours > 0, Shown(t.hours, 'h'));
    var ms := PartIf(t.minutes > 0, Shown(t.minutes, 'm'));
    var ss := PartIf(t.hours == 0 && t.secs > 0, Shown(t.secs, 's'));
    ShownSecondsAppend(hs, ms);
    ShownSecondsAppend(hs + ms, ss);
  }

  /** The parts of `formatTimeRemainingHuman` as text: each value followed by its unit letter. */
  function HumanParts(t: Hms): (parts: seq<string>)
    ensures |parts| == |HumanShown(t)|
    ensures forall i :: 0 <= i < |parts| ==> parts[i] == ShowPart(HumanShown(t)[i])
    ensures forall i :: 0 <= i < |parts| ==> parts[i] != [] && IsDigit(parts[i][0])
    ensures parts == [] <==> t.hours == 0 && t.minutes == 0 && t.secs == 0
    ensures parts != [] ==> parts[|parts| - 1][|parts[|parts| - 1]| - 1] == HumanUnit(t)
  {
    ShowAll(HumanShown(t))
  }

  /** Each part as text, in order. */
  function ShowAll(shown: seq<Shown>): (parts: seq<string>)
    ensures |parts| == |shown|
    ensures forall i :: 0 <= i < |parts| ==> parts[i] == ShowPart(shown[i])
  {
    seq(|shown|, i requires 0 <= i < |shown| => ShowPart(shown[i]))
  }

  /** A join of non-empty parts starts with the first part's first character and ends with the last part's last. */
  lemma JoinEnds(parts: seq<string>, sep: string)
    requires parts != [] && forall i :: 0 <= i < |parts| ==> parts[i] != []
    ensures var r := Join(parts, sep);
      && r != [] && r[0] == parts[0][0]
      && r[|r| - 1] == parts[|parts| - 1][|parts[|parts| - 1]| - 1]
  {
    var r := Join(parts, sep);
    var last := parts[|parts| - 1];
    assert r[|r| - |last|..][|last| - 1] == last[|last| - 1];
  }

  /**
   * `formatTimeRemainingHuman(seconds)`: `'Ended'` exactly when nothing
   * remains; otherwise it starts with a digit and ends with the unit of its
   * smallest part shown, where seconds are shown only below one hour.
   */
  function FormatTimeRemainingHuman(seconds: int): (r: string)
    ensures r != []
    ensures r == "Ended" <==> seconds <= 0
    ensures seconds > 0 ==> IsDigit(r[0])
    ensures seconds > 0 ==> r[|r| - 1] == HumanUnit(SplitHms(seconds))
  {
    if seconds <= 0 then "Ended"
    else
      var parts := HumanParts(SplitHms(seconds));
      JoinEnds(parts, " ");
      var joined := Join(parts, " ");
      if joined == [] then "0s" else joined
  }

  /**
   * What `formatTimeRemainingHuman` shows for a positive time: its parts
   * joined by spaces (the `'0s'` fallback is never reached), standing for
   * the exact time below one hour and for the time truncated to the minute
   * from one hour on.
   */
  lemma FormatTimeRemainingHumanValue(seconds: int)
    requires seconds > 0
    ensures FormatTimeRemainingHuman(seconds) == Join(HumanParts(SplitHms(seconds)), " ")
    ensures seconds < 3600 ==> ShownSeconds(HumanShown(SplitHms(seconds))) == seconds
    ensures seconds >= 3600 ==> ShownSeconds(HumanShown(SplitHms(seconds))) == seconds - seconds % 60
  {
    JoinEnds(HumanParts(SplitHms(seconds)), " ");
    SplitValue(seconds, SplitHms(seconds));
  }

  /** The split parts of a positive time add up as `FormatTimeRemainingHumanValue` states. */
  lemma SplitValue(seconds: nat, t: Hms)
    requires seconds > 0 && t.minutes < 60 && t.secs < 60
    requires t.hours * 3600 + t.minutes * 60 + t.secs == seconds
    ensures seconds < 3600 ==> ShownSeconds(HumanShown(t)) == seconds
    ensures seconds >= 3600 ==> ShownSeconds(HumanShown(t)) == seconds - seconds % 60
  {
    HumanShownValue(t);
    if t.hours > 0 {
      Countdown.MinuteRemainder(seconds, t.hours * 60 + t.minutes, t.secs);
    }
  }
}
