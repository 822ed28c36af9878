/**
 * `calcTimeLeft` of frontend/src/components/Countdown.tsx, with the current
 * time `Math.floor(Date.now() / 1000)` as the parameter `nowSeconds`.
 */
module Countdown {
  import opened Common

  datatype TimeLeft = TimeLeft(days: nat, hours: nat, minutes: nat, seconds: nat)

  /** The component marks the auction expired when every field is zero. */
  predicate AllZero(t: TimeLeft) {
    t.days == 0 && t.hours == 0 && t.minutes == 0 && t.seconds == 0
  }

  function TotalSeconds(t: TimeLeft): nat {
    t.days * 86400 + t.hours * 3600 + t.minutes * 60 + t.seconds
  }

  /**
   * `calcTimeLeft(endTime)`: the remaining time, clamped at zero, split into
   * days, hours below 24, minutes below 60 and seconds below 60.
   */
  function CalcTimeLeft(endTime: int, nowSeconds: int): (t: TimeLeft)
    ensures t.hours < 24 && t.minutes < 60 && t.seconds < 60
    ensures TotalSeconds(t) == Max(0, endTime - nowSeconds)
    ensures AllZero(t) <==> endTime <= nowSeconds
  {
    var diff := Max(0, endTime - nowSeconds);
    var days := diff / 86400;
    var hours := (diff % 86400) / 3600;
    var minutes := (diff % 3600) / 60;
    var seconds := diff % 60;
    SplitDay(diff);
    TimeLeft(days, hours, minutes, seconds)
  }

  /** The div/mod identities behind `calcTimeLeft`'s four fields. */
  lemma SplitDay(diff: nat)
    ensures (diff % 86400) / 3600 < 24
    ensures (diff / 86400) * 86400 + ((diff % 86400) / 3600) * 3600 + ((diff % 3600) / 60) * 60 + diff % 60 == diff
  {
    var d, r := diff / 86400, diff % 86400;
    var h, r2 := r / 3600, r % 3600;
    var m, s := r2 / 60, r2 % 60;
    HourRemainder(diff, 24 * d + h, r2);
    MinuteRemainder(diff, 60 * (24 * d + h) + m, s);
  }

  /** A remainder below an hour is the remainder of the whole modulo 3600. */
  lemma HourRemainder(x: int, q: int, rest: int)
    requires 0 <= rest < 3600 && x == q * 3600 + rest
    ensures x % 3600 == rest
  {
  }

  /** A remainder below a minute is the remainder of the whole modulo 60. */
  lemma MinuteRemainder(x: int, q: int, rest: int)
    requires 0 <= rest < 60 && x == q * 60 + rest
    ensures x % 60 == rest
  {
  }
}
