/**
 * Human-readable sizes and durations shown while uploading and restoring: a size is divided
 * by 1024 until it is below 1024 or the unit is GB; a duration shows hours and minutes,
 * minutes and seconds, or seconds only.
 */
module Units {
  import opened Text

  const SizeUnits: seq<string> := ["B", "KB", "MB", "GB"]

  /** 1024 to the power k. */
  function Pow1024(k: nat): (p: nat)
    ensures p >= 1
  {
    if k == 0 then 1 else 1024 * Pow1024(k - 1)
  }

  /**
   * The unit a byte count is shown in: the largest power of 1024 not above it, capped at GB;
   * bytes below 1024 (or negative) stay in B.
   */
  function UnitOrder(bytes: int): (order: nat)
    ensures order < |SizeUnits|
    ensures order == 0 || Pow1024(order) <= bytes
    ensures order == |SizeUnits| - 1 || bytes < Pow1024(order + 1)
  {
    if bytes < 1024 then 0
    else if bytes < 1024 * 1024 then 1
    else if bytes < 1024 * 1024 * 1024 then 2
    else 3
  }

  /**
   * The number and unit a byte count is shown as (the number is later printed with two
   * decimals): the count over 1024 to the power of the unit's order.
   */
  method FormatFileSize(bytes: int) returns (size: real, unit: string)
    ensures unit == SizeUnits[UnitOrder(bytes)]
    ensures size * Pow1024(UnitOrder(bytes)) as real == bytes as real
    ensures size < 1024.0 || unit == "GB"
  {
    var order := 0;
    size := bytes as real;
    while size >= 1024.0 && order < |SizeUnits| - 1
      invariant 0 <= order < |SizeUnits|
      invariant size * Pow1024(order) as real == bytes as real
      invariant order == 0 || Pow1024(order) <= bytes
    {
      order := order + 1;
      size := size / 1024.0;
    }
    unit := SizeUnits[order];
    assert order == |SizeUnits| - 1 || bytes < Pow1024(order + 1);
  }

  /** How a duration is shown, by its largest non-zero unit. */
  datatype Duration =
    | HoursMinutes(hours: nat, minutes: nat)
    | MinutesSeconds(minutes: nat, seconds: nat)
    | Seconds(seconds: nat)

  const MsPerSecond: nat := 1000
  const MsPerMinute: nat := 60 * MsPerSecond
  const MsPerHour: nat := 60 * MsPerMinute

  /**
   * The parts of a non-negative duration in milliseconds: whole hours and the minutes past
   * them from one hour on, whole minutes and the seconds past them from one minute on,
   * otherwise whole seconds. Every part is truncated, never rounded.
   */
  function Parts(ms: nat): (d: Duration)
    ensures d.HoursMinutes? <==> ms >= MsPerHour
    ensures d.MinutesSeconds? <==> MsPerMinute <= ms < MsPerHour
    ensures d.HoursMinutes? ==>
      && d.hours >= 1 && d.minutes < 60
      && d.hours * MsPerHour + d.minutes * MsPerMinute <= ms < d.hours * MsPerHour + (d.minutes + 1) * MsPerMinute
    ensures d.MinutesSeconds? ==>
      && 1 <= d.minutes < 60 && d.seconds < 60
      && d.minutes * MsPerMinute + d.seconds * MsPerSecond <= ms < d.minutes * MsPerMinute + (d.seconds + 1) * MsPerSecond
    ensures d.Seconds? ==> d.seconds < 60 && d.seconds * MsPerSecond <= ms < (d.seconds + 1) * MsPerSecond
  {
    if ms >= MsPerHour then
      MinutesWithinHour(ms);
      HoursMinutes(ms / MsPerHour, ms / MsPerMinute % 60)
    else if ms >= MsPerMinute then
      SecondsWithinMinute(ms);
      MinutesSeconds(ms / MsPerMinute, ms / MsPerSecond % 60)
    else Seconds(ms / MsPerSecond)
  }

  /** The whole minutes of a duration from one hour on, and the hours, bracket it. */
  lemma MinutesWithinHour(ms: nat)
    ensures var h, m := ms / 3600000, ms / 60000 % 60;
      h * 3600000 + m * 60000 <= ms < h * 3600000 + (m + 1) * 60000
  {
    var q, h := ms / 60000, ms / 3600000;
    assert q * 60000 <= ms < q * 60000 + 60000;
    assert h * 3600000 <= ms < h * 3600000 + 3600000;
    assert h * 60 <= q < h * 60 + 60;
    assert q % 60 == q - h * 60;
  }

  /** The whole seconds of a duration from one minute on, and the minutes, bracket it. */
  lemma SecondsWithinMinute(ms: nat)
    ensures var m, s := ms / 60000, ms / 1000 % 60;
      m * 60000 + s * 1000 <= ms < m * 60000 + (s + 1) * 1000
  {
    var q, m := ms / 1000, ms / 60000;
    assert q * 1000 <= ms < q * 1000 + 1000;
    assert m * 60000 <= ms < m * 60000 + 60000;
    assert m * 60 <= q < m * 60 + 60;
    assert q % 60 == q - m * 60;
  }

  /** The text of a duration: "<h>时<m>分", "<m>分<s>秒" or "<s>秒". */
  function FormatTimeSpan(ms: nat): string {
    match Parts(ms)
    case HoursMinutes(h, m) => IntToString(h) + "时" + IntToString(m) + "分"
    case MinutesSeconds(m, s) => IntToString(m) + "分" + IntToString(s) + "秒"
    case Seconds(s) => IntToString(s) + "秒"
  }
}
