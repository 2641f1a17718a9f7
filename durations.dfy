/** The duration helpers the working-hours and sleep screens share.
    `formatDuration` is written out identically in pages/WorkingHours.js,
    FixedWorkingHours.js, pages/Sleep.js and components/sleeps/Index.js;
    `calculateStats` identically in the first three. Each is defined once here. */
module Durations {
  import opened Wrappers
  import opened Text
  import opened JsMath
  import Seqs

  datatype HoursMinutes = HoursMinutes(hours: int, minutes: int)

  /** `Math.floor(total / 60)` and `total % 60`. For a non-negative number of
      minutes the two parts add back up, the minutes below an hour. */
  function SplitDuration(total: int): (hm: HoursMinutes)
    ensures total >= 0 ==> 60 * hm.hours + hm.minutes == total && 0 <= hm.minutes < 60
    ensures total < 0 ==> hm.hours < 0 && -60 < hm.minutes <= 0
  {
    HoursMinutes(FloorDiv(total, 60), Rem(total, 60))
  }

  /** A negative duration that is not a whole number of hours does not split
      back into itself: the hours are floored but the remainder keeps the
      sign, so the parts add up to an hour less (-90 minutes shows as "-2h -30m"). */
  lemma NegativeDurationDoesNotAddUp(total: int)
    requires total < 0
    ensures (-total) % 60 == 0 ==> 60 * SplitDuration(total).hours + SplitDuration(total).minutes == total
    ensures (-total) % 60 != 0 ==> 60 * SplitDuration(total).hours + SplitDuration(total).minutes == total - 60
  {
    var q, r := (-total) / 60, (-total) % 60;
    assert -total == 60 * q + r && 0 <= r < 60;
    assert Rem(total, 60) == -r;
    if r == 0 {
      assert total == 60 * (-q);
      assert FloorDiv(total, 60) == -q;
    } else {
      assert total == 60 * (-q - 1) + (60 - r);
      assert FloorDiv(total, 60) == -q - 1;
    }
  }

  /** `${hours}h ${mins}m`. */
  function FormatDuration(total: int): string {
    var hm := SplitDuration(total);
    IntToString(hm.hours) + "h " + IntToString(hm.minutes) + "m"
  }

  /** Reads "<h>h <m>m" back as 60 * h + m minutes. */
  function ParseDuration(s: string): Option<int> {
    match SplitFirst(s, 'h')
    case None => None
    case Some(parts) =>
      var rest := parts.1;
      if |rest| < 2 || rest[0] != ' ' || rest[|rest| - 1] != 'm' then None
      else
        match (ParseInt(parts.0), ParseInt(rest[1..|rest| - 1]))
        case (Some(h), Some(m)) => Some(60 * h + m)
        case _ => None
  }

  /** The rendered text determines the duration: reading it back gives the minutes. */
  lemma FormatDurationRoundTrip(total: nat)
    ensures ParseDuration(FormatDuration(total)) == Some(total)
  {
    var hm := SplitDuration(total);
    var a := IntToString(hm.hours);
    var b := " " + IntToString(hm.minutes) + "m";
    IntToStringHasNoSeparator(hm.hours, 'h');
    assert FormatDuration(total) == a + ['h'] + b;
    SplitFirstAt(a, 'h', b);
    assert b[1..|b| - 1] == IntToString(hm.minutes);
    IntToStringRoundTrip(hm.hours);
    IntToStringRoundTrip(hm.minutes);
  }

  /** The badge of a sleep record, components/sleeps/Index.js `getHealthStatus`. */
  datatype HealthStatus = Insufficient | BelowRecommended | Healthy | Extended {
    function Color(): string {
      match this
      case Insufficient => "danger"
      case BelowRecommended => "warning"
      case Healthy => "success"
      case Extended => "info"
    }

    function Text(): string {
      match this
      case Insufficient => "Insufficient"
      case BelowRecommended => "Below Recommended"
      case Healthy => "Healthy"
      case Extended => "Extended"
    }

    /** Position of the band, shortest sleep first. */
    function Rank(): nat {
      match this
      case Insufficient => 0
      case BelowRecommended => 1
      case Healthy => 2
      case Extended => 3
    }
  }

  /** The bands compare `minutes / 60` with 6, 7 and 9 hours. */
  function GetHealthStatus(minutes: int): HealthStatus {
    var hours := minutes as real / 60.0;
    if hours < 6.0 then Insufficient
    else if hours < 7.0 then BelowRecommended
    else if hours <= 9.0 then Healthy
    else Extended
  }

  /** The same bands in whole minutes: under 360, 360 to 419, 420 to 540, over 540. */
  lemma HealthStatusBands(minutes: int)
    ensures GetHealthStatus(minutes) == Insufficient <==> minutes < 360
    ensures GetHealthStatus(minutes) == BelowRecommended <==> 360 <= minutes < 420
    ensures GetHealthStatus(minutes) == Healthy <==> 420 <= minutes <= 540
    ensures GetHealthStatus(minutes) == Extended <==> minutes > 540
  {
    var hours := minutes as real / 60.0;
    assert hours * 60.0 == minutes as real;
    assert hours < 6.0 <==> minutes < 360;
    assert hours < 7.0 <==> minutes < 420;
    assert hours <= 9.0 <==> minutes <= 540;
  }

  /** More minutes never move a record to a shorter band. */
  lemma HealthStatusMonotone(m1: int, m2: int)
    requires m1 <= m2
    ensures GetHealthStatus(m1).Rank() <= GetHealthStatus(m2).Rank()
  {
    HealthStatusBands(m1);
    HealthStatusBands(m2);
  }

  datatype Stats = Stats(average: int, total: int, count: nat)

  /** `calculateStats` over the durations of the records in the list, `None`
      standing for a list that is still `null`. */
  function CalculateStats(durations: Option<seq<int>>): (st: Stats)
    ensures durations.None? || durations.value == [] ==> st == Stats(0, 0, 0)
    ensures durations.Some? && durations.value != [] ==>
      && st.count == |durations.value|
      && st.total == Seqs.Sum(durations.value)
      && 2 * st.count * st.average - st.count <= 2 * st.total < 2 * st.count * st.average + st.count
  {
    if durations.None? || durations.value == [] then Stats(0, 0, 0)
    else
      var total := Seqs.Sum(durations.value);
      Stats(RoundDiv(total, |durations.value|), total, |durations.value|)
  }
}
