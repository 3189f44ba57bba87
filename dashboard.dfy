/**
 * The dashboard: the relative time of a recent activity, the activity and upcoming-payment
 * badges, and the divisor of the average-frequency card.
 */
module Dashboard {
  import opened Common
  import opened Text

  /**
   * formatRelativeTime on the elapsed whole minutes (the floor of the clock difference): minutes
   * below an hour, hours below a day, days beyond.
   */
  function FormatRelativeTime(minutes: int): string {
    if minutes < 60 then IntToString(minutes) + " min atrás"
    else if minutes < 1440 then
      var hours := minutes / 60;
      IntToString(hours) + " hora" + (if hours > 1 then "s" else "") + " atrás"
    else
      var days := minutes / 1440;
      IntToString(days) + " dia" + (if days > 1 then "s" else "") + " atrás"
  }

  /** Under an hour, negative counts included, the text is the minute count itself. */
  lemma MinutesBucket(minutes: int)
    requires minutes < 60
    ensures FormatRelativeTime(minutes) == IntToString(minutes) + " min atrás"
  {
  }

  /** From one hour to under a day: whole hours 1..23, plural from 2 hours on. */
  lemma HoursBucket(minutes: int)
    requires 60 <= minutes < 1440
    ensures var h := minutes / 60;
      1 <= h <= 23 && 60 * h <= minutes < 60 * h + 60
      && FormatRelativeTime(minutes) == IntToString(h) + (if h == 1 then " hora atrás" else " horas atrás")
  {
    var h := minutes / 60;
    assert IntToString(h) + " hora" + (if h > 1 then "s" else "") + " atrás"
      == IntToString(h) + (if h == 1 then " hora atrás" else " horas atrás");
  }

  /** From one day on: whole days, at least 1, plural from 2 days on. */
  lemma DaysBucket(minutes: int)
    requires minutes >= 1440
    ensures var d := minutes / 1440;
      d >= 1 && 1440 * d <= minutes < 1440 * d + 1440
      && FormatRelativeTime(minutes) == IntToString(d) + (if d == 1 then " dia atrás" else " dias atrás")
  {
    var d := minutes / 1440;
    assert IntToString(d) + " dia" + (if d > 1 then "s" else "") + " atrás"
      == IntToString(d) + (if d == 1 then " dia atrás" else " dias atrás");
  }

  /** Different elapsed times within the minute bucket never read the same. */
  lemma MinutesDistinguished(a: int, b: int)
    requires a < 60 && b < 60 && a != b
    ensures FormatRelativeTime(a) != FormatRelativeTime(b)
  {
    var suffix := " min atrás";
    if FormatRelativeTime(a) == FormatRelativeTime(b) {
      assert IntToString(a) + suffix == IntToString(b) + suffix;
      assert IntToString(a) == (IntToString(a) + suffix)[..|IntToString(a) + suffix| - |suffix|];
      assert IntToString(b) == (IntToString(b) + suffix)[..|IntToString(b) + suffix| - |suffix|];
      IntToStringInjective(a, b);
    }
  }

  /** getActivityBadgeVariant. */
  function ActivityBadge(kind: string, status: string): (r: string)
    ensures r == "destructive" <==> kind == "payment" && status == "OVERDUE"
    ensures r == "default" <==> kind == "payment" && status == "PAID"
    ensures r == "outline" <==> kind != "payment" && kind != "appointment"
    ensures r == "secondary" <==> kind == "appointment" || (kind == "payment" && status != "PAID" && status != "OVERDUE")
  {
    if kind == "payment" then (if status == "PAID" then "default" else if status == "OVERDUE" then "destructive" else "secondary")
    else if kind == "appointment" then "secondary"
    else "outline"
  }

  /** The status only matters for payments: an appointment's badge is the same whatever its status. */
  lemma ActivityStatusOnlyForPayments(kind: string, s1: string, s2: string)
    requires kind != "payment"
    ensures ActivityBadge(kind, s1) == ActivityBadge(kind, s2)
  {
  }

  /** The badge of an upcoming payment by the days left until it is due. */
  function UpcomingBadge(diffDays: int): (r: string)
    ensures r == "destructive" <==> diffDays == 0
    ensures r == "secondary" <==> diffDays == 1
    ensures r == "outline" <==> diffDays != 0 && diffDays != 1
  {
    if diffDays == 0 then "destructive" else if diffDays == 1 then "secondary" else "outline"
  }

  /**
   * The divisor of "Frequência Média": `Math.max(active || 1, 1)`; None is an absent count. It is
   * never below 1, so the average is always defined.
   */
  function FrequencyDivisor(active: Option<int>): (d: int)
    ensures d >= 1
    ensures active.Some? && active.value >= 1 ==> d == active.value
    ensures !(active.Some? && active.value >= 1) ==> d == 1
  {
    var a := if active.Some? && active.value != 0 then active.value else 1;
    if a > 1 then a else 1
  }
}
