/**
 * The popup panel: the plan label, one progress bar per quota window (clamped width,
 * colour tier, reset countdown) and the status line driven by the highest window.
 * Each function returns what the panel writes into the page.
 */
module Popup {
  import opened Wrappers
  import opened Numbers
  import opened Colors
  import opened UsageData

  // ---------------------------------------------------------------------------
  // Plan label
  // ---------------------------------------------------------------------------

  /** Display names of the known rate-limit tiers; any other tier is the free plan. */
  const PlanMap: map<string, string> := map[
    "default_claude_max_20x" := "Max 20x",
    "default_claude_max_5x" := "Max 5x",
    "default_claude_pro" := "Pro"]

  /** The header's plan label for the organization's rate-limit tier. */
  function PlanLabel(tier: Option<string>): (name: string)
    ensures tier == Some("default_claude_max_20x") ==> name == "Max 20x"
    ensures tier == Some("default_claude_max_5x") ==> name == "Max 5x"
    ensures tier == Some("default_claude_pro") ==> name == "Pro"
    ensures name == "Free" <==>
      tier !in {Some("default_claude_max_20x"), Some("default_claude_max_5x"), Some("default_claude_pro")}
  {
    if tier.Some? && tier.value in PlanMap then PlanMap[tier.value] else "Free"
  }

  // ---------------------------------------------------------------------------
  // Progress bar
  // ---------------------------------------------------------------------------

  /** The bar width: the utilization clamped to 0..100. */
  function ClampPercent(utilization: real): (pct: real)
    ensures 0.0 <= pct <= 100.0
    ensures 0.0 <= utilization <= 100.0 ==> pct == utilization
    ensures utilization < 0.0 ==> pct == 0.0
    ensures utilization > 100.0 ==> pct == 100.0
  {
    var atLeastZero := if utilization > 0.0 then utilization else 0.0;
    if atLeastZero < 100.0 then atLeastZero else 100.0
  }

  /** The bar colour: red above 80, amber above 50, green otherwise. */
  function BarColor(pct: real): (color: string)
    ensures color == Red <==> pct > 80.0
    ensures color == Amber <==> 50.0 < pct <= 80.0
    ensures color == Green <==> pct <= 50.0
  {
    if pct > 80.0 then Red
    else if pct > 50.0 then Amber
    else Green
  }

  /** The remaining time until a reset, in the unit the countdown shows. */
  datatype Countdown =
    | NoResetTime
    | AlreadyReset
    | InDays(days: nat)
    | InHoursMinutes(hours: nat, minutes: nat)
    | InMinutes(minutes: nat)

  /** `diffMs` split the way the countdown does: whole minutes, hours, leftover minutes, days. */
  datatype TimeParts = TimeParts(diffMins: nat, diffHours: nat, remMins: nat, diffDays: nat)

  function Decompose(diffMs: int): (p: TimeParts)
    requires diffMs > 0
    ensures p.diffMins * MsPerMinute <= diffMs < (p.diffMins + 1) * MsPerMinute
    ensures p.diffHours * 60 + p.remMins == p.diffMins && p.remMins < 60
    ensures p.diffDays * 24 <= p.diffHours < (p.diffDays + 1) * 24
  {
    var diffMins := diffMs / 60000;
    var diffHours := diffMins / 60;
    var remMins := diffMins % 60;
    var diffDays := diffHours / 24;
    TimeParts(diffMins, diffHours, remMins, diffDays)
  }

  /**
   * The countdown to `resetsAt` seen at `now`: whole days when at least a day is left,
   * else whole hours and minutes when at least an hour is left, else whole minutes.
   */
  function CountdownOf(resetsAt: Option<int>, now: int): (c: Countdown)
    ensures c == NoResetTime <==> resetsAt.None?
    ensures c == AlreadyReset <==> resetsAt.Some? && resetsAt.value - now <= 0
    ensures c.InDays? <==> resetsAt.Some? && resetsAt.value - now >= MsPerDay
    ensures c.InHoursMinutes? <==> resetsAt.Some? && MsPerHour <= resetsAt.value - now < MsPerDay
    ensures c.InMinutes? <==> resetsAt.Some? && 0 < resetsAt.value - now < MsPerHour
    ensures c.InDays? ==>
      c.days * MsPerDay <= resetsAt.value - now < (c.days + 1) * MsPerDay
    ensures c.InHoursMinutes? ==>
      1 <= c.hours < 24 && c.minutes < 60
      && (c.hours * 60 + c.minutes) * MsPerMinute <= resetsAt.value - now
      && resetsAt.value - now < (c.hours * 60 + c.minutes + 1) * MsPerMinute
    ensures c.InMinutes? ==>
      c.minutes < 60
      && c.minutes * MsPerMinute <= resetsAt.value - now < (c.minutes + 1) * MsPerMinute
  {
    if resetsAt.None? then NoResetTime
    else
      var diffMs := resetsAt.value - now;
      if diffMs > 0 then
        var p := Decompose(diffMs);
        if p.diffDays > 0 then InDays(p.diffDays)
        else if p.diffHours > 0 then InHoursMinutes(p.diffHours, p.remMins)
        else InMinutes(p.remMins)
      else AlreadyReset
  }

  /** The countdown as the panel words it. */
  function CountdownText(c: Countdown): (text: string)
    ensures text == "" <==> c == NoResetTime
    ensures text == "リセット済み" <==> c == AlreadyReset
  {
    match c
    case NoResetTime => ""
    case AlreadyReset => "リセット済み"
    case InDays(d) => DecimalString(d) + "日後にリセット"
    case InHoursMinutes(h, m) => DecimalString(h) + "時間" + DecimalString(m) + "分後にリセット"
    case InMinutes(m) => DecimalString(m) + "分後にリセット"
  }

  /** The part of a numeric countdown text in front of the common ending "後にリセット". */
  function CountdownStem(c: Countdown): string
    requires c.InDays? || c.InHoursMinutes? || c.InMinutes?
  {
    match c
    case InDays(d) => DecimalString(d) + "日"
    case InHoursMinutes(h, m) => DecimalString(h) + "時間" + DecimalString(m) + "分"
    case InMinutes(m) => DecimalString(m) + "分"
  }

  /** Different countdowns are worded differently: the text determines the countdown. */
  lemma CountdownTextInjective(c1: Countdown, c2: Countdown)
    requires CountdownText(c1) == CountdownText(c2)
    ensures c1 == c2
  {
    if !(c1.NoResetTime? || c1.AlreadyReset? || c2.NoResetTime? || c2.AlreadyReset?) {
      var ending := "後にリセット";
      StemThenEnding(c1);
      StemThenEnding(c2);
      CancelSuffix(CountdownStem(c1), CountdownStem(c2), ending);
      var s1, s2 := CountdownStem(c1), CountdownStem(c2);
      assert s1[|s1| - 1] == (if c1.InDays? then '日' else '分');
      assert s2[|s2| - 1] == (if c2.InDays? then '日' else '分');
      match c1
      case InDays(d1) =>
        CancelSuffix(DecimalString(d1), DecimalString(c2.days), "日");
        DecimalInjective(d1, c2.days);
      case InMinutes(m1) =>
        if c2.InHoursMinutes? {
          CancelSuffix(DecimalString(m1), DecimalString(c2.hours) + "時間" + DecimalString(c2.minutes), "分");
          NoHourMarkInDigits(DecimalString(c2.hours), DecimalString(c2.minutes), DecimalString(m1));
        } else {
          CancelSuffix(DecimalString(m1), DecimalString(c2.minutes), "分");
          DecimalInjective(m1, c2.minutes);
        }
      case InHoursMinutes(h1, m1) =>
        var h1s, m1s := DecimalString(h1), DecimalString(m1);
        if c2.InMinutes? {
          CancelSuffix(h1s + "時間" + m1s, DecimalString(c2.minutes), "分");
          NoHourMarkInDigits(h1s, m1s, DecimalString(c2.minutes));
        } else {
          var h2s, m2s := DecimalString(c2.hours), DecimalString(c2.minutes);
          CancelSuffix(h1s + "時間" + m1s, h2s + "時間" + m2s, "分");
          HoursMinutesSplit(h1s, m1s, h2s, m2s);
          DecimalInjective(h1, c2.hours);
          DecimalInjective(m1, c2.minutes);
        }
    }
  }

  lemma StemThenEnding(c: Countdown)
    requires c.InDays? || c.InHoursMinutes? || c.InMinutes?
    ensures CountdownText(c) == CountdownStem(c) + "後にリセット"
  {
  }

  lemma CancelSuffix(a: string, b: string, t: string)
    requires a + t == b + t
    ensures a == b
  {
    assert |a| == |b|;
    assert a == (a + t)[..|a|];
    assert b == (b + t)[..|b|];
  }

  /** A string of digits never equals a text that contains the hour mark "時". */
  lemma NoHourMarkInDigits(h: string, m: string, digits: string)
    requires AllDigits(digits)
    ensures h + "時間" + m != digits
  {
    var t := h + "時間" + m;
    assert t[|h|] == '時';
    assert !IsDigit(t[|h|]);
  }

  /** Hours-and-minutes texts with digit-only numbers split at the hour mark uniquely. */
  lemma HoursMinutesSplit(h1: string, m1: string, h2: string, m2: string)
    requires AllDigits(h1) && AllDigits(h2)
    requires h1 + "時間" + m1 == h2 + "時間" + m2
    ensures h1 == h2 && m1 == m2
  {
    var t := h1 + "時間" + m1;
    assert t[|h1|] == '時' && t[|h2|] == '時';
    assert forall i :: 0 <= i < |h1| ==> t[i] == h1[i];
    assert forall i :: 0 <= i < |h2| ==> t[i] == h2[i];
    assert |h1| == |h2|;
    assert h1 == t[..|h1|] == h2;
    assert m1 == t[|h1| + 2..] == m2;
  }

  /** Everything one progress bar shows. */
  datatype ProgressBar = ProgressBar(widthPct: real, valueText: string, color: string, resetText: string)

  /** One window's progress bar at instant `now`. */
  function ProgressBarView(utilization: real, resetsAt: Option<int>, now: int): (bar: ProgressBar)
    ensures 0.0 <= bar.widthPct <= 100.0
    ensures 0.0 <= utilization <= 100.0 ==> bar.widthPct == utilization
    ensures utilization < 0.0 ==> bar.widthPct == 0.0
    ensures utilization > 100.0 ==> bar.widthPct == 100.0
    ensures var t := bar.valueText;
      |t| > 1 && t[|t| - 1] == '%' && ParseDecimal(t[..|t| - 1]) == Some(Round(bar.widthPct))
    ensures bar.resetText == CountdownText(CountdownOf(resetsAt, now))
    ensures bar.color == Red <==> utilization > 80.0
    ensures bar.color == Amber <==> 50.0 < utilization <= 80.0
    ensures bar.color == Green <==> utilization <= 50.0
    ensures bar.resetText == "" <==> resetsAt.None?
  {
    var pct := ClampPercent(utilization);
    var c := CountdownOf(resetsAt, now);
    var valueText := DecimalString(Round(pct)) + "%";
    assert valueText[..|valueText| - 1] == DecimalString(Round(pct));
    DecimalRoundTrip(Round(pct));
    ProgressBar(pct, valueText, BarColor(pct), CountdownText(c))
  }

  // ---------------------------------------------------------------------------
  // Status line
  // ---------------------------------------------------------------------------

  /** The four windows' utilizations, a missing one read as 0. */
  function Utilizations(usage: Usage): (us: seq<real>)
    ensures |us| == 4
  {
    [UtilizationOrZero(usage.fiveHour), UtilizationOrZero(usage.sevenDay),
     UtilizationOrZero(usage.sevenDaySonnet), UtilizationOrZero(usage.sevenDayOpus)]
  }

  /** `Math.max` over a non-empty list: an element that no element exceeds. */
  function MaxOf(s: seq<real>): (m: real)
    requires |s| > 0
    ensures forall i :: 0 <= i < |s| ==> s[i] <= m
    ensures exists i :: 0 <= i < |s| && s[i] == m
    decreases |s|
  {
    if |s| == 1 then s[0]
    else
      var rest := MaxOf(s[..|s| - 1]);
      if s[|s| - 1] > rest then s[|s| - 1] else rest
  }

  datatype StatusLevel = NearLimit | Elevated | Normal

  /** The status level from the highest utilization: above 90 near the limit, above 80 elevated. */
  function StatusLevelOf(usage: Usage): (level: StatusLevel)
    ensures var us := Utilizations(usage);
      (level == NearLimit <==> exists i :: 0 <= i < 4 && us[i] > 90.0)
      && (level == Normal <==> forall i :: 0 <= i < 4 ==> us[i] <= 80.0)
  {
    var maxUtil := MaxOf(Utilizations(usage));
    if maxUtil > 90.0 then NearLimit
    else if maxUtil > 80.0 then Elevated
    else Normal
  }

  datatype StatusLine = StatusLine(text: string, color: string)

  function StatusMessage(level: StatusLevel): StatusLine {
    match level
    case NearLimit => StatusLine("⚠️ 使用量が上限に近づいています", Red)
    case Elevated => StatusLine("⚠️ 使用量が高くなっています", Orange)
    case Normal => StatusLine("✅ 通常通り利用可能です", Green)
  }

  // ---------------------------------------------------------------------------
  // The whole panel
  // ---------------------------------------------------------------------------

  /** What the popup reads from local storage. */
  datatype StoredData = StoredData(org: Option<Organization>, usage: Option<Usage>)

  datatype PopupView =
    | LoginWarning(planLabel: string)
    | Dashboard(
        planLabel: string,
        fiveHour: ProgressBar,
        sevenDay: ProgressBar,
        sonnet: Option<ProgressBar>,
        opus: Option<ProgressBar>,
        status: StatusLine)

  function WindowBar(w: Option<UsageWindow>, now: int): ProgressBar {
    ProgressBarView(UtilizationOrZero(w), ResetsAtOf(w), now)
  }

  function OptionalBar(w: Option<UsageWindow>, now: int): Option<ProgressBar> {
    if w.Some? then Some(WindowBar(w, now)) else None
  }

  /**
   * The panel for the stored data at `now`: without an organization or usage, the
   * login warning and an "Unknown" plan; otherwise the plan, the two main bars, the
   * Sonnet and Opus bars when those windows exist, and the status line.
   */
  function RenderPopup(data: StoredData, now: int): (view: PopupView)
    ensures view.LoginWarning? <==> data.org.None? || data.usage.None?
    ensures view.LoginWarning? ==> view.planLabel == "Unknown"
    ensures view.Dashboard? ==>
      var usage := data.usage.value;
      view.planLabel == PlanLabel(data.org.value.rateLimitTier)
      && view.fiveHour
           == ProgressBarView(UtilizationOrZero(usage.fiveHour), ResetsAtOf(usage.fiveHour), now)
      && view.sevenDay
           == ProgressBarView(UtilizationOrZero(usage.sevenDay), ResetsAtOf(usage.sevenDay), now)
      && (view.sonnet.Some? <==> usage.sevenDaySonnet.Some?)
      && (view.sonnet.Some? ==>
            view.sonnet.value == ProgressBarView(
              UtilizationOrZero(usage.sevenDaySonnet), ResetsAtOf(usage.sevenDaySonnet), now))
      && (view.opus.Some? <==> usage.sevenDayOpus.Some?)
      && (view.opus.Some? ==>
            view.opus.value == ProgressBarView(
              UtilizationOrZero(usage.sevenDayOpus), ResetsAtOf(usage.sevenDayOpus), now))
      && view.status == StatusMessage(StatusLevelOf(usage))
  {
    if data.org.None? || data.usage.None? then LoginWarning("Unknown")
    else
      var usage := data.usage.value;
      Dashboard(
        PlanLabel(data.org.value.rateLimitTier),
        WindowBar(usage.fiveHour, now),
        WindowBar(usage.sevenDay, now),
        OptionalBar(usage.sevenDaySonnet, now),
        OptionalBar(usage.sevenDayOpus, now),
        StatusMessage(StatusLevelOf(usage)))
  }
}
