/**
 * The background worker's badge engine: the pacing calculator, the two per-window
 * badge classifiers, and the controller that renders the toolbar badge, alternating
 * between the five-hour and the seven-day window on a repeating timer.
 */
module Background {
  import opened Wrappers
  import opened Numbers
  import opened Colors
  import opened UsageData

  const FiveHourWindowHours: nat := 5
  const SevenDayWindowHours: nat := 168

  // ---------------------------------------------------------------------------
  // Pacing calculator
  // ---------------------------------------------------------------------------

  /**
   * The utilization (percent) a perfectly linear consumer would have reached by `now`
   * in a window of `totalWindowHours` that ends at `resetsAt`; `None` when the reset
   * time is absent, already passed, or lies a whole window or more ahead.
   */
  function ExpectedUtilization(resetsAt: Option<int>, now: int, totalWindowHours: nat): (r: Option<real>)
    ensures r.Some? <==> resetsAt.Some? && 0 < resetsAt.value - now < totalWindowHours * MsPerHour
    ensures r.Some? ==> 0.0 < r.value < 100.0
    ensures r.Some? ==>
      r.value * (totalWindowHours * MsPerHour) as real
        == 100.0 * (totalWindowHours * MsPerHour - (resetsAt.value - now)) as real
  {
    if resetsAt.None? then None
    else
      var diffMs := resetsAt.value - now;
      if diffMs <= 0 then None
      else
        var totalWindowMs := totalWindowHours * MsPerHour;
        var timeRemainingMs := diffMs;
        var timeElapsedMs := totalWindowMs - timeRemainingMs;
        if timeElapsedMs <= 0 then None
        else
          ElapsedShareBounds(timeElapsedMs, totalWindowMs);
          Some((timeElapsedMs as real / totalWindowMs as real) * 100.0)
  }

  /** The elapsed share of a window lies strictly between 0 and 1 and scales back exactly. */
  lemma ElapsedShareBounds(elapsed: int, total: int)
    requires 0 < elapsed < total
    ensures 0.0 < elapsed as real / total as real < 1.0
    ensures (elapsed as real / total as real) * 100.0 * total as real == 100.0 * elapsed as real
  {
  }

  /**
   * For a fixed reset instant and window, the expected utilization grows strictly
   * with `now`, and once defined it stays defined until the reset instant.
   */
  lemma {:induction false} ExpectedIncreasing(resetsAt: int, totalWindowHours: nat, now1: int, now2: int)
    requires ExpectedUtilization(Some(resetsAt), now1, totalWindowHours).Some?
    requires now1 < now2 < resetsAt
    ensures ExpectedUtilization(Some(resetsAt), now2, totalWindowHours).Some?
    ensures ExpectedUtilization(Some(resetsAt), now1, totalWindowHours).value
          < ExpectedUtilization(Some(resetsAt), now2, totalWindowHours).value
  {
    var total := totalWindowHours * MsPerHour;
    var e1 := ExpectedUtilization(Some(resetsAt), now1, totalWindowHours).value;
    var e2 := ExpectedUtilization(Some(resetsAt), now2, totalWindowHours).value;
    var t := total as real;
    var a := 100.0 * (total - (resetsAt - now1)) as real;
    var b := 100.0 * (total - (resetsAt - now2)) as real;
    assert e1 * t == a && e2 * t == b && a < b;
    MulLtCancel(e1, e2, t, a, b);
  }

  /** Dividing both sides of `a * t < b * t` by a positive `t`. */
  lemma MulLtCancel(a: real, b: real, t: real, x: real, y: real)
    requires a * t == x && b * t == y && x < y && 0.0 < t
    ensures a < b
  {
  }

  // ---------------------------------------------------------------------------
  // Badge classifiers
  // ---------------------------------------------------------------------------

  /** What one window's badge shows: nothing, or its utilization on a coloured background. */
  datatype BadgeData = Hidden | Shown(color: string)

  /**
   * The five-hour window's badge. Without a pace: 100 and above red, 90 and above amber.
   * With a pace: below 60 hidden, otherwise red when ahead of pace and amber when not.
   */
  function FiveHourBadgeData(utilization: int, resetsAt: Option<int>, now: int): (r: BadgeData)
    ensures var expected := ExpectedUtilization(resetsAt, now, FiveHourWindowHours);
      (r == Shown(Red) <==>
         (expected.None? && utilization >= 100)
         || (expected.Some? && utilization >= 60 && utilization as real > expected.value))
      && (r == Shown(Amber) <==>
         (expected.None? && 90 <= utilization < 100)
         || (expected.Some? && utilization >= 60 && utilization as real <= expected.value))
      && (r == Hidden <==>
         (expected.None? && utilization < 90) || (expected.Some? && utilization < 60))
  {
    var expected := ExpectedUtilization(resetsAt, now, FiveHourWindowHours);
    if expected.None? then
      if utilization >= 100 then Shown(Red)
      else if utilization >= 90 then Shown(Amber)
      else Hidden
    else if utilization < 60 then Hidden
    else
      var paceRatio := utilization as real / expected.value;
      PaceRatioAbove(utilization as real, expected.value);
      if paceRatio > 1.0 then Shown(Red) else Shown(Amber)
  }

  /**
   * The seven-day window's badge. Without a pace: 100 and above red, 80 and above amber.
   * With a pace: at most 0.8 of pace hidden, ahead of pace red, otherwise amber.
   */
  function SevenDayBadgeData(utilization: int, resetsAt: Option<int>, now: int): (r: BadgeData)
    ensures var expected := ExpectedUtilization(resetsAt, now, SevenDayWindowHours);
      (r == Shown(Red) <==>
         (expected.None? && utilization >= 100)
         || (expected.Some? && utilization as real > expected.value))
      && (r == Shown(Amber) <==>
         (expected.None? && 80 <= utilization < 100)
         || (expected.Some? && 0.8 * expected.value < utilization as real <= expected.value))
      && (r == Hidden <==>
         (expected.None? && utilization < 80)
         || (expected.Some? && utilization as real <= 0.8 * expected.value))
  {
    var expected := ExpectedUtilization(resetsAt, now, SevenDayWindowHours);
    if expected.None? then
      if utilization >= 100 then Shown(Red)
      else if utilization >= 80 then Shown(Amber)
      else Hidden
    else
      var paceRatio := utilization as real / expected.value;
      PaceRatioAbove(utilization as real, expected.value);
      PaceRatioAtMost(utilization as real, expected.value);
      if paceRatio <= 0.8 then Hidden
      else if paceRatio > 1.0 then Shown(Red)
      else Shown(Amber)
  }

  /** With a positive pace, being ahead of pace is the same as exceeding it. */
  lemma PaceRatioAbove(utilization: real, expected: real)
    requires expected > 0.0
    ensures utilization / expected > 1.0 <==> utilization > expected
  {
  }

  /** With a positive pace, a ratio of at most 0.8 is usage at most 0.8 of the pace. */
  lemma PaceRatioAtMost(utilization: real, expected: real)
    requires expected > 0.0
    ensures utilization / expected <= 0.8 <==> utilization <= 0.8 * expected
  {
  }

  /** At or over quota, both windows show red whether or not a pace is known. */
  lemma OverQuotaIsRed(utilization: int, resetsAt: Option<int>, now: int)
    requires utilization >= 100
    ensures FiveHourBadgeData(utilization, resetsAt, now) == Shown(Red)
    ensures SevenDayBadgeData(utilization, resetsAt, now) == Shown(Red)
  {
  }

  /** Reference points of both tables, with and without a known pace. */
  lemma ThresholdExamples(now: int)
    ensures FiveHourBadgeData(59, Some(now + 90 * MsPerMinute), now) == Hidden
    ensures FiveHourBadgeData(61, Some(now + 150 * MsPerMinute), now) == Shown(Red)
    ensures FiveHourBadgeData(61, Some(now + 90 * MsPerMinute), now) == Shown(Amber)
    ensures SevenDayBadgeData(50, Some(now + 3024 * MsPerMinute), now) == Hidden
    ensures SevenDayBadgeData(85, Some(now + 1008 * MsPerMinute), now) == Shown(Amber)
    ensures SevenDayBadgeData(85, Some(now + 2016 * MsPerMinute), now) == Shown(Red)
    ensures FiveHourBadgeData(89, None, now) == Hidden
    ensures FiveHourBadgeData(95, None, now) == Shown(Amber)
    ensures FiveHourBadgeData(100, None, now) == Shown(Red)
    ensures SevenDayBadgeData(79, None, now) == Hidden
    ensures SevenDayBadgeData(80, None, now) == Shown(Amber)
  {
  }

  /**
   * Five hours with one hour left is 80% of the way through; 95% usage is ahead of
   * that pace, so the badge reads H95 on red.
   */
  lemma OneHourLeftScenario(now: int)
    ensures ExpectedUtilization(Some(now + MsPerHour), now, FiveHourWindowHours) == Some(80.0)
    ensures FiveHourBadgeData(95, Some(now + MsPerHour), now) == Shown(Red)
    ensures Tag(FiveHour) + DecimalString(95) == "H95"
  {
  }

  // ---------------------------------------------------------------------------
  // Badge rotation
  // ---------------------------------------------------------------------------

  datatype Window = FiveHour | SevenDay

  /** The one-letter tag in front of a window's percentage. */
  function Tag(w: Window): string {
    match w
    case FiveHour => "H"
    case SevenDay => "W"
  }

  /** The windows rendered since a snapshot arrived start with the five-hour one and alternate. */
  ghost predicate Alternates(shown: seq<Window>) {
    (|shown| > 0 ==> shown[0] == FiveHour)
    && forall k :: 0 < k < |shown| ==> shown[k] != shown[k - 1]
  }

  /** An alternating run is H, W, H, W, ...: render `k` shows the five-hour window iff `k` is even. */
  lemma {:induction false} AlternatesByParity(shown: seq<Window>)
    requires Alternates(shown)
    ensures forall k :: 0 <= k < |shown| ==> (shown[k] == FiveHour <==> k % 2 == 0)
    decreases |shown|
  {
    if |shown| > 1 {
      var n := |shown| - 1;
      var prefix := shown[..n];
      assert Alternates(prefix);
      AlternatesByParity(prefix);
      assert forall k :: 0 <= k < n ==> shown[k] == prefix[k];
      assert shown[n] != shown[n - 1];
    }
  }

  /** What the render closure captures from a snapshot: rounded utilizations and reset instants. */
  datatype BadgeInputs = BadgeInputs(
    fiveHourUtil: int, fiveHourResetsAt: Option<int>,
    sevenDayUtil: int, sevenDayResetsAt: Option<int>)

  /**
   * The values captured at the start of a rotation: each utilization, with a missing
   * one read as 0, rounded to the nearest integer.
   */
  function CaptureInputs(usage: Usage): (inputs: BadgeInputs)
    ensures usage.fiveHour.None? ==> inputs.fiveHourUtil == 0 && inputs.fiveHourResetsAt.None?
    ensures usage.sevenDay.None? ==> inputs.sevenDayUtil == 0 && inputs.sevenDayResetsAt.None?
    ensures usage.fiveHour.Some? ==> inputs.fiveHourResetsAt == usage.fiveHour.value.resetsAt
    ensures usage.sevenDay.Some? ==> inputs.sevenDayResetsAt == usage.sevenDay.value.resetsAt
    ensures -0.5 < inputs.fiveHourUtil as real - UtilizationOrZero(usage.fiveHour) <= 0.5
    ensures -0.5 < inputs.sevenDayUtil as real - UtilizationOrZero(usage.sevenDay) <= 0.5
  {
    BadgeInputs(
      Round(UtilizationOrZero(usage.fiveHour)), ResetsAtOf(usage.fiveHour),
      Round(UtilizationOrZero(usage.sevenDay)), ResetsAtOf(usage.sevenDay))
  }

  function Utilization(inputs: BadgeInputs, w: Window): int {
    match w
    case FiveHour => inputs.fiveHourUtil
    case SevenDay => inputs.sevenDayUtil
  }

  /** The classifier decision for window `w` at instant `now`. */
  function BadgeDecision(inputs: BadgeInputs, w: Window, now: int): BadgeData {
    match w
    case FiveHour => FiveHourBadgeData(inputs.fiveHourUtil, inputs.fiveHourResetsAt, now)
    case SevenDay => SevenDayBadgeData(inputs.sevenDayUtil, inputs.sevenDayResetsAt, now)
  }

  /** The badge text of a shown window: its tag, then its rounded utilization. */
  function BadgeLabel(inputs: BadgeInputs, w: Window): string {
    Tag(w) + DecimalString(Utilization(inputs, w))
  }

  /** A shown badge's text names its window and reads back as that window's utilization. */
  lemma BadgeLabelDecodes(inputs: BadgeInputs, w: Window)
    ensures var text := BadgeLabel(inputs, w);
      |text| > 1 && text[..1] == Tag(w) && ParseDecimal(text[1..]) == Some(Utilization(inputs, w))
  {
    var text := BadgeLabel(inputs, w);
    assert text[1..] == DecimalString(Utilization(inputs, w));
    DecimalRoundTrip(Utilization(inputs, w));
  }

  /** The outcome of one fetch cycle, as the worker sees it. */
  datatype FetchOutcome = NoOrganization | NoUsage | FetchFailed | Fetched(usage: Usage)

  /**
   * The toolbar badge and the rotation timer that re-renders it. The browser's live
   * timers are tracked in `liveTimers`, and `nextTimerId` stands for the fresh,
   * positive handle `setInterval` returns.
   */
  class BadgeController {
    var badgeIntervalId: Option<nat>
    var showFiveHour: bool
    var inputs: BadgeInputs
    var badgeText: string
    var badgeColor: string
    ghost var liveTimers: set<nat>
    var nextTimerId: nat
    /** The windows rendered since the current rotation started, in order. */
    ghost var shown: seq<Window>

    /**
     * The only live timer is the one the handle names; the rendered windows alternate,
     * and the toggle selects the window that continues the alternation.
     */
    ghost predicate Valid()
      reads this
    {
      liveTimers == (if badgeIntervalId.Some? then {badgeIntervalId.value} else {})
      && 0 < nextTimerId
      && (forall t :: t in liveTimers ==> 0 < t < nextTimerId)
      && Alternates(shown)
      && (showFiveHour <==> |shown| == 0 || shown[|shown| - 1] == SevenDay)
    }

    /** A fresh worker: no timer, empty badge text, no colour set yet. */
    constructor ()
      ensures Valid()
      ensures badgeIntervalId.None? && liveTimers == {}
      ensures badgeText == "" && badgeColor == ""
    {
      badgeIntervalId := None;
      showFiveHour := true;
      inputs := BadgeInputs(0, None, 0, None);
      badgeText := "";
      badgeColor := "";
      liveTimers := {};
      nextTimerId := 1;
      shown := [];
    }

    /** `clearInterval` on the held handle, if any, and forget it. */
    method ClearBadgeInterval()
      requires Valid()
      modifies this`badgeIntervalId, this`liveTimers
      ensures Valid()
      ensures badgeIntervalId.None? && liveTimers == {}
    {
      if badgeIntervalId.Some? {
        liveTimers := liveTimers - {badgeIntervalId.value};
        badgeIntervalId := None;
      }
    }

    /**
     * One render: classify the selected window at `now`, write its label and colour
     * (or clear the text, leaving the colour as it was), then flip the selection.
     */
    method RenderBadge(now: int)
      requires Valid()
      modifies this`badgeText, this`badgeColor, this`showFiveHour, this`shown
      ensures Valid()
      ensures showFiveHour == !old(showFiveHour)
      ensures var w := if old(showFiveHour) then FiveHour else SevenDay;
        shown == old(shown) + [w]
        && match BadgeDecision(inputs, w, now)
        case Hidden => badgeText == "" && badgeColor == old(badgeColor)
        case Shown(c) => badgeText == BadgeLabel(inputs, w) && badgeColor == c
    {
      if showFiveHour {
        var badgeData := FiveHourBadgeData(inputs.fiveHourUtil, inputs.fiveHourResetsAt, now);
        if !badgeData.Shown? {
          badgeText := "";
        } else {
          badgeText := "H" + DecimalString(inputs.fiveHourUtil);
          badgeColor := badgeData.color;
        }
      } else {
        var badgeData := SevenDayBadgeData(inputs.sevenDayUtil, inputs.sevenDayResetsAt, now);
        if !badgeData.Shown? {
          badgeText := "";
        } else {
          badgeText := "W" + DecimalString(inputs.sevenDayUtil);
          badgeColor := badgeData.color;
        }
      }
      shown := shown + [if showFiveHour then FiveHour else SevenDay];
      showFiveHour := !showFiveHour;
    }

    /**
     * A new snapshot: cancel the old timer, capture the snapshot, render the five-hour
     * window at once, and start one repeating timer for the following renders.
     */
    method Start(usage: Usage, now: int)
      requires Valid()
      modifies this
      ensures Valid()
      ensures badgeIntervalId.Some? && liveTimers == {badgeIntervalId.value}
      ensures badgeIntervalId.value !in old(liveTimers)
      ensures inputs == CaptureInputs(usage)
      ensures shown == [FiveHour] && !showFiveHour
      ensures match BadgeDecision(inputs, FiveHour, now)
        case Hidden => badgeText == "" && badgeColor == old(badgeColor)
        case Shown(c) => badgeText == BadgeLabel(inputs, FiveHour) && badgeColor == c
    {
      ClearBadgeInterval();
      inputs := CaptureInputs(usage);
      showFiveHour := true;
      shown := [];
      RenderBadge(now);
      var id := nextTimerId;
      nextTimerId := nextTimerId + 1;
      liveTimers := liveTimers + {id};
      badgeIntervalId := Some(id);
    }

    /**
     * The rotation timer fires: render the next window of the alternation with the
     * captured snapshot at the current instant. The timer keeps running.
     */
    method Tick(now: int)
      requires Valid() && badgeIntervalId.Some?
      modifies this`badgeText, this`badgeColor, this`showFiveHour, this`shown
      ensures Valid()
      ensures var w := if old(showFiveHour) then FiveHour else SevenDay;
        shown == old(shown) + [w]
        && match BadgeDecision(inputs, w, now)
        case Hidden => badgeText == "" && badgeColor == old(badgeColor)
        case Shown(c) => badgeText == BadgeLabel(inputs, w) && badgeColor == c
    {
      RenderBadge(now);
    }

    /** A static badge: cancel the rotation, then write `text` on `color`. */
    method UpdateBadge(text: string, color: string)
      requires Valid()
      modifies this`badgeIntervalId, this`liveTimers, this`badgeText, this`badgeColor
      ensures Valid()
      ensures badgeIntervalId.None? && liveTimers == {}
      ensures badgeText == text && badgeColor == color
    {
      ClearBadgeInterval();
      badgeText := text;
      badgeColor := color;
    }

    /** The error badge: a grey `!` and no rotation. */
    method ErrorOverride()
      requires Valid()
      modifies this`badgeIntervalId, this`liveTimers, this`badgeText, this`badgeColor
      ensures Valid()
      ensures badgeIntervalId.None? && liveTimers == {}
      ensures badgeText == "!" && badgeColor == Gray
    {
      UpdateBadge("!", Gray);
    }

    /**
     * The end of a fetch cycle: a snapshot starts a new rotation; a missing organization,
     * missing usage or a failure shows the error badge.
     */
    method Refresh(outcome: FetchOutcome, now: int)
      requires Valid()
      modifies this
      ensures Valid()
      ensures outcome.Fetched? ==>
        badgeIntervalId.Some? && liveTimers == {badgeIntervalId.value}
        && badgeIntervalId.value !in old(liveTimers)
        && inputs == CaptureInputs(outcome.usage) && shown == [FiveHour]
        && match BadgeDecision(inputs, FiveHour, now)
           case Hidden => badgeText == "" && badgeColor == old(badgeColor)
           case Shown(c) => badgeText == BadgeLabel(inputs, FiveHour) && badgeColor == c
      ensures !outcome.Fetched? ==>
        badgeIntervalId.None? && liveTimers == {} && badgeText == "!" && badgeColor == Gray
    {
      match outcome
      case Fetched(usage) => Start(usage, now);
      case _ => ErrorOverride();
    }
  }
}
