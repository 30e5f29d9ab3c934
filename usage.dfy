/**
 * The usage snapshot the background worker fetches and the popup reads from storage.
 * Timestamps (`resets_at`) are already parsed into integer milliseconds since the epoch.
 */
module UsageData {
  import opened Wrappers

  const MsPerMinute: int := 60 * 1000
  const MsPerHour: int := 60 * MsPerMinute
  const MsPerDay: int := 24 * MsPerHour

  /** One rolling quota window: `{utilization, resets_at}`; either field may be absent. */
  datatype UsageWindow = UsageWindow(utilization: Option<real>, resetsAt: Option<int>)

  /** The usage response: four optional windows. */
  datatype Usage = Usage(
    fiveHour: Option<UsageWindow>,
    sevenDay: Option<UsageWindow>,
    sevenDaySonnet: Option<UsageWindow>,
    sevenDayOpus: Option<UsageWindow>)

  /** The organization record; only its rate-limit tier is read. */
  datatype Organization = Organization(rateLimitTier: Option<string>)

  /** `w?.utilization || 0`: a missing window or a missing utilization reads as 0. */
  function UtilizationOrZero(w: Option<UsageWindow>): real
  {
    if w.Some? then w.value.utilization.GetOr(0.0) else 0.0
  }

  /** `w?.resets_at || null`. */
  function ResetsAtOf(w: Option<UsageWindow>): Option<int>
  {
    if w.Some? then w.value.resetsAt else None
  }
}
