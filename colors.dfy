/** The colour constants written to the toolbar badge, the progress bars and the status line. */
module Colors {

  const Red: string := "#F44336"
  const Amber: string := "#FFC107"
  const Green: string := "#4CAF50"
  const Orange: string := "#FF9800"
  /** Neutral grey of the error badge. */
  const Gray: string := "#888888"
}
