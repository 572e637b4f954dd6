/** The interval the replay fences of runs and sandboxes are measured by. */
module ReplayWindow {
  /** How long the backend remembers a claimed key: 24 hours, in seconds. */
  const WINDOW: nat := 24 * 60 * 60

  lemma WindowIs()
    ensures WINDOW == 24 * 60 * 60
  {
  }
}
