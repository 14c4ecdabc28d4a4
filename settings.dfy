/**
 * The persisted settings (`persistent_state_data`, kept in `state.json`):
 * hold flag, shuffle flag and bank. Reading and writing the JSON file is not
 * modelled; a load is given as an optional decoded record.
 */
module SettingsStore {
  import opened Wrappers

  datatype Settings = Settings(shouldHoldClip: bool, shouldShuffle: bool, bank: int)

  /** The record substituted when the stored bank cannot be compared (the TypeError fallback). */
  const Defaults := Settings(false, false, 1)

  /**
   * Settings at startup: the decoded record with its bank clamped from above
   * to the bank count (the count may have shrunk), or the defaults. The
   * bank is not clamped from below.
   */
  function LoadSettings(loaded: Option<Settings>, bankCount: int): (s: Settings)
    ensures loaded.None? ==> s == Defaults
    ensures loaded.Some? ==>
      s.shouldHoldClip == loaded.value.shouldHoldClip && s.shouldShuffle == loaded.value.shouldShuffle
    ensures loaded.Some? ==>
      s.bank <= bankCount && s.bank <= loaded.value.bank && (s.bank == loaded.value.bank || s.bank == bankCount)
  {
    match loaded
    case None => Defaults
    case Some(t) => t.(bank := if bankCount < t.bank then bankCount else t.bank)
  }

  /** Settings saved with a bank in range are reloaded unchanged, all three fields. */
  lemma SaveLoadRoundTrip(s: Settings, bankCount: int)
    requires s.bank <= bankCount
    ensures LoadSettings(Some(s), bankCount) == s
  {
  }
}
