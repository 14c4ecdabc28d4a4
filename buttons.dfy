/**
 * Button dispatch (`button_pushed`, `take_standard_action`,
 * `take_shift_action`): what one press does, as a value the controller
 * then applies. Buttons are identified by their BCM pin numbers, as in the
 * source; any other pin number selects nothing.
 */
module Buttons {
  import opened Wrappers
  import opened Commands
  import opened Shuffle
  import opened SettingsStore
  import opened Banks

  const ModePin := 22
  const PrevPin := 5
  const PlayPausePin := 6
  const NextPin := 13
  const HoldPin := 19
  const ShiftPin := 26

  /** While shift is held: "previous" selects the bank below, "next" the bank above, all else is ignored. */
  function ShiftBank(button: int, pending: int, bankCount: int): (r: int)
    ensures InRange(pending, bankCount) ==> InRange(r, bankCount)
    ensures button != PrevPin && button != NextPin ==> r == pending
  {
    if button == PrevPin then BankDown(pending, bankCount)
    else if button == NextPin then BankUp(pending, bankCount)
    else pending
  }

  /**
   * What a standard action does: save new settings, enqueue one player
   * command, nothing, or raise (the random step had no range to draw from).
   * These exclude one another.
   */
  datatype Effect = Save(settings: Settings) | Enqueue(command: string) | NoEffect | Raise

  /** `next_clip`: a random step in shuffle mode once a clip is known, one step forward otherwise. */
  function NextClipEffect(s: Settings, clipIndex: int, filesCount: int, d: Draws): (e: Effect)
    requires Fits(d, filesCount)
    ensures !e.Save?
    ensures e.Raise? <==> s.shouldShuffle && clipIndex > -1 && filesCount < 3
    ensures e == NoEffect <==> s.shouldShuffle && clipIndex <= -1
    ensures e.Enqueue? ==> |e.command| > 0 && e.command[|e.command| - 1] == '\n'
  {
    if s.shouldShuffle && clipIndex > -1 then
      match RandomStep(filesCount, d)
      case None => Raise
      case Some(k) => Enqueue(StepText(k) + "\n")
    else if !s.shouldShuffle then Enqueue(NextCommand)
    else NoEffect
  }

  /** `take_standard_action`: mode and hold toggle a flag, the others address the player. */
  function StandardEffect(button: int, s: Settings, clipIndex: int, filesCount: int, d: Draws): (e: Effect)
    requires Fits(d, filesCount)
    ensures e.Save? <==> button == ModePin || button == HoldPin
    ensures e.Save? ==> e.settings.bank == s.bank
    ensures e.Enqueue? ==> button == PrevPin || button == PlayPausePin || button == NextPin
    ensures !(button in {ModePin, PrevPin, PlayPausePin, NextPin, HoldPin}) ==> e == NoEffect
  {
    if button == ModePin then Save(s.(shouldShuffle := !s.shouldShuffle))
    else if button == PrevPin then Enqueue(PrevCommand)
    else if button == PlayPausePin then Enqueue(PauseCommand)
    else if button == NextPin then NextClipEffect(s, clipIndex, filesCount, d)
    else if button == HoldPin then Save(s.(shouldHoldClip := !s.shouldHoldClip))
    else NoEffect
  }

  /** The settings after the effect. */
  function SettingsAfter(e: Effect, s: Settings): Settings {
    if e.Save? then e.settings else s
  }

  /** The commands the effect appends to the queue. */
  function QueuedBy(e: Effect): seq<string> {
    if e.Enqueue? then [e.command] else []
  }

  /** The saves the effect performs. */
  function SavedBy(e: Effect): seq<Settings> {
    if e.Save? then [e.settings] else []
  }

  /** Only "previous" and "next" move the pending bank while shifting, and it stays in 1..BANK_COUNT. */
  lemma ShiftActionCorrect(button: int, pending: int, bankCount: int)
    requires InRange(pending, bankCount)
    ensures InRange(ShiftBank(button, pending, bankCount), bankCount)
    ensures button != PrevPin && button != NextPin ==> ShiftBank(button, pending, bankCount) == pending
    ensures button == NextPin ==> BankDown(ShiftBank(button, pending, bankCount), bankCount) == pending
    ensures button == PrevPin ==> BankUp(ShiftBank(button, pending, bankCount), bankCount) == pending
  {
    UpDownInverse(pending, bankCount);
  }

  /**
   * A standard action changes the flags or the queue, never both: a save
   * flips exactly one flag of the mode and hold buttons and keeps the bank;
   * only "previous", "play/pause" and "next" queue a command.
   */
  lemma StandardEffectKinds(button: int, s: Settings, clipIndex: int, filesCount: int, d: Draws)
    requires Fits(d, filesCount)
    ensures var e := StandardEffect(button, s, clipIndex, filesCount, d);
      && (e.Save? <==> button == ModePin || button == HoldPin)
      && (e.Save? ==> e.settings.bank == s.bank)
      && (button == ModePin ==> e.settings.shouldShuffle != s.shouldShuffle && e.settings.shouldHoldClip == s.shouldHoldClip)
      && (button == HoldPin ==> e.settings.shouldHoldClip != s.shouldHoldClip && e.settings.shouldShuffle == s.shouldShuffle)
      && (e.Enqueue? ==> button == PrevPin || button == PlayPausePin || button == NextPin)
      && (e.Raise? ==> button == NextPin && s.shouldShuffle && filesCount < 3)
  {
  }

  /** Pressing mode twice, or hold twice, restores the settings. */
  lemma ToggleTwice(button: int, s: Settings, clipIndex: int, filesCount: int, d: Draws)
    requires Fits(d, filesCount) && (button == ModePin || button == HoldPin)
    ensures var once := SettingsAfter(StandardEffect(button, s, clipIndex, filesCount, d), s);
      SettingsAfter(StandardEffect(button, once, clipIndex, filesCount, d), once) == s
  {
  }

  /**
   * The commands queued: "previous" queues exactly `pt_step -1`, play/pause
   * exactly `pause`; "next" queues `pt_step 1` without shuffle, a random
   * nonzero step of at most `files_count - 2` clips with shuffle and a known
   * clip, and nothing with shuffle before any clip is known.
   */
  lemma QueuedCommands(button: int, s: Settings, clipIndex: int, filesCount: int, d: Draws)
    requires Fits(d, filesCount)
    ensures var e := StandardEffect(button, s, clipIndex, filesCount, d);
      && (button == PrevPin ==> e == Enqueue(PrevCommand))
      && (button == PlayPausePin ==> e == Enqueue("pause\n"))
      && (button == NextPin && !s.shouldShuffle ==> e == Enqueue("pt_step 1\n"))
      && (button == NextPin && s.shouldShuffle && clipIndex <= -1 ==> e == NoEffect)
      && (button == NextPin && s.shouldShuffle && clipIndex > -1 && filesCount >= 3 ==>
            e.Enqueue? && e.command[|e.command| - 1] == '\n'
            && ParseStep(e.command).Some? && ParseStep(e.command).value != 0
            && -(filesCount - 2) <= ParseStep(e.command).value <= filesCount - 2)
  {
    if button == NextPin && s.shouldShuffle && clipIndex > -1 && filesCount >= 3 {
      var k := RandomStep(filesCount, d).value;
      StepRoundTrip(k);
    }
  }
}
