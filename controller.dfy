/**
 * The playback controller: the module-level state of app.py as one object,
 * with one method per button callback, the playlist loader, the renderers
 * and one pass of the player loop. The player's control channel is the
 * sequence of texts written to it; the segment display is its four
 * characters; the LED strip is an array of pixels.
 */
module Playback {
  import opened Wrappers
  import opened Decimal
  import opened Names
  import opened Commands
  import opened Shuffle
  import opened SettingsStore
  import opened Banks
  import opened Buttons
  import opened Leds
  import opened Display
  import opened Polling

  class Controller {
    /** BANK_COUNT. */
    const bankCount: int
    /** BANKS_PATH. */
    const banksPath: string
    /** The LED strip's pixel buffer. */
    const pixels: array<Pixel>

    /** `persistent_state_data`, the settings in memory. */
    var settings: Settings
    /** Every snapshot `save_settings` wrote, oldest first; the state file holds the last. */
    var stored: seq<Settings>
    var currentBank: int
    var pendingBank: int
    var shiftPressed: bool
    /** Position of the playing clip in `files`; -1 until the player reports a known file. */
    var currentClipIndex: int
    /** The sorted clip list of the current bank. */
    var files: seq<string>
    /** `mplayer_command_queue`, oldest first. */
    var queue: seq<string>
    /** Everything written to the player's control channel, in order. */
    var playerOut: seq<string>
    /** The segment display's four characters; ' ' is a blank digit. */
    var digits: string

    ghost predicate Valid()
      reads this
    {
      && InRange(pendingBank, bankCount)
      && currentBank <= bankCount
      && settings.bank == currentBank
      && currentClipIndex >= -1
      && pixels.Length == TotalPixels
      && |digits| == 4
    }

    /**
     * Startup: settings loaded (bank clamped to the bank count), the current
     * bank taken from them, the pending bank at 1 whatever the current bank
     * is, the clip list of the current bank, the display cleared and
     * showing "01" in the bank field, the strip dark.
     */
    constructor (bankCount: int, banksPath: string, loaded: Option<Settings>, listing: seq<string>)
      requires bankCount >= 1
      ensures Valid() && fresh(pixels)
      ensures this.bankCount == bankCount && this.banksPath == banksPath
      ensures settings == LoadSettings(loaded, bankCount) && stored == []
      ensures currentBank == settings.bank && pendingBank == 1
      ensures !shiftPressed && currentClipIndex == -1
      ensures files == SortNames(listing) && queue == [] && playerOut == []
      ensures digits == "01  " && pixels[..] == seq(TotalPixels, _ => Off)
    {
      this.bankCount := bankCount;
      this.banksPath := banksPath;
      pixels := new Pixel[TotalPixels](_ => Off);
      settings := LoadSettings(loaded, bankCount);
      stored := [];
      currentBank := LoadSettings(loaded, bankCount).bank;
      pendingBank := 1;
      shiftPressed := false;
      currentClipIndex := -1;
      files := SortNames(listing);
      queue := [];
      playerOut := [];
      digits := "01  ";
      new;
      assert pixels[..] == seq(TotalPixels, _ => Off);
    }

    /** `save_settings`: writes the whole settings record. */
    method SaveSettings()
      modifies this`stored
      ensures stored == old(stored) + [settings]
    {
      stored := stored + [settings];
    }

    /** `set_files`: the clip list becomes the sorted listing of the bank's directory. */
    method SetFiles(listing: seq<string>)
      modifies this`files
      ensures files == SortNames(listing)
      ensures Sorted(files) && multiset(files) == multiset(listing) && |files| == |listing|
    {
      files := SortNames(listing);
      SortNamesCorrect(listing);
    }

    /** `play_bank`: load the bank's clip list and queue its playlist, first replacing, the rest appending. */
    method PlayBank(bank: int, listing: seq<string>)
      modifies this`files, this`queue
      ensures files == SortNames(listing)
      ensures Sorted(files) && multiset(files) == multiset(listing)
      ensures queue == old(queue) + PlaylistCommands(banksPath, bank, files)
      ensures |queue| == |old(queue)| + |listing|
    {
      SetFiles(listing);
      var padded := Padded(bank);
      for i := 0 to |files|
        invariant queue == old(queue) + PlaylistCommands(banksPath, bank, files)[..i]
        modifies this`queue
      {
        var fullPath := banksPath + "/" + padded + "/" + files[i];
        var command := "loadfile \"" + fullPath + "\"";
        if i != 0 {
          command := command + " 1";
        }
        assert command + "\n" == PlaylistCommands(banksPath, bank, files)[i];
        assert PlaylistCommands(banksPath, bank, files)[..i + 1]
            == PlaylistCommands(banksPath, bank, files)[..i] + [command + "\n"];
        queue := queue + [command + "\n"];
      }
      assert PlaylistCommands(banksPath, bank, files)[..|files|] == PlaylistCommands(banksPath, bank, files);
    }

    /** `change_mode`: flip shuffle and save. */
    method ChangeMode()
      requires Valid()
      modifies this`settings, this`stored
      ensures Valid()
      ensures settings == old(settings).(shouldShuffle := !old(settings).shouldShuffle)
      ensures stored == old(stored) + [settings]
    {
      settings := settings.(shouldShuffle := !settings.shouldShuffle);
      SaveSettings();
    }

    /** `hold_current_clip`: flip hold and save. */
    method HoldCurrentClip()
      requires Valid()
      modifies this`settings, this`stored
      ensures Valid()
      ensures settings == old(settings).(shouldHoldClip := !old(settings).shouldHoldClip)
      ensures stored == old(stored) + [settings]
    {
      settings := settings.(shouldHoldClip := !settings.shouldHoldClip);
      SaveSettings();
    }

    /** `previous_clip`. */
    method PreviousClip()
      modifies this`queue
      ensures queue == old(queue) + [PrevCommand]
    {
      queue := queue + ["pt_step -1\n"];
    }

    /** `play_pause`. */
    method PlayPause()
      modifies this`queue
      ensures queue == old(queue) + [PauseCommand]
    {
      queue := queue + ["pause\n"];
    }

    /** `next_clip`; `raised` when the random step had no range to draw from. */
    method NextClip(d: Draws) returns (raised: bool)
      requires Fits(d, |files|)
      modifies this`queue
      ensures var e := NextClipEffect(settings, currentClipIndex, |files|, d);
        queue == old(queue) + QueuedBy(e) && raised == e.Raise?
    {
      raised := false;
      if settings.shouldShuffle && currentClipIndex > -1 {
        var step := RandomStep(|files|, d);
        if step.None? {
          raised := true;
          return;
        }
        queue := queue + ["pt_step " + IntToString(step.value) + "\n"];
      } else if !settings.shouldShuffle {
        queue := queue + ["pt_step 1\n"];
      }
    }

    /** `pending_bank_up`. */
    method PendingBankUp()
      requires Valid()
      modifies this`pendingBank
      ensures Valid() && pendingBank == BankUp(old(pendingBank), bankCount)
    {
      if pendingBank == bankCount {
        pendingBank := 1;
      } else {
        pendingBank := pendingBank + 1;
      }
    }

    /** `pending_bank_down`. */
    method PendingBankDown()
      requires Valid()
      modifies this`pendingBank
      ensures Valid() && pendingBank == BankDown(old(pendingBank), bankCount)
    {
      if pendingBank == 1 {
        pendingBank := bankCount;
      } else {
        pendingBank := pendingBank - 1;
      }
    }

    /** `take_shift_action`: only the pending bank can change. */
    method TakeShiftAction(button: int)
      requires Valid()
      modifies this`pendingBank
      ensures Valid() && pendingBank == ShiftBank(button, old(pendingBank), bankCount)
    {
      if button == PrevPin {
        PendingBankDown();
      } else if button == NextPin {
        PendingBankUp();
      }
    }

    /** `take_standard_action`: the settings or the queue change as the action's effect says. */
    method TakeStandardAction(button: int, d: Draws) returns (raised: bool)
      requires Valid() && Fits(d, |files|)
      modifies this`settings, this`stored, this`queue
      ensures Valid()
      ensures var e := StandardEffect(button, old(settings), currentClipIndex, |files|, d);
        && settings == SettingsAfter(e, old(settings))
        && stored == old(stored) + SavedBy(e)
        && queue == old(queue) + QueuedBy(e)
        && raised == e.Raise?
    {
      raised := false;
      if button == ModePin {
        ChangeMode();
      } else if button == PrevPin {
        PreviousClip();
      } else if button == PlayPausePin {
        PlayPause();
      } else if button == NextPin {
        raised := NextClip(d);
      } else if button == HoldPin {
        HoldCurrentClip();
      }
    }

    /** `button_pushed`: standard actions normally, bank browsing while shift is held. */
    method ButtonPushed(button: int, d: Draws) returns (raised: bool)
      requires Valid() && Fits(d, |files|)
      modifies this`pendingBank, this`settings, this`stored, this`queue
      ensures Valid()
      ensures old(shiftPressed) ==>
        && pendingBank == ShiftBank(button, old(pendingBank), bankCount)
        && settings == old(settings) && stored == old(stored) && queue == old(queue) && !raised
      ensures !old(shiftPressed) ==>
        var e := StandardEffect(button, old(settings), currentClipIndex, |files|, d);
        && pendingBank == old(pendingBank)
        && settings == SettingsAfter(e, old(settings))
        && stored == old(stored) + SavedBy(e)
        && queue == old(queue) + QueuedBy(e)
        && raised == e.Raise?
    {
      if !shiftPressed {
        raised := TakeStandardAction(button, d);
      } else {
        TakeShiftAction(button);
        raised := false;
      }
    }

    /**
     * `shift_released`: a different pending bank becomes the current bank,
     * its clips are listed and queued as the new playlist, and the bank is
     * saved; the same bank changes nothing.
     */
    method ShiftReleased(listing: seq<string>)
      requires Valid()
      modifies this`currentBank, this`files, this`queue, this`settings, this`stored
      ensures Valid()
      ensures old(pendingBank) == old(currentBank) ==>
        && currentBank == old(currentBank) && files == old(files) && queue == old(queue)
        && settings == old(settings) && stored == old(stored)
      ensures old(pendingBank) != old(currentBank) ==>
        && currentBank == pendingBank
        && files == SortNames(listing)
        && Sorted(files) && multiset(files) == multiset(listing)
        && queue == old(queue) + PlaylistCommands(banksPath, currentBank, files)
        && |queue| == |old(queue)| + |listing|
        && settings == old(settings).(bank := currentBank)
        && stored == old(stored) + [settings]
    {
      if pendingBank != currentBank {
        currentBank := pendingBank;
        PlayBank(currentBank, listing);
        settings := settings.(bank := currentBank);
        SaveSettings();
      }
    }

    /** `shift_button_changed`: `level` is the shift pin's input level; a low level is a release. */
    method ShiftButtonChanged(level: bool, listing: seq<string>)
      requires Valid()
      modifies this`shiftPressed, this`currentBank, this`files, this`queue, this`settings, this`stored
      ensures Valid() && shiftPressed == level && pendingBank == old(pendingBank)
      ensures level || old(pendingBank) == old(currentBank) ==>
        && currentBank == old(currentBank) && files == old(files) && queue == old(queue)
        && settings == old(settings) && stored == old(stored)
      ensures !level && old(pendingBank) != old(currentBank) ==>
        && currentBank == pendingBank
        && files == SortNames(listing)
        && Sorted(files) && multiset(files) == multiset(listing)
        && queue == old(queue) + PlaylistCommands(banksPath, currentBank, files)
        && |queue| == |old(queue)| + |listing|
        && settings == old(settings).(bank := currentBank)
        && stored == old(stored) + [settings]
    {
      shiftPressed := level;
      if !shiftPressed {
        ShiftReleased(listing);
      }
    }

    /** `neopixel_update`: the strip shows the progress bar for `percent` in the mode's colour. */
    method NeopixelUpdate(percent: int)
      requires Valid()
      modifies pixels
      ensures pixels[..] == Frame(percent, settings.shouldHoldClip, settings.shouldShuffle)
    {
      var numPixels := FullCount(percent);
      var partial := PartialLevel(percent);
      var hold, shuffle := settings.shouldHoldClip, settings.shouldShuffle;
      for pixelIndex := 0 to TotalPixels
        invariant forall j :: 0 <= j < pixelIndex ==> pixels[j] == PixelAt(j, percent, hold, shuffle)
      {
        if pixelIndex == numPixels {
          if hold {
            pixels[pixelIndex] := Pixel(0, 0, partial, 0);
          } else if shuffle {
            pixels[pixelIndex] := Pixel(partial, 0, 0, 0);
          } else {
            pixels[pixelIndex] := Pixel(0, 0, 0, partial);
          }
        } else if pixelIndex > numPixels {
          pixels[pixelIndex] := Pixel(0, 0, 0, 0);
        } else {
          if hold {
            pixels[pixelIndex] := Pixel(0, 0, MaxBrightness, 0);
          } else if shuffle {
            pixels[pixelIndex] := Pixel(MaxBrightness, 0, 0, 0);
          } else {
            pixels[pixelIndex] := Pixel(0, 0, 0, MaxBrightness);
          }
        }
      }
    }

    /** `clip_segment_update`: digits 2-3 show the 1-based clip number. */
    method ClipSegmentUpdate(clipIndex: int)
      requires Valid()
      modifies this`digits
      ensures Valid()
      ensures digits[..2] == old(digits)[..2] && digits[2..] == Field(clipIndex + 1)
    {
      PaddedAtLeastTwo(clipIndex + 1);
      var padded := Padded(clipIndex + 1);
      digits := digits[..2] + [padded[0], padded[1]];
    }

    /** `bank_segment_update`: digits 0-1 show the pending bank while shifting, else the current bank. */
    method BankSegmentUpdate()
      requires Valid()
      modifies this`digits
      ensures Valid()
      ensures digits[..2] == Field(DisplayedBank(shiftPressed, pendingBank, currentBank))
      ensures digits[2..] == old(digits)[2..]
    {
      var displayBank := currentBank;
      if shiftPressed {
        displayBank := pendingBank;
      }
      PaddedAtLeastTwo(displayBank);
      var padded := Padded(displayBank);
      digits := [padded[0], padded[1]] + digits[2..];
    }

    /** The inner loop of the player thread: forward every queued command, oldest first. */
    method DrainQueue()
      modifies this`queue, this`playerOut
      ensures queue == [] && playerOut == old(playerOut) + old(queue)
    {
      while queue != []
        invariant playerOut + queue == old(playerOut) + old(queue)
        decreases |queue|
      {
        var command := queue[0];
        queue := queue[1..];
        playerOut := playerOut + [command];
      }
    }

    /** Ask the player for its file name and follow it in the clip index and the clip field. */
    method FollowFilename(filename: string)
      requires Valid()
      modifies this`playerOut, this`currentClipIndex, this`digits
      ensures Valid()
      ensures playerOut == old(playerOut) + [FilenameQuery]
      ensures currentClipIndex == ClipIndexAfter(files, filename, old(currentClipIndex))
      ensures digits[..2] == old(digits)[..2]
      ensures filename in files ==> digits[2..] == Field(currentClipIndex + 1)
      ensures filename !in files ==> digits == old(digits)
    {
      playerOut := playerOut + ["pausing_keep_force get_property filename\n"];
      if filename in files {
        currentClipIndex := IndexOf(files, filename);
        ClipSegmentUpdate(currentClipIndex);
      }
    }

    /** Ask the player for the percent position and apply the end-of-clip policy. */
    method EndOfClipPolicy(percent: int, d: Draws) returns (raised: bool)
      requires Fits(d, |files|)
      modifies this`playerOut
      ensures var e := EndOfClipAction(percent, settings, currentClipIndex, |files|, d);
        playerOut == old(playerOut) + [PercentQuery] + WrittenBy(e) && raised == e.Raise?
    {
      playerOut := playerOut + ["pausing_keep_force get_percent_pos\n"];
      raised := false;
      if percent >= 99 {
        if settings.shouldHoldClip {
          playerOut := playerOut + ["seek 0 2\n"];
        } else if settings.shouldShuffle && currentClipIndex > -1 {
          var step := RandomStep(|files|, d);
          if step.None? {
            raised := true;
            return;
          }
          playerOut := playerOut + ["pt_step " + IntToString(step.value)];
        }
      }
    }

    /**
     * One pass of the player loop, given the file name and percent position
     * the player reports: drain the queue, query the file name and update
     * the clip index and clip field, refresh the bank field, query the
     * percent, apply the end-of-clip policy and redraw the strip. `stopped`
     * when the random step raised, which ends the player thread before the
     * strip is redrawn.
     */
    method PollOnce(filename: string, percent: int, d: Draws) returns (stopped: bool)
      requires Valid() && Fits(d, |files|)
      modifies this`queue, this`playerOut, this`currentClipIndex, this`digits, pixels
      ensures Valid()
      ensures queue == []
      ensures currentClipIndex == ClipIndexAfter(files, filename, old(currentClipIndex))
      ensures digits[..2] == Field(DisplayedBank(shiftPressed, pendingBank, currentBank))
      ensures filename in files ==> digits[2..] == Field(currentClipIndex + 1)
      ensures filename !in files ==> digits[2..] == old(digits)[2..]
      ensures var e := EndOfClipAction(percent, settings, currentClipIndex, |files|, d);
        && playerOut == old(playerOut) + old(queue) + [FilenameQuery, PercentQuery] + WrittenBy(e)
        && stopped == e.Raise?
      ensures stopped ==> pixels[..] == old(pixels[..])
      ensures !stopped ==> pixels[..] == Frame(percent, settings.shouldHoldClip, settings.shouldShuffle)
    {
      DrainQueue();
      ghost var drained := playerOut;
      FollowFilename(filename);
      BankSegmentUpdate();
      stopped := EndOfClipPolicy(percent, d);
      assert playerOut == drained + [FilenameQuery] + [PercentQuery]
        + WrittenBy(EndOfClipAction(percent, settings, currentClipIndex, |files|, d));
      if !stopped {
        NeopixelUpdate(percent);
      }
    }

    /** `clean_up`: dashes on the display and a dark strip. */
    method CleanUp()
      requires Valid()
      modifies this`digits, pixels
      ensures Valid() && digits == "----"
      ensures forall i :: 0 <= i < pixels.Length ==> pixels[i] == Off
    {
      digits := "----";
      NeopixelUpdate(0);
      DarkAtZero(settings.shouldHoldClip, settings.shouldShuffle);
      assert forall i :: 0 <= i < pixels.Length ==> pixels[i] == pixels[..][i];
    }
  }
}
