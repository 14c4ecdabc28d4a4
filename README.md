# clippie playback controller in Dafny

clippie is a video kiosk. Physical buttons select "banks" (directories `01`..`NN`) of clips that an mplayer process plays in slave mode. A 12-pixel RGBW LED strip shows the progress through the clip. A 4-digit segment display shows the bank number and the 1-based clip number. This project models the controller in `app.py` and proves properties of it:

- the bank selection protocol: a pending bank browsed while shift is held, committed to the current bank when shift is released;
- the button callbacks, and the command queue they fill;
- the playlist that is loaded when the bank changes;
- the random step used in shuffle mode;
- one pass of the player loop: drain the queue, follow the reported clip, apply the end-of-clip policy;
- the LED and display rendering.

Modules, leaf first:

- `Wrappers`: `Option`.
- `Decimal`: Python's `str(int)` and `zfill`, and a parser that reads decimal text back.
- `Names`: `sorted()` on file names. Python orders strings by code point, lexicographically.
- `Commands`: the text of every player command, and parsers that read load and step commands back.
- `Shuffle`: `get_next_random_index`. The two `randrange` draws are inputs.
- `SettingsStore`: the settings record and the startup clamp.
- `Banks`: `pending_bank_up` and `pending_bank_down` as functions, with wraparound.
- `Buttons`: the dispatch of one press, given as an `Effect` value. The effect saves settings, enqueues one command, does nothing, or raises. The datatype makes "flags or queue, never both" structural.
- `Leds`: the progress bar, computed in exact arithmetic.
- `Display`: the two-character display fields.
- `Polling`: `files.index` and the end-of-clip policy.
- `Playback`: class `Controller`. Its fields are the module globals. It has one method per callback, plus `PlayBank`, the renderers and `PollOnce`, which is one pass of the player loop. Each method's `modifies` clause names exactly the fields it changes, so "nothing else changes" is part of its contract.

The environment enters the model as inputs:

- the directory listing of a bank (`listing`);
- the decoded state file (`loaded`);
- the level of the shift pin;
- the file name and percent position the player reports;
- the random draws.

The player's control channel is `playerOut`, the list of texts written to it. The state file's history is `stored`, the list of snapshots written to it.

Behaviours of the code the model keeps as written:

- After shift is released, `pending_bank` is not reset to `current_bank`.
- The bank read at startup is clamped only from above, with `min(BANK_COUNT, bank)`. A stored bank below 1 is kept, so `Valid()` only promises `currentBank <= bankCount`.
- In shuffle mode the end-of-clip step is written to the player as `pt_step <k>` with no newline (app.py:351). The model writes it that way.
- When neither hold nor shuffle is on, the end-of-clip policy writes nothing and leaves advancing to mplayer's own playlist: the code sends no `pt_step`.
- The LED counts use exact arithmetic: `full = percent * 12 / 100` and `partial = (12 * percent mod 100) * 50 / 100`, which is always a whole number. At 100 percent all 12 pixels are full. At 50 percent 6 pixels are full and pixel 6 gets partial level 0. The source's floating-point `percent // (100/12)` gives 11 full pixels and 5 full pixels at those two points. `Leds.ExactArithmetic` proves that the model's counts equal the source's formulas evaluated over the reals.

## Model

| member | source | states |
|---|---|---|
| Decimal.NatToStringCorrect | app.py:281 | `str(n)` for n >= 0 is a non-empty digit string with no redundant leading zero that denotes n; one digit below 10, two digits for 10..99 |
| Decimal.IntToStringRoundTrip | app.py:165 | reading `str(k)` back gives k, for every integer, negative ones included |
| Decimal.ZFillCorrect | app.py:292 | `zfill(w)` yields exactly max(len, w) characters and keeps the value of a digit string |
| Decimal.PaddedTwoDigits | app.py:291-296 | for 0..99, `str(n).zfill(2)` is exactly two digits denoting n, with a leading '0' exactly when n < 10 |
| Decimal.PaddedAtLeastTwo | app.py:283-284 | the padded string always has at least two characters, so digits [0] and [1] exist |
| Names.SortNamesCorrect | app.py:114 | the clip list is the listing in ascending string order and a permutation of it (same multiset, same length) |
| Names.SortedUnique | app.py:114 | any two sorted permutations of the same names are equal, so the clip order is determined by the listing alone |
| Commands.PlaylistCommands | app.py:116-124 | one command per clip |
| Commands.ClipPath | app.py:118-120 | for banks 0..99, the path is the banks path, '/', two digits denoting the bank, '/', then the file name, and nothing else |
| Commands.LoadCommand | app.py:121-124 | a load command reads back as exactly the path it loads and whether it appends (` 1`) |
| Commands.PlaylistCorrect | app.py:116-124 | the i-th playlist command loads `<path>/<NN>/<file i>`; only the first replaces, every other one appends; all end in a newline |
| Commands.StepRoundTrip | app.py:351 | `pt_step k`, with or without a newline, reads back as step k; the unterminated form has no newline |
| Commands.FixedCommandsMeaning | app.py:155-167 | previous is the step -1, next without shuffle the step +1; pause and seek are not steps |
| Shuffle.RandomStep | app.py:298-304 | no step (ValueError) exactly when there are fewer than 3 clips; otherwise nonzero, at most len(files)-2 in size, negative exactly when the coin is 1 |
| Shuffle.EveryStepReachable | app.py:300-304 | every nonzero step of size at most len(files)-2, in either direction, comes from some pair of draws |
| SettingsStore.LoadSettings | app.py:36-46 | defaults {false, false, 1} on the fallback path; otherwise the flags as stored and the bank clamped from above to BANK_COUNT |
| SettingsStore.SaveLoadRoundTrip | app.py:41 | settings saved with a bank in range reload unchanged |
| Banks.BankUp | app.py:174-179 | keeps the pending bank in 1..BANK_COUNT; BANK_COUNT wraps to 1, otherwise +1 |
| Banks.BankDown | app.py:181-186 | keeps the pending bank in 1..BANK_COUNT; 1 wraps to BANK_COUNT, otherwise -1 |
| Banks.UpDownInverse | app.py:174-186 | up then down, and down then up, are the identity on 1..BANK_COUNT |
| Banks.UpTimesCycle | app.py:174-179 | k presses of next move the pending bank to ((b - 1 + k) mod BANK_COUNT) + 1 |
| Banks.FullCycle | app.py:174-179 | BANK_COUNT presses of next return to the starting bank |
| Buttons.ShiftBank | app.py:188-192 | a shift press keeps an in-range pending bank in range; any button but prev and next leaves it unchanged |
| Buttons.NextClipEffect | app.py:161-167 | next never saves settings; it raises exactly with shuffle, a known clip and fewer than 3 clips; it does nothing exactly with shuffle and index -1; any command it queues ends in a newline |
| Buttons.StandardEffect | app.py:194-204 | exactly mode and hold save settings, keeping the bank; only prev, play/pause and next queue a command; any other pin does nothing |
| Buttons.ShiftActionCorrect | app.py:188-192 | while shifting, the pending bank stays in range; only prev and next move it, and these two undo each other |
| Buttons.StandardEffectKinds | app.py:194-204 | only mode and hold save settings, each flipping exactly its own flag and keeping the bank; only prev, play/pause and next queue a command; only a shuffled next with fewer than 3 clips raises |
| Buttons.ToggleTwice | app.py:150-172 | pressing mode twice, or hold twice, restores the settings |
| Buttons.QueuedCommands | app.py:155-167 | prev queues exactly `pt_step -1\n`, play/pause exactly `pause\n`; next queues `pt_step 1\n` without shuffle, a newline-terminated random nonzero step of at most len(files)-2 with shuffle and a known clip, and nothing with shuffle and index -1 |
| Leds.FullCount | app.py:250 | for 0..100 percent, the number of full pixels is between 0 and 12 |
| Leds.PartialLevel | app.py:253-255 | the partial pixel's brightness is always in 0..49, below the maximum |
| Leds.PixelAt | app.py:258-274 | a pixel below the full count is at brightness 50, the pixel at it has the partial level, a pixel above it is (0,0,0,0) |
| Leds.Frame | app.py:257-274 | one pixel for each of the 12 pixels |
| Leds.ExactArithmetic | app.py:247-255 | the full count is the floor of percent/(100/12), and the partial level is the remainder times 50/(100/12), a whole number in 0..49 |
| Leds.ChannelsExclusive | app.py:258-274 | every pixel lights only the mode's channel (hold: 3rd, else shuffle: 1st, else 4th), and the three modes use three different channels |
| Leds.FrameShape | app.py:257-274 | pixels below the full count are at 50, the pixel at it has the partial level, the pixels above it are (0,0,0,0); every pixel is in 0..50; 0 percent is all dark, 100 percent all full |
| Leds.DarkAtZero | app.py:368 | the strip drawn for 0 percent is entirely (0,0,0,0) |
| Leds.CountsMonotone | app.py:250-255 | raising the percentage never lowers the full count, and while the full count stays the same it never lowers the partial level |
| Leds.Monotone | app.py:250-274 | raising the percentage never dims any pixel |
| Leds.CountsTotal | app.py:250-255 | for 0..100 percent, the full pixels at 50 plus the partial level come to exactly 6 units per percent |
| Leds.TotalProportional | app.py:250-274 | for 0..100 percent, the strip's total brightness is exactly 6 units per percent |
| Display.Field | app.py:279-296 | always two characters; for 0..99, two digits denoting the number, with a leading '0' exactly below 10 |
| Display.DisplayedBank | app.py:287-289 | the pending bank is shown while shift is held, the current bank otherwise |
| Display.FieldTruncates | app.py:292-296 | a number from 100 up is shown as its first two digits |
| Polling.IndexOf | app.py:326-327 | -1 exactly when the name is absent; otherwise a position holding the name with no earlier occurrence |
| Polling.ClipIndexAfter | app.py:326-327 | a reported name in the list gives a position holding it; an unknown name keeps the index; an index of at least -1 stays at least -1 |
| Polling.EndOfClipAction | app.py:344-351 | below 99 percent it is quiet; at 99 or more with hold it writes `seek 0 2\n`; it raises exactly at 99 or more without hold, with shuffle, a known clip and fewer than 3 clips |
| Polling.ClipIndexCorrect | app.py:326-328 | a reported name in the list moves the index to its first position; an unknown name keeps the index |
| Polling.EndOfClipCorrect | app.py:344-351 | below 99 percent nothing is written; with hold, exactly `seek 0 2\n`; else with shuffle and a known clip, one unterminated nonzero step of at most len(files)-2; it raises only with shuffle, a known clip and fewer than 3 clips; otherwise nothing |
| Playback.Controller.constructor | app.py:33-69 | loaded and clamped settings, current bank from them, pending bank 1, no shift, index -1, sorted clip list, empty queue, display "01", dark strip |
| Playback.Controller.SaveSettings | app.py:48-51 | appends a full snapshot of the settings to the state file's history |
| Playback.Controller.SetFiles | app.py:111-114 | the clip list becomes the sorted listing |
| Playback.Controller.PlayBank | app.py:116-124 | sets the clip list to a sorted permutation of the listing and appends exactly the bank's playlist commands to the queue, one per clip, in clip order |
| Playback.Controller.ChangeMode | app.py:150-153 | flips only the shuffle flag and saves the new settings |
| Playback.Controller.HoldCurrentClip | app.py:169-172 | flips only the hold flag and saves the new settings |
| Playback.Controller.PreviousClip | app.py:155-156 | appends `pt_step -1\n` to the queue, nothing else |
| Playback.Controller.PlayPause | app.py:158-159 | appends `pause\n` to the queue, nothing else |
| Playback.Controller.NextClip | app.py:161-167 | appends what the shuffle-aware next effect queues; raises exactly when that effect does |
| Playback.Controller.PendingBankUp | app.py:174-179 | the pending bank becomes BankUp of itself, in range |
| Playback.Controller.PendingBankDown | app.py:181-186 | the pending bank becomes BankDown of itself, in range |
| Playback.Controller.TakeShiftAction | app.py:188-192 | only the pending bank changes, by the shift action of the button |
| Playback.Controller.TakeStandardAction | app.py:194-204 | the settings, saves and queue change exactly as the button's standard effect says |
| Playback.Controller.ButtonPushed | app.py:206-211 | while shifting, only the pending bank changes and nothing is queued or saved; otherwise the standard effect is applied and the pending bank is kept |
| Playback.Controller.ShiftReleased | app.py:213-221 | the same bank changes nothing; a different one becomes current and the saved bank, the clip list becomes the sorted listing (a permutation of it), and exactly its playlist is queued, one command per clip |
| Playback.Controller.ShiftButtonChanged | app.py:223-227 | records the shift level, never touches the pending bank, and commits the pending bank only on a low level |
| Playback.Controller.NeopixelUpdate | app.py:240-276 | the strip becomes the frame for the percentage and the current flags |
| Playback.Controller.ClipSegmentUpdate | app.py:279-284 | digits 2-3 become the field of index+1; digits 0-1 are kept |
| Playback.Controller.BankSegmentUpdate | app.py:286-296 | digits 0-1 become the field of the pending bank while shifting, else of the current bank; digits 2-3 are kept |
| Playback.Controller.DrainQueue | app.py:314-317 | empties the queue and forwards its commands to the player in FIFO order |
| Playback.Controller.FollowFilename | app.py:319-328 | sends the filename query, follows the reported name in the index and the clip field, or keeps both |
| Playback.Controller.EndOfClipPolicy | app.py:335-351 | sends the percent query, then writes what the end-of-clip policy says; raises when it does |
| Playback.Controller.PollOnce | app.py:312-356 | queue emptied; player sees the old queue, the two queries and the policy's text, in that order; clip index and display updated; strip redrawn unless the step raised |
| Playback.Controller.CleanUp | app.py:362-368 | display "----" and every pixel (0,0,0,0) |

## Left out

- GPIO: pin setup, edge detection, the 80 ms debounce and the power LED are hardware. A press is modelled as a call with the pin number, and the shift pin's level is an input.
- The display driver and the LED strip driver are left out, including the `colon` flag and `pixels.show()`. Only the digits and pixels written are modelled.
- The mplayer process is left out: spawning it with the initial playlist, and scraping `ANS_filename=` and `ANS_PERCENT_POSITION=` from its output. The parsed file name and percent are inputs to `PollOnce`. A malformed answer (`int()` raising) is not modelled.
- The `while True` loop, `time.sleep` and the daemon thread are left out. One pass is modelled, with no interleaving with the button callbacks. After `PollOnce` reports `stopped`, the source's thread has died; the model does not capture that later passes never run.
- Loading `.env`, creating the bank directories and `os.listdir` are left out. A bank's listing is an input, and a missing directory is not modelled.
- `state.json` reading and writing is left out. `loaded` = None stands for the TypeError fallback that installs the defaults. Other decoding failures end the source at startup, for example `json.loads` of the empty file created on a first run raising JSONDecodeError; these are not modelled.
- Playback.Controller.constructor: requires `BANK_COUNT >= 1`. Below 1 the source's wraparound breaks (`pending_bank_up` never wraps) and startup usually fails on a missing bank directory; the model does not cover such a deployment.
- `playerOut` records the texts written to the player, not the input lines mplayer reads. The unterminated `pt_step <k>` (app.py:351) runs into the next write, which is the next pass's first queued command or the filename query, on one mplayer input line. The model does not capture that merge.
- Leds.ExactArithmetic: exact arithmetic replaces the source's floating point. At exact multiples of 100/12 percent, the model's full count can be one more than the float result, and partial levels are not bit-exact.
- `atexit`, the signal handlers and `keyboard.wait()` are process lifecycle. Only the body of `clean_up` is modelled, without the power LED.
- `tests/segment_test.py` is a hardware demo of the display and holds no controller logic.
