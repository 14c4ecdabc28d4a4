/**
 * The decisions of one pass of the player loop
 * (`mplayer_command_thread_execute`): which clip the player reports, and
 * what to do at the end of a clip.
 */
module Polling {
  import opened Commands
  import opened Shuffle
  import opened SettingsStore

  /** `files.index(name)`: the first position of `name`, or -1 when it is absent. */
  function IndexOf(files: seq<string>, name: string): (r: int)
    ensures -1 <= r < |files|
    ensures r == -1 <==> name !in files
    ensures r >= 0 ==> files[r] == name && forall j :: 0 <= j < r ==> files[j] != name
    decreases |files|
  {
    if files == [] then -1
    else if files[0] == name then 0
    else
      var k := IndexOf(files[1..], name);
      if k == -1 then -1 else k + 1
  }

  /** The clip index after the player reported `filename`; an unknown name keeps the old index. */
  function ClipIndexAfter(files: seq<string>, filename: string, clipIndex: int): (r: int)
    ensures filename in files ==> 0 <= r < |files| && files[r] == filename
    ensures filename !in files ==> r == clipIndex
    ensures clipIndex >= -1 ==> r >= -1
  {
    if filename in files then IndexOf(files, filename) else clipIndex
  }

  /** The end-of-clip policy: write a command to the player, write nothing, or raise. */
  datatype EndOfClip = Write(text: string) | Quiet | Raise

  /**
   * At 99 percent or more: restart the clip with hold on, otherwise take a
   * random step with shuffle on once a clip is known, otherwise leave the
   * player to advance by itself. The random step is written without a
   * newline, as the source does.
   */
  function EndOfClipAction(percent: int, s: Settings, clipIndex: int, filesCount: int, d: Draws): (e: EndOfClip)
    requires Fits(d, filesCount)
    ensures percent < 99 ==> e == Quiet
    ensures percent >= 99 && s.shouldHoldClip ==> e == Write(SeekStartCommand)
    ensures e.Raise? <==> percent >= 99 && !s.shouldHoldClip && s.shouldShuffle && clipIndex > -1 && filesCount < 3
  {
    if percent >= 99 then
      if s.shouldHoldClip then Write(SeekStartCommand)
      else if s.shouldShuffle && clipIndex > -1 then
        match RandomStep(filesCount, d)
        case None => Raise
        case Some(k) => Write(StepText(k))
      else Quiet
    else Quiet
  }

  /** The text the policy writes to the player. */
  function WrittenBy(e: EndOfClip): seq<string> {
    if e.Write? then [e.text] else []
  }

  /** A reported name in the clip list selects its first position; otherwise the index is kept. */
  lemma ClipIndexCorrect(files: seq<string>, filename: string, clipIndex: int)
    ensures var r := ClipIndexAfter(files, filename, clipIndex);
      && (filename in files ==> 0 <= r < |files| && files[r] == filename
                                && forall j :: 0 <= j < r ==> files[j] != filename)
      && (filename !in files ==> r == clipIndex)
  {
  }

  /**
   * Before 99 percent nothing is written. From 99 percent: with hold on,
   * exactly the absolute seek to 0 and no step; with hold off and shuffle on
   * and a known clip, one relative step that reads back as a nonzero step of
   * at most `files_count - 2` and carries no newline; otherwise nothing.
   */
  lemma EndOfClipCorrect(percent: int, s: Settings, clipIndex: int, filesCount: int, d: Draws)
    requires Fits(d, filesCount)
    ensures var e := EndOfClipAction(percent, s, clipIndex, filesCount, d);
      && (percent < 99 ==> e == Quiet)
      && (percent >= 99 && s.shouldHoldClip ==> e == Write("seek 0 2\n"))
      && (percent >= 99 && !s.shouldHoldClip && s.shouldShuffle && clipIndex > -1 && filesCount >= 3 ==>
            e.Write? && '\n' !in e.text && ParseStep(e.text).Some?
            && ParseStep(e.text).value != 0 && -(filesCount - 2) <= ParseStep(e.text).value <= filesCount - 2)
      && (e.Raise? <==> percent >= 99 && !s.shouldHoldClip && s.shouldShuffle && clipIndex > -1 && filesCount < 3)
      && (percent >= 99 && !s.shouldHoldClip && (!s.shouldShuffle || clipIndex <= -1) ==> e == Quiet)
  {
    if percent >= 99 && !s.shouldHoldClip && s.shouldShuffle && clipIndex > -1 && filesCount >= 3 {
      StepRoundTrip(RandomStep(filesCount, d).value);
    }
  }
}
