/**
 * The text of the commands the controller sends to the player's slave-mode
 * control channel, and parsers that read them back, so that what a command
 * asks for can be stated independently of how its text is built.
 */
module Commands {
  import opened Wrappers
  import opened Decimal

  /** Step back one clip in the playlist. */
  const PrevCommand := "pt_step -1\n"
  /** Toggle pause. */
  const PauseCommand := "pause\n"
  /** Step forward one clip in the playlist. */
  const NextCommand := "pt_step 1\n"
  /** Absolute seek (type 2) to position 0: restart the clip. */
  const SeekStartCommand := "seek 0 2\n"
  /** Query of the file name being played; the answer follows the marker `ANS_filename=`. */
  const FilenameQuery := "pausing_keep_force get_property filename\n"
  /** Query of the percent position; the answer follows the marker `ANS_PERCENT_POSITION=`. */
  const PercentQuery := "pausing_keep_force get_percent_pos\n"

  const LoadPrefix := "loadfile \""
  const StepPrefix := "pt_step "

  /** `pt_step k` without a line terminator. */
  function StepText(k: int): string {
    StepPrefix + IntToString(k)
  }

  /** Location of a clip: `<banks path>/<NN>/<file>` with the bank zero-padded to two digits. */
  function ClipPath(banksPath: string, bank: int, file: string): (path: string)
    ensures 0 <= bank <= 99 ==>
      && |path| == |banksPath| + |file| + 4
      && path[..|banksPath|] == banksPath && path[|path| - |file|..] == file
      && path[|banksPath|] == '/' == path[|banksPath| + 3]
      && var dir := path[|banksPath| + 1..|banksPath| + 3]; AllDigits(dir) && DigitsValue(dir) == bank
  {
    var p := banksPath + "/" + Padded(bank) + "/" + file;
    if 0 <= bank <= 99 then
      PaddedTwoDigits(bank);
      assert p[|banksPath| + 1..|banksPath| + 3] == Padded(bank);
      p
    else
      p
  }

  /** `loadfile "<path>"`, followed by ` 1` when the file is appended to the playlist, then a newline. */
  function LoadCommand(path: string, append: bool): (cmd: string)
    ensures ParseLoad(cmd) == Some(LoadRequest(path, append))
  {
    var cmd := LoadPrefix + path + "\"" + (if append then " 1" else "") + "\n";
    var n := |LoadPrefix|;
    assert cmd[..n] == LoadPrefix;
    if append then
      assert cmd[|cmd| - 4..] == "\" 1\n";
      assert cmd[n..|cmd| - 4] == path;
      cmd
    else
      assert cmd[|cmd| - 2] == '"';
      assert |cmd| >= n + 4 ==> cmd[|cmd| - 4..][2] != "\" 1\n"[2];
      assert cmd[|cmd| - 2..] == "\"\n";
      assert cmd[n..|cmd| - 2] == path;
      cmd
  }

  /** The commands that replace the playlist by a bank's clips: the first replaces, the rest append. */
  function PlaylistCommands(banksPath: string, bank: int, files: seq<string>): (cmds: seq<string>)
    ensures |cmds| == |files|
  {
    seq(|files|, i requires 0 <= i < |files| => LoadCommand(ClipPath(banksPath, bank, files[i]), i != 0))
  }

  /** What a load command asks the player for. */
  datatype LoadRequest = LoadRequest(path: string, append: bool)

  /** Reads a load command back; None when the text is not one. */
  function ParseLoad(cmd: string): Option<LoadRequest> {
    var n := |LoadPrefix|;
    if |cmd| >= n + 4 && cmd[..n] == LoadPrefix && cmd[|cmd| - 4..] == "\" 1\n" then
      Some(LoadRequest(cmd[n..|cmd| - 4], true))
    else if |cmd| >= n + 2 && cmd[..n] == LoadPrefix && cmd[|cmd| - 2..] == "\"\n" then
      Some(LoadRequest(cmd[n..|cmd| - 2], false))
    else
      None
  }

  /** Reads a relative step back, with or without the terminating newline. */
  function ParseStep(text: string): Option<int> {
    var n := |StepPrefix|;
    if |text| > n && text[..n] == StepPrefix then
      var rest := text[n..];
      if rest[|rest| - 1] == '\n' then ParseInt(rest[..|rest| - 1]) else ParseInt(rest)
    else
      None
  }

  /** A step, terminated or not, is read back as the step it was built from. */
  lemma StepRoundTrip(k: int)
    ensures ParseStep(StepText(k)) == Some(k)
    ensures ParseStep(StepText(k) + "\n") == Some(k)
    ensures '\n' !in StepText(k)
  {
    IntToStringRoundTrip(k);
    NatToStringCorrect(if k < 0 then -k else k);
    var s := IntToString(k);
    assert StepText(k)[|StepPrefix|..] == s;
    assert (StepText(k) + "\n")[|StepPrefix|..] == s + "\n";
    assert (s + "\n")[..|s|] == s;
    assert s[|s| - 1] != '\n' by {
      if k < 0 { assert s[|s| - 1] == NatToString(-k)[|s| - 2]; }
    }
    assert forall i :: 0 <= i < |s| ==> s[i] != '\n' by {
      forall i | 0 <= i < |s| ensures s[i] != '\n' {
        if k < 0 && i > 0 { assert s[i] == NatToString(-k)[i - 1]; }
      }
    }
    assert forall i :: 0 <= i < |StepText(k)| ==> StepText(k)[i] != '\n' by {
      forall i | 0 <= i < |StepText(k)| ensures StepText(k)[i] != '\n' {
        if i >= |StepPrefix| { assert StepText(k)[i] == s[i - |StepPrefix|]; }
      }
    }
  }

  /**
   * A bank's playlist is one command per clip, in the clip list's order: the
   * i-th loads the i-th clip of the bank's directory, only the first replaces
   * the playlist, and every command ends its line.
   */
  lemma PlaylistCorrect(banksPath: string, bank: int, files: seq<string>, i: int)
    requires 0 <= i < |files|
    ensures ParseLoad(PlaylistCommands(banksPath, bank, files)[i])
         == Some(LoadRequest(ClipPath(banksPath, bank, files[i]), i > 0))
    ensures var c := PlaylistCommands(banksPath, bank, files)[i]; c[|c| - 1] == '\n'
  {
  }

  /** Going back, stepping forward, pausing and restarting are told apart by the player. */
  lemma FixedCommandsMeaning()
    ensures ParseStep(PrevCommand) == Some(-1)
    ensures ParseStep(NextCommand) == Some(1)
    ensures ParseStep(PauseCommand) == None && ParseStep(SeekStartCommand) == None
  {
    assert PrevCommand == StepText(-1) + "\n";
    assert NextCommand == StepText(1) + "\n";
    StepRoundTrip(-1);
    StepRoundTrip(1);
  }
}
