/** The three widgets the core reads and writes (the command entry, the
    output text box and the progress bar's variable) and the handlers that
    update them: `load_command`, `clear_output`, `submit_command` and
    `run_command` with its pipe readers. */
module Console {
  import opened Text
  import opened Presets
  import opened Submit
  import opened Stream

  /** What `subprocess.Popen(["powershell", "-Command", command], ...)`
      did: started a process that writes `stdout` and `stderr` to its two
      pipes and then exits, or raised an exception with `message`. */
  datatype Spawn = Started(stdout: string, stderr: string) | SpawnFailed(message: string)

  /** How `run_command` ends: after the process exited, or with the error
      dialog showing `message`. */
  datatype RunResult = Completed | ErrorShown(message: string)

  /** `progress_var.set(100)`, in tenths. */
  const Complete: nat := 1000

  class Window {
    /** The contents of the command entry, without the newline Tk adds
        when it is read. */
    var commandEntry: string
    /** The contents of the output text box. */
    var outputText: string
    /** Ten times the value of `progress_var`: the reader loops set it to
        `len(total_output) / 10`, that is, `len(total_output)` tenths. */
    var progressTenths: nat
    /** Every value `progress_var` has been set to, oldest first. */
    ghost var progressLog: seq<nat>

    constructor ()
      ensures commandEntry == [] && outputText == []
      ensures progressTenths == 0 && progressLog == []
    {
      commandEntry := [];
      outputText := [];
      progressTenths := 0;
      progressLog := [];
    }

    /** `progress_var.set(tenths / 10)`. */
    method SetProgress(tenths: nat)
      modifies this`progressTenths, this`progressLog
      ensures progressTenths == tenths
      ensures progressLog == old(progressLog) + [tenths]
    {
      progressTenths := tenths;
      progressLog := progressLog + [tenths];
    }

    /** `load_command`: the entry is emptied and then holds the stripped
        preset command, whatever it held before. */
    method LoadCommand(command: string)
      modifies this`commandEntry
      ensures commandEntry == Strip(command)
    {
      commandEntry := [];
      commandEntry := commandEntry + Strip(command);
    }

    /** `clear_output`. */
    method ClearOutput()
      modifies this`outputText
      ensures outputText == []
    {
      outputText := [];
    }

    /** `submit_command`: blank entry text gives the warning and changes
        nothing; otherwise the output is cleared, the progress reset to 0,
        and the resolved command is handed to `run_command`. */
    method SubmitCommand(mode: Mode) returns (outcome: Outcome)
      modifies this`outputText, this`progressTenths, this`progressLog
      ensures outcome == Resolve(commandEntry + "\n", mode)
      ensures outcome.EmptyInput? <==> AllSpace(commandEntry)
      ensures outcome.EmptyInput? ==>
                outputText == old(outputText) && progressTenths == old(progressTenths)
                && progressLog == old(progressLog)
      ensures outcome.Launch? ==>
                outputText == [] && progressTenths == 0 && progressLog == old(progressLog) + [0]
    {
      var command := Strip(commandEntry + "\n");
      EntryBlank(commandEntry);
      if command == [] {
        return EmptyInput;
      }
      outputText := [];
      SetProgress(0);
      command := LookupCommand(command, mode);
      return Launch(command);
    }

    /** `read_stdout` / `read_stderr` on a pipe carrying `data`: each line
        read is added to `total_output` and to the output box, and the
        progress is set to the length of `total_output`. */
    method ReadStream(data: string) returns (totalOutput: string)
      modifies this`outputText, this`progressTenths, this`progressLog
      ensures totalOutput == data
      ensures outputText == old(outputText) + data
      ensures progressLog == old(progressLog) + LineEnds(data, 0)
      ensures progressTenths == if data == [] then old(progressTenths) else |data|
    {
      totalOutput := "";
      var pos := 0;
      var line := ReadLine(data, pos);
      while line != ""
        invariant pos <= |data| && line == ReadLine(data, pos)
        invariant totalOutput == data[..pos]
        invariant outputText == old(outputText) + totalOutput
        invariant progressLog + LineEnds(data, pos) == old(progressLog) + LineEnds(data, 0)
        invariant progressTenths == if pos == 0 then old(progressTenths) else pos
        decreases |data| - pos
      {
        var next := LineEnd(data, pos);
        assert data[..next] == data[..pos] + line;
        totalOutput := totalOutput + line;
        outputText := outputText + line;
        SetProgress(|totalOutput|);
        pos := next;
        line := ReadLine(data, pos);
      }
      assert data[..pos] == data;
    }

    /** `run_command`: progress to 0; if the process cannot be started, the
        error dialog and nothing else; otherwise the output box is cleared,
        both pipes are drained into it, and progress is forced to 100. */
    method RunCommand(spawn: Spawn) returns (result: RunResult)
      modifies this`outputText, this`progressTenths, this`progressLog
      ensures spawn.SpawnFailed? ==>
                result == ErrorShown(spawn.message) && outputText == old(outputText)
                && progressTenths == 0 && progressLog == old(progressLog) + [0]
      ensures spawn.Started? ==>
                result == Completed && outputText == spawn.stdout + spawn.stderr
                && progressTenths == Complete
                && progressLog == RunProgress(old(progressLog), spawn.stdout, spawn.stderr)
    {
      SetProgress(0);
      if spawn.SpawnFailed? {
        return ErrorShown(spawn.message);
      }
      outputText := [];
      var _ := ReadStream(spawn.stdout);
      var _ := ReadStream(spawn.stderr);
      SetProgress(Complete);
      return Completed;
    }
  }

  /** The progress values of a run that started, after `log`: 0, then
      the stdout reader's values, then the stderr reader's, then 100. */
  ghost function RunProgress(log: seq<nat>, stdout: string, stderr: string): seq<nat> {
    log + [0] + LineEnds(stdout, 0) + LineEnds(stderr, 0) + [Complete]
  }

  /** A started run's progress begins at 0 and ends at 100; in between
      come one value per line of stdout, strictly increasing and ending at
      the length of stdout, then one value per line of stderr. */
  lemma RunProgressShape(stdout: string, stderr: string)
    ensures var p := RunProgress([], stdout, stderr);
            p[0] == 0 && p[|p| - 1] == Complete
            && |p| == 2 + |LineEnds(stdout, 0)| + |LineEnds(stderr, 0)|
            && (forall i, j :: 1 <= i < j <= |LineEnds(stdout, 0)| ==> p[i] < p[j])
            && (stdout != [] ==> p[|LineEnds(stdout, 0)|] == |stdout|)
  {
    var p := RunProgress([], stdout, stderr);
    var o := LineEnds(stdout, 0);
    assert p == [0] + o + LineEnds(stderr, 0) + [Complete];
    assert forall i :: 1 <= i <= |o| ==> p[i] == o[i - 1];
    LineEndsIncreasing(stdout, 0);
    if stdout != [] {
      LineEndsLast(stdout, 0);
    }
  }
}
