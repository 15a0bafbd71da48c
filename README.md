# PS-Commander: preset catalog, command resolution and output relay

PS-Commander is a small desktop front end for PowerShell. The Python
version keeps two ordered label → command tables: the commands that the
quick-launch buttons load, and a `Get-Help` query for each of them. A
"Help Mode" check box chooses between the tables. When "Submit Command" is
pressed, the program does the following:

- It strips the text typed into the command entry.
- It refuses blank text with a warning.
- In help mode, it replaces a text that equals a label with that label's
  help command.
- It starts the command in PowerShell.

Two reader loops then copy the process's stdout and stderr into the output
box line by line. They move a progress bar by the length of the text read
so far, and the bar is forced to 100 when the process exits.

This project models that core in Dafny and proves what it promises. It has
five modules:

- `Text` (`text.dfy`): Python's `str.strip()`, over the exact set of
  characters `str.isspace()` accepts.
- `Presets` (`presets.dfy`): the two tables as ordered sequences of
  `Preset(name, command)`, and the help-mode flag as the enum
  `Mode = Normal | Help`. It contains `toggle_help_commands` (`SelectCatalog`)
  and the first-match label search (`FindCommand`).
- `Submit` (`submit.dfy`): the specification of `submit_command`. `Resolve`
  maps the entry text to `EmptyInput` (the warning) or to `Launch(command)`.
  It also holds the imperative label search (`SearchLabels`, a `while` loop
  with `break`, as the source's `for … break`) and the lemmas about
  resolution.
- `Stream` (`stream.dfy`): what one reader thread sees of a pipe. That is
  `readline()` (`LineEnd`, `ReadLine`), the lines it returns (`Lines`) and
  the successive lengths of `total_output` (`LineEnds`), which are the
  values the reader gives the progress bar.
- `Console` (`console.dfy`): the state the handlers change, as a class
  `Window`:
  - the command entry;
  - the output box;
  - the progress value, in tenths, with a ghost log of every value set.

  The handlers `load_command`, `clear_output`, `submit_command` and
  `run_command` (with its two reader loops) are methods of `Window`.

Two conventions hold throughout:

- **Progress in tenths.** The source sets `progress_var` to
  `len(total_output) / 10` and finally to `100`. The model records ten
  times those values: `len(total_output)` and `1000`. They are natural
  numbers, and no float is involved.
- **The entry's trailing newline.** A Tk text widget returns its contents
  with a trailing newline (`get("1.0", END)`). `SubmitCommand` therefore
  resolves `commandEntry + "\n"`, and the lemmas show that the newline is
  stripped away.

Two behaviours of the code are kept as written:

- The progress value is not clamped. Any stream longer than 1000
  characters drives it past 100 before completion forces it to 100
  (`Stream.LineEndsLast`).
- Each reader has its own `total_output`. Progress therefore rises
  strictly within one reader, but not across the two readers
  (`Console.RunProgressShape`).

## Model

| member | source | states |
|---|---|---|
| Text.IsSpace | Python/PSCommander.py:99 | the characters `str.isspace()` accepts, which `strip()` removes; specified through Text.Strip, Text.StripIsInfix and Text.StripPadded |
| Presets.PresetCommands | Python/PSCommander.py:23-33 | the command table, entry for entry in the source's order; its labels are specified by Presets.SameLabels and Presets.CommandLabelsDistinct |
| Presets.PresetHelp | Python/PSCommander.py:36-46 | the help table, entry for entry in the source's order; specified by Presets.SameLabels, Presets.HelpLabelsDistinct, Presets.HelpCommandsStripped and Presets.HelpCommandsAreNotLabels |
| Presets.FindCommand | Python/PSCommander.py:106-109 | the first-match search with `break`; specified by Presets.FindCommandFirst, Presets.FindCommandNone and Presets.FindCommandEntry, and computed by Submit.SearchLabels |
| Submit.Lookup | Python/PSCommander.py:103-109 | the command run for a non-blank stripped text; computed by Submit.LookupCommand and specified by Submit.ResolveHelpLabel and Submit.ResolvePassThrough |
| Submit.Resolve | Python/PSCommander.py:99-112 | the outcome of submitting a text; specified by Submit.ResolveEmptyIffBlank, Submit.LaunchedCommandStripped, Submit.ResolveHelpLabel and Submit.ResolvePassThrough, and computed by Console.Window.SubmitCommand |
| Stream.ReadLine | Python/PSCommander.py:69 | `readline()`: the characters up to Stream.LineEnd, whose contract fixes where it stops |
| Stream.Lines | Python/PSCommander.py:67-73 | the lines the reader loop receives; specified by Stream.LinesJoin and Stream.LinesCount |
| Stream.LineEnds | Python/PSCommander.py:67-73 | the progress values one reader sets; specified by Stream.LineEndsBounds, Stream.LineEndsIncreasing, Stream.LineEndsLast and Stream.LineEndsAreOutputLengths, and produced by Console.Window.ReadStream |
| Text.Strip | Python/PSCommander.py:99 | the stripped text has no whitespace at either end and is no longer than the input; it is empty exactly when the input is all whitespace |
| Text.StripIsInfix | Python/PSCommander.py:99 | the stripped text is a contiguous piece of the input, and only whitespace lies before and after it |
| Text.StripPadded | Python/PSCommander.py:99 | uniqueness: a text with no surrounding whitespace, padded with any whitespace on both sides, strips back to exactly itself |
| Text.StripOfStripped | Python/PSCommander.py:99 | a text with no surrounding whitespace is unchanged by strip |
| Text.StripIdempotent | Python/PSCommander.py:119 | stripping twice (`load_command`, then `submit_command`) is stripping once |
| Text.StripIgnoresTrailingSpace | Python/PSCommander.py:99 | whitespace appended to a text, such as the newline the text widget adds, does not change its strip |
| Presets.SameLabels | Python/PSCommander.py:23-46 | both tables list the same labels in the same order |
| Presets.CommandLabelsDistinct | Python/PSCommander.py:23-33 | the command table repeats no label |
| Presets.HelpLabelsDistinct | Python/PSCommander.py:36-46 | the help table repeats no label |
| Presets.LabelsDistinct | Python/PSCommander.py:23-46 | neither table repeats a label |
| Presets.TablesDiffer | Python/PSCommander.py:23-46 | the two tables are different tables |
| Presets.HelpCommandsStripped | Python/PSCommander.py:36-46 | every help command is non-empty and has no surrounding whitespace |
| Presets.HelpCommandsAreNotLabels | Python/PSCommander.py:36-46 | no help command equals any label |
| Presets.SelectCatalog | Python/PSCommander.py:51-57 | the help table is returned exactly when help mode is on, and the command table exactly when it is off; either way the labels are those of the command table and distinct |
| Presets.FindCommandFirst | Python/PSCommander.py:106-109 | the search returns the command of the first entry with the label, whatever entries with that label come later |
| Presets.FindCommandNone | Python/PSCommander.py:106-109 | the search finds nothing exactly when no entry has the label |
| Presets.FindCommandEntry | Python/PSCommander.py:106-109 | what the search finds is the command of an entry with that label, and no earlier entry has that label |
| Presets.FindCommandOfCommand | Python/PSCommander.py:106-109 | searching a table for one of its own commands finds nothing when no command is a label |
| Submit.SearchLabels | Python/PSCommander.py:106-109 | the loop with `break` returns the command of the first entry labelled `command`, and `command` unchanged when there is none |
| Submit.LookupCommand | Python/PSCommander.py:103-109 | selecting the table and searching it in help mode gives the help command for a label and the text unchanged otherwise; in normal mode the text is unchanged |
| Submit.ResolveEmptyIffBlank | Python/PSCommander.py:99-112 | submitting gives the warning exactly when the text is empty or whitespace only |
| Submit.LaunchedCommandStripped | Python/PSCommander.py:99-110 | a launched command is non-empty and has no surrounding whitespace, in either mode |
| Submit.ResolveHelpLabel | Python/PSCommander.py:104-109 | in help mode, text whose strip equals a label launches that label's help command |
| Submit.ResolvePassThrough | Python/PSCommander.py:104-110 | in normal mode any non-blank text, and in help mode any non-blank text that equals no label, launches its strip unchanged |
| Submit.LoadedCommandRuns | Python/PSCommander.py:117-119 | loading a non-blank preset command and submitting in normal mode launches exactly the stripped command |
| Submit.LoadedHelpRuns | Python/PSCommander.py:178-187 | in help mode the buttons load help commands, and submitting one launches it exactly as it is |
| Submit.HelpCommandFacts | Python/PSCommander.py:36-46 | each help command is non-empty, its own strip, and not found by the label search |
| Submit.EntryBlank | Python/PSCommander.py:99-100 | the entry read back with its newline is blank exactly when the entry is |
| Submit.EntryReadBack | Python/PSCommander.py:99 | stripping the entry read back with its newline gives the strip of the entry |
| Stream.LineEnd | Python/PSCommander.py:69 | `readline()` stops just past the next newline, or at the end of the data; it reads nothing exactly at the end; no newline comes before the last character it reads |
| Stream.LinesJoin | Python/PSCommander.py:69-70 | the lines read, joined, are exactly the rest of the stream |
| Stream.LinesCount | Python/PSCommander.py:69-73 | the reader sets the progress once per line read |
| Stream.LineEndsAreOutputLengths | Python/PSCommander.py:70-73 | each progress value is the length of `total_output` after the line that set it, that is the lines read so far, joined |
| Stream.LineEndsBounds | Python/PSCommander.py:67-73 | a reader sets the progress at least once exactly when its stream is not exhausted, and every value lies past the start and within the stream |
| Stream.LineEndsIncreasing | Python/PSCommander.py:67-73 | within one reader the progress values strictly increase |
| Stream.LineEndsLast | Python/PSCommander.py:67-73 | the last progress value a reader sets on a non-empty stream is the stream's length |
| Console.Window.constructor | Python/PSCommander.py:160-202 | the entry and the output box start empty and the progress starts at 0 |
| Console.Window.SetProgress | Python/PSCommander.py:73 | the progress takes the value, and the value is appended to the log |
| Console.Window.LoadCommand | Python/PSCommander.py:117-119 | the entry holds exactly the stripped command afterwards; nothing of its old contents stays |
| Console.Window.ClearOutput | Python/PSCommander.py:114-115 | the output box is empty |
| Console.Window.SubmitCommand | Python/PSCommander.py:98-112 | the outcome is the resolution of the entry read back; blank entry text gives the warning and changes nothing; otherwise the output box is cleared and the progress set to 0 |
| Console.Window.ReadStream | Python/PSCommander.py:67-83 | the reader's `total_output` ends as the whole stream, the output box gains exactly the stream, and the progress takes the successive lengths of `total_output`, one per line |
| Console.Window.RunCommand | Python/PSCommander.py:59-96 | a failed start shows the error with the output box untouched and the progress at 0; a started run leaves stdout then stderr in the output box and the progress log 0, the stdout values, the stderr values, 100 |
| Console.RunProgressShape | Python/PSCommander.py:61-92 | a run's progress begins at 0 and ends at 100; between them come one value per stdout line, strictly increasing and ending at stdout's length, then one value per stderr line |

## Left out

- Console.Window.RunCommand, Console.RunProgressShape: the source never joins its reader threads; it waits only for the process to exit and then sets the progress to 100. Output still in a pipe at that moment can reach the output box, and set the progress to a reader's value, after the 100. The model drains both pipes to their end before it observes the exit. So "the progress ends at 100" and "the output box holds stdout then stderr when `run_command` returns" hold only for that order, not for every run of the source.
- The two reader threads run concurrently in the source. `Console.Window.RunCommand` runs the stdout reader to its end and then the stderr reader, which is one of the possible interleavings. Any other interleaving of their output and progress values is not modelled.
- `subprocess.Popen`, the pipes and the `process.poll()` / `time.sleep` wait are not modelled. What the process writes and whether it could be started are given as the `Spawn` parameter of `RunCommand`.
- The thread that `submit_command` starts for `run_command` is not modelled. `SubmitCommand` returns the resolved command as `Launch(command)`, and `RunCommand` is a separate call.
- Text decoding and newline translation on the pipes are left out. A stream is modelled as the already-decoded text, and `readline()` splits at `'\n'`.
- `update_idletasks`, the widget layout of `create_gui`, the `messagebox` dialogs and the preset buttons are left out. The warning and the error dialog are modelled as the result values `EmptyInput` and `ErrorShown`, and the buttons only through the tables they load (`Submit.LoadedHelpRuns`).
- `export_to_csv` is left out: it is a file dialog and a `csv` writer.
- The GUI-building code of `load_preset_commands` is left out.
- The progress is an integer count of tenths, not a floating-point `DoubleVar`. It is left unclamped, as in the source.
- `Submit.Resolve` looks labels up in the help table directly. `Presets.SelectCatalog` shows that this is the table selected in help mode.
- Presets.HelpCommandsStripped: the same fact for the command table is not stated.
- Presets.HelpCommandsAreNotLabels: the same fact for the command table is not stated. Submitting a loaded preset in normal mode needs neither fact (`Submit.LoadedCommandRuns`).
- The C# versions of the program (`C#/MainWindow.xaml.cs`, `C#/PSCommander/MainWindow.xaml.cs`) are not part of this model.
