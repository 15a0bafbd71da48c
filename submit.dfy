/** `submit_command`: turning the text typed into the command entry into
    the command that is run, or into the "Please enter a PowerShell
    command." warning. */
module Submit {
  import opened Text
  import opened Presets

  /** What pressing "Submit Command" leads to: the warning dialog, and no
      process; or a run of `command`. */
  datatype Outcome = EmptyInput | Launch(command: string)

  /** The command that runs for the non-blank stripped entry text
      `command`: in help mode (where the selected table is the help table)
      a text equal to a label is replaced by that label's help command; any
      other text runs as it is. */
  function Lookup(command: string, mode: Mode): string {
    if mode.Help? then
      match FindCommand(PresetHelp, command)
      case Some(cmd) => cmd
      case None => command
    else command
  }

  /** The outcome of submitting `text` (the entry's contents as read):
      blank text is refused, any other text is stripped and looked up. */
  function Resolve(text: string, mode: Mode): Outcome {
    var command := Strip(text);
    if command == [] then EmptyInput else Launch(Lookup(command, mode))
  }

  /** `commands = toggle_help_commands()` and, in help mode, the label
      search of `submit_command`. */
  method LookupCommand(command: string, mode: Mode) returns (result: string)
    ensures result == Lookup(command, mode)
  {
    var commands := SelectCatalog(mode);
    result := command;
    if mode.Help? {
      assert commands == PresetHelp;
      result := SearchLabels(commands, command);
    }
  }

  /** The `for label, cmd in commands.items()` loop: the first entry whose
      label equals `command` replaces it by its command, and the loop
      stops there; with no such entry `command` is left as it is. */
  method SearchLabels(commands: Catalog, command: string) returns (result: string)
    ensures FindCommand(commands, command).Some? ==> result == FindCommand(commands, command).value
    ensures FindCommand(commands, command).None? ==> result == command
  {
    result := command;
    var i := 0;
    while i < |commands|
      invariant 0 <= i <= |commands|
      invariant result == command
      invariant forall j :: 0 <= j < i ==> commands[j].name != command
    {
      if commands[i].name == result {
        FindCommandFirst(commands, command, i);
        result := commands[i].command;
        break;
      }
      i := i + 1;
    }
    if i == |commands| {
      FindCommandNone(commands, command);
    }
  }

  /** Submitting blank text (empty, or whitespace only) gives the warning
      and nothing else; any other text leads to a run. */
  lemma ResolveEmptyIffBlank(text: string, mode: Mode)
    ensures Resolve(text, mode) == EmptyInput <==> AllSpace(text)
  {
  }

  /** A command that is run is never empty and never has surrounding
      whitespace. */
  lemma LaunchedCommandStripped(text: string, mode: Mode)
    requires Resolve(text, mode).Launch?
    ensures Resolve(text, mode).command != []
    ensures IsStripped(Resolve(text, mode).command)
  {
    var command := Strip(text);
    if mode.Help? && FindCommand(PresetHelp, command).Some? {
      var k := FindCommandEntry(PresetHelp, command);
      HelpCommandsStripped();
    }
  }

  /** Help mode, text equal to a label after stripping: the command run is
      the help command of that label. */
  lemma ResolveHelpLabel(text: string, k: nat)
    requires k < |PresetHelp| && Strip(text) == PresetHelp[k].name
    ensures Resolve(text, Help) == Launch(PresetHelp[k].command)
  {
    HelpLabelsDistinct();
    FindCommandFirst(PresetHelp, Strip(text), k);
  }

  /** Text that names no label in help mode, and any text in normal mode,
      is run as typed, stripped. */
  lemma ResolvePassThrough(text: string, mode: Mode)
    requires !AllSpace(text)
    requires mode.Help? ==> forall k :: 0 <= k < |PresetHelp| ==> PresetHelp[k].name != Strip(text)
    ensures Resolve(text, mode) == Launch(Strip(text))
  {
    if mode.Help? {
      FindCommandNone(PresetHelp, Strip(text));
    }
  }

  /** `load_command` followed by `submit_command` in normal mode: the
      entry holds the stripped preset command (Tk adds a newline when the
      entry is read back), and exactly that command is run. */
  lemma LoadedCommandRuns(command: string)
    requires !AllSpace(command)
    ensures Resolve(Strip(command) + "\n", Normal) == Launch(Strip(command))
  {
    EntryReadBack(Strip(command));
    StripIdempotent(command);
  }

  /** The same in help mode, where the buttons load the help table: a help
      command is run as it is, since it is stripped and no help command is
      a label. */
  lemma LoadedHelpRuns(command: string)
    requires exists k :: 0 <= k < |PresetHelp| && PresetHelp[k].command == command
    ensures Resolve(Strip(command) + "\n", Help) == Launch(command)
  {
    var k :| 0 <= k < |PresetHelp| && PresetHelp[k].command == command;
    HelpCommandFacts(k);
    EntryReadBack(command);
  }

  /** What a help command loaded from a button looks like to the search. */
  lemma HelpCommandFacts(k: nat)
    requires k < |PresetHelp|
    ensures PresetHelp[k].command != [] && Strip(PresetHelp[k].command) == PresetHelp[k].command
    ensures FindCommand(PresetHelp, PresetHelp[k].command) == None
  {
    HelpCommandsStripped();
    StripOfStripped(PresetHelp[k].command);
    HelpCommandsAreNotLabels();
    FindCommandOfCommand(PresetHelp, k);
  }

  /** The entry is blank exactly when the text read back from it is. */
  lemma EntryBlank(entry: string)
    ensures AllSpace(entry + "\n") <==> AllSpace(entry)
  {
    assert forall i :: 0 <= i < |entry| ==> (entry + "\n")[i] == entry[i];
    assert (entry + "\n")[|entry|] == '\n';
  }

  /** Reading the entry back gives its contents and the newline Tk adds,
      which stripping removes. */
  lemma EntryReadBack(entry: string)
    ensures Strip(entry + "\n") == Strip(entry)
  {
    assert AllSpace("\n");
    StripIgnoresTrailingSpace(entry, "\n");
  }
}
