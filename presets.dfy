/** The preset catalog: two ordered label -> command tables, one with the
    commands that are run and one with the `Get-Help` query for each, and
    the help-mode flag that chooses between them. */
module Presets {
  import opened Text

  datatype Option<T> = None | Some(value: T)

  /** One quick-launch button: the text on the button and the PowerShell
      command it loads into the entry. */
  datatype Preset = Preset(name: string, command: string)

  /** A Python dict in insertion order: a sequence of entries. */
  type Catalog = seq<Preset>

  /** The state of the "Help Mode" check box. */
  datatype Mode = Normal | Help

  const PresetCommands: Catalog := [
    Preset("System Information", "Get-CimInstance -ClassName Win32_ComputerSystem | Format-List *"),
    Preset("List Disk Drives", "Get-WmiObject -Class Win32_DiskDrive | Select-Object DeviceID, Model, Size, MediaType"),
    Preset("List Network Adapters", "Get-NetAdapter | Select-Object Name, InterfaceDescription, Status, MacAddress"),
    Preset("List Active Network Connections", "Get-NetTCPConnection | Select-Object LocalAddress, LocalPort, RemoteAddress, RemotePort, State"),
    Preset("List Printers", "Get-Printer | Select-Object Name, DriverName, PortName, Shared"),
    Preset("List Installed Software", "Get-WmiObject -Class Win32_Product | Select-Object Name, Vendor, Version, InstallDate"),
    Preset("List Processes", "Get-Process | Select-Object Name, Id, CPU, Responding, Path"),
    Preset("List Services", "Get-Service | Select-Object DisplayName, Status, ServiceType, StartType"),
    Preset("Check System Uptime", "Get-CimInstance Win32_OperatingSystem | Select-Object LastBootUpTime, @{Name='Uptime';Expression={[DateTime]::Now - [Management.ManagementDateTimeConverter]::ToDateTime($_.LastBootUpTime)}}")
  ]

  const PresetHelp: Catalog := [
    Preset("System Information", "Get-Help Get-CimInstance"),
    Preset("List Disk Drives", "Get-Help Get-WmiObject"),
    Preset("List Network Adapters", "Get-Help Get-NetAdapter"),
    Preset("List Active Network Connections", "Get-Help Get-NetTCPConnection"),
    Preset("List Printers", "Get-Help Get-Printer"),
    Preset("List Installed Software", "Get-Help Get-WmiObject"),
    Preset("List Processes", "Get-Help Get-Process"),
    Preset("List Services", "Get-Help Get-Service"),
    Preset("Check System Uptime", "Get-Help Get-CimInstance")
  ]

  function Labels(c: Catalog): (r: seq<string>)
    ensures |r| == |c| && forall i :: 0 <= i < |c| ==> r[i] == c[i].name
  {
    if c == [] then [] else [c[0].name] + Labels(c[1..])
  }

  /** Dict keys are unique. */
  predicate DistinctLabels(c: Catalog) {
    forall i, j :: 0 <= i < j < |c| ==> c[i].name != c[j].name
  }

  /** Every command is non-empty and has no surrounding whitespace. */
  predicate CommandsStripped(c: Catalog) {
    forall i :: 0 <= i < |c| ==> c[i].command != [] && IsStripped(c[i].command)
  }

  /** No command of the catalog is also one of its labels. */
  predicate CommandsAreNotLabels(c: Catalog) {
    forall i, j :: 0 <= i < |c| && 0 <= j < |c| ==> c[i].command != c[j].name
  }

  /** Both tables list the same labels in the same order. */
  lemma SameLabels()
    ensures Labels(PresetCommands) == Labels(PresetHelp)
  {
  }

  /** The two tables are different tables. */
  lemma TablesDiffer()
    ensures PresetHelp != PresetCommands
  {
    assert |PresetHelp[0].command| != |PresetCommands[0].command|;
  }

  /** Neither table repeats a label. */
  lemma LabelsDistinct()
    ensures DistinctLabels(PresetCommands) && DistinctLabels(PresetHelp)
  {
    CommandLabelsDistinct();
    HelpLabelsDistinct();
  }

  lemma CommandLabelsDistinct()
    ensures DistinctLabels(PresetCommands)
  {
  }

  lemma HelpLabelsDistinct()
    ensures DistinctLabels(PresetHelp)
  {
  }

  /** Every help command is non-empty and stripped. */
  lemma HelpCommandsStripped()
    ensures CommandsStripped(PresetHelp)
  {
  }

  /** No help command is one of the labels. */
  lemma HelpCommandsAreNotLabels()
    ensures CommandsAreNotLabels(PresetHelp)
  {
  }

  /** `toggle_help_commands`: the help table when help mode is on, the
      command table otherwise. */
  function SelectCatalog(mode: Mode): (c: Catalog)
    ensures c == PresetHelp <==> mode.Help?
    ensures c == PresetCommands <==> mode.Normal?
    ensures Labels(c) == Labels(PresetCommands) && DistinctLabels(c)
  {
    SameLabels();
    LabelsDistinct();
    TablesDiffer();
    if mode.Help? then PresetHelp else PresetCommands
  }

  /** The command of the first entry whose label is `name`, as the
      `for label, cmd in commands.items()` loop with `break` finds it. */
  function FindCommand(c: Catalog, name: string): Option<string>
  {
    if c == [] then None
    else if c[0].name == name then Some(c[0].command)
    else FindCommand(c[1..], name)
  }

  /** The search stops at the first entry with the label, whatever entries
      with the same label come later. */
  lemma {:induction false} FindCommandFirst(c: Catalog, name: string, k: nat)
    requires k < |c| && c[k].name == name
    requires forall j :: 0 <= j < k ==> c[j].name != name
    ensures FindCommand(c, name) == Some(c[k].command)
  {
    if k > 0 {
      FindCommandFirst(c[1..], name, k - 1);
    }
  }

  /** The search finds nothing exactly when no entry has the label. */
  lemma {:induction false} FindCommandNone(c: Catalog, name: string)
    ensures FindCommand(c, name) == None <==> forall j :: 0 <= j < |c| ==> c[j].name != name
  {
    if c != [] && c[0].name != name {
      FindCommandNone(c[1..], name);
      assert forall j :: 1 <= j < |c| ==> c[j] == c[1..][j - 1];
    }
  }

  /** Searching a catalog for one of its own commands finds nothing when
      no command is a label. */
  lemma FindCommandOfCommand(c: Catalog, k: nat)
    requires k < |c| && CommandsAreNotLabels(c)
    ensures FindCommand(c, c[k].command) == None
  {
    FindCommandNone(c, c[k].command);
  }

  /** What the search finds is the command of an entry with that label. */
  lemma {:induction false} FindCommandEntry(c: Catalog, name: string) returns (k: nat)
    requires FindCommand(c, name).Some?
    ensures k < |c| && c[k] == Preset(name, FindCommand(c, name).value)
    ensures forall j :: 0 <= j < k ==> c[j].name != name
  {
    if c[0].name == name {
      k := 0;
    } else {
      var k' := FindCommandEntry(c[1..], name);
      k := k' + 1;
    }
  }
}
