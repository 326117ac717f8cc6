/**
 * The application (app.go): command registration, the root usage header, the
 * merge of the configuration document into the root record, and the run that
 * settles, in a fixed order, between printing the version, routing to a
 * command, printing usage, and prompting for and calling the root action.
 */
module Apps {
  import opened Values
  import opened Fields
  import opened Prompting
  import opened Merging
  import opened Dispatch
  import opened Commands

  const EmptyName := "Command names cannot be empty"
  const EmptyDescription := "Command descriptions cannot be empty"

  // ---------------------------------------------------------------------------
  // Registration

  predicate Registrable(c: Command) {
    c.Name != "" && c.Description != ""
  }

  /** The position of the first command with an empty name or description. */
  function FirstUnregistrable(cmds: seq<Command>): (r: Option<nat>)
    ensures r.None? <==> forall i :: 0 <= i < |cmds| ==> Registrable(cmds[i])
    ensures r.Some? ==> r.value < |cmds| && !Registrable(cmds[r.value])
    ensures r.Some? ==> forall j :: 0 <= j < r.value ==> Registrable(cmds[j])
  {
    if cmds == [] then None
    else if !Registrable(cmds[0]) then Some(0)
    else match FirstUnregistrable(cmds[1..])
         case None => None
         case Some(j) => Some(j + 1)
  }

  /** The fatal message of registration: the first bad command's empty name, or else its empty description. */
  function RegistrationError(cmds: seq<Command>): (r: Option<string>)
    ensures r.None? <==> forall i :: 0 <= i < |cmds| ==> Registrable(cmds[i])
    ensures r.Some? ==> exists i :: && 0 <= i < |cmds| && !Registrable(cmds[i])
                                    && (forall j :: 0 <= j < i ==> Registrable(cmds[j]))
                                    && r.value == (if cmds[i].Name == "" then EmptyName else EmptyDescription)
  {
    match FirstUnregistrable(cmds)
    case None => None
    case Some(i) => Some(if cmds[i].Name == "" then EmptyName else EmptyDescription)
  }

  /** The position of the last command with the given name: the one the command table keeps. */
  function LastNamed(cmds: seq<Command>, name: string): (r: Option<nat>)
    ensures r.None? <==> forall i :: 0 <= i < |cmds| ==> cmds[i].Name != name
    ensures r.Some? ==> r.value < |cmds| && cmds[r.value].Name == name
    ensures r.Some? ==> forall j :: r.value < j < |cmds| ==> cmds[j].Name != name
  {
    if cmds == [] then None
    else if cmds[|cmds| - 1].Name == name then Some(|cmds| - 1)
    else LastNamed(cmds[..|cmds| - 1], name)
  }

  /** The command the first positional routes to, hidden commands included. */
  function Route(cmds: seq<Command>, positionals: seq<string>): (r: Option<nat>)
    ensures r.None? <==> |positionals| == 0 || forall i :: 0 <= i < |cmds| ==> cmds[i].Name != positionals[0]
    ensures r.Some? ==> && r.value < |cmds| && cmds[r.value].Name == positionals[0]
                        && forall j :: r.value < j < |cmds| ==> cmds[j].Name != positionals[0]
  {
    if |positionals| > 0 then LastNamed(cmds, positionals[0]) else None
  }

  predicate HasVisibleCommand(cmds: seq<Command>) {
    exists i :: 0 <= i < |cmds| && !cmds[i].Hidden
  }

  /** The records of all commands, as a frame. */
  function CommandRecords(cmds: seq<Command>): set<array<Cell>> {
    set i | 0 <= i < |cmds| && cmds[i].Config.Some? :: cmds[i].Config.value.cells
  }

  /** Whether `c` is the command the positionals route to. */
  predicate RoutedTo(cmds: seq<Command>, positionals: seq<string>, c: Command) {
    Route(cmds, positionals).Some? && cmds[Route(cmds, positionals).value] == c
  }

  /** Whether `r` is the record of the command the positionals route to. */
  predicate RoutedRecord(cmds: seq<Command>, positionals: seq<string>, r: array<Cell>) {
    Route(cmds, positionals).Some? && r in Records(cmds[Route(cmds, positionals).value].Config)
  }

  // ---------------------------------------------------------------------------
  // The root usage header

  datatype CommandSlot = NoCommands | CommandRequired | CommandOptional

  /** The optional parts of the root header. */
  datatype RootShape = RootShape(options: bool, slot: CommandSlot, args: bool, help: bool, version: bool)

  function HelpLine(name: string): string {
    "\n       " + name + " [-h | --help]"
  }

  function VersionLine(name: string): string {
    "\n       " + name + " [-v | --version]"
  }

  /** The end of the root header: a blank line, then the description and a blank line when there is one. */
  function RootTail(description: string): string {
    "\n\n" + (if description != "" then description + "\n\n" else "")
  }

  function OptionsText(options: bool): string {
    if options then " [OPTIONS]" else ""
  }

  function ArgsText(args: bool): string {
    if args then " [args...]" else ""
  }

  function HelpText(name: string, help: bool): string {
    if help then HelpLine(name) else ""
  }

  function VersionText(name: string, version: bool): string {
    if version then VersionLine(name) else ""
  }

  function SlotText(slot: CommandSlot): string {
    match slot
    case NoCommands => ""
    case CommandRequired => " COMMAND"
    case CommandOptional => " [COMMAND]"
  }

  /** The first lines of the application's usage text. */
  function RootHeader(name: string, description: string, s: RootShape): string {
    "Usage: " + name
    + OptionsText(s.options)
    + SlotText(s.slot)
    + ArgsText(s.args)
    + HelpText(name, s.help)
    + VersionText(name, s.version)
    + RootTail(description)
  }

  /** The header's shape for an application: options with a Config, a command slot when a command is visible. */
  function UsageShape(config: Option<Config>, cmds: seq<Command>, action: Option<Action>, takesArgs: bool,
                      disableHelp: bool, disableVersion: bool): RootShape {
    RootShape(config.Some?,
              if !HasVisibleCommand(cmds) then NoCommands else if action.None? then CommandRequired else CommandOptional,
              takesArgs, !disableHelp, !disableVersion)
  }

  function ReadVersionPart(name: string, description: string, t: string, options: bool, slot: CommandSlot, args: bool, help: bool): Option<RootShape> {
    var (version, tail) := Strip(t, VersionLine(name));
    if tail == RootTail(description) then Some(RootShape(options, slot, args, help, version)) else None
  }

  function ReadHelpPart(name: string, description: string, t: string, options: bool, slot: CommandSlot, args: bool): Option<RootShape> {
    var (help, rest) := Strip(t, HelpLine(name));
    ReadVersionPart(name, description, rest, options, slot, args, help)
  }

  function ReadArgsPart(name: string, description: string, t: string, options: bool, slot: CommandSlot): Option<RootShape> {
    var (args, rest) := Strip(t, " [args...]");
    ReadHelpPart(name, description, rest, options, slot, args)
  }

  function ReadSlotPart(name: string, description: string, t: string, options: bool): Option<RootShape> {
    var (required, rest) := Strip(t, " COMMAND");
    if required then ReadArgsPart(name, description, rest, options, CommandRequired)
    else
      var (optional, rest') := Strip(t, " [COMMAND]");
      ReadArgsPart(name, description, rest', options, if optional then CommandOptional else NoCommands)
  }

  /** Reads back, from a root header, which optional parts it shows. */
  function ReadRootHeader(name: string, description: string, h: string): Option<RootShape> {
    var lead := "Usage: " + name;
    if !HasPrefix(h, lead) then None
    else
      var (options, rest) := Strip(h[|lead|..], " [OPTIONS]");
      ReadSlotPart(name, description, rest, options)
  }

  // The header read backwards, one optional part at a time; each part's text
  // differs from whatever may follow it at a position the lemma names.

  lemma VersionPartRoundTrip(name: string, description: string, s: RootShape)
    ensures ReadVersionPart(name, description, (if s.version then VersionLine(name) else "") + RootTail(description),
                            s.options, s.slot, s.args, s.help) == Some(s)
  {
    var e := RootTail(description);
    if s.version {
      StripHit(VersionLine(name), e);
    } else {
      StripMiss(e, VersionLine(name), 1);
      assert "" + e == e;
    }
  }

  lemma HelpPartRoundTrip(name: string, description: string, s: RootShape)
    ensures ReadHelpPart(name, description,
              (if s.help then HelpLine(name) else "") + ((if s.version then VersionLine(name) else "") + RootTail(description)),
              s.options, s.slot, s.args) == Some(s)
  {
    var t4 := (if s.version then VersionLine(name) else "") + RootTail(description);
    if s.help {
      StripHit(HelpLine(name), t4);
    } else if s.version {
      var k := 8 + |name| + 3;
      assert t4[k] == VersionLine(name)[k] == 'v';
      assert HelpLine(name)[k] == 'h';
      StripMiss(t4, HelpLine(name), k);
      assert "" + t4 == t4;
    } else {
      StripMiss(t4, HelpLine(name), 1);
      assert "" + t4 == t4;
    }
    VersionPartRoundTrip(name, description, s);
  }

  /** What follows the arguments part: the help line, the version line, the tail; it starts a new line. */
  function LinesAndTail(name: string, description: string, s: RootShape): (r: string)
    ensures r != [] && r[0] == '\n'
  {
    (if s.help then HelpLine(name) else "") + ((if s.version then VersionLine(name) else "") + RootTail(description))
  }

  lemma ArgsPartRoundTrip(name: string, description: string, s: RootShape)
    ensures ReadArgsPart(name, description, (if s.args then " [args...]" else "") + LinesAndTail(name, description, s),
                         s.options, s.slot) == Some(s)
  {
    var t3 := LinesAndTail(name, description, s);
    if s.args {
      StripHit(" [args...]", t3);
    } else {
      StripMiss(t3, " [args...]", 0);
      assert "" + t3 == t3;
    }
    HelpPartRoundTrip(name, description, s);
  }

  lemma SlotPartRoundTrip(name: string, description: string, s: RootShape)
    ensures var t2 := (if s.args then " [args...]" else "") + LinesAndTail(name, description, s);
            ReadSlotPart(name, description, SlotText(s.slot) + t2, s.options) == Some(s)
  {
    var t3 := LinesAndTail(name, description, s);
    var t2 := (if s.args then " [args...]" else "") + t3;
    match s.slot {
      case CommandRequired =>
        StripHit(" COMMAND", t2);
      case CommandOptional =>
        StripMiss(" [COMMAND]" + t2, " COMMAND", 1);
        StripHit(" [COMMAND]", t2);
      case NoCommands =>
        assert "" + t2 == t2;
        if s.args {
          StripMiss(t2, " COMMAND", 1);
          StripMiss(t2, " [COMMAND]", 2);
        } else {
          assert t2 == t3;
          StripMiss(t2, " COMMAND", 0);
          StripMiss(t2, " [COMMAND]", 0);
        }
    }
    ArgsPartRoundTrip(name, description, s);
  }

  lemma RootHeaderSplit(name: string, description: string, s: RootShape)
    ensures RootHeader(name, description, s)
            == ("Usage: " + name) + (OptionsText(s.options) + (SlotText(s.slot) + (ArgsText(s.args) + LinesAndTail(name, description, s))))
  {
    var lead, o, sl, a := "Usage: " + name, OptionsText(s.options), SlotText(s.slot), ArgsText(s.args);
    var h, v, t := HelpText(name, s.help), VersionText(name, s.version), RootTail(description);
    Regroup(lead + o + sl + a + h, v, t);
    Regroup(lead + o + sl + a, h, v + t);
    Regroup(lead + o + sl, a, h + (v + t));
    Regroup(lead + o, sl, a + (h + (v + t)));
    Regroup(lead, o, sl + (a + (h + (v + t))));
  }

  /** The root header shows exactly the parts its shape asks for: reading it back recovers the shape. */
  lemma {:induction false} RootHeaderRoundTrip(name: string, description: string, s: RootShape)
    ensures ReadRootHeader(name, description, RootHeader(name, description, s)) == Some(s)
  {
    var lead := "Usage: " + name;
    var t3 := LinesAndTail(name, description, s);
    var t2 := (if s.args then " [args...]" else "") + t3;
    var t1 := SlotText(s.slot) + t2;
    var t0 := (if s.options then " [OPTIONS]" else "") + t1;
    var h := RootHeader(name, description, s);
    RootHeaderSplit(name, description, s);
    assert h == lead + t0;
    assert h[..|lead|] == lead && h[|lead|..] == t0;
    if s.options {
      StripHit(" [OPTIONS]", t1);
    } else {
      assert "" + t1 == t1;
      match s.slot {
        case CommandRequired =>
          StripMiss(t1, " [OPTIONS]", 1);
        case CommandOptional =>
          StripMiss(t1, " [OPTIONS]", 2);
        case NoCommands =>
          assert t1 == t2;
          if s.args {
            StripMiss(t1, " [OPTIONS]", 2);
          } else {
            StripMiss(t1, " [OPTIONS]", 0);
          }
      }
    }
    SlotPartRoundTrip(name, description, s);
  }

  // ---------------------------------------------------------------------------
  // The application

  class App {
    var Name: string
    const Description: string
    const Version: string
    const Config: Option<Config>
    const Action: Option<Action>
    const Commands: seq<Command>
    const DisableHelp: bool
    var DisableVersion: bool

    /** The descriptors of the root record, the command table and the decoded document. */
    var fields: seq<Field>
    var commandMap: map<string, Command>
    var configFile: Document

    constructor (name: string, description: string, version: string, config: Option<Config>, action: Option<Action>,
                 commands: seq<Command>, disableHelp: bool, disableVersion: bool)
      ensures Name == name && Description == description && Version == version && Config == config
      ensures Action == action && Commands == commands && DisableHelp == disableHelp && DisableVersion == disableVersion
      ensures fields == [] && commandMap == map[] && configFile == map[]
    {
      Name := name;
      Description := description;
      Version := version;
      Config := config;
      Action := action;
      Commands := commands;
      DisableHelp := disableHelp;
      DisableVersion := disableVersion;
      fields := [];
      commandMap := map[];
      configFile := map[];
    }

    /** Every Config matches its record and binds only supported kinds; no command shares the root record. */
    predicate WellFormed() {
      && Usable(Config)
      && forall i :: 0 <= i < |Commands| ==>
           && Commands[i].WellFormed()
           && (Commands[i].Config.Some? && Config.Some? ==> Commands[i].Config.value.cells != Config.value.cells)
    }

    /** The descriptors recorded are those of the root record. */
    predicate Described()
      reads this
    {
      Describes(fields, Config)
    }

    /** The command table holds the last registered command of each name. */
    ghost predicate Registered()
      reads this
    {
      && (forall n :: n in commandMap <==> LastNamed(Commands, n).Some?)
      && (forall n :: n in commandMap ==> commandMap[n] == Commands[LastNamed(Commands, n).value])
    }

    /** The command table: the last command of each name, after checking every name and description. */
    method RegisterCommands() returns (err: Option<string>)
      modifies this
      ensures err == RegistrationError(Commands)
      ensures err.None? ==> forall n :: n in commandMap <==> LastNamed(Commands, n).Some?
      ensures err.None? ==> forall n :: n in commandMap ==> commandMap[n] == Commands[LastNamed(Commands, n).value]
      ensures Name == old(Name) && DisableVersion == old(DisableVersion)
      ensures fields == old(fields) && configFile == old(configFile)
    {
      commandMap := map[];
      for i := 0 to |Commands|
        invariant forall j :: 0 <= j < i ==> Registrable(Commands[j])
        invariant forall n :: n in commandMap <==> LastNamed(Commands[..i], n).Some?
        invariant forall n :: n in commandMap ==> commandMap[n] == Commands[LastNamed(Commands[..i], n).value]
        invariant Name == old(Name) && DisableVersion == old(DisableVersion)
        invariant fields == old(fields) && configFile == old(configFile)
      {
        var cmd := Commands[i];
        if cmd.Name == "" {
          return Some(EmptyName);
        }
        if cmd.Description == "" {
          return Some(EmptyDescription);
        }
        assert Commands[..i + 1][..i] == Commands[..i];
        commandMap := commandMap[cmd.Name := cmd];
      }
      assert Commands[..|Commands|] == Commands;
      return None;
    }

    /**
     * tryConfig: a decoded document is folded into the kept one, which keeps
     * the entries of earlier runs, and the whole kept document is merged into
     * the root record; without a decoded document nothing changes.
     */
    method TryConfig(doc: Option<Document>) returns (ok: bool)
      requires Described()
      modifies this, Records(Config)
      ensures configFile == if doc.Some? then old(configFile) + doc.value else old(configFile)
      ensures Name == old(Name) && DisableVersion == old(DisableVersion)
      ensures fields == old(fields) && commandMap == old(commandMap)
      ensures ok <==> doc.None? || MergedCells(fields, configFile, old(Contents(Config))).Some?
      ensures ok && doc.None? ==> Contents(Config) == old(Contents(Config))
      ensures ok && doc.Some? ==> Contents(Config) == MergedCells(fields, configFile, old(Contents(Config))).value
    {
      if doc.None? {
        return true;
      }
      configFile := configFile + doc.value;
      if Config.None? {
        EmptySegmentKeepsRecord(fields, []);
        return MergedCells(fields, configFile, []).Some?;
      }
      ok := MergeSegment(fields, Config.value.cells, configFile);
    }

    /** The loop of usage that looks for a command that is not hidden. */
    method VisibleCommands() returns (hasCommands: bool)
      ensures hasCommands == HasVisibleCommand(Commands)
    {
      hasCommands := false;
      for i := 0 to |Commands|
        invariant !hasCommands
        invariant forall j :: 0 <= j < i ==> Commands[j].Hidden
      {
        if !Commands[i].Hidden {
          hasCommands := true;
          break;
        }
      }
    }

    /** The end of the usage header: the help and version lines unless disabled, then the description block. */
    method UsageLines(usage: string) returns (r: string)
      ensures r == usage + HelpText(Name, !DisableHelp) + VersionText(Name, !DisableVersion) + RootTail(Description)
    {
      var name, description := Name, Description;
      r := usage;
      if !DisableHelp {
        r := r + HelpLine(name);
      }
      assert r == usage + HelpText(name, !DisableHelp);
      ghost var withHelp := r;
      if !DisableVersion {
        r := r + VersionLine(name);
      }
      assert r == withHelp + VersionText(name, !DisableVersion);
      ghost var lines := r;
      r := r + "\n\n";
      if description != "" {
        r := r + description + "\n\n";
        Regroup(lines + "\n\n", description, "\n\n");
        Regroup(lines, "\n\n", description + "\n\n");
      }
      assert r == lines + RootTail(description);
    }

    /** usage: the header of the application's usage text; None is the panic of a non-function action. */
    method Usage() returns (header: Option<string>)
      ensures header.None? <==> AcceptsArgs(Action).None?
      ensures header.Some? ==>
                header.value == RootHeader(Name, Description,
                                           UsageShape(Config, Commands, Action, AcceptsArgs(Action).value, DisableHelp, DisableVersion))
    {
      var usage := "Usage: " + Name;
      if Config.Some? {
        usage := usage + " [OPTIONS]";
      }
      ghost var lead := usage;
      assert lead == "Usage: " + Name + OptionsText(Config.Some?);
      var hasCommands := VisibleCommands();
      if hasCommands {
        if Action.None? {
          usage := usage + " COMMAND";
        } else {
          usage := usage + " [COMMAND]";
        }
      }
      ghost var slot := UsageShape(Config, Commands, Action, false, DisableHelp, DisableVersion).slot;
      assert usage == lead + SlotText(slot);
      var takesArgs := AcceptsArgs(Action);
      if takesArgs.None? {
        return None;
      }
      ghost var withSlot := usage;
      if takesArgs.value {
        usage := usage + " [args...]";
      }
      assert usage == withSlot + ArgsText(takesArgs.value);
      usage := UsageLines(usage);
      return Some(usage);
    }

    /**
     * The steps of Run before the version check: the name and version
     * defaults, registration, the record's descriptors, the merge of the
     * configuration document and the first pass of the flag parser.
     */
    method Prepare(program: string, root: Parse, doc: Option<Document>) returns (stop: Option<Outcome>)
      requires WellFormed()
      modifies this, Records(Config)
      ensures Name == if old(Name) == "" then program else old(Name)
      ensures DisableVersion == (old(DisableVersion) || Version == "")
      ensures var st := old(Setup(this, root, doc));
              && (stop.Some? <==> st.Stopped?)
              && (stop.Some? ==> stop.value == st.outcome)
              && (st.Ready? ==> fields == st.fields && configFile == st.document && Contents(Config) == st.cells && Registered())
      ensures doc.None? ==> configFile == old(configFile)
    {
      if Name == "" {
        Name := program;
      }
      if Version == "" {
        DisableVersion := true;
      }
      var err := RegisterCommands();
      if err.Some? {
        return Some(Fatal(err.value));
      }
      if Config.Some? && !Config.value.isPointer {
        return Some(Fatal(NotAPointer));
      }
      var parsed, panic := ParseFields(Config);
      if parsed.None? {
        return Some(Panicked(panic.value));
      }
      fields := parsed.value;
      if Config.Some? {
        DescribedInOrder(Config.value, fields);
      }
      var merged := TryConfig(doc);
      if !merged {
        return Some(Panicked(FailedConversion));
      }
      if Config.Some? {
        ApplyGivenFlags(fields, Config.value.cells, root.given);
      }
      return None;
    }

    /** The steps of Run from the version check on: version, route, and otherwise the root action. */
    method Dispatch(root: Parse, rest: Parse, answers: seq<string>) returns (o: Outcome)
      requires WellFormed() && Described() && Registered()
      requires DisableHelp ==> Route(Commands, root.positionals).None?
      requires FollowsRoute(root, rest)
      requires GivenFits(Config, root.given) && GivenFits(Config, rest.given)
      requires forall i :: 0 <= i < |Commands| ==> GivenFits(Commands[i].Config, rest.given)
      modifies Commands, Records(Config), CommandRecords(Commands)
      ensures var t := old(Dispatched(this, Name, DisableVersion, fields, configFile, Contents(Config), root, rest, answers));
              && o == t.outcome
              && (t.Call? ==> Contents(Config) == t.rootCells)
              && (t.Call? && o.owner.CommandAction? ==>
                    Contents(Commands[Route(Commands, root.positionals).value].Config) == t.ownCells)
      ensures forall i :: 0 <= i < |Commands| && !RoutedTo(Commands, root.positionals, Commands[i]) ==>
                Commands[i].fields == old(Commands[i].fields)
      ensures forall r :: r in CommandRecords(Commands) && !RoutedRecord(Commands, root.positionals, r) ==> r[..] == old(r[..])
      ensures configFile == old(configFile) && fields == old(fields) && commandMap == old(commandMap)
    {
      if !DisableVersion && "version" in root.given {
        return PrintedVersion(Version);
      }
      if |root.positionals| > 0 && root.positionals[0] in commandMap {
        o := RunCommand(root, rest, answers);
        return;
      }
      assert Route(Commands, root.positionals).None?;
      assert Dispatched(this, Name, DisableVersion, fields, configFile, Contents(Config), root, rest, answers)
          == RootDispatched(this, Name, DisableVersion, fields, configFile, Contents(Config), root, answers);
      o := RunRoot(root, answers);
    }

    /** The routed command's part of Run: the command table's entry for the first positional runs. */
    method RunCommand(root: Parse, rest: Parse, answers: seq<string>) returns (o: Outcome)
      requires WellFormed() && Described() && Registered() && !DisableHelp
      requires |root.positionals| > 0 && root.positionals[0] in commandMap
      requires FollowsRoute(root, rest)
      requires GivenFits(Config, root.given) && GivenFits(Config, rest.given)
      requires forall i :: 0 <= i < |Commands| ==> GivenFits(Commands[i].Config, rest.given)
      modifies Commands, Records(Config), CommandRecords(Commands)
      ensures Route(Commands, root.positionals).Some?
      ensures var cmd := Commands[Route(Commands, root.positionals).value];
              var t := old(CommandRun(cmd, Parent(Name, Config, fields, configFile), rest, root.given.Keys + rest.given.Keys,
                                      answers, Contents(Config), Contents(cmd.Config)));
              && o == t.outcome
              && (t.Call? ==> Contents(Config) == t.rootCells && Contents(cmd.Config) == t.ownCells)
      ensures forall i :: 0 <= i < |Commands| && !RoutedTo(Commands, root.positionals, Commands[i]) ==>
                Commands[i].fields == old(Commands[i].fields)
      ensures forall r :: r in CommandRecords(Commands) && !RoutedRecord(Commands, root.positionals, r) ==> r[..] == old(r[..])
    {
      var cmd := commandMap[root.positionals[0]];
      ghost var k := LastNamed(Commands, root.positionals[0]).value;
      assert cmd == Commands[k] && Route(Commands, root.positionals) == Some(k);
      assert Records(cmd.Config) <= CommandRecords(Commands);
      o := cmd.Run(Parent(Name, Config, fields, configFile), rest, root.given.Keys + rest.given.Keys, answers);
    }

    /** The root action's part of Run, when no command was routed to: usage, prompting, validation, the call. */
    method RunRoot(root: Parse, answers: seq<string>) returns (o: Outcome)
      requires WellFormed() && Described()
      modifies Records(Config)
      ensures var t := RootDispatched(this, Name, DisableVersion, fields, configFile, old(Contents(Config)), root, answers);
              && o == t.outcome
              && (t.Call? ==> Contents(Config) == t.rootCells)
    {
      if Action.None? || (!DisableHelp && "help" in root.given) {
        var header := Usage();
        if header.None? {
          return Panicked(NonFuncArgs);
        }
        return PrintedUsage(header.value);
      }
      if Config.Some? {
        var answered, _ := PromptForMissing(fields, Config.value.cells, configFile.Keys, root.given.Keys, answers);
        if !answered {
          return AwaitingInput;
        }
      }
      var shape := ShapeError(Action.value);
      if shape.Some? {
        return Fatal(shape.value);
      }
      var args, bound := BindArgs(Action.value.params, RootOffer(Config, root.positionals));
      if !bound {
        return Fatal(RootParamError(Config));
      }
      o := Invoked(RootAction, args, Action.value.failure);
    }

    /**
     * Run: `root` is the flag parser's pass over the command line, `rest` its
     * second pass over the tokens after a command's name, `doc` the decoded
     * configuration file if there is one, `answers` the operator's input.
     */
    method Run(program: string, root: Parse, rest: Parse, doc: Option<Document>, answers: seq<string>) returns (o: Outcome)
      requires WellFormed()
      requires DisableHelp ==> Route(Commands, root.positionals).None?
      requires FollowsRoute(root, rest)
      requires GivenFits(Config, root.given) && GivenFits(Config, rest.given)
      requires forall i :: 0 <= i < |Commands| ==> GivenFits(Commands[i].Config, rest.given)
      modifies this, Commands, Records(Config), CommandRecords(Commands)
      ensures Name == if old(Name) == "" then program else old(Name)
      ensures DisableVersion == (old(DisableVersion) || Version == "")
      ensures var t := old(AppRun(this, program, root, rest, doc, answers));
              && o == t.outcome
              && (t.Call? ==> Contents(Config) == t.rootCells)
              && (t.Call? && o.owner.CommandAction? ==>
                    Contents(Commands[Route(Commands, root.positionals).value].Config) == t.ownCells)
      ensures forall i :: 0 <= i < |Commands| && !RoutedTo(Commands, root.positionals, Commands[i]) ==>
                Commands[i].fields == old(Commands[i].fields)
      ensures forall r :: r in CommandRecords(Commands) && !RoutedRecord(Commands, root.positionals, r) ==> r[..] == old(r[..])
      ensures var st := old(Setup(this, root, doc));
              st.Ready? ==> configFile == st.document && fields == st.fields && Registered()
      ensures doc.None? ==> configFile == old(configFile)
    {
      ghost var st := Setup(this, root, doc);
      RecordsApart(this);
      var stop := Prepare(program, root, doc);
      if stop.Some? {
        return stop.value;
      }
      assert unchanged(CommandRecords(Commands));
      assert old(AppRun(this, program, root, rest, doc, answers))
          == Dispatched(this, Name, DisableVersion, st.fields, st.document, st.cells, root, rest, answers);
      o := Dispatch(root, rest, answers);
    }
  }

  /** No command's record is the application's record. */
  lemma RecordsApart(a: App)
    requires a.WellFormed()
    ensures forall r :: r in CommandRecords(a.Commands) ==> r !in Records(a.Config)
  {
    forall r | r in CommandRecords(a.Commands)
      ensures r !in Records(a.Config)
    {
      var i :| 0 <= i < |a.Commands| && a.Commands[i].Config.Some? && r == a.Commands[i].Config.value.cells;
    }
  }

  /** How a run ends before dispatch, or the root record's descriptors, document and cells once it is ready. */
  datatype Stage = Stopped(outcome: Outcome) | Ready(fields: seq<Field>, document: Document, cells: seq<Cell>)

  /** The steps before the version check, from the application's state before Run. */
  function Setup(a: App, root: Parse, doc: Option<Document>): (r: Stage)
    requires a.WellFormed()
    reads a, Records(a.Config)
    ensures r.Ready? ==> Describes(r.fields, a.Config) && |r.cells| == |r.fields|
    ensures r.Ready? ==> r.document == if doc.Some? then a.configFile + doc.value else a.configFile
  {
    match RegistrationError(a.Commands)
    case Some(msg) => Stopped(Fatal(msg))
    case None =>
      if a.Config.Some? && !a.Config.value.isPointer then Stopped(Fatal(NotAPointer))
      else match DescribeRecord(a.Config)
      case None => Stopped(Panicked(ParsePanic(a.Config).value))
      case Some(fields) =>
        var before := Contents(a.Config);
        var document := if doc.Some? then a.configFile + doc.value else a.configFile;
        match (if doc.Some? then MergedCells(fields, document, before) else Some(before))
        case None => Stopped(Panicked(FailedConversion))
        case Some(merged) => Ready(fields, document, FlaggedCells(fields, root.given, merged))
  }

  /** An entry kept from an earlier run reaches the record even when the new document lacks it. */
  lemma KeptEntryMerged(a: App, root: Parse, doc: Option<Document>, i: nat)
    requires a.WellFormed() && Setup(a, root, doc).Ready? && doc.Some?
    requires var fields := Setup(a, root, doc).fields;
             i < |fields| && fields[i].long in a.configFile && fields[i].long !in doc.value && fields[i].long !in root.given
    ensures var st := Setup(a, root, doc);
            var f := st.fields[i];
            Supported(f.kind) ==> st.cells[i] == Convert(f.kind, a.configFile[f.long]).cell
  {
    var fields := DescribeRecord(a.Config).value;
    var document := a.configFile + doc.value;
    var merged := MergedCells(fields, document, Contents(a.Config));
    assert merged.Some?;
    assert document[fields[i].long] == a.configFile[fields[i].long];
  }

  /** The steps from the version check on, for an application named `name` whose root record is ready. */
  function Dispatched(a: App, name: string, disableVersion: bool, fields: seq<Field>, document: Document, cells: seq<Cell>,
                      root: Parse, rest: Parse, answers: seq<string>): Trace
    requires a.WellFormed() && Describes(fields, a.Config) && |cells| == |fields|
    reads CommandRecords(a.Commands)
  {
    if !disableVersion && "version" in root.given then Exit(PrintedVersion(a.Version))
    else match Route(a.Commands, root.positionals)
    case Some(k) =>
      var cmd := a.Commands[k];
      CommandRun(cmd, Parent(name, a.Config, fields, document), rest, root.given.Keys + rest.given.Keys, answers,
                 cells, Contents(cmd.Config))
    case None => RootDispatched(a, name, disableVersion, fields, document, cells, root, answers)
  }

  /** The root action's part of the run, when no command was routed to. */
  function RootDispatched(a: App, name: string, disableVersion: bool, fields: seq<Field>, document: Document, cells: seq<Cell>,
                          root: Parse, answers: seq<string>): (r: Trace)
    requires a.WellFormed() && Describes(fields, a.Config) && |cells| == |fields|
    ensures r.Call? ==> r.outcome.Invoked? && r.outcome.owner == RootAction && r.ownCells == []
  {
    if a.Action.None? || (!a.DisableHelp && "help" in root.given) then
      match AcceptsArgs(a.Action)
      case None => Exit(Panicked(NonFuncArgs))
      case Some(takesArgs) =>
        Exit(PrintedUsage(RootHeader(name, a.Description,
                                     UsageShape(a.Config, a.Commands, a.Action, takesArgs, a.DisableHelp, disableVersion))))
    else
      match PromptFrom(fields, document.Keys, root.given.Keys, cells, answers, 0)
      case None => Exit(AwaitingInput)
      case Some((answered, _)) =>
        var action := a.Action.value;
        match ShapeError(action)
        case Some(msg) => Exit(Fatal(msg))
        case None =>
          match BoundArgs(action.params, RootOffer(a.Config, root.positionals))
          case None => Exit(Fatal(RootParamError(a.Config)))
          case Some(args) => Call(Invoked(RootAction, args, action.failure), answered, [])
  }

  /** The whole run of an application, from its state before Run. */
  function AppRun(a: App, program: string, root: Parse, rest: Parse, doc: Option<Document>, answers: seq<string>): Trace
    requires a.WellFormed()
    reads a, Records(a.Config), CommandRecords(a.Commands)
  {
    match Setup(a, root, doc)
    case Stopped(o) => Exit(o)
    case Ready(fields, document, cells) =>
      Dispatched(a, if a.Name == "" then program else a.Name, a.DisableVersion || a.Version == "",
                 fields, document, cells, root, rest, answers)
  }

  // ---------------------------------------------------------------------------
  // Properties of a run

  /** The run gets past setup, the version check and routing, to the root action's part. */
  predicate ReachesRoot(a: App, root: Parse, doc: Option<Document>)
    requires a.WellFormed()
    reads a, Records(a.Config)
  {
    && Setup(a, root, doc).Ready?
    && !(!(a.DisableVersion || a.Version == "") && "version" in root.given)
    && Route(a.Commands, root.positionals).None?
  }

  /** Past usage, the root action exists and prompting for the root record settles on the answers. */
  predicate RootAnswered(a: App, root: Parse, doc: Option<Document>, answers: seq<string>)
    requires a.WellFormed()
    reads a, Records(a.Config)
  {
    && ReachesRoot(a, root, doc)
    && a.Action.Some? && !(!a.DisableHelp && "help" in root.given)
    && var st := Setup(a, root, doc);
       PromptFrom(st.fields, st.document.Keys, root.given.Keys, st.cells, answers, 0).Some?
  }

  /** Of two commands with the same name, the later one is the one the table keeps. */
  lemma LaterCommandReplaces(cmds: seq<Command>, i: nat, j: nat)
    requires i < j < |cmds| && cmds[i].Name == cmds[j].Name
    ensures LastNamed(cmds, cmds[i].Name).Some? && LastNamed(cmds, cmds[i].Name).value >= j
  {
  }

  /** The version flag ends the run before routing: whatever the positionals, the version is printed. */
  lemma VersionBeforeRoute(a: App, program: string, root: Parse, rest: Parse, doc: Option<Document>, answers: seq<string>)
    requires a.WellFormed() && Setup(a, root, doc).Ready?
    requires !(a.DisableVersion || a.Version == "") && "version" in root.given
    ensures AppRun(a, program, root, rest, doc, answers).outcome == PrintedVersion(a.Version)
  {
  }

  /** Once the setup steps succeed, the run is the dispatch from the ready state. */
  lemma RunReady(a: App, program: string, root: Parse, rest: Parse, doc: Option<Document>, answers: seq<string>)
    requires a.WellFormed() && Setup(a, root, doc).Ready?
    ensures var st := Setup(a, root, doc);
            AppRun(a, program, root, rest, doc, answers)
            == Dispatched(a, if a.Name == "" then program else a.Name, a.DisableVersion || a.Version == "",
                          st.fields, st.document, st.cells, root, rest, answers)
  {
  }

  /** Past the version check, a routed command's run is the whole dispatch. */
  lemma RouteDispatch(a: App, name: string, disableVersion: bool, fields: seq<Field>, document: Document, cells: seq<Cell>,
                      root: Parse, rest: Parse, answers: seq<string>)
    requires a.WellFormed() && Describes(fields, a.Config) && |cells| == |fields|
    requires !(!disableVersion && "version" in root.given)
    requires Route(a.Commands, root.positionals).Some?
    ensures var cmd := a.Commands[Route(a.Commands, root.positionals).value];
            var o := Dispatched(a, name, disableVersion, fields, document, cells, root, rest, answers).outcome;
            o.Invoked? ==> o.owner == CommandAction(cmd.Name)
  {
    var cmd := a.Commands[Route(a.Commands, root.positionals).value];
    assert Dispatched(a, name, disableVersion, fields, document, cells, root, rest, answers)
        == CommandRun(cmd, Parent(name, a.Config, fields, document), rest, root.given.Keys + rest.given.Keys, answers,
                      cells, Contents(cmd.Config));
  }

  /**
   * A routed command runs in place of the root action: the whole run is the
   * command's run, with the application's ready record, and the root action
   * is never called.
   */
  lemma RoutedCommandRuns(a: App, program: string, root: Parse, rest: Parse, doc: Option<Document>, answers: seq<string>)
    requires a.WellFormed() && Setup(a, root, doc).Ready?
    requires !(!(a.DisableVersion || a.Version == "") && "version" in root.given)
    requires Route(a.Commands, root.positionals).Some?
    ensures var st := Setup(a, root, doc);
            var cmd := a.Commands[Route(a.Commands, root.positionals).value];
            AppRun(a, program, root, rest, doc, answers)
            == CommandRun(cmd, Parent(if a.Name == "" then program else a.Name, a.Config, st.fields, st.document),
                          rest, root.given.Keys + rest.given.Keys, answers, st.cells, Contents(cmd.Config))
    ensures var o := AppRun(a, program, root, rest, doc, answers).outcome;
            o.Invoked? ==> o.owner == CommandAction(a.Commands[Route(a.Commands, root.positionals).value].Name)
  {
    var st := Setup(a, root, doc);
    RunReady(a, program, root, rest, doc, answers);
    RouteDispatch(a, if a.Name == "" then program else a.Name, a.DisableVersion || a.Version == "",
                  st.fields, st.document, st.cells, root, rest, answers);
  }

  /** Without a routed command, prompting comes before the action's shape is checked: missing input wins over a malformed action. */
  lemma PromptBeforeShapeCheck(a: App, program: string, root: Parse, rest: Parse, doc: Option<Document>, answers: seq<string>)
    requires a.WellFormed() && Setup(a, root, doc).Ready?
    requires !(!(a.DisableVersion || a.Version == "") && "version" in root.given)
    requires Route(a.Commands, root.positionals).None?
    requires a.Action.Some? && !(!a.DisableHelp && "help" in root.given)
    requires var st := Setup(a, root, doc); PromptFrom(st.fields, st.document.Keys, root.given.Keys, st.cells, answers, 0).None?
    ensures AppRun(a, program, root, rest, doc, answers).outcome == AwaitingInput
  {
  }

  /** The root action is called only when it is a function returning one error, and its error decides the exit status. */
  lemma RootActionContract(a: App, program: string, root: Parse, rest: Parse, doc: Option<Document>, answers: seq<string>)
    requires a.WellFormed() && Setup(a, root, doc).Ready?
    requires Route(a.Commands, root.positionals).None?
    ensures var o := AppRun(a, program, root, rest, doc, answers).outcome;
            o.Invoked? ==>
              && a.Action.Some? && ShapeError(a.Action.value).None?
              && Some(o.args) == BoundArgs(a.Action.value.params, RootOffer(a.Config, root.positionals))
              && o.err == a.Action.value.failure
              && (ExitStatus(o) == Some(1) <==> o.err.Some?)
  {
  }

  /** With no command routed to, a missing action or the help flag prints the root usage and exits 0. */
  lemma RootUsage(a: App, program: string, root: Parse, rest: Parse, doc: Option<Document>, answers: seq<string>)
    requires a.WellFormed() && ReachesRoot(a, root, doc)
    requires a.Action.None? || (!a.DisableHelp && "help" in root.given)
    ensures var o := AppRun(a, program, root, rest, doc, answers).outcome;
            match AcceptsArgs(a.Action)
            case None => o == Panicked(NonFuncArgs)
            case Some(takesArgs) =>
              && o == PrintedUsage(RootHeader(if a.Name == "" then program else a.Name, a.Description,
                                              UsageShape(a.Config, a.Commands, a.Action, takesArgs, a.DisableHelp,
                                                         a.DisableVersion || a.Version == "")))
              && ExitStatus(o) == Some(0)
  {
    RunReady(a, program, root, rest, doc, answers);
  }

  /** An action that is not a function returning exactly one error ends the run with the shape check's message, once prompting is done. */
  lemma RootShapeFatal(a: App, program: string, root: Parse, rest: Parse, doc: Option<Document>, answers: seq<string>)
    requires a.WellFormed() && RootAnswered(a, root, doc, answers)
    requires ShapeError(a.Action.value).Some?
    ensures var o := AppRun(a, program, root, rest, doc, answers).outcome;
            o == Fatal(ShapeError(a.Action.value).value) && ExitStatus(o) == Some(1)
  {
    RunReady(a, program, root, rest, doc, answers);
  }

  /** A well-shaped root action with a parameter nothing on offer matches ends the run with the root's parameter message. */
  lemma RootUnmatchedFatal(a: App, program: string, root: Parse, rest: Parse, doc: Option<Document>, answers: seq<string>)
    requires a.WellFormed() && RootAnswered(a, root, doc, answers)
    requires ShapeError(a.Action.value).None?
    requires BoundArgs(a.Action.value.params, RootOffer(a.Config, root.positionals)).None?
    ensures var o := AppRun(a, program, root, rest, doc, answers).outcome;
            o == Fatal(RootParamError(a.Config)) && ExitStatus(o) == Some(1)
  {
    RunReady(a, program, root, rest, doc, answers);
  }

  /** A well-shaped root action whose parameters all match is called, with those arguments. */
  lemma RootActionCalled(a: App, program: string, root: Parse, rest: Parse, doc: Option<Document>, answers: seq<string>)
    requires a.WellFormed() && RootAnswered(a, root, doc, answers)
    requires ShapeError(a.Action.value).None?
    requires BoundArgs(a.Action.value.params, RootOffer(a.Config, root.positionals)).Some?
    ensures AppRun(a, program, root, rest, doc, answers).outcome
            == Invoked(RootAction, BoundArgs(a.Action.value.params, RootOffer(a.Config, root.positionals)).value,
                       a.Action.value.failure)
  {
    RunReady(a, program, root, rest, doc, answers);
  }

  /** A command without a name or a description stops the run with the registration message, before anything else. */
  lemma BadCommandIsFatal(a: App, program: string, root: Parse, rest: Parse, doc: Option<Document>, answers: seq<string>)
    requires a.WellFormed() && RegistrationError(a.Commands).Some?
    ensures var o := AppRun(a, program, root, rest, doc, answers).outcome;
            o == Fatal(RegistrationError(a.Commands).value) && ExitStatus(o) == Some(1)
  {
  }

  /** A Config that is not a pointer stops a run whose commands register, with the pointer message. */
  lemma NonPointerConfigIsFatal(a: App, program: string, root: Parse, rest: Parse, doc: Option<Document>, answers: seq<string>)
    requires a.WellFormed() && RegistrationError(a.Commands).None?
    requires a.Config.Some? && !a.Config.value.isPointer
    ensures var o := AppRun(a, program, root, rest, doc, answers).outcome;
            o == Fatal(NotAPointer) && ExitStatus(o) == Some(1)
  {
  }

  /**
   * In the root record a run is ready with, a given flag beats the decoded
   * document, which beats the value the record held before the run.
   */
  lemma SetupPrecedence(a: App, root: Parse, doc: Option<Document>, i: nat)
    requires a.WellFormed() && Setup(a, root, doc).Ready? && i < |Setup(a, root, doc).fields|
    ensures var st := Setup(a, root, doc);
            var f := st.fields[i];
            && (f.long in root.given ==> st.cells[i] == root.given[f.long])
            && (f.long !in root.given && doc.Some? && f.long in st.document && Supported(f.kind) ==>
                  st.cells[i] == Convert(f.kind, st.document[f.long]).cell)
            && (f.long !in root.given && (doc.None? || f.long !in st.document) ==> st.cells[i] == Contents(a.Config)[i])
  {
    var st := Setup(a, root, doc);
    var before := Contents(a.Config);
    if doc.Some? {
      FlagOverFileOverDefault(st.fields, st.document, root.given, before, i);
    }
  }

  /**
   * The positionals left after the command name reach a command's action:
   * with no flag after the name, `prog sync extra` calls the action of
   * "sync" with ["extra"].
   */
  lemma CommandGetsItsArgs(a: App, program: string, root: Parse, rest: Parse, doc: Option<Document>, answers: seq<string>,
                           failure: Option<string>)
    requires a.WellFormed() && Setup(a, root, doc).Ready? && a.Config.None?
    requires !(!(a.DisableVersion || a.Version == "") && "version" in root.given) && "help" !in root.given
    requires Route(a.Commands, root.positionals).Some?
    requires rest.given == map[] && rest.positionals == root.positionals[1..]
    requires var cmd := a.Commands[Route(a.Commands, root.positionals).value];
             && cmd.Config.None? && cmd.Action == Some(Func([StringSlice], [ErrorType], failure))
             && PromptSegmentKeys(Setup(a, root, doc).document, cmd.Name).Some?
    ensures AppRun(a, program, root, rest, doc, answers).outcome
            == Invoked(CommandAction(root.positionals[0]), [Positionals(root.positionals[1..])], failure)
  {
    var st := Setup(a, root, doc);
    var cmd := a.Commands[Route(a.Commands, root.positionals).value];
    RoutedCommandRuns(a, program, root, rest, doc, answers);
    var offer := CommandOffer(cmd.Config, a.Config, rest.positionals);
    assert offer[0].0 == StringSlice;
    var bound := BoundArgs([StringSlice], offer);
    assert bound.Some? && |bound.value| == 1;
    assert Supply(offer, StringSlice) == Some(bound.value[0]);
    assert bound.value == [Positionals(rest.positionals)];
  }
}
