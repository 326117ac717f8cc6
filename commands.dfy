/**
 * A subcommand (command.go): its own record merged from its section of the
 * application's document, its usage header, and its run — the help check,
 * prompting for the application's fields and then its own, and the call of
 * its action with parameters matched by type.
 */
module Commands {
  import opened Values
  import opened Fields
  import opened Prompting
  import opened Merging
  import opened Dispatch

  /** What a command reads from the application that routed to it. */
  datatype Parent = Parent(name: string, config: Option<Config>, fields: seq<Field>, document: Document) {
    /** The application's descriptors are those of its record. */
    predicate Valid() {
      Usable(config) && Describes(fields, config)
    }
  }

  /** The first line of a command's usage text, followed by its description. */
  function CommandHeader(app: string, name: string, description: string, options: bool, args: bool): string {
    "Usage: " + app
    + (if options then " [OPTIONS]" else "")
    + " " + name
    + (if args then " [args...]" else "")
    + DescriptionBlock(description)
  }

  /** The end of a command header: a blank line, the description, a blank line. */
  function DescriptionBlock(description: string): string {
    "\n\n" + description + "\n\n"
  }

  /** Reads back whether the header shows " [args...]" before its description block. */
  function ReadCommandArgs(description: string, t: string): Option<bool> {
    var (args, tail) := Strip(t, " [args...]");
    if tail == DescriptionBlock(description) then Some(args) else None
  }

  /** Reads back the header after the application's name. */
  function ReadCommandPart(name: string, description: string, t: string): Option<(bool, bool)> {
    var (options, after) := Strip(t, " [OPTIONS]");
    var cmd := " " + name;
    if !HasPrefix(after, cmd) then None
    else match ReadCommandArgs(description, after[|cmd|..])
         case None => None
         case Some(args) => Some((options, args))
  }

  /** Reads back, from a header, whether it shows the options and the arguments. */
  function ReadCommandHeader(app: string, name: string, description: string, h: string): Option<(bool, bool)> {
    var lead := "Usage: " + app;
    if !HasPrefix(h, lead) then None else ReadCommandPart(name, description, h[|lead|..])
  }

  /** A command's text does not start with " [OPTIONS]" when its name does not and a blank follows it. */
  lemma CommandTextNotOptions(name: string, rest: string)
    requires !HasPrefix(name, "[OPTIONS]")
    requires rest != [] && (rest[0] == ' ' || rest[0] == '\n')
    ensures Strip(" " + name + rest, " [OPTIONS]") == (false, " " + name + rest)
  {
    var t := " " + name + rest;
    var p := " [OPTIONS]";
    assert p[1..] == "[OPTIONS]";
    if |name| >= 9 {
      var k :| 0 <= k < 9 && name[k] != p[1..][k];
      StripMiss(t, p, k + 1);
    } else if name == p[1..][..|name|] {
      assert t[|name| + 1] == rest[0];
      StripMiss(t, p, |name| + 1);
    } else {
      var k :| 0 <= k < |name| && name[k] != p[1..][k];
      StripMiss(t, p, k + 1);
    }
  }

  lemma CommandArgsRoundTrip(description: string, args: bool)
    ensures ReadCommandArgs(description, (if args then " [args...]" else "") + DescriptionBlock(description)) == Some(args)
  {
    var e := DescriptionBlock(description);
    if args {
      StripHit(" [args...]", e);
    } else {
      StripMiss(e, " [args...]", 0);
      assert "" + e == e;
    }
  }

  lemma CommandPartRoundTrip(name: string, description: string, options: bool, args: bool)
    requires !HasPrefix(name, "[OPTIONS]")
    ensures ReadCommandPart(name, description,
              (if options then " [OPTIONS]" else "") + (" " + name + ((if args then " [args...]" else "") + DescriptionBlock(description))))
            == Some((options, args))
  {
    var cmd := " " + name;
    var rest := (if args then " [args...]" else "") + DescriptionBlock(description);
    var t1 := cmd + rest;
    if options {
      StripHit(" [OPTIONS]", t1);
    } else {
      assert "" + t1 == t1;
      CommandTextNotOptions(name, rest);
    }
    assert t1[..|cmd|] == cmd && t1[|cmd|..] == rest;
    CommandArgsRoundTrip(description, args);
  }

  /**
   * The header shows " [OPTIONS]" and " [args...]" exactly when asked to:
   * reading it back recovers both choices, unless the command's own name
   * starts with "[OPTIONS]".
   */
  lemma {:induction false} CommandHeaderRoundTrip(app: string, name: string, description: string, options: bool, args: bool)
    requires !HasPrefix(name, "[OPTIONS]")
    ensures ReadCommandHeader(app, name, description, CommandHeader(app, name, description, options, args)) == Some((options, args))
  {
    var lead := "Usage: " + app;
    var o := if options then " [OPTIONS]" else "";
    var a := if args then " [args...]" else "";
    var t := o + (" " + name + (a + DescriptionBlock(description)));
    var h := CommandHeader(app, name, description, options, args);
    assert h == lead + t;
    assert h[..|lead|] == lead && h[|lead|..] == t;
    CommandPartRoundTrip(name, description, options, args);
  }

  class Command {
    const Name: string
    const Description: string
    const Config: Option<Config>
    const Action: Option<Action>
    const Hidden: bool

    /** The descriptors of the command's record, set when it runs. */
    var fields: seq<Field>

    constructor (name: string, description: string, config: Option<Config>, action: Option<Action>, hidden: bool)
      ensures Name == name && Description == description && Config == config && Action == action && Hidden == hidden
      ensures fields == []
    {
      Name := name;
      Description := description;
      Config := config;
      Action := action;
      Hidden := hidden;
      fields := [];
    }

    /** The command's Config, if any, matches its record and binds only supported kinds. */
    predicate WellFormed() {
      Usable(Config)
    }

    /** The descriptors recorded are those of the command's own record. */
    predicate Described()
      reads this
    {
      Describes(fields, Config)
    }

    /** tryConfig: merges the command's section of the application's document into its record. */
    method TryConfig(doc: Document) returns (ok: bool)
      requires WellFormed() && Described()
      modifies Records(Config)
      ensures ok <==> MergedCells(fields, CommandSegment(doc, Name), old(Contents(Config))).Some?
      ensures ok ==> Contents(Config) == MergedCells(fields, CommandSegment(doc, Name), old(Contents(Config))).value
    {
      if Config.None? {
        EmptySegmentKeepsRecord(fields, []);
        return MergedCells(fields, CommandSegment(doc, Name), []).Some?;
      }
      ok := MergeSegment(fields, Config.value.cells, CommandSegment(doc, Name));
    }

    /** usage: the header line of the command's usage text. */
    method Usage(app: Parent) returns (header: Option<string>)
      ensures header.None? <==> AcceptsArgs(Action).None?
      ensures header.Some? ==> header.value == CommandHeader(app.name, Name, Description, app.config.Some? || Config.Some?, AcceptsArgs(Action).value)
    {
      var takesArgs := AcceptsArgs(Action);
      if takesArgs.None? {
        return None;
      }
      var usage := "Usage: " + app.name;
      if app.config.Some? || Config.Some? {
        usage := usage + " [OPTIONS]";
      }
      usage := usage + " " + Name;
      if takesArgs.value {
        usage := usage + " [args...]";
      }
      usage := usage + "\n\n" + Description + "\n\n";
      assert usage == CommandHeader(app.name, Name, Description, app.config.Some? || Config.Some?, takesArgs.value);
      return Some(usage);
    }

    /** Run: the command's outcome, and the two records it calls its action with. */
    method Run(app: Parent, rest: Parse, seen: set<string>, answers: seq<string>) returns (o: Outcome)
      requires app.Valid() && WellFormed()
      requires Config.Some? && app.config.Some? ==> Config.value.cells != app.config.value.cells
      requires GivenFits(Config, rest.given) && GivenFits(app.config, rest.given)
      modifies this, Records(Config), Records(app.config)
      ensures var t := CommandRun(this, app, rest, seen, answers, old(Contents(app.config)), old(Contents(Config)));
              && o == t.outcome
              && (t.Call? ==> Contents(app.config) == t.rootCells && Contents(Config) == t.ownCells)
      ensures (Config.None? || Config.value.isPointer) && DescribeRecord(Config).Some? ==> fields == DescribeRecord(Config).value
    {
      if Config.Some? && !Config.value.isPointer {
        return Fatal(NotAPointer);
      }
      var parsed, panic := ParseFields(Config);
      if parsed.None? {
        return Panicked(panic.value);
      }
      fields := parsed.value;
      if Config.Some? {
        DescribedInOrder(Config.value, fields);
      }
      ghost var rootCells, ownCells := Contents(app.config), Contents(Config);
      var merged := TryConfig(app.document);
      if !merged {
        return Panicked(FailedConversion);
      }
      ghost var mergedCells := Contents(Config);
      assert Contents(app.config) == rootCells;
      if app.config.Some? {
        ApplyGivenFlags(app.fields, app.config.value.cells, rest.given);
      }
      assert Contents(Config) == mergedCells;
      if Config.Some? {
        ApplyGivenFlags(fields, Config.value.cells, rest.given);
      }
      assert Contents(app.config) == FlaggedCells(app.fields, rest.given, rootCells);
      assert Contents(Config) == FlaggedCells(fields, rest.given, mergedCells);
      if "help" in seen {
        var header := Usage(app);
        if header.None? {
          return Panicked(NonFuncArgs);
        }
        return PrintedUsage(header.value);
      }
      o := Proceed(app, rest, seen, answers);
    }

    /** The steps of Run after the help check: prompting for both records, the action's shape, binding, the call. */
    method Proceed(app: Parent, rest: Parse, seen: set<string>, answers: seq<string>) returns (o: Outcome)
      requires app.Valid() && WellFormed() && Described()
      requires Config.Some? && app.config.Some? ==> Config.value.cells != app.config.value.cells
      modifies Records(Config), Records(app.config)
      ensures var t := CommandCall(this, app, fields, rest, seen, answers, old(Contents(app.config)), old(Contents(Config)));
              && o == t.outcome
              && (t.Call? ==> Contents(app.config) == t.rootCells && Contents(Config) == t.ownCells)
    {
      var answered, remaining := true, answers;
      if app.config.Some? {
        answered, remaining := PromptForMissing(app.fields, app.config.value.cells, app.document.Keys, seen, answers);
        if !answered {
          return AwaitingInput;
        }
      }
      var keys := PromptSegmentKeys(app.document, Name);
      if keys.None? {
        return Panicked(FailedConversion);
      }
      if Config.Some? {
        answered, remaining := PromptForMissing(fields, Config.value.cells, keys.value, seen, remaining);
        if !answered {
          return AwaitingInput;
        }
      }
      if Action.None? {
        return Panicked(NilAction);
      }
      var shape := ShapeError(Action.value);
      if shape.Some? {
        return Fatal(shape.value);
      }
      var args, bound := BindArgs(Action.value.params, CommandOffer(Config, app.config, rest.positionals));
      if !bound {
        return Fatal(CommandParamError(Config, app.config));
      }
      o := Invoked(CommandAction(Name), args, Action.value.failure);
    }
  }

  /**
   * The run of a command routed to by `app`: `rest` is the flag parser's
   * second pass over the arguments after the command name, `seen` every flag
   * given in either pass, and rootCells/ownCells the two records beforehand.
   */
  function CommandRun(cmd: Command, app: Parent, rest: Parse, seen: set<string>, answers: seq<string>,
                      rootCells: seq<Cell>, ownCells: seq<Cell>): (r: Trace)
    requires app.Valid() && |rootCells| == |app.fields|
    requires cmd.WellFormed() && |ownCells| == Width(cmd.Config)
    ensures r.Call? ==> r.outcome.Invoked? && r.outcome.owner == CommandAction(cmd.Name)
  {
    if cmd.Config.Some? && !cmd.Config.value.isPointer then Exit(Fatal(NotAPointer))
    else match DescribeRecord(cmd.Config)
    case None => Exit(Panicked(ParsePanic(cmd.Config).value))
    case Some(fields) =>
      match MergedCells(fields, CommandSegment(app.document, cmd.Name), ownCells)
      case None => Exit(Panicked(FailedConversion))
      case Some(merged) =>
        var root := FlaggedCells(app.fields, rest.given, rootCells);
        var own := FlaggedCells(fields, rest.given, merged);
        if "help" in seen then
          match AcceptsArgs(cmd.Action)
          case None => Exit(Panicked(NonFuncArgs))
          case Some(takesArgs) =>
            Exit(PrintedUsage(CommandHeader(app.name, cmd.Name, cmd.Description, app.config.Some? || cmd.Config.Some?, takesArgs)))
        else CommandCall(cmd, app, fields, rest, seen, answers, root, own)
  }

  /** The run of a command after the help check, from the two records as the flags left them. */
  function CommandCall(cmd: Command, app: Parent, fields: seq<Field>, rest: Parse, seen: set<string>, answers: seq<string>,
                       root: seq<Cell>, own: seq<Cell>): (r: Trace)
    requires app.Valid() && |root| == |app.fields|
    requires cmd.WellFormed() && Describes(fields, cmd.Config) && |own| == |fields|
    ensures r.Call? ==> r.outcome.Invoked? && r.outcome.owner == CommandAction(cmd.Name)
  {
    match PromptFrom(app.fields, app.document.Keys, seen, root, answers, 0)
    case None => Exit(AwaitingInput)
    case Some((rootAnswered, remaining)) =>
      match PromptSegmentKeys(app.document, cmd.Name)
      case None => Exit(Panicked(FailedConversion))
      case Some(keys) =>
        match PromptFrom(fields, keys, seen, own, remaining, 0)
        case None => Exit(AwaitingInput)
        case Some((ownAnswered, _)) =>
          match cmd.Action
          case None => Exit(Panicked(NilAction))
          case Some(action) =>
            match ShapeError(action)
            case Some(msg) => Exit(Fatal(msg))
            case None =>
              match BoundArgs(action.params, CommandOffer(cmd.Config, app.config, rest.positionals))
              case None => Exit(Fatal(CommandParamError(cmd.Config, app.config)))
              case Some(args) => Call(Invoked(CommandAction(cmd.Name), args, action.failure), rootAnswered, ownAnswered)
  }

  /** A command's help flag prints its usage before any prompting: the run neither waits for input nor calls the action. */
  lemma HelpBeforePrompting(cmd: Command, app: Parent, rest: Parse, seen: set<string>, answers: seq<string>,
                            rootCells: seq<Cell>, ownCells: seq<Cell>)
    requires app.Valid() && |rootCells| == |app.fields|
    requires cmd.WellFormed() && |ownCells| == Width(cmd.Config)
    requires "help" in seen
    ensures var o := CommandRun(cmd, app, rest, seen, answers, rootCells, ownCells).outcome;
            !o.AwaitingInput? && !o.Invoked?
  {
  }

  /**
   * A section under the command's name that is not a mapping: the merge
   * skips it, and the run then fails once the application's fields are
   * prompted for, before the command's own.
   */
  lemma NonMapSectionFailsAtPrompt(cmd: Command, app: Parent, rest: Parse, seen: set<string>, answers: seq<string>,
                                   rootCells: seq<Cell>, ownCells: seq<Cell>)
    requires app.Valid() && |rootCells| == |app.fields|
    requires cmd.WellFormed() && |ownCells| == Width(cmd.Config)
    requires cmd.Config.Some? ==> cmd.Config.value.isPointer
    requires DescribeRecord(cmd.Config).Some?
    requires "help" !in seen
    requires Lower(cmd.Name) in app.document && !app.document[Lower(cmd.Name)].VMap?
    requires PromptFrom(app.fields, app.document.Keys, seen, FlaggedCells(app.fields, rest.given, rootCells), answers, 0).Some?
    ensures CommandRun(cmd, app, rest, seen, answers, rootCells, ownCells).outcome == Panicked(FailedConversion)
  {
    NonMapSection(app.document, cmd.Name, DescribeRecord(cmd.Config).value, ownCells);
  }

  /** A command's action is called only when it is a function returning one error, and its error decides the exit status. */
  lemma CommandActionContract(cmd: Command, app: Parent, rest: Parse, seen: set<string>, answers: seq<string>,
                              rootCells: seq<Cell>, ownCells: seq<Cell>)
    requires app.Valid() && |rootCells| == |app.fields|
    requires cmd.WellFormed() && |ownCells| == Width(cmd.Config)
    ensures var o := CommandRun(cmd, app, rest, seen, answers, rootCells, ownCells).outcome;
            o.Invoked? ==>
              && cmd.Action.Some? && ShapeError(cmd.Action.value).None?
              && Some(o.args) == BoundArgs(cmd.Action.value.params, CommandOffer(cmd.Config, app.config, rest.positionals))
              && o.err == cmd.Action.value.failure
              && (ExitStatus(o) == Some(1) <==> o.err.Some?)
  {
  }

  /** The command's record passes the pointer check, is described, and takes its section without a panic. */
  predicate CommandPrepared(cmd: Command, app: Parent, ownCells: seq<Cell>)
    requires cmd.WellFormed() && |ownCells| == Width(cmd.Config)
  {
    && (cmd.Config.Some? ==> cmd.Config.value.isPointer)
    && DescribeRecord(cmd.Config).Some?
    && MergedCells(DescribeRecord(cmd.Config).value, CommandSegment(app.document, cmd.Name), ownCells).Some?
  }

  /** Past the help check, prompting for the application's fields and then the command's settles on the answers. */
  predicate CommandAnswered(cmd: Command, app: Parent, rest: Parse, seen: set<string>, answers: seq<string>,
                            rootCells: seq<Cell>, ownCells: seq<Cell>)
    requires app.Valid() && |rootCells| == |app.fields|
    requires cmd.WellFormed() && |ownCells| == Width(cmd.Config)
  {
    && CommandPrepared(cmd, app, ownCells)
    && "help" !in seen
    && var fields := DescribeRecord(cmd.Config).value;
       var own := FlaggedCells(fields, rest.given, MergedCells(fields, CommandSegment(app.document, cmd.Name), ownCells).value);
       match PromptFrom(app.fields, app.document.Keys, seen, FlaggedCells(app.fields, rest.given, rootCells), answers, 0)
       case None => false
       case Some((_, remaining)) =>
         PromptSegmentKeys(app.document, cmd.Name).Some?
         && PromptFrom(fields, PromptSegmentKeys(app.document, cmd.Name).value, seen, own, remaining, 0).Some?
  }

  /** With the help flag, a prepared command prints its own usage header and exits 0. */
  lemma CommandHelpUsage(cmd: Command, app: Parent, rest: Parse, seen: set<string>, answers: seq<string>,
                         rootCells: seq<Cell>, ownCells: seq<Cell>)
    requires app.Valid() && |rootCells| == |app.fields|
    requires cmd.WellFormed() && |ownCells| == Width(cmd.Config)
    requires CommandPrepared(cmd, app, ownCells) && "help" in seen
    ensures var o := CommandRun(cmd, app, rest, seen, answers, rootCells, ownCells).outcome;
            match AcceptsArgs(cmd.Action)
            case None => o == Panicked(NonFuncArgs)
            case Some(takesArgs) =>
              && o == PrintedUsage(CommandHeader(app.name, cmd.Name, cmd.Description, app.config.Some? || cmd.Config.Some?, takesArgs))
              && ExitStatus(o) == Some(0)
  {
  }

  /** Once prompting is done, a command without an action panics. */
  lemma CommandNilAction(cmd: Command, app: Parent, rest: Parse, seen: set<string>, answers: seq<string>,
                         rootCells: seq<Cell>, ownCells: seq<Cell>)
    requires app.Valid() && |rootCells| == |app.fields|
    requires cmd.WellFormed() && |ownCells| == Width(cmd.Config)
    requires CommandAnswered(cmd, app, rest, seen, answers, rootCells, ownCells) && cmd.Action.None?
    ensures CommandRun(cmd, app, rest, seen, answers, rootCells, ownCells).outcome == Panicked(NilAction)
  {
  }

  /** Once prompting is done, an action that is not a function returning exactly one error ends the run with the shape check's message. */
  lemma CommandShapeFatal(cmd: Command, app: Parent, rest: Parse, seen: set<string>, answers: seq<string>,
                          rootCells: seq<Cell>, ownCells: seq<Cell>)
    requires app.Valid() && |rootCells| == |app.fields|
    requires cmd.WellFormed() && |ownCells| == Width(cmd.Config)
    requires CommandAnswered(cmd, app, rest, seen, answers, rootCells, ownCells)
    requires cmd.Action.Some? && ShapeError(cmd.Action.value).Some?
    ensures var o := CommandRun(cmd, app, rest, seen, answers, rootCells, ownCells).outcome;
            o == Fatal(ShapeError(cmd.Action.value).value) && ExitStatus(o) == Some(1)
  {
  }

  /** A well-shaped command action with a parameter nothing on offer matches ends the run with the command's parameter message. */
  lemma CommandUnmatchedFatal(cmd: Command, app: Parent, rest: Parse, seen: set<string>, answers: seq<string>,
                              rootCells: seq<Cell>, ownCells: seq<Cell>)
    requires app.Valid() && |rootCells| == |app.fields|
    requires cmd.WellFormed() && |ownCells| == Width(cmd.Config)
    requires CommandAnswered(cmd, app, rest, seen, answers, rootCells, ownCells)
    requires cmd.Action.Some? && ShapeError(cmd.Action.value).None?
    requires BoundArgs(cmd.Action.value.params, CommandOffer(cmd.Config, app.config, rest.positionals)).None?
    ensures var o := CommandRun(cmd, app, rest, seen, answers, rootCells, ownCells).outcome;
            o == Fatal(CommandParamError(cmd.Config, app.config)) && ExitStatus(o) == Some(1)
  {
  }

  /** A well-shaped command action whose parameters all match is called, with those arguments. */
  lemma CommandActionCalled(cmd: Command, app: Parent, rest: Parse, seen: set<string>, answers: seq<string>,
                            rootCells: seq<Cell>, ownCells: seq<Cell>)
    requires app.Valid() && |rootCells| == |app.fields|
    requires cmd.WellFormed() && |ownCells| == Width(cmd.Config)
    requires CommandAnswered(cmd, app, rest, seen, answers, rootCells, ownCells)
    requires cmd.Action.Some? && ShapeError(cmd.Action.value).None?
    requires BoundArgs(cmd.Action.value.params, CommandOffer(cmd.Config, app.config, rest.positionals)).Some?
    ensures CommandRun(cmd, app, rest, seen, answers, rootCells, ownCells).outcome
            == Invoked(CommandAction(cmd.Name),
                       BoundArgs(cmd.Action.value.params, CommandOffer(cmd.Config, app.config, rest.positionals)).value,
                       cmd.Action.value.failure)
  {
  }

  /**
   * In the command's record its action is called with, a flag given after the
   * command's name beats the command's section of the document, which beats
   * the value the record held before; prompting touches neither.
   */
  lemma CommandPrecedence(cmd: Command, app: Parent, rest: Parse, seen: set<string>, answers: seq<string>,
                          rootCells: seq<Cell>, ownCells: seq<Cell>, i: nat)
    requires app.Valid() && |rootCells| == |app.fields|
    requires cmd.WellFormed() && |ownCells| == Width(cmd.Config)
    requires CommandRun(cmd, app, rest, seen, answers, rootCells, ownCells).Call? && rest.given.Keys <= seen
    requires DescribeRecord(cmd.Config).Some? && i < |DescribeRecord(cmd.Config).value|
    ensures var t := CommandRun(cmd, app, rest, seen, answers, rootCells, ownCells);
            var f := DescribeRecord(cmd.Config).value[i];
            var seg := CommandSegment(app.document, cmd.Name);
            && (f.long in rest.given ==> t.ownCells[i] == rest.given[f.long])
            && (f.long !in rest.given && f.long in seg && Supported(f.kind) ==> t.ownCells[i] == Convert(f.kind, seg[f.long]).cell)
            && (f.long !in rest.given && f.long !in seg && !f.prompt ==> t.ownCells[i] == ownCells[i])
  {
    var fields := DescribeRecord(cmd.Config).value;
    var seg := CommandSegment(app.document, cmd.Name);
    FlagOverFileOverDefault(fields, seg, rest.given, ownCells, i);
    var own := FlaggedCells(fields, rest.given, MergedCells(fields, seg, ownCells).value);
    var root := FlaggedCells(app.fields, rest.given, rootCells);
    assert CommandRun(cmd, app, rest, seen, answers, rootCells, ownCells) == CommandCall(cmd, app, fields, rest, seen, answers, root, own);
    UnaskedCellKept(cmd, app, fields, rest, seen, answers, root, own, i);
  }

  /** A command's cell that prompting does not ask for reaches its action as the flags and the merge left it. */
  lemma UnaskedCellKept(cmd: Command, app: Parent, fields: seq<Field>, rest: Parse, seen: set<string>, answers: seq<string>,
                        root: seq<Cell>, own: seq<Cell>, i: nat)
    requires app.Valid() && |root| == |app.fields|
    requires cmd.WellFormed() && Describes(fields, cmd.Config) && |own| == |fields| && i < |fields|
    requires CommandCall(cmd, app, fields, rest, seen, answers, root, own).Call?
    ensures PromptSegmentKeys(app.document, cmd.Name).Some?
    ensures !Asks(fields[i], CommandSegment(app.document, cmd.Name).Keys, seen) ==>
              CommandCall(cmd, app, fields, rest, seen, answers, root, own).ownCells[i] == own[i]
  {
    var remaining := PromptFrom(app.fields, app.document.Keys, seen, root, answers, 0).value.1;
    var keys := PromptSegmentKeys(app.document, cmd.Name).value;
    PromptFromFrame(fields, keys, seen, own, remaining, 0);
  }
}
