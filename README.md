# go-clinic binding engine, modelled in Dafny

go-clinic is a small Go library for command-line programs. An application
(`App`) and its subcommands (`Command`) each declare a configuration struct and
an action function. The library binds the struct by reflection, then runs in
this order:

- every struct member becomes a command-line option, named by its tags;
- values are merged in from `$HOME/.config/<app>/config.yml`;
- the command line is parsed on top of those values;
- the operator is asked, on standard input, for any promptable member that
  neither a flag nor the configuration file supplied;
- the action is called with parameters matched by type: the positionals, the
  configuration record(s), or the application itself.

The application may instead print its version or its usage, route to a
subcommand, or stop with a fatal message.

This project models that binding engine. The modules are:

- `Values`: member kinds, record cells and decoded document values. The
  platform integers are 64 bits wide, and lower-casing is ASCII only.
- `Fields`: the tag helpers, `parseFields`, the flag column of `getOptions`,
  `interfaceToStringSlice` and `field.set`.
- `Prompting`: the answer parsers, the retry-until-accepted helpers, the
  blank-terminated list and `promptForMissing`.
- `Merging`: the merge loops of both `tryConfig`s, the flag writes of the
  parser, and the precedence between them.
- `Dispatch`: how a run ends, the shape checks on an action, parameter
  matching and its error messages.
- `Commands`: `class Command`, which models `command.go`.
- `Apps`: `class App`, which models `app.go`.

Some things become explicit data:

- A configuration record is an `array<Cell>`. A field descriptor holds the
  array and its slot, so `set` and prompting write through it as the Go code
  writes through `f.iface`.
- The flag parser is an input: a `Parse` value with the flags given (long name
  to cell) and the positional tokens.
- The configuration file is an input: the decoded document, or nothing.
- The operator's input is a finite sequence of answer lines.
- A run ends in an `Outcome`:
  - `PrintedVersion` or `PrintedUsage`, both with exit status 0;
  - `Fatal(message)`, exit status 1;
  - `Panicked(reason)`, a Go runtime panic;
  - `AwaitingInput`, for a retry loop the remaining answers never satisfy;
  - `Invoked(owner, args, err)`, the action call and the error it returns.

`App.Run` and `Command.Run` are each specified by a function of the state
before the run: `Apps.AppRun` and `Commands.CommandRun`. Each method's
`ensures` ties it to that function, covering the outcome and the records the
action sees. The lemmas beside each function state the promises of the run:

- the order of outcomes;
- that routing replaces the root action;
- that help comes before prompting;
- the error contract of the action.

## Model

| member | source | states |
|---|---|---|
| Fields.FieldLong | utils.go:12-18 | A present `long` tag is the option name verbatim, even when empty. Without one, the name is the lower-cased member name. |
| Fields.FieldShort | utils.go:20-26 | Without a `short` tag there is no short option. A present tag gives its first character. An empty tag is the index panic (None). |
| Fields.FieldUsage | utils.go:28-34 | A present `usage` tag is the usage text verbatim. Without one, the usage is the member name. |
| Fields.PromptAllowed | utils.go:36-42 | Prompting is on iff a `prompt` tag is present and reads "yes" in any case. Only a three-letter tag can turn it on. |
| Fields.UntaggedDefaults | utils.go:12-42 | With no tags, the descriptor has long = lower-cased member name, no short option, usage = member name, and prompt off. |
| Fields.TagsOverride | utils.go:12-42 | Each tag is read on its own. A present `long` or `usage` tag is used verbatim, even when empty; an absent one gives the lower-cased member name or the member name. A present `short` tag must be non-empty and its first character is the short option; an absent one gives no short option. Prompt is on iff the lower-cased `prompt` tag is "yes". |
| Fields.PromptTagIgnoresCase | utils.go:36-42 | "YES" and "Yes" enable prompting; "y" and "true" do not. |
| Fields.DescribedInOrder | utils.go:44-69 | A described record has exactly one descriptor per member. Descriptor i is built from member i and writes cell i, so declaration order is kept and kinds are preserved. |
| Fields.Describe | utils.go:54-65 | A member is described iff it causes no panic. An unexported member panics when its address is taken, and an empty `short` tag panics when its first byte is read. |
| Fields.FirstPanic | utils.go:53-66 | The first member that panics; every earlier one is described. None iff no member panics. |
| Fields.DescribeRecord | utils.go:44-69 | With a Config, the record is described iff no member panics. |
| Fields.PanickingMemberStopsDescription | utils.go:53-66 | One panicking member, at any position, stops the description of the whole record. |
| Fields.ParsePanic | utils.go:57-65 | There is a panic message iff the record cannot be described. It is the message of the first member that panics. |
| Fields.ParseFields | utils.go:44-69 | The loop that fills the preallocated table yields `DescribeRecord`: empty without a Config. On a panicking member it stops with that member's panic message. |
| Fields.FlagTextRoundTrip | utils.go:106-111 | The flag column is "-s, --long" when there is a short option and "--long" otherwise. Reading it back recovers both names. |
| Fields.GetOptions | utils.go:103-127 | One row per field, in field order: the flag column, then the usage text. |
| Fields.ToStringSlice | utils.go:129-137 | It succeeds iff the value is a list of strings only. The result is an element-wise copy of the same length and order. |
| Fields.Convert | value.go:17-30 | A supported kind stores a value only when its dynamic type is exactly that kind; any other type is a mismatch. An unsupported kind is ignored. A stored cell has the field's kind and holds the given value. |
| Fields.ConvertValueOf | value.go:17-30 | Converting a cell's own contents gives back that cell. |
| Fields.UintRejectsInt | value.go:25-26 | A uint member rejects an int value of any size. |
| Fields.OverwriteIdempotent | value.go:17-30 | Setting the same value twice leaves what setting it once left. |
| Fields.Set | value.go:17-30 | It succeeds iff the conversion is not a mismatch. On success only the field's own cell changes, to the converted value. On failure nothing changes. |
| Prompting.ParseBoolAnswer | utils.go:152-161 | An answer means true iff its lower-case form is "yes", "y", "true" or "t". It means false iff that form is "no", "n", "false" or "f". Any other answer is asked again. |
| Prompting.TruthyAnswers | utils.go:152-161 | "yes", "y", "true" and "t", in any case, answer true. |
| Prompting.FalsyAnswers | utils.go:152-161 | "no", "n", "false" and "f" answer false. |
| Prompting.RejectedAnswers | utils.go:152-161 | "maybe" and the blank line are not accepted as answers. |
| Prompting.ParseInt | utils.go:163-171 | An accepted int lies within the 64-bit signed range. |
| Prompting.ParseUint | utils.go:173-181 | An accepted uint is at most 2^64 - 1. |
| Prompting.ParseIntShowInt | utils.go:163-171 | Every 64-bit int, written in base 10 with a minus sign when negative, is read back exactly. |
| Prompting.ParseUintShowNat | utils.go:173-181 | Every 64-bit uint written in base 10 is read back exactly. |
| Prompting.ParseUintOutOfRange | utils.go:173-181 | A number above the uint range is rejected, not wrapped. |
| Prompting.SignedAnswers | utils.go:163-181 | The int parser accepts a leading plus sign. The uint parser rejects any sign. |
| Prompting.FirstAccepted | utils.go:152-181 | The answer a retrying prompt settles on is the first acceptable one. Every earlier answer is rejected. None iff no answer is ever acceptable. |
| Prompting.MaybeIsAskedAgain | utils.go:158-160 | A rejected answer is discarded and decides nothing: the answers after it decide. |
| Prompting.Collected | utils.go:183-194 | The list is the answers up to the first blank one. The blank one is consumed but not included. |
| Prompting.ListAnswers | utils.go:183-194 | Three answers and a blank give a three-element list. A blank first answer gives an empty list. |
| Prompting.PromptStringSlice | utils.go:183-194 | The append loop yields `Collected` of the answers. |
| Prompting.Ask | utils.go:211-222 | One question yields a cell of the field's own kind. Only bool, int and uint questions can go unanswered forever. |
| Prompting.FirstAskedStringTakesNextLine | utils.go:196-215 | When every field before it is skipped, the first string field asked for holds the next answer line exactly. |
| Prompting.StringAnswerKept | utils.go:139-150 | A lone promptable string field answered "alice" holds "alice", and the lines after it stay unread. |
| Prompting.PromptFromFrame | utils.go:196-224 | Prompting writes only the cells of fields that pass the three skip rules. Every other cell keeps its value. A prompted cell gets a value of its field's kind. |
| Prompting.SkippedFieldsReadNothing | utils.go:198-209 | When every remaining field is seen, named by the segment, or not promptable, nothing is asked and no answer is read. |
| Prompting.PromptForMissing | utils.go:196-224 | The loop over the record matches `PromptFrom`: it asks in field order and writes through each field's own cell. Cells the skip rules exclude are unchanged. |
| Merging.MergedCells | app.go:49-53 | Every field named by the document segment takes the segment's converted value, and other cells keep theirs. It fails iff some named field's value has the wrong type. |
| Merging.MergeIdempotent | app.go:49-53 | Merging the same segment twice equals merging it once. |
| Merging.EmptySegmentKeepsRecord | app.go:38-47 | Without a document, or with an empty section, the record does not change. |
| Merging.MergeSegment | app.go:49-53 | The merge loop writes exactly `MergedCells`. Cells not named by the segment are unchanged. |
| Merging.CommandSegment | command.go:22-24 | The segment merged into a command's record is its lower-cased section when that is a mapping. Otherwise the segment is empty. |
| Merging.PromptSegmentKeys | command.go:91-94 | The prompting stage's section lookup fails iff the lower-cased section exists and is not a mapping. When it succeeds, its keys are the merged segment's keys. |
| Merging.NonMapSection | command.go:22-32 | A command section that is not a mapping is skipped by the merge. It makes the prompting stage's section lookup fail. |
| Merging.FlaggedCells | app.go:168-170 | A field whose flag was given takes the flag's value. Every other cell is unchanged. |
| Merging.ApplyGivenFlags | app.go:168-170 | Parsing writes exactly `FlaggedCells` into the record. |
| Merging.FlagOverFileOverDefault | app.go:167-170 | A given flag beats the configuration document, which beats the compiled-in value. |
| Dispatch.ExitStatus | app.go:172-223 | Exit status 0 for version, usage, or an action returning nil. Exit status 1 for a fatal message or an action returning an error. No status while waiting for input. |
| Dispatch.AcceptsArgs | utils.go:88-101 | A nil action takes no positionals. A function takes them iff it has a `[]string` parameter. A non-function panics. |
| Dispatch.ShapeError | app.go:192-199 | An action passes iff it is a function with exactly one result, an error. A non-function gets "Action must be a function". |
| Dispatch.FirstOfType | app.go:202-216 | The first value on offer whose type equals the parameter's type; earlier ones differ. |
| Dispatch.BoundArgs | app.go:201-217 | Every parameter gets the first value on offer of its exact type. Binding fails iff some parameter matches nothing. |
| Dispatch.BindArgs | app.go:201-217 | The append loop yields `BoundArgs` and stops at the first unmatched parameter. |
| Dispatch.RootOffer | app.go:201-210 | A `[]string` parameter gets the positionals, and a `*clinic.App` parameter gets the application. A parameter of the Config's type gets the root record. |
| Dispatch.RootOfferAccepts | app.go:201-217 | The root action may take a parameter iff its type is `[]string`, `*clinic.App`, or the Config's type. |
| Dispatch.RootParamError | app.go:210-216 | The message begins with the fixed lead naming `[]string`. It ends with the last type the root action accepts: the Config's type when there is one, else `*clinic.App`. |
| Dispatch.RootParamErrorNamesAccepted | app.go:210-216 | The root's unmatched-parameter message lists, in English, exactly the types the root action may take. |
| Dispatch.CommandOffer | command.go:106-116 | A `[]string` parameter gets the positionals, and a `*clinic.App` parameter gets the application. A parameter of the command's Config type gets the command's record. A parameter of the application's Config type gets the root record unless the command's Config has that type too. |
| Dispatch.CommandRecordFirst | command.go:106-117 | When the command's Config and the application's Config have the same type, the command's record is passed. |
| Dispatch.CommandOfferAccepts | command.go:106-133 | A command's action may take a parameter iff its type is `[]string`, `*clinic.App`, or the type of a present Config. |
| Dispatch.CommandParamError | command.go:117-131 | The message begins with the fixed lead naming `[]string`. It ends with the last type the command's action accepts. |
| Dispatch.CommandParamErrorNamesAccepted | command.go:117-132 | The command's message lists `[]string`, `*clinic.App`, then each present Config type in English: exactly the types accepted. |
| Commands.CommandHeaderRoundTrip | command.go:34-47 | The command header shows " [OPTIONS]" iff asked and " [args...]" iff asked. Reading it back recovers both choices. |
| Commands.Command.TryConfig | command.go:22-32 | The command's record takes the values of its lower-cased section when that section is a mapping. Otherwise the record is unchanged. |
| Commands.Command.Usage | command.go:34-47 | The header shows options iff either record exists and args iff the action takes `[]string`. A non-function action panics. |
| Commands.CommandRun | command.go:73-140 | A command run that calls an action calls the command's own action. |
| Commands.Command.Run | command.go:73-140 | The run ends as `CommandRun` says, and calls the action with the records `CommandRun` computes. A pointer Config, or none, that describes without a panic leaves the command holding its descriptors. |
| Commands.UnaskedCellKept | command.go:90-95 | A command whose action is called has a mapping section, or none. A cell of its record that the skip rules leave alone (flag seen, named by the section, or not promptable) reaches the action unchanged. |
| Commands.CommandPrecedence | command.go:80-95 | In a command run that calls its action, each cell of the command's record holds the flag given after the command name, else the value in the command's section of the document, else (for a field that is not promptable) its default. |
| Commands.CommandCall | command.go:90-139 | After the help check, a run that calls an action calls the command's own action. |
| Commands.Command.Proceed | command.go:90-139 | Prompting for the application's fields and then the command's, the shape checks, binding and the call, as `CommandCall` says. |
| Commands.HelpBeforePrompting | command.go:83-88 | With the help flag, the run neither waits for input nor calls the action. |
| Commands.CommandHelpUsage | command.go:74-88 | Once the record is checked, described and merged, the help flag prints the command's usage header and exits 0. A non-function action panics there instead. |
| Commands.CommandNilAction | command.go:90-98 | Once prompting is done, a command without an action panics on the action's type. |
| Commands.CommandShapeFatal | command.go:97-104 | Once prompting is done, an action that is not a function returning exactly one error ends the run with that check's message and exit status 1. |
| Commands.CommandUnmatchedFatal | command.go:106-132 | For a well-shaped action, a parameter nothing on offer matches ends the run with the command's parameter message and exit status 1. |
| Commands.CommandActionCalled | command.go:106-139 | For a well-shaped action whose parameters all match, the action is called with the matched arguments, and its error is the outcome's. |
| Commands.NonMapSectionFailsAtPrompt | command.go:90-95 | A non-mapping section under the command's name panics once the application's fields are prompted. |
| Commands.CommandActionContract | command.go:97-139 | The action is called only if it is a function returning one error. It gets the matched arguments, and its error decides exit status 1. |
| Apps.RegistrationError | app.go:132-142 | Registration fails iff some command has an empty name or description. The message is that of the first such command: an empty name is reported before an empty description. |
| Apps.FirstUnregistrable | app.go:132-145 | The first command with an empty name or description, every earlier one being valid; None iff all are valid. |
| Apps.LastNamed | app.go:143 | The last command with a given name, no later one having it; None iff no command has it. |
| Apps.Route | app.go:177-178 | A run routes iff there is a positional and some command is named by the first one. It routes to the last command of that name. |
| Apps.LaterCommandReplaces | app.go:132-145 | Of two commands with one name, the table keeps the later. |
| Apps.App.RegisterCommands | app.go:132-145 | The loop fails with the first invalid command's error. Otherwise each name maps to the last command registered under it. |
| Apps.App.TryConfig | app.go:37-54 | A decoded document is folded into the kept document. The whole kept document, with entries from earlier runs, is merged into the root record. Without a decoded document nothing changes. |
| Apps.App.VisibleCommands | app.go:63-69 | The loop finds a command that is not hidden iff one exists. |
| Apps.App.UsageLines | app.go:83-95 | The header ends with the help line unless help is disabled, then the version line unless version is disabled, then a blank line and the description block when there is a description. |
| Apps.RootHeaderRoundTrip | app.go:56-95 | The root header shows each optional part iff the shape asks for it. The parts are options, COMMAND or [COMMAND], args, the help line and the version line. Reading the header back recovers the shape. |
| Apps.App.Usage | app.go:56-95 | The header built with `+=` has the shape `UsageShape` gives. Options appear iff there is a Config. A command slot appears iff a command is visible, and it is required iff there is no action. Args appear iff the action takes `[]string`. The help and version lines appear unless disabled. |
| Apps.Setup | app.go:123-170 | A run that is ready holds descriptors for the root record and one cell per descriptor. Its document is the kept document with the newly decoded one folded in. |
| Apps.BadCommandIsFatal | app.go:132-142 | A command with an empty name or description ends every run with that registration message and exit status 1. |
| Apps.NonPointerConfigIsFatal | app.go:161-165 | With valid commands, a Config that is not a pointer ends every run with "Config must be a struct pointer" and exit status 1. |
| Apps.SetupPrecedence | app.go:167-170 | Each cell of the root record holds the flag given, else the value in the document (kept and newly decoded) of a supported kind, else its default. |
| Apps.CommandGetsItsArgs | app.go:170-180 | For `prog sync extra` with a `sync` command whose action takes `[]string`, the action gets the positionals after the command name, `["extra"]` in that case. |
| Apps.KeptEntryMerged | app.go:44-52 | An entry kept from an earlier run reaches the record when the newly decoded document lacks it and no flag overrides it. |
| Apps.App.Prepare | app.go:123-170 | It applies the name and version defaults, registration, the pointer check, descriptors, the merge of the kept document and the flags, as `Setup` says. A ready application holds the descriptors and the merged document; without a decoded document the kept one is unchanged. |
| Apps.RootDispatched | app.go:185-223 | A root run that calls an action calls the root action, with no command record. |
| Apps.App.RunRoot | app.go:185-223 | Usage, prompting, shape checks and binding for the root action, as `RootDispatched` says. |
| Apps.App.Dispatch | app.go:172-223 | Version, then routing to the command's run, then the root action, as `Dispatched` says. The application's document, descriptors and command table are unchanged. Commands other than the routed one keep their descriptors and records. |
| Apps.App.Run | app.go:123-224 | The run ends as `AppRun` says: the outcome, and the root and command records the action is called with. A ready application holds the descriptors and the document `Setup` computes, and its commands are registered; without a decoded document the kept one is unchanged. Commands other than the routed one keep their descriptors and records. |
| Apps.VersionBeforeRoute | app.go:172-183 | With version enabled and its flag given, the version is printed whatever the positionals. |
| Apps.RoutedCommandRuns | app.go:177-183 | When the first positional names a command, hidden or not, the whole run is that command's run, with the application's ready record. Only that command's action can be called. |
| Apps.RouteDispatch | app.go:177-183 | Past the version check, when the first positional names a command, any action called is that command's. |
| Apps.PromptBeforeShapeCheck | app.go:185-199 | Without a route, usage or help, missing input stops the run before the action's shape is checked. |
| Apps.RootUsage | app.go:185-188 | With no command routed to, a missing action or the help flag prints the root usage header and exits 0. A non-function action panics there instead. |
| Apps.RootShapeFatal | app.go:190-199 | Once prompting is done, an action that is not a function returning exactly one error ends the run with that check's message and exit status 1. |
| Apps.RootUnmatchedFatal | app.go:201-216 | For a well-shaped action, a parameter nothing on offer matches ends the run with the root's parameter message and exit status 1. |
| Apps.RootActionCalled | app.go:201-223 | For a well-shaped action whose parameters all match, the action is called with the matched arguments, and its error is the outcome's. |
| Apps.RootActionContract | app.go:192-223 | The root action is called only if it is a function returning one error. It gets the matched arguments, and its error decides exit status 1. |

## Left out

- ui.go (the spinner) and logger.go (terminal detection, colours, printing) are not part of this model. A fatal message is the `Fatal` outcome.
- The flag parser is a library outside this model:
  - its results are inputs (`Parse`);
  - parse errors, list-flag accumulation and flag registration are not modelled;
  - a boolean flag given with an explicit false value counts as given.
- The help check of a command looks at every flag given in either parse of the command line.
- File reading, `$HOME` expansion and YAML decoding are not modelled. A document that fails to decode is "no document", and its partial decoding into the kept map is not modelled. YAML nulls and floats are not modelled.
- `fmt.Scanln` tokenisation is not modelled: answers are already split into lines. Past the end of the input every read gives the blank line. A string or list question then settles. A bool, int or uint question never does, because Go's retry recursion asks again forever; the model ends that run as `AwaitingInput` instead.
- The rendering of the options and commands tables after the header line is not modelled: tabwriter alignment, and `%q`/`%v` rendering of defaults.
- Apps.App.Usage: the header is passed to `fmt.Fprintf` as a format string. A description containing `%` would be rendered differently; the model states the header as built.
- Commands.Command.Usage: the same holds for the command header, which is also passed to `fmt.Fprintf` as a format string.
- The default application name is the `program` parameter, which stands for `filepath.Base(os.Args[0])`.
- `App.Run` parses `os.Args`, not its `args` parameter. The model's `root` parse stands for that parse, and the parameter has no counterpart.
- Lower-casing is ASCII only: no Unicode case folding.
- Fields.FieldShort: it takes the tag's first character, where the source takes its first byte. They differ only for a non-ASCII first character.
- Reflection is replaced by datatypes: parameter types compared by equality, and struct members as a list of kinds and tags.
- Commands.Command.Run: the command table holds copies of the registered commands. The model runs the registered object itself, so the descriptors that Run records land on that object.
- Apps.App.Run: it requires every member of every record to be of the five supported kinds, because the flag lookup for another kind is undefined in the parser. It requires help to be enabled when a command is routed to, because the command's help lookup needs it. It requires no command to share the application's record.
- Apps.App.Run: the command's parse must follow the root parse. Its positionals are a strictly shorter tail of the root positionals (`FollowsRoute`), since the source re-parses what the root parse left over. A tail, not exactly the positionals after the command name, because a `--` or a late flag can change what the second parse keeps.
- Apps.App.Run: every given flag must have the kind of the member it names (`GivenFits`), as the flag parser guarantees.
- Apps.App.Run: the contents of the records are specified only when an action is called. The outcome is specified in every case.
- Commands.CommandHeaderRoundTrip: it requires that the command's name not start with "[OPTIONS]". Otherwise the header cannot be read back unambiguously.
- Panics (an unexported member, an empty `short` tag, a wrong-typed document value, a non-mapping command section, a nil or non-function command action) end the run as `Panicked`; recovery is not modelled.
