/**
 * How a run ends and how an action is called: the reflective shape checks on
 * an action, the parameter-matching loop that fills its argument list from
 * the values on offer, and the error message for a parameter nothing matches.
 */
module Dispatch {
  import opened Values
  import opened Fields

  /** The outcome of one parse of the command line by the flag parser: the flags given, with their values, and the positional tokens left over. */
  datatype Parse = Parse(given: map<string, Cell>, positionals: seq<string>)

  /**
   * The second parse runs over the first one's positionals after the command
   * name: the positionals it leaves are a suffix of those.
   */
  predicate FollowsRoute(root: Parse, rest: Parse) {
    |root.positionals| > 0 ==>
      && |rest.positionals| < |root.positionals|
      && rest.positionals == root.positionals[|root.positionals| - |rest.positionals|..]
  }

  /** The type of an action parameter, as reflection compares types. */
  datatype ParamType = StringSlice | Ptr(name: string) | AppPtr | Other(name: string)

  /** Whether one result type of an action implements `error`. */
  datatype ResultType = ErrorType | NonErrorType

  /**
   * A user action: a function (its parameter and result types, and the error
   * it returns when called, None for nil), or a value that is not a function.
   */
  datatype Action = Func(params: seq<ParamType>, results: seq<ResultType>, failure: Option<string>) | NotFunc

  /** A value the dispatcher can pass: the positionals, the application's record, the command's record, or the application itself. */
  datatype Arg = Positionals(tokens: seq<string>) | RootRecord | CommandRecord | AppHandle

  datatype Owner = RootAction | CommandAction(name: string)

  /**
   * How a run ends: printing the version or a usage header and exiting 0, a
   * fatal message (exit 1), a Go panic, waiting for more operator input
   * (a retry loop that never ends at end of input), or calling an action.
   */
  datatype Outcome =
    | PrintedVersion(version: string)
    | PrintedUsage(header: string)
    | Fatal(message: string)
    | Panicked(reason: string)
    | AwaitingInput
    | Invoked(owner: Owner, args: seq<Arg>, err: Option<string>)

  /** The run's outcome, and for an action call the root record and the command record (empty for the root action) it is called with. */
  datatype Trace = Exit(outcome: Outcome) | Call(outcome: Outcome, rootCells: seq<Cell>, ownCells: seq<Cell>)

  const NotAPointer := "Config must be a struct pointer"
  const NotAFunction := "Action must be a function"
  const NoErrorResult := "Action must return an error"
  const AcceptLead := "Action can only accept parameters of type "
  const AcceptPrefix := AcceptLead + "[]string"

  const FailedConversion := "interface conversion"
  const NilAction := "runtime error: invalid memory address or nil pointer dereference"
  const NonFuncArgs := "reflect: NumIn of non-func type"

  /** The process exit status of an outcome; None while it still waits for input. */
  function ExitStatus(o: Outcome): (r: Option<int>)
    ensures r.None? <==> o.AwaitingInput?
    ensures r == Some(0) <==> o.PrintedVersion? || o.PrintedUsage? || (o.Invoked? && o.err.None?)
    ensures r == Some(1) <==> o.Fatal? || (o.Invoked? && o.err.Some?)
  {
    match o
    case PrintedVersion(_) => Some(0)
    case PrintedUsage(_) => Some(0)
    case Fatal(_) => Some(1)
    case Panicked(_) => Some(2)
    case AwaitingInput => None
    case Invoked(_, _, err) => if err.None? then Some(0) else Some(1)
  }

  /** How reflection prints a parameter type. */
  function TypeString(t: ParamType): string {
    match t
    case StringSlice => "[]string"
    case Ptr(n) => "*" + n
    case AppPtr => "*clinic.App"
    case Other(n) => n
  }

  /** The type of a configuration record's pointer. */
  function RecordType(c: Config): ParamType {
    Ptr(c.typeName)
  }

  /** Whether an action takes the positional arguments; None is the panic of asking a non-function for its parameters. */
  function AcceptsArgs(action: Option<Action>): (r: Option<bool>)
    ensures r.None? <==> action == Some(NotFunc)
    ensures r == Some(true) <==> action.Some? && action.value.Func? && exists i :: 0 <= i < |action.value.params| && action.value.params[i] == StringSlice
  {
    match action
    case None => Some(false)
    case Some(NotFunc) => None
    case Some(Func(ps, _, _)) => Some(StringSlice in ps)
  }

  /** The shape checks made before an action is called: a function, with exactly one result, an error. */
  function ShapeError(a: Action): (r: Option<string>)
    ensures r.None? <==> a.Func? && a.results == [ErrorType]
    ensures r == Some(NotAFunction) <==> a.NotFunc?
  {
    if a.NotFunc? then Some(NotAFunction)
    else if |a.results| != 1 || a.results[0] != ErrorType then Some(NoErrorResult)
    else None
  }

  /** The index of the first value on offer whose type is exactly t. */
  function FirstOfType(offer: seq<(ParamType, Arg)>, t: ParamType): (r: Option<nat>)
    ensures r.None? <==> forall j :: 0 <= j < |offer| ==> offer[j].0 != t
    ensures r.Some? ==> r.value < |offer| && offer[r.value].0 == t
    ensures r.Some? ==> forall k :: 0 <= k < r.value ==> offer[k].0 != t
  {
    if offer == [] then None
    else if offer[0].0 == t then Some(0)
    else match FirstOfType(offer[1..], t)
         case None => None
         case Some(j) => Some(j + 1)
  }

  /** The value passed for a parameter of type t: the first one on offer with that type, as the if-else chain tries them. */
  function Supply(offer: seq<(ParamType, Arg)>, t: ParamType): Option<Arg> {
    match FirstOfType(offer, t)
    case None => None
    case Some(j) => Some(offer[j].1)
  }

  /** The whole argument list, or None when some parameter matches nothing on offer. */
  function BoundArgs(params: seq<ParamType>, offer: seq<(ParamType, Arg)>): (r: Option<seq<Arg>>)
    ensures r.None? <==> exists i :: 0 <= i < |params| && forall j :: 0 <= j < |offer| ==> offer[j].0 != params[i]
    ensures r.Some? ==> |r.value| == |params|
    ensures r.Some? ==> forall i :: 0 <= i < |params| ==> Supply(offer, params[i]) == Some(r.value[i])
  {
    if forall i :: 0 <= i < |params| ==> Supply(offer, params[i]).Some?
    then Some(seq(|params|, i requires 0 <= i < |params| => Supply(offer, params[i]).value))
    else None
  }

  /** The loop that builds the argument list, one parameter at a time, stopping at the first parameter nothing matches. */
  method BindArgs(params: seq<ParamType>, offer: seq<(ParamType, Arg)>) returns (args: seq<Arg>, ok: bool)
    ensures ok <==> BoundArgs(params, offer).Some?
    ensures ok ==> args == BoundArgs(params, offer).value
  {
    args := [];
    for i := 0 to |params|
      invariant |args| == i
      invariant forall k :: 0 <= k < i ==> Supply(offer, params[k]) == Some(args[k])
    {
      var found := Supply(offer, params[i]);
      if found.None? {
        return args, false;
      }
      args := args + [found.value];
    }
    ok := true;
    assert args == seq(|params|, i requires 0 <= i < |params| => Supply(offer, params[i]).value);
  }

  /** The values on offer to the root action, in the order they are tried. */
  function RootOffer(config: Option<Config>, positionals: seq<string>): (r: seq<(ParamType, Arg)>)
    ensures Supply(r, StringSlice) == Some(Positionals(positionals))
    ensures Supply(r, AppPtr) == Some(AppHandle)
    ensures config.Some? ==> Supply(r, RecordType(config.value)) == Some(RootRecord)
  {
    var offer := [(StringSlice, Positionals(positionals))]
                 + (if config.Some? then [(RecordType(config.value), RootRecord)] else [])
                 + [(AppPtr, AppHandle)];
    assert offer[0] == (StringSlice, Positionals(positionals)) && offer[|offer| - 1] == (AppPtr, AppHandle);
    assert config.Some? ==> |offer| == 3 && offer[1] == (RecordType(config.value), RootRecord);
    assert config.None? ==> |offer| == 2;
    offer
  }

  /** The values on offer to a command's action: the command's record is tried before the application's. */
  function CommandOffer(own: Option<Config>, root: Option<Config>, positionals: seq<string>): (r: seq<(ParamType, Arg)>)
    ensures Supply(r, StringSlice) == Some(Positionals(positionals))
    ensures Supply(r, AppPtr) == Some(AppHandle)
    ensures own.Some? ==> Supply(r, RecordType(own.value)) == Some(CommandRecord)
    ensures root.Some? && (own.None? || own.value.typeName != root.value.typeName) ==>
              Supply(r, RecordType(root.value)) == Some(RootRecord)
  {
    var offer := [(StringSlice, Positionals(positionals))]
                 + (if own.Some? then [(RecordType(own.value), CommandRecord)] else [])
                 + (if root.Some? then [(RecordType(root.value), RootRecord)] else [])
                 + [(AppPtr, AppHandle)];
    assert offer[0] == (StringSlice, Positionals(positionals)) && offer[|offer| - 1] == (AppPtr, AppHandle);
    assert own.Some? ==> offer[1] == (RecordType(own.value), CommandRecord);
    assert root.Some? ==> offer[|offer| - 2] == (RecordType(root.value), RootRecord);
    assert |offer| == 2 + (if own.Some? then 1 else 0) + (if root.Some? then 1 else 0);
    offer
  }

  /** When a command's record and the application's record have the same type, the command's wins. */
  lemma CommandRecordFirst(own: Config, root: Config, positionals: seq<string>)
    requires own.typeName == root.typeName
    ensures Supply(CommandOffer(Some(own), Some(root), positionals), RecordType(root)) == Some(CommandRecord)
  {
    var offer := CommandOffer(Some(own), Some(root), positionals);
    assert offer[0].0 != RecordType(root) && offer[1].0 == RecordType(root);
    assert FirstOfType(offer, RecordType(root)) == Some(1);
  }

  /** A list of names in English: "a", "a or b", "a, b or c". */
  function EnglishList(names: seq<string>): string
    requires |names| >= 1
  {
    if |names| == 1 then names[0]
    else if |names| == 2 then names[0] + " or " + names[1]
    else names[0] + ", " + EnglishList(names[1..])
  }

  function TypeNames(ts: seq<ParamType>): (r: seq<string>)
    ensures |r| == |ts| && forall i :: 0 <= i < |ts| ==> r[i] == TypeString(ts[i])
  {
    if ts == [] then [] else [TypeString(ts[0])] + TypeNames(ts[1..])
  }

  /** The message for a root action parameter nothing matches. */
  function RootParamError(config: Option<Config>): (r: string)
    ensures HasPrefix(r, AcceptPrefix)
    ensures HasSuffix(r, TypeString(Last(RootAccepts(config))))
  {
    match config
    case None => AcceptPrefix + " or " + TypeString(AppPtr)
    case Some(c) => AcceptPrefix + ", " + TypeString(AppPtr) + " or " + TypeString(RecordType(c))
  }

  /** The message for a command action parameter nothing matches. */
  function CommandParamError(own: Option<Config>, root: Option<Config>): (r: string)
    ensures HasPrefix(r, AcceptPrefix)
    ensures HasSuffix(r, TypeString(Last(CommandAccepts(own, root))))
  {
    var msg := AcceptPrefix;
    if own.Some? then
      if root.Some? then msg + ", " + TypeString(AppPtr) + ", " + TypeString(RecordType(own.value)) + " or " + TypeString(RecordType(root.value))
      else msg + ", " + TypeString(AppPtr) + " or " + TypeString(RecordType(own.value))
    else if root.Some? then msg + ", " + TypeString(AppPtr) + " or " + TypeString(RecordType(root.value))
    else msg + " or " + TypeString(AppPtr)
  }

  /** The types the root action may take, in the order its message lists them. */
  function RootAccepts(config: Option<Config>): seq<ParamType> {
    [StringSlice, AppPtr] + (if config.Some? then [RecordType(config.value)] else [])
  }

  /** The types a command's action may take, in the order its message lists them. */
  function CommandAccepts(own: Option<Config>, root: Option<Config>): seq<ParamType> {
    [StringSlice, AppPtr]
    + (if own.Some? then [RecordType(own.value)] else [])
    + (if root.Some? then [RecordType(root.value)] else [])
  }

  lemma EnglishTwo(a: string, b: string)
    ensures EnglishList([a, b]) == a + (" or " + b)
  {
    Regroup(a, " or ", b);
  }

  lemma EnglishThree(a: string, b: string, c: string)
    ensures EnglishList([a, b, c]) == a + (", " + (b + (" or " + c)))
  {
    assert [a, b, c][1..] == [b, c];
    EnglishTwo(b, c);
    Regroup(a, ", ", b + (" or " + c));
  }

  lemma EnglishFour(a: string, b: string, c: string, d: string)
    ensures EnglishList([a, b, c, d]) == a + (", " + (b + (", " + (c + (" or " + d)))))
  {
    assert [a, b, c, d][1..] == [b, c, d];
    EnglishThree(b, c, d);
    Regroup(a, ", ", b + (", " + (c + (" or " + d))));
  }

  /** "…[]string or *clinic.App" */
  lemma MessageOfTwo(a: string)
    ensures AcceptPrefix + " or " + a == AcceptLead + EnglishList(["[]string", a])
  {
    EnglishTwo("[]string", a);
    Regroup(AcceptLead, "[]string", " or " + a);
    Regroup(AcceptPrefix, " or ", a);
  }

  /** "…[]string, *clinic.App or T" */
  lemma MessageOfThree(a: string, b: string)
    ensures AcceptPrefix + ", " + a + " or " + b == AcceptLead + EnglishList(["[]string", a, b])
  {
    EnglishThree("[]string", a, b);
    Regroup(AcceptPrefix + ", " + a, " or ", b);
    Regroup(AcceptPrefix + ", ", a, " or " + b);
    Regroup(AcceptPrefix, ", ", a + (" or " + b));
    Regroup(AcceptLead, "[]string", ", " + (a + (" or " + b)));
  }

  /** "…[]string, *clinic.App, T or U" */
  lemma MessageOfFour(a: string, b: string, c: string)
    ensures AcceptPrefix + ", " + a + ", " + b + " or " + c == AcceptLead + EnglishList(["[]string", a, b, c])
  {
    EnglishFour("[]string", a, b, c);
    var tail := " or " + c;
    Regroup(AcceptPrefix + ", " + a + ", " + b, " or ", c);
    Regroup(AcceptPrefix + ", " + a + ", ", b, tail);
    Regroup(AcceptPrefix + ", " + a, ", ", b + tail);
    Regroup(AcceptPrefix + ", ", a, ", " + (b + tail));
    Regroup(AcceptPrefix, ", ", a + (", " + (b + tail)));
    Regroup(AcceptLead, "[]string", ", " + (a + (", " + (b + tail))));
  }

  /** The root message names, in English, exactly the types on offer to the root action. */
  lemma {:induction false} RootParamErrorNamesAccepted(config: Option<Config>)
    ensures RootParamError(config) == AcceptLead + EnglishList(TypeNames(RootAccepts(config)))
  {
    var names := TypeNames(RootAccepts(config));
    if config.Some? {
      var t := TypeString(RecordType(config.value));
      assert names == ["[]string", "*clinic.App", t];
      MessageOfThree("*clinic.App", t);
    } else {
      assert names == ["[]string", "*clinic.App"];
      MessageOfTwo("*clinic.App");
    }
  }

  /** The command message names, in English, exactly the types a command's action may take. */
  lemma {:induction false} CommandParamErrorNamesAccepted(own: Option<Config>, root: Option<Config>)
    ensures CommandParamError(own, root) == AcceptLead + EnglishList(TypeNames(CommandAccepts(own, root)))
  {
    var names := TypeNames(CommandAccepts(own, root));
    if own.Some? && root.Some? {
      var a, b := TypeString(RecordType(own.value)), TypeString(RecordType(root.value));
      assert names == ["[]string", "*clinic.App", a, b];
      MessageOfFour("*clinic.App", a, b);
    } else if own.Some? {
      var a := TypeString(RecordType(own.value));
      assert names == ["[]string", "*clinic.App", a];
      MessageOfThree("*clinic.App", a);
    } else if root.Some? {
      var b := TypeString(RecordType(root.value));
      assert names == ["[]string", "*clinic.App", b];
      MessageOfThree("*clinic.App", b);
    } else {
      assert names == ["[]string", "*clinic.App"];
      MessageOfTwo("*clinic.App");
    }
  }

  /** The root action may take a parameter exactly when its type is one of RootAccepts. */
  lemma {:induction false} RootOfferAccepts(config: Option<Config>, positionals: seq<string>, t: ParamType)
    ensures Supply(RootOffer(config, positionals), t).Some? <==> t in RootAccepts(config)
  {
    var accepted := RootAccepts(config);
    var offer := RootOffer(config, positionals);
    if t in accepted {
      var j :| 0 <= j < |accepted| && accepted[j] == t;
      if j == 0 {
        assert offer[0].0 == t;
      } else if j == 1 {
        assert offer[|offer| - 1].0 == t;
      } else {
        assert offer[1].0 == t;
      }
    }
  }

  /** A command's action may take a parameter exactly when its type is one of CommandAccepts. */
  lemma {:induction false} CommandOfferAccepts(own: Option<Config>, root: Option<Config>, positionals: seq<string>, t: ParamType)
    ensures Supply(CommandOffer(own, root, positionals), t).Some? <==> t in CommandAccepts(own, root)
  {
    var accepted := CommandAccepts(own, root);
    var offer := CommandOffer(own, root, positionals);
    if t in accepted {
      var j :| 0 <= j < |accepted| && accepted[j] == t;
      if j == 0 {
        assert offer[0].0 == t;
      } else if j == 1 {
        assert offer[|offer| - 1].0 == t;
      } else if j == 2 && own.Some? {
        assert offer[1].0 == t;
      } else {
        assert offer[|offer| - 2].0 == t;
      }
    }
  }
}
