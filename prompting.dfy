/**
 * Interactive fallback for missing values (utils.go): the answer parsers, the
 * retry-until-accepted policy, the blank-terminated list, and the pass over a
 * record that asks only for fields no flag and no configuration entry gave.
 *
 * The operator's answers are a finite sequence of lines; reading past its end
 * yields the blank line, as a scan of standard input at end of file does.
 */
module Prompting {
  import opened Values
  import opened Fields

  // ---------------------------------------------------------------------------
  // Single answers

  const Truthy: set<string> := {"yes", "y", "true", "t"}
  const Falsy: set<string> := {"no", "n", "false", "f"}

  /** One answer to a yes/no question, or None when it must be asked again. */
  function ParseBoolAnswer(s: string): (r: Option<bool>)
    ensures r == Some(true) <==> Lower(s) in Truthy
    ensures r == Some(false) <==> Lower(s) in Falsy
  {
    var l := Lower(s);
    if l in Truthy then Some(true) else if l in Falsy then Some(false) else None
  }

  lemma TruthyAnswers()
    ensures ParseBoolAnswer("yes") == Some(true) && ParseBoolAnswer("Yes") == Some(true)
    ensures ParseBoolAnswer("y") == Some(true) && ParseBoolAnswer("true") == Some(true)
    ensures ParseBoolAnswer("t") == Some(true) && ParseBoolAnswer("TRUE") == Some(true)
  {
    assert Lower("yes") == "yes";
    assert Lower("Yes") == "yes";
    assert Lower("y") == "y";
    assert Lower("true") == "true";
    assert Lower("t") == "t";
    assert Lower("TRUE") == "true";
  }

  lemma FalsyAnswers()
    ensures ParseBoolAnswer("no") == Some(false) && ParseBoolAnswer("n") == Some(false)
    ensures ParseBoolAnswer("false") == Some(false) && ParseBoolAnswer("f") == Some(false)
  {
    assert Lower("no") == "no";
    assert Lower("n") == "n";
    assert Lower("false") == "false";
    assert Lower("f") == "f";
  }

  lemma RejectedAnswers()
    ensures ParseBoolAnswer("maybe") == None && ParseBoolAnswer("") == None
  {
    assert Lower("maybe") == "maybe";
  }

  predicate IsDigit(c: char) {
    '0' <= c <= '9'
  }

  predicate AllDigits(s: string) {
    forall i :: 0 <= i < |s| ==> IsDigit(s[i])
  }

  /** The number a string of decimal digits denotes. */
  function DecimalValue(s: string): nat
    requires AllDigits(s)
  {
    if s == [] then 0 else DecimalValue(s[..|s| - 1]) * 10 + (s[|s| - 1] as int - '0' as int)
  }

  /** strconv.ParseUint(s, 10, 0) with 64-bit uint: digits only, no sign, at most 2^64 - 1. */
  function ParseUint(s: string): (r: Option<nat>)
    ensures r.Some? ==> r.value <= MaxUint64
  {
    if s != [] && AllDigits(s) && DecimalValue(s) <= MaxUint64 then Some(DecimalValue(s)) else None
  }

  /** strconv.ParseInt(s, 10, 0) with 64-bit int: an optional sign, then digits, within range. */
  function ParseInt(s: string): (r: Option<int>)
    ensures r.Some? ==> MinInt64 <= r.value <= MaxInt64
  {
    if s == [] then None
    else
      var digits := if s[0] == '+' || s[0] == '-' then s[1..] else s;
      if digits == [] || !AllDigits(digits) then None
      else
        var n: int := DecimalValue(digits);
        if s[0] == '-' then (if n <= -MinInt64 then Some(-n) else None)
        else if n <= MaxInt64 then Some(n)
        else None
  }

  function DigitChar(d: nat): char
    requires d < 10
  {
    ('0' as int + d) as char
  }

  /** The base-10 spelling of n, without sign or leading zeros. */
  function ShowNat(n: nat): string {
    if n < 10 then [DigitChar(n)] else ShowNat(n / 10) + [DigitChar(n % 10)]
  }

  function ShowInt(i: int): string {
    if i < 0 then "-" + ShowNat(-i) else ShowNat(i)
  }

  lemma {:induction false} ShowNatDecimal(n: nat)
    ensures ShowNat(n) != [] && AllDigits(ShowNat(n)) && DecimalValue(ShowNat(n)) == n
  {
    if n >= 10 {
      ShowNatDecimal(n / 10);
      var s := ShowNat(n);
      assert s[..|s| - 1] == ShowNat(n / 10);
    }
  }

  /** Every uint the operator types in its usual spelling is read back exactly. */
  lemma ParseUintShowNat(n: nat)
    requires n <= MaxUint64
    ensures ParseUint(ShowNat(n)) == Some(n)
  {
    ShowNatDecimal(n);
  }

  /** A number past the uint range is re-asked, not wrapped. */
  lemma ParseUintOutOfRange(n: nat)
    requires n > MaxUint64
    ensures ParseUint(ShowNat(n)) == None
  {
    ShowNatDecimal(n);
  }

  /** Every int in range, with or without a minus sign, is read back exactly. */
  lemma ParseIntShowInt(i: int)
    requires MinInt64 <= i <= MaxInt64
    ensures ParseInt(ShowInt(i)) == Some(i)
  {
    if i < 0 {
      ShowNatDecimal(-i);
      assert ("-" + ShowNat(-i))[1..] == ShowNat(-i);
    } else {
      ShowNatDecimal(i);
    }
  }

  /** ParseInt takes a leading plus sign; ParseUint takes no sign at all. */
  lemma SignedAnswers(n: nat, s: string)
    requires n <= MaxInt64
    ensures ParseInt("+" + ShowNat(n)) == Some(n)
    ensures ParseUint("+" + s) == None && ParseUint("-" + s) == None
  {
    ShowNatDecimal(n);
    assert ("+" + ShowNat(n))[1..] == ShowNat(n);
    assert !IsDigit(("+" + s)[0]) && !IsDigit(("-" + s)[0]);
  }

  // ---------------------------------------------------------------------------
  // Retry and lists

  /**
   * The retry policy of promptBool, promptInt and promptUint: the first answer
   * `parse` accepts, with its position. Rejected answers are discarded; None
   * means no answer is ever accepted, so the question is asked forever.
   */
  function FirstAccepted<T>(parse: string -> Option<T>, answers: seq<string>): (r: Option<(T, nat)>)
    ensures r.None? <==> forall j :: 0 <= j < |answers| ==> parse(answers[j]).None?
    ensures r.Some? ==> r.value.1 < |answers| && parse(answers[r.value.1]) == Some(r.value.0)
    ensures r.Some? ==> forall j :: 0 <= j < r.value.1 ==> parse(answers[j]).None?
    decreases |answers|
  {
    if answers == [] then None
    else
      match parse(answers[0])
      case Some(v) => Some((v, 0))
      case None =>
        match FirstAccepted(parse, answers[1..])
        case None => None
        case Some((v, k)) => Some((v, k + 1))
  }

  /** "maybe" is never taken as a default: the answer after it decides. */
  lemma MaybeIsAskedAgain(rest: seq<string>)
    ensures FirstAccepted(ParseBoolAnswer, ["maybe"] + rest) ==
            match FirstAccepted(ParseBoolAnswer, rest)
            case None => None
            case Some((b, k)) => Some((b, k + 1))
  {
    RejectedAnswers();
    assert (["maybe"] + rest)[1..] == rest;
  }

  /**
   * promptStringSlice: the answers up to the first blank one, which ends the
   * list and is not part of it, and how many answers that reads.
   */
  function Collected(answers: seq<string>): (r: (seq<string>, nat))
    ensures |r.0| <= |answers| && r.0 == answers[..|r.0|]
    ensures forall i :: 0 <= i < |r.0| ==> r.0[i] != ""
    ensures |r.0| < |answers| ==> answers[|r.0|] == ""
    ensures r.1 == if |r.0| < |answers| then |r.0| + 1 else |answers|
  {
    if answers == [] then ([], 0)
    else if answers[0] == "" then ([], 1)
    else
      var (items, used) := Collected(answers[1..]);
      ([answers[0]] + items, used + 1)
  }

  lemma ListAnswers(a: string, b: string, c: string, rest: seq<string>)
    requires a != "" && b != "" && c != ""
    ensures Collected([a, b, c, ""] + rest) == ([a, b, c], 4)
    ensures Collected([""] + rest) == ([], 1)
  {
    var xs := [a, b, c, ""] + rest;
    assert xs[0] == a && xs[1] == b && xs[2] == c && xs[3] == "";
    var r := Collected(xs);
    assert |r.0| == 3;
    assert xs[..3] == [a, b, c];
    var ys := [""] + rest;
    assert ys[0] == "";
  }

  method PromptStringSlice(answers: seq<string>) returns (items: seq<string>, used: nat)
    ensures (items, used) == Collected(answers)
  {
    items := [];
    var i := 0;
    while i < |answers| && answers[i] != ""
      invariant i <= |answers|
      invariant items == answers[..i]
      invariant forall j :: 0 <= j < i ==> answers[j] != ""
    {
      items := items + [answers[i]];
      i := i + 1;
    }
    used := if i < |answers| then i + 1 else i;
    var spec := Collected(answers);
    assert |spec.0| == i;
  }

  // ---------------------------------------------------------------------------
  // Asking for missing fields

  /** The line one question reads: the next answer, or the blank line past the end. */
  function ReadLine(answers: seq<string>): (string, nat) {
    if answers == [] then ("", 0) else (answers[0], 1)
  }

  /** One question for a field of kind k: the cell it leaves and how many answers it reads. */
  function Ask(k: Kind, c: Cell, answers: seq<string>): (r: Option<(Cell, nat)>)
    ensures r.Some? ==> r.value.1 <= |answers|
    ensures r.Some? && Supported(k) ==> KindOf(r.value.0) == k
    ensures r.None? ==> k == BoolKind || k == IntKind || k == UintKind
  {
    match k
    case BoolKind =>
      (match FirstAccepted(ParseBoolAnswer, answers)
       case None => None
       case Some((b, i)) => Some((BoolCell(b), i + 1)))
    case StringKind =>
      var (line, n) := ReadLine(answers);
      Some((StringCell(line), n))
    case IntKind =>
      (match FirstAccepted(ParseInt, answers)
       case None => None
       case Some((v, i)) => Some((IntCell(v), i + 1)))
    case UintKind =>
      (match FirstAccepted(ParseUint, answers)
       case None => None
       case Some((v, i)) => Some((UintCell(v), i + 1)))
    case StringListKind =>
      var (items, n) := Collected(answers);
      Some((StringListCell(items), n))
    case OtherKind(_) => Some((c, 0))
  }

  /** The three skip rules: the flag was seen, the configuration segment names it, or it is not promptable. */
  predicate Asks(f: Field, keys: set<string>, seen: set<string>) {
    f.long !in seen && f.long !in keys && f.prompt
  }

  /**
   * promptForMissing from field i on: the cells it leaves and the answers not
   * yet read, or None when some question is never answered acceptably.
   */
  function PromptFrom(fields: seq<Field>, keys: set<string>, seen: set<string>, cells: seq<Cell>, answers: seq<string>, i: nat)
    : (r: Option<(seq<Cell>, seq<string>)>)
    requires i <= |fields| == |cells|
    ensures r.Some? ==> |r.value.0| == |cells|
    decreases |fields| - i
  {
    if i == |fields| then Some((cells, answers))
    else if !Asks(fields[i], keys, seen) then PromptFrom(fields, keys, seen, cells, answers, i + 1)
    else
      match Ask(fields[i].kind, cells[i], answers)
      case None => None
      case Some((c, n)) => PromptFrom(fields, keys, seen, cells[i := c], answers[n..], i + 1)
  }

  /**
   * Prompting writes only the fields the three skip rules let through: every
   * other cell, and every cell before position i, keeps its value; a field it
   * asks for receives a value of its own kind.
   */
  lemma {:induction false} PromptFromFrame(fields: seq<Field>, keys: set<string>, seen: set<string>, cells: seq<Cell>, answers: seq<string>, i: nat)
    requires i <= |fields| == |cells|
    requires PromptFrom(fields, keys, seen, cells, answers, i).Some?
    ensures forall j :: 0 <= j < |cells| && (j < i || !Asks(fields[j], keys, seen)) ==>
              PromptFrom(fields, keys, seen, cells, answers, i).value.0[j] == cells[j]
    ensures forall j :: i <= j < |cells| && Asks(fields[j], keys, seen) && Supported(fields[j].kind) ==>
              KindOf(PromptFrom(fields, keys, seen, cells, answers, i).value.0[j]) == fields[j].kind
    decreases |fields| - i
  {
    if i < |fields| {
      if !Asks(fields[i], keys, seen) {
        PromptFromFrame(fields, keys, seen, cells, answers, i + 1);
      } else {
        var (c, n) := Ask(fields[i].kind, cells[i], answers).value;
        PromptFromFrame(fields, keys, seen, cells[i := c], answers[n..], i + 1);
      }
    }
  }

  /** Promptable fields named by the configuration segment, or given as flags, are never asked. */
  lemma {:induction false} SkippedFieldsReadNothing(fields: seq<Field>, keys: set<string>, seen: set<string>, cells: seq<Cell>, answers: seq<string>, i: nat)
    requires i <= |fields| == |cells|
    requires forall j :: i <= j < |fields| ==> !Asks(fields[j], keys, seen)
    ensures PromptFrom(fields, keys, seen, cells, answers, i) == Some((cells, answers))
    decreases |fields| - i
  {
    if i < |fields| {
      SkippedFieldsReadNothing(fields, keys, seen, cells, answers, i + 1);
    }
  }

  /**
   * The first string field asked for takes the next answer line as it is:
   * every field before it is skipped, so no earlier question reads a line.
   */
  lemma {:induction false} FirstAskedStringTakesNextLine(fields: seq<Field>, keys: set<string>, seen: set<string>, cells: seq<Cell>,
                                                         answers: seq<string>, i: nat, k: nat)
    requires i <= k < |fields| == |cells| && |answers| > 0
    requires forall j :: i <= j < k ==> !Asks(fields[j], keys, seen)
    requires fields[k].kind == StringKind && Asks(fields[k], keys, seen)
    requires PromptFrom(fields, keys, seen, cells, answers, i).Some?
    ensures PromptFrom(fields, keys, seen, cells, answers, i).value.0[k] == StringCell(answers[0])
    decreases k - i
  {
    if i < k {
      FirstAskedStringTakesNextLine(fields, keys, seen, cells, answers, i + 1, k);
    } else {
      var (c, n) := Ask(fields[k].kind, cells[k], answers).value;
      assert c == StringCell(answers[0]);
      PromptFromFrame(fields, keys, seen, cells[k := c], answers[n..], k + 1);
    }
  }

  /** A lone promptable string field answered "alice" holds "alice", and the remaining lines stay unread. */
  lemma StringAnswerKept(f: Field, c: Cell, more: seq<string>)
    requires f.kind == StringKind && f.prompt
    ensures PromptFrom([f], {}, {}, [c], ["alice"] + more, 0) == Some(([StringCell("alice")], more))
  {
    var answers := ["alice"] + more;
    assert Asks(f, {}, {});
    assert Ask(f.kind, c, answers) == Some((StringCell("alice"), 1));
    assert answers[1..] == more;
    assert [c][0 := StringCell("alice")] == [StringCell("alice")];
  }

  /** promptForMissing: asks, in field order, for each field no skip rule excludes, and writes its cell. */
  method PromptForMissing(fields: seq<Field>, store: array<Cell>, keys: set<string>, seen: set<string>, answers: seq<string>)
    returns (answered: bool, rest: seq<string>)
    requires Binds(fields, store) && AllSupported(fields)
    modifies store
    ensures answered <==> PromptFrom(fields, keys, seen, old(store[..]), answers, 0).Some?
    ensures answered ==> (store[..], rest) == PromptFrom(fields, keys, seen, old(store[..]), answers, 0).value
    ensures forall j :: 0 <= j < store.Length && !Asks(fields[j], keys, seen) ==> store[j] == old(store[j])
  {
    rest := answers;
    for i := 0 to |fields|
      invariant PromptFrom(fields, keys, seen, store[..], rest, i) == PromptFrom(fields, keys, seen, old(store[..]), answers, 0)
      invariant forall j :: 0 <= j < store.Length && !Asks(fields[j], keys, seen) ==> store[j] == old(store[j])
    {
      var f := fields[i];
      if f.long in seen || f.long in keys || !f.prompt {
        continue;
      }
      ghost var before := store[..];
      var cell: Cell;
      var used: nat;
      match f.kind {
        case BoolKind =>
          var b := FirstAccepted(ParseBoolAnswer, rest);
          if b.None? {
            return false, rest;
          }
          cell, used := BoolCell(b.value.0), b.value.1 + 1;
        case StringKind =>
          var (line, n) := ReadLine(rest);
          cell, used := StringCell(line), n;
        case IntKind =>
          var v := FirstAccepted(ParseInt, rest);
          if v.None? {
            return false, rest;
          }
          cell, used := IntCell(v.value.0), v.value.1 + 1;
        case UintKind =>
          var v := FirstAccepted(ParseUint, rest);
          if v.None? {
            return false, rest;
          }
          cell, used := UintCell(v.value.0), v.value.1 + 1;
        case StringListKind =>
          var items, n := PromptStringSlice(rest);
          cell, used := StringListCell(items), n;
      }
      assert Ask(f.kind, before[i], rest) == Some((cell, used));
      f.store[f.slot] := cell;
      assert store[..] == before[i := cell];
      rest := rest[used..];
    }
    answered := true;
  }
}
