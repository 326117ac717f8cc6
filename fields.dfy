/**
 * The field model: configuration members and their tags become field
 * descriptors (utils.go), a descriptor writes decoded values into its cell
 * (value.go), and the option table lists one row per descriptor.
 */
module Fields {
  import opened Values

  /** One declared member of a configuration struct: its name, whether it is exported, its tags and its type. */
  datatype Member = Member(name: string, exported: bool, tags: map<string, string>, kind: Kind)

  /**
   * The value held in an App's or a Command's Config: a pointer (or not) to a
   * struct of type `typeName` whose member i is stored in cells[i].
   */
  datatype Config = Config(typeName: string, isPointer: bool, members: seq<Member>, cells: array<Cell>) {
    predicate Shaped() {
      cells.Length == |members|
    }

    /** Every member is of one of the five kinds the flag set can register. */
    predicate Bindable() {
      forall i :: 0 <= i < |members| ==> Supported(members[i].kind)
    }
  }

  /** A field descriptor; (store, slot) is its handle on the record cell it writes. */
  datatype Field = Field(long: string, short: char, usage: string, prompt: bool, kind: Kind, store: array<Cell>, slot: nat)

  /** The rune 0 stands for "no short option". */
  const NoShort: char := 0 as char

  /** Descriptor i writes cell i of `store`, and of no other record. */
  predicate Binds(fields: seq<Field>, store: array<Cell>) {
    && |fields| == store.Length
    && forall i :: 0 <= i < |fields| ==> fields[i].store == store && fields[i].slot == i
  }

  predicate AllSupported(fields: seq<Field>) {
    forall i :: 0 <= i < |fields| ==> Supported(fields[i].kind)
  }

  /** The descriptors are those of the Config's record: field i writes cell i, and all kinds are supported. */
  predicate Describes(fields: seq<Field>, config: Option<Config>) {
    && (config.Some? ==> Binds(fields, config.value.cells) && AllSupported(fields))
    && (config.None? ==> fields == [])
  }

  /** An absent Config, or one whose record matches its members, all of supported kinds. */
  predicate Usable(config: Option<Config>) {
    config.Some? ==> config.value.Shaped() && config.value.Bindable()
  }

  /** The number of members of a Config's struct; none without a Config. */
  function Width(config: Option<Config>): nat {
    if config.Some? then |config.value.members| else 0
  }

  /** The record a Config points to, as a frame. */
  function Records(config: Option<Config>): set<array<Cell>> {
    if config.Some? then {config.value.cells} else {}
  }

  /** The current contents of that record; without a Config there are no cells. */
  function Contents(config: Option<Config>): seq<Cell>
    reads Records(config)
  {
    if config.Some? then config.value.cells[..] else []
  }

  // ---------------------------------------------------------------------------
  // Tags

  function FieldLong(m: Member): (r: string)
    ensures "long" in m.tags ==> r == m.tags["long"]
    ensures "long" !in m.tags ==> r == Lower(m.name)
  {
    if "long" in m.tags then m.tags["long"] else Lower(m.name)
  }

  /** None stands for the index-out-of-range panic that an empty `short` tag causes. */
  function FieldShort(m: Member): (r: Option<char>)
    ensures r.None? <==> "short" in m.tags && m.tags["short"] == ""
    ensures "short" !in m.tags ==> r == Some(NoShort)
    ensures "short" in m.tags && r.Some? ==> r.value == m.tags["short"][0]
  {
    if "short" !in m.tags then Some(NoShort)
    else if m.tags["short"] == "" then None
    else Some(m.tags["short"][0])
  }

  function FieldUsage(m: Member): (r: string)
    ensures "usage" in m.tags ==> r == m.tags["usage"]
    ensures "usage" !in m.tags ==> r == m.name
  {
    if "usage" in m.tags then m.tags["usage"] else m.name
  }

  function PromptAllowed(m: Member): (r: bool)
    ensures r ==> "prompt" in m.tags && |m.tags["prompt"]| == 3
    ensures r <==> "prompt" in m.tags && Lower(m.tags["prompt"]) == "yes"
  {
    "prompt" in m.tags && Lower(m.tags["prompt"]) == "yes"
  }

  /** The panic of taking an unexported member's address as an interface. */
  const UnexportedMember := "reflect.Value.Interface: cannot return value obtained from unexported field or method"

  /** The panic of reading the first byte of an empty `short` tag. */
  const EmptyShortTag := "runtime error: index out of range [0] with length 0"

  /**
   * The panic describing member m raises, if any. The descriptor takes the
   * member's address before it reads the tags, so an unexported member fails
   * first.
   */
  function DescribePanic(m: Member): Option<string> {
    if !m.exported then Some(UnexportedMember)
    else if "short" in m.tags && m.tags["short"] == "" then Some(EmptyShortTag)
    else None
  }

  /** The descriptor of member i of a record stored in `store`, or None for the panic. */
  function Describe(m: Member, store: array<Cell>, i: nat): (r: Option<Field>)
    ensures r.None? <==> DescribePanic(m).Some?
  {
    if !m.exported then None
    else
      match FieldShort(m)
      case None => None
      case Some(short) => Some(Field(FieldLong(m), short, FieldUsage(m), PromptAllowed(m), m.kind, store, i))
  }

  lemma UntaggedDefaults(m: Member, store: array<Cell>, i: nat)
    requires m.exported && m.tags == map[]
    ensures Describe(m, store, i) == Some(Field(Lower(m.name), NoShort, m.name, false, m.kind, store, i))
  {
  }

  lemma TagsOverride(m: Member, store: array<Cell>, i: nat, f: Field)
    requires Describe(m, store, i) == Some(f)
    ensures m.exported
    ensures "long" in m.tags ==> f.long == m.tags["long"]
    ensures "long" !in m.tags ==> f.long == Lower(m.name)
    ensures "usage" in m.tags ==> f.usage == m.tags["usage"]
    ensures "usage" !in m.tags ==> f.usage == m.name
    ensures "short" in m.tags ==> m.tags["short"] != "" && f.short == m.tags["short"][0]
    ensures "short" !in m.tags ==> f.short == NoShort
    ensures f.prompt <==> "prompt" in m.tags && Lower(m.tags["prompt"]) == "yes"
  {
  }

  lemma PromptTagIgnoresCase(name: string, kind: Kind)
    ensures PromptAllowed(Member(name, true, map["prompt" := "YES"], kind))
    ensures PromptAllowed(Member(name, true, map["prompt" := "Yes"], kind))
    ensures !PromptAllowed(Member(name, true, map["prompt" := "y"], kind))
    ensures !PromptAllowed(Member(name, true, map["prompt" := "true"], kind))
  {
    assert Lower("YES") == "yes";
    assert Lower("Yes") == "yes";
  }

  /** The position of the first member whose description panics. */
  function FirstPanic(members: seq<Member>): (r: Option<nat>)
    ensures r.None? <==> forall j :: 0 <= j < |members| ==> DescribePanic(members[j]).None?
    ensures r.Some? ==> r.value < |members| && DescribePanic(members[r.value]).Some?
    ensures r.Some? ==> forall j :: 0 <= j < r.value ==> DescribePanic(members[j]).None?
  {
    if members == [] then None
    else if DescribePanic(members[0]).Some? then Some(0)
    else match FirstPanic(members[1..])
         case None => None
         case Some(j) => Some(j + 1)
  }

  /** What parseFields yields for a Config: no record gives no fields, and a panicking member gives None. */
  function DescribeRecord(config: Option<Config>): (r: Option<seq<Field>>)
    ensures config.Some? ==> (r.None? <==> FirstPanic(config.value.members).Some?)
  {
    match config
    case None => Some([])
    case Some(c) =>
      if FirstPanic(c.members).None?
      then Some(seq(|c.members|, i requires 0 <= i < |c.members| => Describe(c.members[i], c.cells, i).value))
      else None
  }

  /** The panic parseFields raises: that of the first member whose description fails. */
  function ParsePanic(config: Option<Config>): (r: Option<string>)
    ensures r.Some? <==> DescribeRecord(config).None?
  {
    match config
    case None => None
    case Some(c) =>
      match FirstPanic(c.members)
      case None => None
      case Some(k) => DescribePanic(c.members[k])
  }

  /** Descriptor i is built from member i and writes cell i, so declaration order is kept. */
  lemma DescribedInOrder(c: Config, fields: seq<Field>)
    requires c.Shaped() && DescribeRecord(Some(c)) == Some(fields)
    ensures |fields| == |c.members| && Binds(fields, c.cells)
    ensures forall i :: 0 <= i < |fields| ==> Describe(c.members[i], c.cells, i) == Some(fields[i])
    ensures forall i :: 0 <= i < |fields| ==> fields[i].kind == c.members[i].kind && fields[i].long == FieldLong(c.members[i])
    ensures c.Bindable() ==> AllSupported(fields)
  {
  }

  /** A record with an unexported member, or a member with an empty short tag, cannot be described. */
  lemma PanickingMemberStopsDescription(c: Config, i: nat)
    requires i < |c.members| && DescribePanic(c.members[i]).Some?
    ensures DescribeRecord(Some(c)).None?
    ensures ParsePanic(Some(c)).Some?
    ensures (forall j :: 0 <= j < i ==> DescribePanic(c.members[j]).None?) ==> ParsePanic(Some(c)) == DescribePanic(c.members[i])
  {
    var k := FirstPanic(c.members);
    assert k.Some?;
    if forall j :: 0 <= j < i ==> DescribePanic(c.members[j]).None? {
      assert k.value == i;
    }
  }

  /** parseFields: fills a preallocated table of descriptors, member by member, and panics at the first failing member. */
  method ParseFields(config: Option<Config>) returns (r: Option<seq<Field>>, panic: Option<string>)
    ensures r == DescribeRecord(config)
    ensures panic == ParsePanic(config)
  {
    if config.None? {
      return Some([]), None;
    }
    var c := config.value;
    var n := |c.members|;
    var fields := new Field[n](_ => Field("", NoShort, "", false, OtherKind(""), c.cells, 0));
    for i := 0 to n
      invariant forall j :: 0 <= j < i ==> Describe(c.members[j], c.cells, j) == Some(fields[j])
      invariant forall j :: 0 <= j < i ==> DescribePanic(c.members[j]).None?
    {
      var d := Describe(c.members[i], c.cells, i);
      if d.None? {
        PanickingMemberStopsDescription(c, i);
        return None, DescribePanic(c.members[i]);
      }
      fields[i] := d.value;
    }
    FullTable(c, fields[..]);
    r, panic := Some(fields[..]), None;
  }

  /** A table holding every member's descriptor, in order, is the record's description. */
  lemma FullTable(c: Config, fields: seq<Field>)
    requires |fields| == |c.members|
    requires forall j :: 0 <= j < |fields| ==> Describe(c.members[j], c.cells, j) == Some(fields[j])
    ensures DescribeRecord(Some(c)) == Some(fields) && ParsePanic(Some(c)).None?
  {
    assert FirstPanic(c.members).None?;
    assert fields == seq(|c.members|, i requires 0 <= i < |c.members| => Describe(c.members[i], c.cells, i).value);
  }

  // ---------------------------------------------------------------------------
  // Option table

  /** The flag column of a usage row, without the rendering of the current value. */
  function FlagText(f: Field): string {
    if f.short != NoShort then "-" + [f.short] + ", --" + f.long else "--" + f.long
  }

  /** Reads the short and long names back from a flag column. */
  function ReadFlagText(t: string): Option<(char, string)> {
    if HasPrefix(t, "--") then Some((NoShort, t[2..]))
    else if |t| >= 6 && t[0] == '-' && t[2..6] == ", --" then Some((t[1], t[6..]))
    else None
  }

  lemma {:induction false} FlagTextRoundTrip(f: Field)
    requires f.short != '-'
    ensures ReadFlagText(FlagText(f)) == Some((f.short, f.long))
  {
    var t := FlagText(f);
    if f.short != NoShort {
      assert t == ['-', f.short, ',', ' ', '-', '-'] + f.long;
      assert t[1] == f.short && t[1] != '-';
      assert !HasPrefix(t, "--");
      assert t[2..6] == ", --";
      assert t[6..] == f.long;
    } else {
      assert t[..2] == "--";
      assert t[2..] == f.long;
    }
  }

  /** getOptions: one row per field, in field order: the flag column and the usage text. */
  method GetOptions(fields: seq<Field>) returns (options: seq<seq<string>>)
    ensures |options| == |fields|
    ensures forall i :: 0 <= i < |fields| ==> options[i] == [FlagText(fields[i]), fields[i].usage]
  {
    options := [];
    for i := 0 to |fields|
      invariant |options| == i
      invariant forall j :: 0 <= j < i ==> options[j] == [FlagText(fields[j]), fields[j].usage]
    {
      options := options + [[FlagText(fields[i]), fields[i].usage]];
    }
  }

  // ---------------------------------------------------------------------------
  // Writing a decoded value into a cell

  /** Whether a decoded value has exactly the dynamic type a member of kind k takes. */
  predicate Fits(k: Kind, v: Value) {
    match k
    case BoolKind => v.VBool?
    case StringKind => v.VString?
    case IntKind => v.VInt?
    case UintKind => v.VUint?
    case StringListKind => v.VList? && forall i :: 0 <= i < |v.elems| ==> v.elems[i].VString?
    case OtherKind(_) => false
  }

  /** A cell's contents as the document would hold them. */
  function ValueOf(c: Cell): Value
    requires !c.OtherCell?
  {
    match c
    case BoolCell(b) => VBool(b)
    case StringCell(s) => VString(s)
    case IntCell(i) => VInt(i)
    case UintCell(u) => VUint(u)
    case StringListCell(items) => VList(seq(|items|, i requires 0 <= i < |items| => VString(items[i])))
  }

  /** The strings of a decoded list, element by element, or None if one is not a string. */
  function Strings(elems: seq<Value>): (r: Option<seq<string>>)
    ensures r.Some? <==> forall i :: 0 <= i < |elems| ==> elems[i].VString?
    ensures r.Some? ==> |r.value| == |elems| && forall i :: 0 <= i < |elems| ==> r.value[i] == elems[i].s
  {
    if elems == [] then Some([])
    else if !elems[0].VString? then None
    else
      match Strings(elems[1..])
      case None => None
      case Some(rest) => Some([elems[0].s] + rest)
  }

  /** interfaceToStringSlice: None is the failed type assertion on the list or one element. */
  function ToStringSlice(v: Value): (r: Option<seq<string>>)
    ensures r.Some? <==> Fits(StringListKind, v)
    ensures r.Some? ==> |r.value| == |v.elems| && forall i :: 0 <= i < |v.elems| ==> r.value[i] == v.elems[i].s
  {
    if v.VList? then Strings(v.elems) else None
  }

  /** A list cell made from the strings of a list of strings holds that list. */
  lemma StringListValue(v: Value, items: seq<string>)
    requires ToStringSlice(v) == Some(items)
    ensures ValueOf(StringListCell(items)) == v
  {
    assert VList(seq(|items|, i requires 0 <= i < |items| => VString(items[i]))) == v;
  }

  datatype Conversion = Store(cell: Cell) | Ignore | Mismatch

  /** The type switch of `set`: convert to the member's kind, do nothing for other kinds, or fail. */
  function Convert(k: Kind, v: Value): (r: Conversion)
    ensures r.Ignore? <==> !Supported(k)
    ensures r.Mismatch? <==> Supported(k) && !Fits(k, v)
    ensures r.Store? ==> KindOf(r.cell) == k && ValueOf(r.cell) == v
  {
    match k
    case BoolKind => if v.VBool? then Store(BoolCell(v.b)) else Mismatch
    case StringKind => if v.VString? then Store(StringCell(v.s)) else Mismatch
    case IntKind => if v.VInt? then Store(IntCell(v.i)) else Mismatch
    case UintKind => if v.VUint? then Store(UintCell(v.u)) else Mismatch
    case StringListKind =>
      (match ToStringSlice(v)
       case None => Mismatch
       case Some(items) =>
         StringListValue(v, items);
         Store(StringListCell(items)))
    case OtherKind(_) => Ignore
  }

  /** Storing a cell's own contents gives back that cell. */
  lemma ConvertValueOf(c: Cell)
    requires !c.OtherCell?
    ensures Convert(KindOf(c), ValueOf(c)) == Store(c)
  {
    if c.StringListCell? {
      var r := ToStringSlice(ValueOf(c));
      assert r.Some?;
      assert r.value == c.items;
    }
  }

  /** A uint member takes only a uint: an int of any value fails. */
  lemma UintRejectsInt(i: int)
    ensures Convert(UintKind, VInt(i)) == Mismatch
  {
  }

  /** The cell `set` leaves: the converted value, the old cell for an unsupported kind, or None for the panic. */
  function Overwrite(k: Kind, v: Value, c: Cell): Option<Cell> {
    match Convert(k, v)
    case Store(d) => Some(d)
    case Ignore => Some(c)
    case Mismatch => None
  }

  lemma OverwriteIdempotent(k: Kind, v: Value, c: Cell)
    requires Overwrite(k, v, c).Some?
    ensures Overwrite(k, v, Overwrite(k, v, c).value) == Overwrite(k, v, c)
  {
  }

  /** field.set: writes the converted value into this field's cell and no other. */
  method Set(f: Field, v: Value) returns (ok: bool)
    requires f.slot < f.store.Length
    modifies f.store
    ensures ok <==> !Convert(f.kind, v).Mismatch?
    ensures ok ==> f.store[..] == old(f.store[..])[f.slot := Overwrite(f.kind, v, old(f.store[f.slot])).value]
    ensures !ok ==> f.store[..] == old(f.store[..])
  {
    match Convert(f.kind, v) {
      case Store(c) =>
        f.store[f.slot] := c;
        ok := true;
      case Ignore =>
        ok := true;
      case Mismatch =>
        ok := false;
    }
  }
}
