/**
 * Shared vocabulary of the binding engine: the five member kinds a
 * configuration record may bind, the storage cells of a record, the values a
 * decoded configuration document holds, and ASCII lower-casing.
 */
module Values {

  datatype Option<+T> = None | Some(value: T)

  /** The type of one record member: the five kinds the engine binds, or any other type. */
  datatype Kind = BoolKind | StringKind | IntKind | UintKind | StringListKind | OtherKind(typeName: string)

  predicate Supported(k: Kind) {
    !k.OtherKind?
  }

  /** One storage cell of a configuration record; an unsupported member's contents are not modelled. */
  datatype Cell =
    | BoolCell(b: bool)
    | StringCell(s: string)
    | IntCell(i: int)
    | UintCell(u: nat)
    | StringListCell(items: seq<string>)
    | OtherCell(typeName: string)

  function KindOf(c: Cell): Kind {
    match c
    case BoolCell(_) => BoolKind
    case StringCell(_) => StringKind
    case IntCell(_) => IntKind
    case UintCell(_) => UintKind
    case StringListCell(_) => StringListKind
    case OtherCell(t) => OtherKind(t)
  }

  /**
   * A value of the decoded configuration document, tagged by its dynamic type:
   * a document maps keys to these, and a command's section is a VMap.
   */
  datatype Value =
    | VBool(b: bool)
    | VInt(i: int)
    | VUint(u: nat)
    | VString(s: string)
    | VList(elems: seq<Value>)
    | VMap(entries: map<string, Value>)

  type Document = map<string, Value>

  /** The platform integer is 64 bits wide. */
  const MinInt64: int := -0x8000_0000_0000_0000
  const MaxInt64: int := 0x7fff_ffff_ffff_ffff
  const MaxUint64: int := 0xffff_ffff_ffff_ffff

  function LowerChar(c: char): char {
    if 'A' <= c <= 'Z' then (c as int + 32) as char else c
  }

  /** ASCII lower-casing, letter by letter. */
  function Lower(s: string): (r: string)
    ensures |r| == |s|
    ensures forall i :: 0 <= i < |s| ==> r[i] == LowerChar(s[i])
  {
    if s == [] then [] else [LowerChar(s[0])] + Lower(s[1..])
  }

  predicate HasPrefix(s: string, p: string) {
    |p| <= |s| && s[..|p|] == p
  }

  predicate HasSuffix(s: string, p: string) {
    |p| <= |s| && s[|s| - |p|..] == p
  }

  function Last<T>(s: seq<T>): T
    requires |s| > 0
  {
    s[|s| - 1]
  }

  /** Removes p from the front of s when s starts with it, saying whether it did. */
  function Strip(s: string, p: string): (r: (bool, string))
    ensures r.0 <==> HasPrefix(s, p)
    ensures r.0 ==> s == p + r.1
    ensures !r.0 ==> r.1 == s
  {
    if HasPrefix(s, p) then (true, s[|p|..]) else (false, s)
  }

  lemma StripHit(p: string, t: string)
    ensures Strip(p + t, p) == (true, t)
  {
    assert (p + t)[..|p|] == p;
    assert (p + t)[|p|..] == t;
  }

  /** Concatenation regrouped to the right, one step at a time. */
  lemma Regroup(a: string, b: string, c: string)
    ensures (a + b) + c == a + (b + c)
  {
  }

  /** A string that differs from p at some position inside both does not start with p. */
  lemma StripMiss(s: string, p: string, k: nat)
    requires k < |s| && k < |p| && s[k] != p[k]
    ensures Strip(s, p) == (false, s)
  {
  }
}
