/**
 * The configuration merger (the loops of App.tryConfig and Command.tryConfig)
 * and the layering of flag values on top of it: a flag that was given beats
 * the configuration document, which beats the record's compiled-in value.
 */
module Merging {
  import opened Values
  import opened Fields

  /** The cell one field ends with: the segment's value when the segment names the field. */
  function MergeCell(f: Field, seg: Document, c: Cell): Option<Cell> {
    if f.long in seg then Overwrite(f.kind, seg[f.long], c) else Some(c)
  }

  /** The record after merging a segment into it, or None for the panic of a value of the wrong type. */
  function MergedCells(fields: seq<Field>, seg: Document, cells: seq<Cell>): (r: Option<seq<Cell>>)
    requires |fields| == |cells|
    ensures r.None? <==> exists i :: 0 <= i < |fields| && fields[i].long in seg && Convert(fields[i].kind, seg[fields[i].long]).Mismatch?
    ensures r.Some? ==> |r.value| == |cells|
    ensures r.Some? ==> forall i :: 0 <= i < |cells| ==>
              r.value[i] == if fields[i].long in seg && Supported(fields[i].kind)
                            then Convert(fields[i].kind, seg[fields[i].long]).cell
                            else cells[i]
  {
    if forall i :: 0 <= i < |fields| ==> MergeCell(fields[i], seg, cells[i]).Some?
    then Some(seq(|cells|, i requires 0 <= i < |cells| => MergeCell(fields[i], seg, cells[i]).value))
    else None
  }

  /** Merging the same segment twice leaves what merging it once left. */
  lemma MergeIdempotent(fields: seq<Field>, seg: Document, cells: seq<Cell>)
    requires |fields| == |cells|
    requires MergedCells(fields, seg, cells).Some?
    ensures MergedCells(fields, seg, MergedCells(fields, seg, cells).value) == MergedCells(fields, seg, cells)
  {
    var once := MergedCells(fields, seg, cells).value;
    var twice := MergedCells(fields, seg, once);
    assert twice.Some?;
    assert twice.value == once;
  }

  /** An empty segment (no file, an undecodable file, no section) changes nothing. */
  lemma EmptySegmentKeepsRecord(fields: seq<Field>, cells: seq<Cell>)
    requires |fields| == |cells|
    ensures MergedCells(fields, map[], cells) == Some(cells)
  {
    var r := MergedCells(fields, map[], cells);
    assert r.Some?;
    assert r.value == cells;
  }

  /** The tryConfig loop: every field the segment names receives the segment's value, in field order. */
  method MergeSegment(fields: seq<Field>, store: array<Cell>, seg: Document) returns (ok: bool)
    requires Binds(fields, store)
    modifies store
    ensures ok <==> MergedCells(fields, seg, old(store[..])).Some?
    ensures ok ==> store[..] == MergedCells(fields, seg, old(store[..])).value
    ensures forall i :: 0 <= i < store.Length && fields[i].long !in seg ==> store[i] == old(store[i])
  {
    for i := 0 to |fields|
      invariant forall j :: 0 <= j < i ==> MergeCell(fields[j], seg, old(store[j])).Some?
      invariant forall j :: 0 <= j < i ==> store[j] == MergeCell(fields[j], seg, old(store[j])).value
      invariant forall j :: i <= j < store.Length ==> store[j] == old(store[j])
    {
      var f := fields[i];
      if f.long in seg {
        var fits := Set(f, seg[f.long]);
        if !fits {
          assert MergeCell(fields[i], seg, old(store[i])).None?;
          return false;
        }
      }
    }
    ok := true;
    assert store[..] == seq(|old(store[..])|, i requires 0 <= i < |old(store[..])| => MergeCell(fields[i], seg, old(store[..])[i]).value);
  }

  /**
   * The section a command's fields are merged from: the entry under the
   * command's lower-cased name when it is a mapping; anything else is ignored.
   */
  function CommandSegment(doc: Document, name: string): (r: Document)
    ensures Lower(name) in doc && doc[Lower(name)].VMap? ==> r == doc[Lower(name)].entries
    ensures !(Lower(name) in doc && doc[Lower(name)].VMap?) ==> r == map[]
  {
    var key := Lower(name);
    if key in doc && doc[key].VMap? then doc[key].entries else map[]
  }

  /**
   * The keys that stop command prompting: an absent section is empty, and a
   * section that is not a mapping is the panic of a failed conversion (None).
   */
  function PromptSegmentKeys(doc: Document, name: string): (r: Option<set<string>>)
    ensures r.None? <==> Lower(name) in doc && !doc[Lower(name)].VMap?
    ensures r.Some? ==> r.value == CommandSegment(doc, name).Keys
  {
    var key := Lower(name);
    if key !in doc then Some({})
    else if doc[key].VMap? then Some(doc[key].entries.Keys)
    else None
  }

  /** A section that is not a mapping is skipped by the merge but fails at prompting. */
  lemma NonMapSection(doc: Document, name: string, fields: seq<Field>, cells: seq<Cell>)
    requires |fields| == |cells|
    requires Lower(name) in doc && !doc[Lower(name)].VMap?
    ensures MergedCells(fields, CommandSegment(doc, name), cells) == Some(cells)
    ensures PromptSegmentKeys(doc, name) == None
  {
    EmptySegmentKeepsRecord(fields, cells);
  }

  /**
   * Every flag given for a member of the record carries a cell of that
   * member's kind: the flag parser stores into a variable of the member's type.
   */
  predicate GivenFits(config: Option<Config>, given: map<string, Cell>) {
    config.Some? ==>
      forall i :: 0 <= i < |config.value.members| && FieldLong(config.value.members[i]) in given ==>
        KindOf(given[FieldLong(config.value.members[i])]) == config.value.members[i].kind
  }

  /** The record after the flag parser stored the value of every flag given for one of its fields. */
  function FlaggedCells(fields: seq<Field>, given: map<string, Cell>, cells: seq<Cell>): (r: seq<Cell>)
    requires |fields| == |cells|
    ensures |r| == |cells|
    ensures forall i :: 0 <= i < |cells| && fields[i].long !in given ==> r[i] == cells[i]
    ensures forall i :: 0 <= i < |cells| && fields[i].long in given ==> r[i] == given[fields[i].long]
  {
    seq(|cells|, i requires 0 <= i < |cells| => if fields[i].long in given then given[fields[i].long] else cells[i])
  }

  /** What parsing the command line writes into a record bound to the flag set. */
  method ApplyGivenFlags(fields: seq<Field>, store: array<Cell>, given: map<string, Cell>)
    requires Binds(fields, store)
    modifies store
    ensures store[..] == FlaggedCells(fields, given, old(store[..]))
  {
    forall i | 0 <= i < store.Length && fields[i].long in given {
      store[i] := given[fields[i].long];
    }
  }

  /**
   * Precedence: the document is merged before the command line is parsed, so a
   * given flag wins over the document, and the document over the default.
   */
  lemma FlagOverFileOverDefault(fields: seq<Field>, seg: Document, given: map<string, Cell>, cells: seq<Cell>, i: nat)
    requires |fields| == |cells| && i < |cells|
    requires MergedCells(fields, seg, cells).Some?
    ensures var final := FlaggedCells(fields, given, MergedCells(fields, seg, cells).value);
            && (fields[i].long in given ==> final[i] == given[fields[i].long])
            && (fields[i].long !in given && fields[i].long in seg && Supported(fields[i].kind) ==>
                  final[i] == Convert(fields[i].kind, seg[fields[i].long]).cell)
            && (fields[i].long !in given && fields[i].long !in seg ==> final[i] == cells[i])
  {
  }
}
