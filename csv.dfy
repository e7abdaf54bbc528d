/** `convertToCSV`: recorded events flattened to one row each under the columns of the
    first event. */
module Csv {
  import opened JsValues
  import opened Text

  /** `{boat_id: entry.boat_id, ...entry.data}`, with a truthy `magnetic_field` expanded
      into `magnetic_field_x`, `_y` and `_z` and then deleted: no truthy `magnetic_field`
      column survives. */
  function Flatten(entry: Object): (flat: Object)
    ensures !Truthy(Get(flat, "magnetic_field"))
  {
    var flat := Assign([Field("boat_id", Get(entry, "boat_id"))], SpreadOf(Get(entry, "data")));
    var m := Get(flat, "magnetic_field");
    if Truthy(m) then
      var c := Set(Set(Set(flat, "magnetic_field_x", Member(m, "x")),
                       "magnetic_field_y", Member(m, "y")),
                   "magnetic_field_z", Member(m, "z"));
      GetDelete(c, "magnetic_field", "magnetic_field");
      Delete(Set(Set(Set(flat, "magnetic_field_x", Member(m, "x")),
                     "magnetic_field_y", Member(m, "y")),
                 "magnetic_field_z", Member(m, "z")),
             "magnetic_field")
    else flat
  }

  /** An array element as `join` writes it: null and undefined become empty. */
  function Cell(v: Value): string {
    if v.Undefined? || v.Null? then "" else ToJsString(v)
  }

  /** `entry[key]` as `join` writes it: an own property's value, else the inherited
      member's text for a name `Object.prototype` supplies, else empty. */
  function CellAt(entry: Object, key: string): string {
    if !Has(entry, key) && Inherited(key) then InheritedText(key) else Cell(Get(entry, key))
  }

  /** The cells of `entry` under the columns `keys`. */
  function Cells(entry: Object, keys: seq<string>): (cells: seq<string>)
    ensures |cells| == |keys|
    ensures forall i :: 0 <= i < |keys| ==> cells[i] == CellAt(entry, keys[i])
  {
    seq(|keys|, i requires 0 <= i < |keys| => CellAt(entry, keys[i]))
  }

  /** The header line followed by one line per entry, every line under the first entry's
      columns. */
  function Lines(data: seq<Object>): (lines: seq<string>)
    requires |data| > 0
    ensures |lines| == |data| + 1
    ensures lines[0] == Join(Keys(Flatten(data[0])), ',')
    ensures forall i :: 0 <= i < |data| ==>
      lines[i + 1] == Join(Cells(Flatten(data[i]), Keys(Flatten(data[0]))), ',')
  {
    var keys := Keys(Flatten(data[0]));
    [Join(keys, ',')] + seq(|data|, i requires 0 <= i < |data| => Join(Cells(Flatten(data[i]), keys), ','))
  }

  function ConvertToCsv(data: seq<Object>): (csv: string)
    ensures csv == "" <==> |data| == 0
  {
    if |data| == 0 then ""
    else
      FlattenStartsWithBoatId(data[0]);
      JoinNonEmpty(Lines(data), '\n');
      Join(Lines(data), '\n')
  }

  lemma JoinNonEmpty(parts: seq<string>, sep: char)
    requires |parts| >= 1 && |parts[0]| > 0
    ensures |Join(parts, sep)| > 0
  {
  }

  // ---------------------------------------------------------------------------
  // Properties of the flattening

  /** The flat entry before the magnetic expansion, as the spread literal builds it. */
  lemma BaseReads(entry: Object, k: string)
    requires UniqueKeys(SpreadOf(Get(entry, "data")))
    ensures var base := Assign([Field("boat_id", Get(entry, "boat_id"))], SpreadOf(Get(entry, "data")));
      && |base| > 0 && base[0].key == "boat_id"
      && UniqueKeys(base)
      && Get(base, k) == (if Has(SpreadOf(Get(entry, "data")), k) then Get(SpreadOf(Get(entry, "data")), k)
                          else if k == "boat_id" then Get(entry, "boat_id") else Undefined)
  {
    var t := [Field("boat_id", Get(entry, "boat_id"))];
    var d := SpreadOf(Get(entry, "data"));
    AssignKeys(t, d);
    AssignUnique(t, d);
    AssignGet(t, d, k);
    assert Keys(Assign(t, d))[..1] == Keys(t);
  }

  /** The three assignments of the magnetic expansion keep the first property first. */
  lemma SetKeepsFirst(o: Object, k: string, v: Value)
    requires |o| > 0 && o[0].key != k
    ensures |Set(o, k, v)| > 0 && Set(o, k, v)[0] == o[0]
  {
  }

  /** Every flattened entry starts with the column `boat_id`, so the header is never
      empty. */
  lemma FlattenStartsWithBoatId(entry: Object)
    ensures |Flatten(entry)| > 0 && Flatten(entry)[0].key == "boat_id"
    ensures |Keys(Flatten(entry))| > 0 && |Join(Keys(Flatten(entry)), ',')| > 0
  {
    var t := [Field("boat_id", Get(entry, "boat_id"))];
    var d := SpreadOf(Get(entry, "data"));
    AssignKeys(t, d);
    var flat := Assign(t, d);
    assert Keys(flat)[..1] == Keys(t);
    assert flat[0].key == "boat_id";
    var m := Get(flat, "magnetic_field");
    if Truthy(m) {
      var a := Set(flat, "magnetic_field_x", Member(m, "x"));
      SetKeepsFirst(flat, "magnetic_field_x", Member(m, "x"));
      var b := Set(a, "magnetic_field_y", Member(m, "y"));
      SetKeepsFirst(a, "magnetic_field_y", Member(m, "y"));
      var c := Set(b, "magnetic_field_z", Member(m, "z"));
      SetKeepsFirst(b, "magnetic_field_z", Member(m, "z"));
      DeleteKeepsFirst(c, "magnetic_field");
    }
    var ks := Keys(Flatten(entry));
    assert ks[0] == "boat_id";
    if |ks| > 1 {
      assert Join(ks, ',') == ks[0] + [','] + Join(ks[1..], ',');
    }
  }

  /** With a truthy `magnetic_field`, the flat entry has no `magnetic_field` column and
      carries its `x`, `y` and `z` as three columns; every other column reads as in the
      entry. Without one, the flat entry is the entry's `data` behind `boat_id`. */
  lemma FlattenReads(entry: Object, k: string)
    requires UniqueKeys(SpreadOf(Get(entry, "data")))
    ensures var d := SpreadOf(Get(entry, "data"));
      var m := if Has(d, "magnetic_field") then Get(d, "magnetic_field") else Undefined;
      var plain := if Has(d, k) then Get(d, k) else if k == "boat_id" then Get(entry, "boat_id") else Undefined;
      Get(Flatten(entry), k) ==
        if !Truthy(m) then plain
        else if k == "magnetic_field" then Undefined
        else if k == "magnetic_field_x" then Member(m, "x")
        else if k == "magnetic_field_y" then Member(m, "y")
        else if k == "magnetic_field_z" then Member(m, "z")
        else plain
  {
    var d := SpreadOf(Get(entry, "data"));
    var base := Assign([Field("boat_id", Get(entry, "boat_id"))], d);
    BaseReads(entry, k);
    BaseReads(entry, "magnetic_field");
    var m := Get(base, "magnetic_field");
    if Truthy(m) {
      var a := Set(base, "magnetic_field_x", Member(m, "x"));
      var b := Set(a, "magnetic_field_y", Member(m, "y"));
      var c := Set(b, "magnetic_field_z", Member(m, "z"));
      GetDelete(c, "magnetic_field", k);
      GetSet(b, "magnetic_field_z", Member(m, "z"), k);
      GetSet(a, "magnetic_field_y", Member(m, "y"), k);
      GetSet(base, "magnetic_field_x", Member(m, "x"), k);
    }
  }

  // ---------------------------------------------------------------------------
  // Properties of the CSV text

  /** No line break or comma in any header name or any cell text. */
  predicate PlainText(data: seq<Object>)
    requires |data| > 0
  {
    var keys := Keys(Flatten(data[0]));
    && (forall j :: 0 <= j < |keys| ==> ',' !in keys[j] && '\n' !in keys[j])
    && (forall i, j :: 0 <= i < |data| && 0 <= j < |keys| ==>
          ',' !in CellAt(Flatten(data[i]), keys[j]) && '\n' !in CellAt(Flatten(data[i]), keys[j]))
  }

  lemma JoinAvoids(parts: seq<string>, sep: char, c: char)
    requires c != sep
    requires forall i :: 0 <= i < |parts| ==> c !in parts[i]
    ensures c !in Join(parts, sep)
  {
  }

  /** No line of a plain CSV holds a line break. */
  lemma LinesUnbroken(data: seq<Object>)
    requires |data| > 0 && PlainText(data)
    ensures forall i :: 0 <= i < |Lines(data)| ==> '\n' !in Lines(data)[i]
  {
    var keys := Keys(Flatten(data[0]));
    var lines := Lines(data);
    forall i | 0 <= i < |lines| ensures '\n' !in lines[i] {
      if i == 0 {
        JoinAvoids(keys, ',', '\n');
      } else {
        assert lines[i] == Join(Cells(Flatten(data[i - 1]), keys), ',');
        JoinAvoids(Cells(Flatten(data[i - 1]), keys), ',', '\n');
      }
    }
  }

  /** When no name or cell holds a comma or a line break, the CSV reads back: it has one
      line per entry after the header, the header splits into the first entry's column
      names and each line splits into its entry's cells under those columns. */
  lemma CsvReadsBack(data: seq<Object>)
    requires |data| > 0 && PlainText(data)
    ensures var lines := Split(ConvertToCsv(data), '\n');
      var keys := Keys(Flatten(data[0]));
      && |lines| == |data| + 1
      && Split(lines[0], ',') == keys
      && forall i :: 1 <= i < |lines| ==> Split(lines[i], ',') == Cells(Flatten(data[i - 1]), keys)
  {
    var keys := Keys(Flatten(data[0]));
    var lines := Lines(data);
    FlattenStartsWithBoatId(data[0]);
    LinesUnbroken(data);
    SplitJoin(lines, '\n');
    SplitJoin(keys, ',');
    forall i | 1 <= i < |lines| ensures Split(lines[i], ',') == Cells(Flatten(data[i - 1]), keys) {
      assert lines[i] == Join(Cells(Flatten(data[i - 1]), keys), ',');
      SplitJoin(Cells(Flatten(data[i - 1]), keys), ',');
    }
  }

  /** Columns come from the first entry alone: a column the first entry lacks is not in
      the header, and a later entry lacking a column gets an empty cell there, unless the
      column is named after an `Object.prototype` member, whose text is written instead. */
  lemma ColumnsFromFirstEntry(data: seq<Object>, i: nat, j: nat)
    requires i < |data| && j < |Keys(Flatten(data[0]))|
    requires !Has(Flatten(data[i]), Keys(Flatten(data[0]))[j])
    ensures var key := Keys(Flatten(data[0]))[j];
      Cells(Flatten(data[i]), Keys(Flatten(data[0])))[j] ==
        if Inherited(key) then InheritedText(key) else ""
  {
    HasIffKeyIndex(Flatten(data[i]), Keys(Flatten(data[0]))[j]);
  }
}
