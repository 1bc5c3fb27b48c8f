/**
  The HTML-to-JSON half of the tabular converter (`html2json`): the sheet
  divisions of a page become a JSON document, and the two halves round-trip.
 */
module SheetJson {
  import opened Wrappers
  import opened OrderedMaps
  import opened JsonValues
  import opened SheetHtml

  type Fields = seq<(string, Json)>

  /** The property a `key` attribute names: a missing attribute reads as `null`,
      which becomes the key `"null"`. */
  function ColKey(c: Col): string
  {
    c.key.GetOr("null")
  }

  /** The property key of a sheet's name attribute, on the same terms. */
  function NameKey(s: SheetNode): string
  {
    s.name.GetOr("null")
  }

  /** `getAttribute`: the attribute's text, or `null` when it is missing. */
  function AttrValue(a: Option<string>): Json
  {
    if a.None? then JNull else JStr(a.value)
  }

  /** The object one row becomes: each column's text assigned to its key in turn,
      so a later column overwrites an earlier one with the same key. */
  function DecodeRow(cols: seq<Col>): (r: Fields)
    ensures DistinctKeys(r)
    ensures forall k :: Lookup(r, k).Some? ==> Lookup(r, k).value.JStr?
  {
    if cols == [] then []
    else
      var last := cols[|cols| - 1];
      SetKey(DecodeRow(cols[..|cols| - 1]), ColKey(last), JStr(last.text))
  }

  /** The `data` array of one sheet: one object per row, in order. */
  function DecodeRows(rows: seq<seq<Col>>): (r: seq<Json>)
    ensures |r| == |rows|
  {
    if rows == [] then []
    else DecodeRows(rows[..|rows| - 1]) + [JObj(DecodeRow(rows[|rows| - 1]))]
  }

  /** The properties a sheet's JSON element receives, in assignment order. */
  function TableFields(s: SheetNode): Fields
  {
    [("total", AttrValue(s.total)), ("offset", AttrValue(s.offset)), ("limit", AttrValue(s.limit)),
     ("data", JArr(DecodeRows(s.rows)))]
  }

  /** The two properties set before the sheets are read. */
  function Header(sheetType: string): Fields
  {
    [(":type", JStr(sheetType)), (":names", JArr([]))]
  }

  const SingleType: string := "sheet"
  const MultiType: string := "multi-sheet"

  /** One sheet of a multi-sheet page: its name is pushed onto `:names` (which
      throws once `:names` no longer holds an array), and then its element is
      stored under the name. */
  function AddSheet(m: Fields, s: SheetNode): (r: Option<Fields>)
    ensures r.Some? <==> Lookup(m, ":names").Some? && Lookup(m, ":names").value.JArr?
    ensures r.Some? ==> Lookup(r.value, NameKey(s)) == Some(JObj(TableFields(s)))
  {
    var names := Lookup(m, ":names");
    if names.Some? && names.value.JArr? then
      var pushed := SetKey(m, ":names", JArr(names.value.items + [AttrValue(s.name)]));
      Some(SetKey(pushed, NameKey(s), JObj(TableFields(s))))
    else None
  }

  /** The multi-sheet decoder: the header, then each sheet in page order. */
  function MultiSheet(sheets: seq<SheetNode>): Option<Fields>
  {
    if sheets == [] then Some(Header(MultiType))
    else
      var init := MultiSheet(sheets[..|sheets| - 1]);
      if init.None? then None else AddSheet(init.value, sheets[|sheets| - 1])
  }

  /** Whatever the multi-sheet decoder builds holds each key once, keeps the
      two header keys, and holds the last sheet's element under its name. */
  lemma {:induction false} MultiSheetShape(sheets: seq<SheetNode>)
    ensures var r := MultiSheet(sheets);
      r.Some? ==> DistinctKeys(r.value) && Lookup(r.value, ":type").Some? && Lookup(r.value, ":names").Some?
    ensures var r := MultiSheet(sheets);
      r.Some? && sheets != [] ==> Lookup(r.value, NameKey(sheets[|sheets| - 1])) == Some(JObj(TableFields(sheets[|sheets| - 1])))
  {
    if sheets != [] {
      var init := sheets[..|sheets| - 1];
      var s := sheets[|sheets| - 1];
      MultiSheetShape(init);
      if MultiSheet(init).Some? && MultiSheet(sheets).Some? {
        var m := MultiSheet(init).value;
        var pushed := SetKey(m, ":names", JArr(Lookup(m, ":names").value.items + [AttrValue(s.name)]));
        SetKeyAt(pushed, NameKey(s), JObj(TableFields(s)), ":type");
        SetKeyAt(m, ":names", JArr(Lookup(m, ":names").value.items + [AttrValue(s.name)]), ":type");
        SetKeyAt(pushed, NameKey(s), JObj(TableFields(s)), ":names");
      }
    }
  }

  /** `html2json` on the sheet divisions of a page: exactly one sheet is stored
      at the top level as a `sheet`; any other number is a `multi-sheet` whose
      sheets are stored under their names. `None` when it throws. */
  function Decode(sheets: seq<SheetNode>): Option<Json>
  {
    if |sheets| == 1 then Some(JObj(Header(SingleType) + TableFields(sheets[0])))
    else
      var m := MultiSheet(sheets);
      if m.None? then None else Some(JObj(m.value))
  }

  /** What the decoder produces: an object holding each key once; for one sheet
      the `sheet` type, no names and the sheet's rows as `data`; for any other
      number, a failure exactly when a sheet named `:names` has a successor. */
  lemma {:induction false} DecodeShape(sheets: seq<SheetNode>)
    ensures var r := Decode(sheets);
      r.Some? ==> r.value.JObj? && DistinctKeys(r.value.fields)
    ensures var r := Decode(sheets);
      |sheets| == 1 ==>
      r.Some? && Get(r.value, ":type") == Some(JStr(SingleType)) && Get(r.value, ":names") == Some(JArr([]))
      && Get(r.value, "data") == Some(JArr(DecodeRows(sheets[0].rows)))
    ensures |sheets| != 1 ==> (Decode(sheets).None? <==> exists j :: 0 <= j < |sheets| - 1 && NameKey(sheets[j]) == ":names")
  {
    if |sheets| == 1 {
      SingleSheetFields(sheets[0]);
    } else {
      MultiSheetThrows(sheets);
      MultiSheetShape(sheets);
    }
  }

  /** The single-sheet document: the type, no names, and the sheet's four
      properties at the top level, each key once. */
  lemma {:induction false} SingleSheetFields(s: SheetNode)
    ensures var m := Header(SingleType) + TableFields(s);
      DistinctKeys(m) && Lookup(m, ":type") == Some(JStr(SingleType)) && Lookup(m, ":names") == Some(JArr([]))
      && Lookup(m, "data") == Some(JArr(DecodeRows(s.rows)))
  {
    var m := Header(SingleType) + TableFields(s);
    assert |m| == 6;
    assert m[0].0 == ":type" && m[1].0 == ":names" && m[2].0 == "total";
    assert m[3].0 == "offset" && m[4].0 == "limit" && m[5].0 == "data";
    assert KeyIndex(m, ":type") == 0;
    assert KeyIndex(m, ":names") == 1;
    assert KeyIndex(m, "data") == 5;
  }

  // ---------------------------------------------------------------------------
  // The converter, step by step

  /** The document once the first `i` sheets are read; `None` once it has thrown. */
  function Partial(sheets: seq<SheetNode>, i: nat): Option<Fields>
    requires i <= |sheets|
  {
    if |sheets| == 1 then Some(if i == 0 then Header(SingleType) else Header(SingleType) + TableFields(sheets[0]))
    else MultiSheet(sheets[..i])
  }

  /** Once every sheet is read, the partial document is the decoder's result. */
  lemma {:induction false} PartialComplete(sheets: seq<SheetNode>)
    ensures Decode(sheets) == if Partial(sheets, |sheets|).None? then None else Some(JObj(Partial(sheets, |sheets|).value))
  {
    assert sheets[..|sheets|] == sheets;
  }

  /** A document that has thrown part-way stays thrown. */
  lemma {:induction false} PartialStopped(sheets: seq<SheetNode>, k: nat)
    requires 0 < k <= |sheets| && Partial(sheets, k).None?
    ensures Decode(sheets).None?
  {
    MultiSheetNoneStays(sheets, k);
  }

  /** `html2json` after the page has been read and parsed. */
  method Html2Json(sheets: seq<SheetNode>) returns (r: Option<Json>)
    ensures r == Decode(sheets)
  {
    var isSingleSheet := |sheets| == 1;
    var sheetType := if isSingleSheet then SingleType else MultiType;
    var jsonData: Fields := SetKey(SetKey([], ":type", JStr(sheetType)), ":names", JArr([]));
    HeaderBuilt(sheetType);
    assert sheets[..0] == [];
    var i := 0;
    while i < |sheets|
      invariant 0 <= i <= |sheets|
      invariant Partial(sheets, i) == Some(jsonData)
    {
      var next := ReadInto(sheets, i, isSingleSheet, jsonData);
      if next.None? {
        PartialStopped(sheets, i + 1);
        return None;
      }
      jsonData := next.value;
      i := i + 1;
    }
    PartialComplete(sheets);
    return Some(JObj(jsonData));
  }

  /** One pass of the loop: read a sheet division, then store its properties at
      the top level (one sheet) or under its name (several). */
  method ReadInto(sheets: seq<SheetNode>, i: nat, isSingleSheet: bool, jsonData: Fields) returns (next: Option<Fields>)
    requires i < |sheets| && isSingleSheet == (|sheets| == 1) && Partial(sheets, i) == Some(jsonData)
    ensures next == Partial(sheets, i + 1)
  {
    var sheet := sheets[i];
    var fields := ReadSheet(sheet);
    if isSingleSheet {
      TableFieldsKeys(sheet);
      var m := StoreTopLevel(jsonData, fields);
      next := Some(m);
    } else {
      next := StoreNamed(jsonData, sheet, fields);
      MultiSheetAdvance(sheets, i, jsonData);
    }
  }

  /** The two opening assignments build the header. */
  lemma HeaderBuilt(sheetType: string)
    ensures SetKey(SetKey([], ":type", JStr(sheetType)), ":names", JArr([])) == Header(sheetType)
  {
    SetKeyNew([], ":type", JStr(sheetType));
    SetKeyNew([(":type", JStr(sheetType))], ":names", JArr([]));
  }

  /** The four properties of a sheet, in assignment order. */
  lemma TableFieldsKeys(s: SheetNode)
    ensures var fields := TableFields(s);
      |fields| == 4 && fields[0].0 == "total" && fields[1].0 == "offset" && fields[2].0 == "limit" && fields[3].0 == "data"
  {
  }

  /** One pass of the multi-sheet loop: push the name onto `:names` (`None`
      where `push` throws), then store the sheet's element under its name. */
  method StoreNamed(jsonData: Fields, sheet: SheetNode, fields: Fields) returns (r: Option<Fields>)
    requires fields == TableFields(sheet)
    ensures r == AddSheet(jsonData, sheet)
  {
    var names := Lookup(jsonData, ":names");
    if !(names.Some? && names.value.JArr?) {
      return None;
    }
    var m := SetKey(jsonData, ":names", JArr(names.value.items + [AttrValue(sheet.name)]));
    m := SetKey(m, NameKey(sheet), JObj(fields));
    return Some(m);
  }

  /** One more sheet onto a multi-sheet document. */
  lemma {:induction false} MultiSheetAdvance(sheets: seq<SheetNode>, i: nat, m: Fields)
    requires i < |sheets| && MultiSheet(sheets[..i]) == Some(m)
    ensures MultiSheet(sheets[..i + 1]) == AddSheet(m, sheets[i])
  {
    assert sheets[..i + 1][..i] == sheets[..i];
  }

  /** The single-sheet assignments `jsonData[key] = …` onto the two header properties. */
  method StoreTopLevel(header: Fields, fields: Fields) returns (m: Fields)
    requires header == Header(SingleType) && |fields| == 4
    requires fields[0].0 == "total" && fields[1].0 == "offset" && fields[2].0 == "limit" && fields[3].0 == "data"
    ensures m == header + fields
  {
    m := header;
    var k := 0;
    while k < 4
      invariant 0 <= k <= 4
      invariant m == header + fields[..k]
    {
      assert KeyIndex(m, fields[k].0) == |m| by { FreshTopLevelKey(header, fields, k, m); }
      assert fields[..k + 1] == fields[..k] + [fields[k]];
      m := SetKey(m, fields[k].0, fields[k].1);
      k := k + 1;
    }
    assert fields[..4] == fields;
  }

  /** The properties read from one sheet division. */
  method ReadSheet(sheet: SheetNode) returns (fields: Fields)
    ensures fields == TableFields(sheet)
  {
    var data: seq<Json> := [];
    var i := 0;
    while i < |sheet.rows|
      invariant 0 <= i <= |sheet.rows|
      invariant data == DecodeRows(sheet.rows[..i])
    {
      assert sheet.rows[..i + 1][..i] == sheet.rows[..i];
      var columnJson := ReadRow(sheet.rows[i]);
      data := data + [JObj(columnJson)];
      i := i + 1;
    }
    assert sheet.rows[..i] == sheet.rows;
    fields := [("total", AttrValue(sheet.total)), ("offset", AttrValue(sheet.offset)),
               ("limit", AttrValue(sheet.limit)), ("data", JArr(data))];
  }

  /** The object of one row division. */
  method ReadRow(columns: seq<Col>) returns (columnJson: Fields)
    ensures columnJson == DecodeRow(columns)
  {
    columnJson := [];
    var j := 0;
    while j < |columns|
      invariant 0 <= j <= |columns|
      invariant columnJson == DecodeRow(columns[..j])
    {
      assert columns[..j + 1][..j] == columns[..j];
      columnJson := SetKey(columnJson, ColKey(columns[j]), JStr(columns[j].text));
      j := j + 1;
    }
    assert columns[..j] == columns;
  }

  // ---------------------------------------------------------------------------
  // Properties of the decoder

  lemma {:induction false} FreshTopLevelKey(header: Fields, fields: Fields, k: nat, m: Fields)
    requires header == Header(SingleType) && |fields| == 4 && k < 4
    requires fields[0].0 == "total" && fields[1].0 == "offset" && fields[2].0 == "limit" && fields[3].0 == "data"
    requires m == header + fields[..k]
    ensures KeyIndex(m, fields[k].0) == |m|
  {
    var key := fields[k].0;
    assert forall j :: 0 <= j < |m| ==> m[j].0 != key by {
      forall j | 0 <= j < |m| ensures m[j].0 != key {
        if j < 2 {
          assert m[j].0 == header[j].0;
          assert header[j].0[0] == ':';
        } else {
          assert m[j] == fields[j - 2];
        }
      }
    }
  }

  lemma {:induction false} MultiSheetNoneStays(sheets: seq<SheetNode>, k: nat)
    requires 0 < k <= |sheets|
    requires MultiSheet(sheets[..k]).None?
    ensures MultiSheet(sheets).None?
    decreases |sheets|
  {
    if k < |sheets| {
      assert sheets[..|sheets| - 1][..k] == sheets[..k];
      MultiSheetNoneStays(sheets[..|sheets| - 1], k);
    } else {
      assert sheets[..k] == sheets;
    }
  }

  /** Reading a key after one more column. */
  lemma {:induction false} DecodeRowStep(cols: seq<Col>, k: string)
    requires cols != []
    ensures var last := cols[|cols| - 1];
      Lookup(DecodeRow(cols), k) ==
        if ColKey(last) == k then Some(JStr(last.text)) else Lookup(DecodeRow(cols[..|cols| - 1]), k)
  {
    var last := cols[|cols| - 1];
    SetKeyAt(DecodeRow(cols[..|cols| - 1]), ColKey(last), JStr(last.text), k);
  }

  /** A row's object holds a key exactly when some column names it. */
  lemma {:induction false} DecodeRowHas(cols: seq<Col>, k: string)
    ensures Lookup(DecodeRow(cols), k).None? <==> forall j :: 0 <= j < |cols| ==> ColKey(cols[j]) != k
  {
    if cols != [] {
      var n := |cols| - 1;
      var init := cols[..n];
      DecodeRowHas(init, k);
      DecodeRowStep(cols, k);
      NoColKeySplit(cols, k);
    }
  }

  lemma {:induction false} LaterColsInit(cols: seq<Col>, k: string, j: nat)
    requires j < |cols| - 1
    requires forall l :: j < l < |cols| ==> ColKey(cols[l]) != k
    ensures var n := |cols| - 1; cols[..n][j] == cols[j] && forall l :: j < l < n ==> ColKey(cols[..n][l]) != k
  {
    var n := |cols| - 1;
    assert forall l :: 0 <= l < n ==> cols[..n][l] == cols[l];
  }

  lemma {:induction false} NoColKeySplit(cols: seq<Col>, k: string)
    requires cols != []
    ensures var n := |cols| - 1;
      (forall j :: 0 <= j < |cols| ==> ColKey(cols[j]) != k)
      <==> (forall j :: 0 <= j < n ==> ColKey(cols[..n][j]) != k) && ColKey(cols[n]) != k
  {
    var n := |cols| - 1;
    assert forall j :: 0 <= j < n ==> cols[..n][j] == cols[j];
  }

  /** The value under a key is the text of the last column naming it: later
      duplicates overwrite earlier ones. */
  lemma {:induction false} DecodeRowLastWins(cols: seq<Col>, k: string, j: nat)
    requires j < |cols| && ColKey(cols[j]) == k
    requires forall l :: j < l < |cols| ==> ColKey(cols[l]) != k
    ensures Lookup(DecodeRow(cols), k) == Some(JStr(cols[j].text))
    decreases |cols|
  {
    var n := |cols| - 1;
    DecodeRowStep(cols, k);
    if j < n {
      LaterColsInit(cols, k, j);
      DecodeRowLastWins(cols[..n], k, j);
      assert ColKey(cols[n]) != k;
    }
  }

  /** No sheet is named `:names` or `:type`, the two keys the decoder reserves. */
  predicate UnreservedNames(sheets: seq<SheetNode>)
  {
    forall j :: 0 <= j < |sheets| ==> NameKey(sheets[j]) != ":names" && NameKey(sheets[j]) != ":type"
  }

  /** Unreserved names, none of them `__proto__`, whose assignment sets the
      object's prototype instead of storing a property. */
  predicate PlainNames(sheets: seq<SheetNode>)
  {
    UnreservedNames(sheets) && forall j :: 0 <= j < |sheets| ==> NameKey(sheets[j]) != "__proto__"
  }

  /** One step of the multi-sheet decoder, at property `k`. */
  lemma {:induction false} MultiSheetStep(sheets: seq<SheetNode>, k: string)
    requires sheets != []
    requires var before := MultiSheet(sheets[..|sheets| - 1]);
      before.Some? && Lookup(before.value, ":names").Some? && Lookup(before.value, ":names").value.JArr?
    ensures MultiSheet(sheets).Some?
    ensures var before := MultiSheet(sheets[..|sheets| - 1]).value; var s := sheets[|sheets| - 1];
      Lookup(MultiSheet(sheets).value, k) ==
        if k == NameKey(s) then Some(JObj(TableFields(s)))
        else if k == ":names" then Some(JArr(Lookup(before, ":names").value.items + [AttrValue(s.name)]))
        else Lookup(before, k)
  {
  }

  /** Without reserved names the multi-sheet decoder does not throw, keeps the
      type, and lists every name in page order. */
  lemma {:induction false} MultiSheetNames(sheets: seq<SheetNode>)
    requires UnreservedNames(sheets)
    ensures MultiSheet(sheets).Some?
    ensures Lookup(MultiSheet(sheets).value, ":type") == Some(JStr(MultiType))
    ensures Lookup(MultiSheet(sheets).value, ":names") == Some(JArr(NamesOf(sheets)))
  {
    if sheets != [] {
      var n := |sheets| - 1;
      var init := sheets[..n];
      assert forall j :: 0 <= j < n ==> init[j] == sheets[j];
      MultiSheetNames(init);
      MultiSheetStep(sheets, ":type");
      MultiSheetStep(sheets, ":names");
      assert NamesOf(sheets) == NamesOf(init) + [AttrValue(sheets[n].name)];
    }
  }

  /** Without reserved names, each name holds the element of the last sheet
      carrying it. */
  lemma {:induction false} MultiSheetStored(sheets: seq<SheetNode>, j: nat)
    requires PlainNames(sheets)
    requires j < |sheets|
    requires forall l :: j < l < |sheets| ==> NameKey(sheets[l]) != NameKey(sheets[j])
    ensures MultiSheet(sheets).Some?
    ensures Lookup(MultiSheet(sheets).value, NameKey(sheets[j])) == Some(JObj(TableFields(sheets[j])))
    decreases |sheets|
  {
    var n := |sheets| - 1;
    var init := sheets[..n];
    PlainNamesInit(sheets);
    MultiSheetNames(init);
    if j < n {
      var k := NameKey(sheets[j]);
      assert forall l :: j < l < n ==> init[l] == sheets[l];
      assert init[j] == sheets[j];
      MultiSheetStored(init, j);
      assert k != NameKey(sheets[n]) && k != ":names";
      MultiSheetStep(sheets, k);
      assert Lookup(MultiSheet(sheets).value, k) == Lookup(MultiSheet(init).value, k);
      assert Lookup(MultiSheet(sheets).value, k) == Some(JObj(TableFields(sheets[j])));
    } else {
      MultiSheetStep(sheets, NameKey(sheets[n]));
      assert Lookup(MultiSheet(sheets).value, NameKey(sheets[n])) == Some(JObj(TableFields(sheets[n])));
    }
  }

  lemma {:induction false} PlainNamesInit(sheets: seq<SheetNode>)
    requires sheets != [] && PlainNames(sheets)
    ensures PlainNames(sheets[..|sheets| - 1])
  {
    var init := sheets[..|sheets| - 1];
    assert forall l :: 0 <= l < |init| ==> init[l] == sheets[l];
  }

  /** The `name` attributes of the sheets, as `getAttribute` reads them. */
  function NamesOf(sheets: seq<SheetNode>): (r: seq<Json>)
    ensures |r| == |sheets| && forall j :: 0 <= j < |sheets| ==> r[j] == AttrValue(sheets[j].name)
  {
    if sheets == [] then [] else NamesOf(sheets[..|sheets| - 1]) + [AttrValue(sheets[|sheets| - 1].name)]
  }

  /** The multi-sheet decoder throws exactly when a sheet named `:names` is
      followed by another sheet, whose name can then no longer be pushed. */
  lemma {:induction false} MultiSheetThrows(sheets: seq<SheetNode>)
    ensures MultiSheet(sheets).None? <==>
      exists j :: 0 <= j < |sheets| - 1 && NameKey(sheets[j]) == ":names"
  {
    if j :| 0 <= j < |sheets| - 1 && NameKey(sheets[j]) == ":names" {
      MultiSheetThrowsAfter(sheets, j);
    } else {
      MultiSheetSucceeds(sheets);
    }
  }

  lemma {:induction false} MultiSheetThrowsAfter(sheets: seq<SheetNode>, j: nat)
    requires j < |sheets| - 1 && NameKey(sheets[j]) == ":names"
    ensures MultiSheet(sheets).None?
  {
    var upto := sheets[..j + 1];
    var next := sheets[..j + 2];
    assert next[..j + 1] == upto;
    if MultiSheet(upto).Some? {
      NamesHeld(upto);
    }
    assert MultiSheet(next).None?;
    MultiSheetNoneStays(sheets, j + 2);
  }

  lemma {:induction false} MultiSheetSucceeds(sheets: seq<SheetNode>)
    requires forall j :: 0 <= j < |sheets| - 1 ==> NameKey(sheets[j]) != ":names"
    ensures MultiSheet(sheets).Some?
  {
    if sheets != [] {
      var n := |sheets| - 1;
      var init := sheets[..n];
      assert forall j :: 0 <= j < n ==> init[j] == sheets[j];
      MultiSheetSucceeds(init);
      NamesHeld(init);
    }
  }

  /** While the decoder runs, `:names` holds an array unless the last sheet was
      named `:names`, in which case it holds that sheet's element. */
  lemma {:induction false} NamesHeld(sheets: seq<SheetNode>)
    requires MultiSheet(sheets).Some?
    ensures var names := Lookup(MultiSheet(sheets).value, ":names");
      names.Some? && (names.value.JArr? <==> sheets == [] || NameKey(sheets[|sheets| - 1]) != ":names")
  {
    if sheets != [] {
      var n := |sheets| - 1;
      var init := sheets[..n];
      assert MultiSheet(init).Some?;
      NamesHeld(init);
    }
  }

  /** The four properties of a sheet's element, read back by name. */
  lemma {:induction false} TableFieldsLookup(s: SheetNode)
    ensures var t := TableFields(s);
      Lookup(t, "total") == Some(AttrValue(s.total)) && Lookup(t, "offset") == Some(AttrValue(s.offset))
      && Lookup(t, "limit") == Some(AttrValue(s.limit)) && Lookup(t, "data") == Some(JArr(DecodeRows(s.rows)))
  {
    var t := TableFields(s);
    assert DistinctKeys(t);
    LookupDistinct(t, 0);
    LookupDistinct(t, 1);
    LookupDistinct(t, 2);
    LookupDistinct(t, 3);
  }
}
