/**
  The JSON-to-HTML half of the tabular converter (`json2html` and its
  `createDataDiv`): every sheet of a parsed JSON document becomes a division of
  the page body, with one row division per data object and one span per key.
 */
module SheetHtml {
  import opened Wrappers
  import opened OrderedMaps
  import opened JsonValues

  /** A `span` with `data-type="col"`: its `key` attribute (`None` when the
      element has none) and its text. */
  datatype Col = Col(key: Option<string>, text: string)

  /** A `div` with `data-type="sheet"` directly inside the body: its `total`,
      `offset`, `limit` and `name` attributes, and for each `div` with
      `data-type="row"` inside it, that row's child elements in order. */
  datatype SheetNode = SheetNode(
    total: Option<string>, offset: Option<string>, limit: Option<string>, name: Option<string>,
    rows: seq<seq<Col>>)

  const DefaultName: string := "default"

  /** `setAttribute(name, v)` stores `String(v)`; an absent property is `undefined`. */
  function AttrText(v: Option<Json>): string
  {
    if v.None? then "undefined" else Text(v.value)
  }

  /** The spans of one row, from its `Object.keys` entries: the key as attribute,
      the value's text as content. */
  function ColsOf(entries: seq<(string, Json)>): (r: seq<Col>)
    ensures |r| == |entries|
  {
    if entries == [] then []
    else
      var last := entries[|entries| - 1];
      ColsOf(entries[..|entries| - 1]) + [Col(Some(last.0), TextContent(last.1))]
  }

  /** The spans of the row built from a data element; `None` where `Object.keys` throws. */
  function RowOf(item: Json): Option<seq<Col>>
  {
    var entries := Entries(item);
    if entries.None? then None else Some(ColsOf(entries.value))
  }

  /** The rows built from the data elements, in order; `None` when one of them throws. */
  function RowsOf(items: seq<Json>): Option<seq<seq<Col>>>
  {
    Collect(RowOf, items)
  }

  /** The elements the row loop visits under `data && data.length > 0`: those of a
      non-empty array, none for a falsy or length-less value; a non-empty string
      passes the test and then throws, having no `forEach`. */
  function DataItems(data: Option<Json>): (r: Option<seq<Json>>)
    ensures r.None? <==> data.Some? && data.value.JStr? && data.value.s != ""
  {
    if data.None? then Some([])
    else match data.value
      case JArr(items) => Some(items)
      case JStr(s) => if s != "" then None else Some([])
      case _ => Some([])
  }

  /** `createDataDiv(dataJson, name)`: the sheet division it appends, or `None`
      when it throws (destructuring `undefined` or `null`, or a row that throws). */
  function SheetOf(dataJson: Option<Json>, name: string): Option<SheetNode>
  {
    if dataJson.None? || dataJson.value.JNull? then None
    else
      var d := dataJson.value;
      var items := DataItems(Get(d, "data"));
      if items.None? then None
      else
        var rows := RowsOf(items.value);
        if rows.None? then None
        else Some(SheetNode(Some(AttrText(Get(d, "total"))), Some(AttrText(Get(d, "offset"))),
                            Some(AttrText(Get(d, "limit"))), Some(name), rows.value))
  }

  /** The test choosing the multi-sheet branch: `:type` is the string
      `multi-sheet` and `:names` is truthy. */
  predicate IsMultiSheet(json: Json)
  {
    Get(json, ":type") == Some(JStr("multi-sheet"))
    && Get(json, ":names").Some? && Truthy(Get(json, ":names").value)
  }

  /** The sheets of the multi-sheet branch, one per name in order, each from the
      property of `json` the name designates. */
  function NamedSheets(json: Json, names: seq<Json>): Option<seq<SheetNode>>
  {
    Collect(name => SheetFor(json, name), names)
  }

  /** `createDataDiv(json[name], name)`, the property key and the attribute both
      being `String(name)`. */
  function SheetFor(json: Json, name: Json): Option<SheetNode>
  {
    SheetOf(Get(json, Text(name)), Text(name))
  }

  /** `json2html` on a parsed document: the sheet divisions of the body, or `None`
      when it throws (reading `:type` of `null`, a truthy `:names` that is not an
      array, or a sheet that throws). The page is left as a tree; its
      serialisation is not modelled. */
  function Encode(json: Json): (r: Option<seq<SheetNode>>)
    ensures json.JNull? ==> r.None?
    ensures r.Some? && !IsMultiSheet(json) ==> |r.value| == 1 && r.value[0].name == Some(DefaultName)
    ensures r.Some? && IsMultiSheet(json) ==>
      var names := Get(json, ":names").value;
      names.JArr? && |r.value| == |names.items|
      && forall i :: 0 <= i < |names.items| ==> r.value[i].name == Some(Text(names.items[i]))
  {
    if json.JNull? then None
    else if IsMultiSheet(json) then
      var names := Get(json, ":names").value;
      if names.JArr? then
        NamedSheetsNames(json, names.items);
        NamedSheets(json, names.items)
      else None
    else
      var sheet := SheetOf(Some(json), DefaultName);
      if sheet.None? then None else Some([sheet.value])
  }

  // ---------------------------------------------------------------------------
  // The converter, step by step

  /** The page the converter writes into: the sheet divisions appended to its body. */
  class HtmlDocument {
    var body: seq<SheetNode>

    constructor()
      ensures body == []
    {
      body := [];
    }

    /** `createDataDiv`: on success the sheet division is appended to the body;
        when it throws, the body is left as it was. */
    method CreateDataDiv(dataJson: Option<Json>, name: string) returns (ok: bool)
      modifies this
      ensures ok <==> SheetOf(dataJson, name).Some?
      ensures body == if ok then old(body) + [SheetOf(dataJson, name).value] else old(body)
    {
      if dataJson.None? || dataJson.value.JNull? {
        return false;
      }
      var d := dataJson.value;
      var items := DataItems(Get(d, "data"));
      if items.None? {
        return false;
      }
      var rowsOk, rows := BuildRows(items.value);
      if !rowsOk {
        return false;
      }
      var div := SheetNode(Some(AttrText(Get(d, "total"))), Some(AttrText(Get(d, "offset"))),
                           Some(AttrText(Get(d, "limit"))), Some(name), rows);
      body := body + [div];
      return true;
    }
  }

  /** The row loop of `createDataDiv`. */
  method BuildRows(items: seq<Json>) returns (ok: bool, rows: seq<seq<Col>>)
    ensures ok <==> RowsOf(items).Some?
    ensures ok ==> rows == RowsOf(items).value
  {
    rows := [];
    var i := 0;
    while i < |items|
      invariant 0 <= i <= |items|
      invariant Collect(RowOf, items[..i]) == Some(rows)
    {
      CollectSnoc(RowOf, items, i);
      var entries := Entries(items[i]);
      if entries.None? {
        CollectStopped(RowOf, items, i + 1);
        return false, [];
      }
      var cols := BuildCols(entries.value);
      rows := rows + [cols];
      i := i + 1;
    }
    assert items[..i] == items;
    return true, rows;
  }

  /** The span loop of one row. */
  method BuildCols(entries: seq<(string, Json)>) returns (cols: seq<Col>)
    ensures cols == ColsOf(entries)
  {
    cols := [];
    var j := 0;
    while j < |entries|
      invariant 0 <= j <= |entries|
      invariant cols == ColsOf(entries[..j])
    {
      assert entries[..j + 1][..j] == entries[..j];
      var (key, value) := entries[j];
      cols := cols + [Col(Some(key), TextContent(value))];
      j := j + 1;
    }
    assert entries[..j] == entries;
  }

  /** `json2html` after the fetch and the parse. */
  method Json2Html(json: Json) returns (r: Option<seq<SheetNode>>)
    ensures r == Encode(json)
  {
    if json.JNull? {
      return None;
    }
    var document := new HtmlDocument();
    if IsMultiSheet(json) {
      var names := Get(json, ":names").value;
      if !names.JArr? {
        return None;
      }
      r := WriteNamedSheets(document, json, names.items);
      assert r == Encode(json);
    } else {
      assert document.body == [];
      var ok := document.CreateDataDiv(Some(json), DefaultName);
      assert ok ==> document.body == [SheetOf(Some(json), DefaultName).value];
      r := if ok then Some(document.body) else None;
      assert r == Encode(json);
    }
  }

  /** The `forEach` over `:names`, writing into a fresh page. */
  method WriteNamedSheets(document: HtmlDocument, json: Json, names: seq<Json>) returns (r: Option<seq<SheetNode>>)
    requires document.body == []
    modifies document
    ensures r == NamedSheets(json, names)
    ensures r.Some? ==> document.body == r.value
    ensures r.None? ==>
      exists k :: 0 <= k < |names| && SheetFor(json, names[k]).None? && NamedSheets(json, names[..k]) == Some(document.body)
  {
    var i := 0;
    while i < |names|
      invariant 0 <= i <= |names|
      invariant NamedSheets(json, names[..i]) == Some(document.body)
    {
      var ok := WriteNamedSheet(document, json, names, i);
      if !ok {
        assert SheetFor(json, names[i]).None? && NamedSheets(json, names[..i]) == Some(document.body);
        return None;
      }
      i := i + 1;
    }
    assert names[..i] == names;
    return Some(document.body);
  }

  /** The `forEach` body for the name at position `i`: `createDataDiv(json[name], name)`. */
  method WriteNamedSheet(document: HtmlDocument, json: Json, names: seq<Json>, i: nat) returns (ok: bool)
    requires i < |names| && NamedSheets(json, names[..i]) == Some(document.body)
    modifies document
    ensures ok ==> NamedSheets(json, names[..i + 1]) == Some(document.body)
    ensures !ok ==> NamedSheets(json, names).None?
    ensures !ok ==> SheetFor(json, names[i]).None? && document.body == old(document.body)
  {
    NamedSheetsSnoc(json, names, i);
    var name := Text(names[i]);
    ok := document.CreateDataDiv(Get(json, name), name);
    if !ok {
      NamedSheetsStopped(json, names, i + 1);
    }
  }

  /** One more name of the `forEach`. */
  lemma {:induction false} NamedSheetsSnoc(json: Json, names: seq<Json>, i: nat)
    requires i < |names|
    ensures var before := NamedSheets(json, names[..i]); var more := SheetFor(json, names[i]);
      NamedSheets(json, names[..i + 1]) ==
        if before.None? || more.None? then None else Some(before.value + [more.value])
  {
    CollectSnoc(name => SheetFor(json, name), names, i);
  }

  /** A sheet that throws ends the `forEach`, and `json2html` with it. */
  lemma {:induction false} NamedSheetsStopped(json: Json, names: seq<Json>, k: nat)
    requires 0 < k <= |names| && NamedSheets(json, names[..k]).None?
    ensures NamedSheets(json, names).None?
  {
    CollectStopped(name => SheetFor(json, name), names, k);
  }

  // ---------------------------------------------------------------------------
  // Properties

  /** One span per entry, in order: the key as its `key` attribute and the value's
      text as its content. */
  lemma {:induction false} ColsOfShape(entries: seq<(string, Json)>)
    ensures |ColsOf(entries)| == |entries|
    ensures forall i :: 0 <= i < |entries| ==>
      ColsOf(entries)[i] == Col(Some(entries[i].0), TextContent(entries[i].1))
  {
    if entries != [] {
      ColsOfShape(entries[..|entries| - 1]);
    }
  }

  /** The rows are built unless a data element is `null`, and then there is one
      row per element, each that element's spans. */
  lemma {:induction false} RowsOfShape(items: seq<Json>)
    ensures RowsOf(items).Some? <==> forall i :: 0 <= i < |items| ==> !items[i].JNull?
    ensures RowsOf(items).Some? ==>
      |RowsOf(items).value| == |items|
      && forall i :: 0 <= i < |items| ==> RowsOf(items).value[i] == ColsOf(Entries(items[i]).value)
  {
    CollectShape(RowOf, items);
  }

  /** The multi-sheet branch succeeds exactly when every named sheet does, and
      then gives one sheet per name, in order, carrying that name. */
  lemma {:induction false} NamedSheetsShape(json: Json, names: seq<Json>)
    ensures NamedSheets(json, names).Some? <==>
      forall i :: 0 <= i < |names| ==> SheetFor(json, names[i]).Some?
    ensures NamedSheets(json, names).Some? ==>
      |NamedSheets(json, names).value| == |names|
      && forall i :: 0 <= i < |names| ==>
        NamedSheets(json, names).value[i] == SheetFor(json, names[i]).value
  {
    CollectShape(name => SheetFor(json, name), names);
  }

  /** The named sheets carry the names' texts, in order. */
  lemma {:induction false} NamedSheetsNames(json: Json, names: seq<Json>)
    ensures NamedSheets(json, names).Some? ==>
      |NamedSheets(json, names).value| == |names|
      && forall i :: 0 <= i < |names| ==> NamedSheets(json, names).value[i].name == Some(Text(names[i]))
  {
    NamedSheetsShape(json, names);
    if NamedSheets(json, names).Some? {
      forall i | 0 <= i < |names| ensures NamedSheets(json, names).value[i].name == Some(Text(names[i])) {
        SheetOfShape(Get(json, Text(names[i])), Text(names[i]));
      }
    }
  }

  /** A sheet division carries the three attributes as text and the given name,
      and has one row per element of a non-empty array `data`, none otherwise. */
  lemma {:induction false} SheetOfShape(dataJson: Option<Json>, name: string)
    requires SheetOf(dataJson, name).Some?
    ensures var d := dataJson.value; var s := SheetOf(dataJson, name).value;
      s.total == Some(AttrText(Get(d, "total"))) && s.offset == Some(AttrText(Get(d, "offset")))
      && s.limit == Some(AttrText(Get(d, "limit"))) && s.name == Some(name)
      && (if Get(d, "data").Some? && Get(d, "data").value.JArr?
          then |s.rows| == |Get(d, "data").value.items|
          else s.rows == [])
  {
    var d := dataJson.value;
    var items := DataItems(Get(d, "data")).value;
    RowsOfShape(items);
  }
}
