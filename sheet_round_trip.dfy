/**
  The two halves of the tabular converter composed: a JSON document written as
  sheet divisions and read back, and sheet divisions read as JSON and written
  again.
 */
module SheetRoundTrip {
  import opened Wrappers
  import opened OrderedMaps
  import opened JsonValues
  import opened SheetHtml
  import opened SheetJson

  // ---------------------------------------------------------------------------
  // JSON to HTML to JSON

  /** Every value of a row replaced by its text: what a row object becomes once
      written as spans and read back. */
  function TextFields(entries: seq<(string, Json)>): (r: Fields)
    ensures |r| == |entries| && forall i :: 0 <= i < |r| ==> r[i] == (entries[i].0, JStr(TextContent(entries[i].1)))
  {
    seq(|entries|, i requires 0 <= i < |entries| => (entries[i].0, JStr(TextContent(entries[i].1))))
  }

  /** A data element that becomes a row, with the distinct keys a parsed object has. */
  predicate RowValue(item: Json)
  {
    !item.JNull? && (item.JObj? ==> DistinctKeys(item.fields))
  }

  /** A sheet object the writer accepts: not `null`, and a `data` that is not a
      non-empty string and whose elements are all rows. */
  predicate SheetValue(d: Json)
  {
    !d.JNull?
    && DataItems(Get(d, "data")).Some?
    && forall i :: 0 <= i < |DataItems(Get(d, "data")).value| ==> RowValue(DataItems(Get(d, "data")).value[i])
  }

  /** The `data` array that comes back: each element's entries, as text. */
  function TextRows(items: seq<Json>): (r: seq<Json>)
    requires forall i :: 0 <= i < |items| ==> RowValue(items[i])
    ensures |r| == |items|
    ensures forall i :: 0 <= i < |r| && RowValue(items[i]) ==> r[i] == JObj(TextFields(Entries(items[i]).value))
  {
    seq(|items|, i requires 0 <= i < |items| && RowValue(items[i]) => JObj(TextFields(Entries(items[i]).value)))
  }

  /** The element a sheet object comes back as: the three attributes as the text
      `setAttribute` stored, and the rows as text. */
  function TextTable(d: Json): Fields
    requires SheetValue(d)
  {
    [("total", JStr(AttrText(Get(d, "total")))), ("offset", JStr(AttrText(Get(d, "offset")))),
     ("limit", JStr(AttrText(Get(d, "limit")))), ("data", JArr(TextRows(DataItems(Get(d, "data")).value)))]
  }

  lemma {:induction false} EntriesDistinct(item: Json)
    requires RowValue(item)
    ensures DistinctKeys(Entries(item).value)
  {
    var es := Entries(item).value;
    forall i, j | 0 <= i < j < |es| ensures es[i].0 != es[j].0 {
      if item.JArr? || item.JStr? {
        if es[i].0 == es[j].0 {
          assert es[i].0 == NatText(i) && es[j].0 == NatText(j);
          NatTextInjective(i, j);
        }
      }
    }
  }

  /** A row with distinct keys written as spans and read back is the row with
      each value replaced by its text, keys in the same order. */
  lemma {:induction false} RowRoundTrip(entries: seq<(string, Json)>)
    requires DistinctKeys(entries)
    ensures DecodeRow(ColsOf(entries)) == TextFields(entries)
  {
    if entries != [] {
      var n := |entries| - 1;
      var init := entries[..n];
      var last := entries[n];
      DistinctInit(entries);
      RowRoundTrip(init);
      var c := Col(Some(last.0), TextContent(last.1));
      assert ColsOf(entries) == ColsOf(init) + [c];
      DecodeRowSnoc(ColsOf(init), c);
      LookupAbsent(TextFields(init), last.0);
      SetKeyNew(TextFields(init), last.0, JStr(c.text));
      TextFieldsSnoc(entries);
    }
  }

  lemma {:induction false} TextFieldsSnoc(entries: seq<(string, Json)>)
    requires entries != []
    ensures var n := |entries| - 1;
      TextFields(entries) == TextFields(entries[..n]) + [(entries[n].0, JStr(TextContent(entries[n].1)))]
  {
    var n := |entries| - 1;
    var r := TextFields(entries[..n]) + [(entries[n].0, JStr(TextContent(entries[n].1)))];
    assert forall i :: 0 <= i < n ==> entries[..n][i] == entries[i];
    assert TextFields(entries) == r;
  }

  lemma {:induction false} DistinctInit(entries: seq<(string, Json)>)
    requires entries != [] && DistinctKeys(entries)
    ensures DistinctKeys(entries[..|entries| - 1])
    ensures forall j :: 0 <= j < |entries| - 1 ==> entries[j].0 != entries[|entries| - 1].0
  {
    var init := entries[..|entries| - 1];
    assert forall j :: 0 <= j < |init| ==> init[j] == entries[j];
  }

  lemma {:induction false} DecodeRowSnoc(cols: seq<Col>, c: Col)
    ensures DecodeRow(cols + [c]) == SetKey(DecodeRow(cols), ColKey(c), JStr(c.text))
  {
    assert (cols + [c])[..|cols|] == cols;
  }

  lemma {:induction false} DecodeRowsShape(rows: seq<seq<Col>>)
    ensures forall i :: 0 <= i < |rows| ==> DecodeRows(rows)[i] == JObj(DecodeRow(rows[i]))
  {
    if rows != [] {
      var init := rows[..|rows| - 1];
      DecodeRowsShape(init);
      assert forall i :: 0 <= i < |init| ==> init[i] == rows[i];
    }
  }

  /** The rows of a sheet object come back as text. */
  lemma {:induction false} DataRoundTrip(items: seq<Json>)
    requires forall i :: 0 <= i < |items| ==> RowValue(items[i])
    ensures RowsOf(items).Some?
    ensures DecodeRows(RowsOf(items).value) == TextRows(items)
  {
    RowsOfShape(items);
    var rows := RowsOf(items).value;
    DecodeRowsShape(rows);
    forall i | 0 <= i < |items| ensures DecodeRows(rows)[i] == TextRows(items)[i] {
      EntriesDistinct(items[i]);
      RowRoundTrip(Entries(items[i]).value);
    }
  }

  /** A sheet object written as a division and read back is its text table. */
  lemma {:induction false} SheetRoundTrip(d: Json, name: string)
    requires SheetValue(d)
    ensures SheetOf(Some(d), name).Some?
    ensures TableFields(SheetOf(Some(d), name).value) == TextTable(d)
  {
    DataRoundTrip(DataItems(Get(d, "data")).value);
  }

  /** A single-sheet document comes back as one `sheet`: its attributes as text,
      its rows with every value as text. */
  lemma {:induction false} JsonRoundTripSingle(json: Json)
    requires !IsMultiSheet(json) && SheetValue(json)
    ensures Encode(json).Some? && |Encode(json).value| == 1
    ensures Decode(Encode(json).value) == Some(JObj(Header(SingleType) + TextTable(json)))
  {
    SheetRoundTrip(json, DefaultName);
  }

  /** The names of a multi-sheet document that round-trip: distinct texts, none
      of them a key the reader reserves, and none `__proto__`. */
  predicate PlainNameList(names: seq<Json>)
  {
    (forall i, j :: 0 <= i < j < |names| ==> Text(names[i]) != Text(names[j]))
    && forall i :: 0 <= i < |names| ==>
      Text(names[i]) != ":names" && Text(names[i]) != ":type" && Text(names[i]) != "__proto__"
  }

  /** A document that takes the multi-sheet branch and whose every name designates
      a sheet object. */
  predicate MultiSheetValue(json: Json)
  {
    IsMultiSheet(json) && Get(json, ":names").value.JArr?
    && var names := Get(json, ":names").value.items;
    PlainNameList(names)
    && forall i :: 0 <= i < |names| ==>
      Get(json, Text(names[i])).Some? && SheetValue(Get(json, Text(names[i])).value)
  }

  /** The names as the texts `String(name)` gives. */
  function TextNames(names: seq<Json>): (r: seq<Json>)
    ensures |r| == |names| && forall i :: 0 <= i < |names| ==> r[i] == JStr(Text(names[i]))
  {
    if names == [] then [] else TextNames(names[..|names| - 1]) + [JStr(Text(names[|names| - 1]))]
  }

  /** A multi-sheet document with other than one name comes back as a
      `multi-sheet` listing the names as text, each designating its text table. */
  lemma {:induction false} JsonRoundTripMulti(json: Json)
    requires MultiSheetValue(json)
    requires |Get(json, ":names").value.items| != 1
    ensures Encode(json).Some?
    ensures var back := Decode(Encode(json).value); var names := Get(json, ":names").value.items;
      back.Some? && back.value.JObj?
      && Get(back.value, ":type") == Some(JStr(MultiType))
      && Get(back.value, ":names") == Some(JArr(TextNames(names)))
      && forall i :: 0 <= i < |names| ==>
        Get(back.value, Text(names[i])) == Some(JObj(TextTable(Get(json, Text(names[i])).value)))
  {
    var names := Get(json, ":names").value.items;
    WrittenNames(json);
    var sheets := NamedSheets(json, names).value;
    EncodeMulti(json.fields, names);
    MultiSheetNames(sheets);
    forall i | 0 <= i < |names|
      ensures Lookup(MultiSheet(sheets).value, Text(names[i])) == Some(JObj(TextTable(Get(json, Text(names[i])).value)))
    {
      StoredUnderName(json, i);
    }
  }

  /** The name attributes of the written divisions are the names' texts. */
  lemma {:induction false} WrittenNames(json: Json)
    requires MultiSheetValue(json)
    ensures var names := Get(json, ":names").value.items;
      NamedSheets(json, names).Some? && |NamedSheets(json, names).value| == |names|
      && PlainNames(NamedSheets(json, names).value)
      && NamesOf(NamedSheets(json, names).value) == TextNames(names)
  {
    var names := Get(json, ":names").value.items;
    WrittenSheets(json);
    var sheets := NamedSheets(json, names).value;
    assert forall i :: 0 <= i < |names| ==> NamesOf(sheets)[i] == TextNames(names)[i];
  }

  /** The divisions a multi-sheet document writes: one per name, carrying the
      name's text, holding what reads back as the name's text table. */
  lemma {:induction false} WrittenSheets(json: Json)
    requires MultiSheetValue(json)
    ensures var names := Get(json, ":names").value.items; var r := NamedSheets(json, names);
      r.Some? && |r.value| == |names| && PlainNames(r.value)
      && forall i :: 0 <= i < |names| ==>
        r.value[i].name == Some(Text(names[i])) && NameKey(r.value[i]) == Text(names[i])
        && TableFields(r.value[i]) == TextTable(Get(json, Text(names[i])).value)
  {
    var names := Get(json, ":names").value.items;
    forall i | 0 <= i < |names| ensures SheetFor(json, names[i]).Some? {
      SheetRoundTrip(Get(json, Text(names[i])).value, Text(names[i]));
    }
    NamedSheetsShape(json, names);
    var sheets := NamedSheets(json, names).value;
    forall i | 0 <= i < |names|
      ensures sheets[i].name == Some(Text(names[i])) && NameKey(sheets[i]) == Text(names[i])
        && TableFields(sheets[i]) == TextTable(Get(json, Text(names[i])).value)
    {
      SheetOfShape(Get(json, Text(names[i])), Text(names[i]));
      SheetRoundTrip(Get(json, Text(names[i])).value, Text(names[i]));
    }
  }

  lemma {:induction false} StoredUnderName(json: Json, i: nat)
    requires MultiSheetValue(json)
    requires i < |Get(json, ":names").value.items|
    ensures var names := Get(json, ":names").value.items;
      NamedSheets(json, names).Some? && MultiSheet(NamedSheets(json, names).value).Some?
      && Lookup(MultiSheet(NamedSheets(json, names).value).value, Text(names[i])) == Some(JObj(TextTable(Get(json, Text(names[i])).value)))
  {
    var names := Get(json, ":names").value.items;
    WrittenSheets(json);
    var sheets := NamedSheets(json, names).value;
    assert forall l :: i < l < |sheets| ==> NameKey(sheets[l]) != NameKey(sheets[i]) by {
      assert forall l :: i < l < |names| ==> Text(names[l]) != Text(names[i]);
    }
    MultiSheetStored(sheets, i);
  }

  /** A multi-sheet document with exactly one name writes one division, which
      reads back as a single `sheet` with no names. */
  lemma {:induction false} OneNameCollapses(json: Json)
    requires MultiSheetValue(json)
    requires |Get(json, ":names").value.items| == 1
    ensures Encode(json).Some? && |Encode(json).value| == 1
    ensures Decode(Encode(json).value).Some?
    ensures var back := Decode(Encode(json).value).value;
      Get(back, ":type") == Some(JStr(SingleType)) && Get(back, ":names") == Some(JArr([]))
  {
    var names := Get(json, ":names").value.items;
    SheetRoundTrip(Get(json, Text(names[0])).value, Text(names[0]));
    NamedSheetsShape(json, names);
    var sheet := Encode(json).value[0];
    LookupAppend(Header(SingleType), TableFields(sheet), ":type");
    LookupAppend(Header(SingleType), TableFields(sheet), ":names");
  }

  // ---------------------------------------------------------------------------
  // HTML to JSON to HTML

  /** A row whose every column has a `key` attribute, all different, none an
      array index (an object would list those keys first) and none `__proto__`
      (whose assignment stores nothing). */
  predicate PlainRow(cols: seq<Col>)
  {
    (forall j :: 0 <= j < |cols| ==>
      cols[j].key.Some? && !ArrayIndexKey(cols[j].key.value) && cols[j].key.value != "__proto__")
    && forall j, l :: 0 <= j < l < |cols| ==> cols[j].key != cols[l].key
  }

  /** A sheet division with all four attributes and plain rows. */
  predicate PlainSheet(s: SheetNode)
  {
    s.total.Some? && s.offset.Some? && s.limit.Some? && s.name.Some?
    && forall i :: 0 <= i < |s.rows| ==> PlainRow(s.rows[i])
  }

  /** The pairs of a row read column by column, before any key is merged. */
  function ColFields(cols: seq<Col>): (r: Fields)
    ensures |r| == |cols| && forall j :: 0 <= j < |cols| ==> r[j] == (ColKey(cols[j]), JStr(cols[j].text))
  {
    if cols == [] then []
    else ColFields(cols[..|cols| - 1]) + [(ColKey(cols[|cols| - 1]), JStr(cols[|cols| - 1].text))]
  }

  lemma {:induction false} PlainRowInit(cols: seq<Col>)
    requires cols != [] && PlainRow(cols)
    ensures PlainRow(cols[..|cols| - 1])
    ensures forall j :: 0 <= j < |cols| - 1 ==> ColKey(cols[j]) != ColKey(cols[|cols| - 1])
  {
    var init := cols[..|cols| - 1];
    assert forall j :: 0 <= j < |init| ==> init[j] == cols[j];
  }

  lemma {:induction false} PlainRowDecoded(cols: seq<Col>)
    requires PlainRow(cols)
    ensures DecodeRow(cols) == ColFields(cols)
  {
    if cols != [] {
      var n := |cols| - 1;
      var init := cols[..n];
      var c := cols[n];
      PlainRowInit(cols);
      PlainRowDecoded(init);
      LookupAbsent(ColFields(init), ColKey(c));
      SetKeyNew(DecodeRow(init), ColKey(c), JStr(c.text));
    }
  }

  /** A plain row read as an object and written again gives the same spans. */
  lemma {:induction false} RowBack(cols: seq<Col>)
    requires PlainRow(cols)
    ensures ColsOf(DecodeRow(cols)) == cols
  {
    PlainRowDecoded(cols);
    ColsOfShape(DecodeRow(cols));
  }

  lemma {:induction false} RowsBack(rows: seq<seq<Col>>)
    requires forall i :: 0 <= i < |rows| ==> PlainRow(rows[i])
    ensures RowsOf(DecodeRows(rows)) == Some(rows)
  {
    var items := DecodeRows(rows);
    DecodeRowsShape(rows);
    RowsOfShape(items);
    var back := RowsOf(items).value;
    forall i | 0 <= i < |rows| ensures back[i] == rows[i] {
      RowBack(rows[i]);
    }
    assert back == rows;
  }

  /** Keys that are none of the four a sheet's element has. */
  predicate NoTableKeys(pre: Fields)
  {
    forall i :: 0 <= i < |pre| ==> pre[i].0 != "total" && pre[i].0 != "offset" && pre[i].0 != "limit" && pre[i].0 != "data"
  }

  /** A plain sheet read as an element and written again under `name` is the
      same division carrying that name. */
  lemma {:induction false} SheetBack(pre: Fields, s: SheetNode, name: string)
    requires PlainSheet(s) && NoTableKeys(pre)
    ensures SheetOf(Some(JObj(pre + TableFields(s))), name) == Some(s.(name := Some(name)))
  {
    RowsBack(s.rows);
    FieldsBack(pre, s, name);
  }

  /** The attributes of a sheet's element read back, given that its rows do. */
  lemma {:induction false} FieldsBack(pre: Fields, s: SheetNode, name: string)
    requires s.total.Some? && s.offset.Some? && s.limit.Some? && NoTableKeys(pre)
    requires RowsOf(DecodeRows(s.rows)) == Some(s.rows)
    ensures SheetOf(Some(JObj(pre + TableFields(s))), name) == Some(s.(name := Some(name)))
  {
    var t := TableFields(s);
    var d := JObj(pre + t);
    TableFieldsLookup(s);
    LookupBehind(pre, t, "total");
    LookupBehind(pre, t, "offset");
    LookupBehind(pre, t, "limit");
    LookupBehind(pre, t, "data");
    assert DataItems(Get(d, "data")) == Some(DecodeRows(s.rows));
    assert AttrText(Get(d, "total")) == s.total.value;
    assert AttrText(Get(d, "offset")) == s.offset.value;
    assert AttrText(Get(d, "limit")) == s.limit.value;
  }

  /** A single plain sheet division read as JSON and written again is the same
      division, renamed `default`. */
  lemma {:induction false} HtmlRoundTripSingle(s: SheetNode)
    requires PlainSheet(s)
    ensures Decode([s]).Some?
    ensures Encode(Decode([s]).value) == Some([s.(name := Some(DefaultName))])
  {
    var pre := Header(SingleType);
    assert NoTableKeys(pre);
    SheetBack(pre, s, DefaultName);
    LookupAppend(pre, TableFields(s), ":type");
  }

  lemma {:induction false} NamedSheetBack(sheets: seq<SheetNode>, i: nat)
    requires i < |sheets|
    requires forall j :: 0 <= j < |sheets| ==> PlainSheet(sheets[j])
    requires PlainNames(sheets)
    requires forall j, l :: 0 <= j < l < |sheets| ==> sheets[j].name != sheets[l].name
    ensures MultiSheet(sheets).Some?
    ensures SheetFor(JObj(MultiSheet(sheets).value), NamesOf(sheets)[i]) == Some(sheets[i])
  {
    MultiSheetStored(sheets, i);
    var s := sheets[i];
    assert Text(NamesOf(sheets)[i]) == NameKey(s);
    assert PlainSheet(s);
    StoredSheetBack(MultiSheet(sheets).value, NamesOf(sheets)[i], s);
  }

  /** A name designating a plain division's element gives that division, named by
      the name's text. */
  lemma {:induction false} StoredSheetBack(m: Fields, name: Json, s: SheetNode)
    requires PlainSheet(s)
    requires Lookup(m, Text(name)) == Some(JObj(TableFields(s)))
    ensures SheetFor(JObj(m), name) == Some(s.(name := Some(Text(name))))
  {
    assert NoTableKeys([]);
    SheetBack([], s, Text(name));
    assert [] + TableFields(s) == TableFields(s);
  }

  /** Each division stored by the reader, fetched again under its name, is the
      division itself. */
  lemma {:induction false} NamedSheetsBack(sheets: seq<SheetNode>)
    requires forall i :: 0 <= i < |sheets| ==> PlainSheet(sheets[i])
    requires PlainNames(sheets)
    requires forall i, j :: 0 <= i < j < |sheets| ==> sheets[i].name != sheets[j].name
    ensures MultiSheet(sheets).Some?
    ensures NamedSheets(JObj(MultiSheet(sheets).value), NamesOf(sheets)) == Some(sheets)
  {
    MultiSheetNames(sheets);
    var json := JObj(MultiSheet(sheets).value);
    var names := NamesOf(sheets);
    forall i | 0 <= i < |sheets| ensures SheetFor(json, names[i]) == Some(sheets[i]) {
      NamedSheetBack(sheets, i);
    }
    NamedSheetsShape(json, names);
    assert NamedSheets(json, names).value == sheets;
  }

  /** Plain sheet divisions, other than exactly one, with distinct names that
      the reader does not reserve: read as JSON and written again, they are the
      same divisions. */
  lemma {:induction false} HtmlRoundTripMulti(sheets: seq<SheetNode>)
    requires |sheets| != 1
    requires forall i :: 0 <= i < |sheets| ==> PlainSheet(sheets[i])
    requires PlainNames(sheets)
    requires forall i, j :: 0 <= i < j < |sheets| ==> sheets[i].name != sheets[j].name
    ensures Decode(sheets).Some?
    ensures Encode(Decode(sheets).value) == Some(sheets)
  {
    MultiSheetNames(sheets);
    NamedSheetsBack(sheets);
    EncodeMulti(MultiSheet(sheets).value, NamesOf(sheets));
  }

  /** An object typed `multi-sheet` with an array of names is written name by name. */
  lemma {:induction false} EncodeMulti(m: Fields, names: seq<Json>)
    requires Lookup(m, ":type") == Some(JStr(MultiType)) && Lookup(m, ":names") == Some(JArr(names))
    ensures Encode(JObj(m)) == NamedSheets(JObj(m), names)
  {
  }
}
