/**
  The JSON-to-spreadsheet converter (`json2excel`): which worksheets a parsed
  JSON document gives, under which titles, and from which data rows.
 */
module Workbook {
  import opened Wrappers
  import opened OrderedMaps
  import opened JsonValues
  import opened SheetHtml
  import opened SheetJson

  /** A worksheet appended to the workbook: its title and the row objects
      `json_to_sheet` lays out. The cell layout itself is not modelled. */
  datatype Worksheet = Worksheet(title: string, rows: seq<Json>)

  const TitlePrefix: string := "helix-"
  const DefaultTitle: string := "helix-default"

  /** The title of the worksheet of a named sheet: `helix-${name}`. */
  function TitleOf(name: Json): string
  {
    TitlePrefix + Text(name)
  }

  /** The worksheets one sheet object contributes under `title`: one when its
      `data` is a non-empty array, none when `data` is falsy or has no length;
      `None` when destructuring `undefined` or `null` throws, or when a
      non-empty string reaches `json_to_sheet`. */
  function SheetData(x: Option<Json>, title: string): (r: Option<seq<Worksheet>>)
    ensures r.Some? ==> |r.value| <= 1
  {
    if x.None? || x.value.JNull? then None
    else
      var data := Get(x.value, "data");
      if data.Some? && data.value.JArr? && |data.value.items| > 0 then Some([Worksheet(title, data.value.items)])
      else if data.Some? && data.value.JStr? && data.value.s != "" then None
      else Some([])
  }

  /** The worksheets the `forEach` body adds for one name. */
  function WorksheetFor(json: Json, name: Json): Option<seq<Worksheet>>
  {
    SheetData(Get(json, Text(name)), TitleOf(name))
  }

  /** The sequences laid end to end. */
  function Flatten<T>(xss: seq<seq<T>>): seq<T>
  {
    if xss == [] then [] else Flatten(xss[..|xss| - 1]) + xss[|xss| - 1]
  }

  /** The worksheets of the multi-sheet branch, name by name. */
  function NamedWorksheets(json: Json, names: seq<Json>): Option<seq<Worksheet>>
  {
    var parts := Collect(name => WorksheetFor(json, name), names);
    if parts.None? then None else Some(Flatten(parts.value))
  }

  /** `json2excel` on a parsed document: the worksheets of the workbook it
      writes, or `None` when it throws (reading `:type` of `null`, a truthy
      `:names` that is not an array, or a sheet that throws). */
  function Sheets(json: Json): (r: Option<seq<Worksheet>>)
    ensures IsMultiSheet(json) && Get(json, ":names").value.JArr? && r.Some? ==>
      r.value == FilledSheets(json, Get(json, ":names").value.items)
    ensures !IsMultiSheet(json) ==> (r.None? <==> json.JNull? || StringData(json))
    ensures !IsMultiSheet(json) && r.Some? ==>
      r.value == if HasRows(json) then [Worksheet(DefaultTitle, Get(json, "data").value.items)] else []
  {
    if json.JNull? then None
    else if IsMultiSheet(json) then
      var names := Get(json, ":names").value;
      if names.JArr? then
        NamedWorksheetsInOrder(json, names.items);
        NamedWorksheets(json, names.items)
      else None
    else SheetData(Some(json), DefaultTitle)
  }

  // ---------------------------------------------------------------------------
  // The converter, step by step

  /** The workbook `book_new` creates and `book_append_sheet` extends. */
  class Book {
    var sheets: seq<Worksheet>

    constructor()
      ensures sheets == []
    {
      sheets := [];
    }

    /** `book_append_sheet(workbook, json_to_sheet(rows), title)`. */
    method AppendSheet(title: string, rows: seq<Json>)
      modifies this
      ensures sheets == old(sheets) + [Worksheet(title, rows)]
    {
      sheets := sheets + [Worksheet(title, rows)];
    }
  }

  /** The body shared by both branches: destructure `data` and append its
      worksheet when it is non-empty. */
  method AddSheetFrom(book: Book, x: Option<Json>, title: string) returns (ok: bool)
    modifies book
    ensures ok <==> SheetData(x, title).Some?
    ensures book.sheets == if ok then old(book.sheets) + SheetData(x, title).value else old(book.sheets)
  {
    if x.None? || x.value.JNull? {
      return false;
    }
    var data := Get(x.value, "data");
    if data.Some? && data.value.JArr? && |data.value.items| > 0 {
      book.AppendSheet(title, data.value.items);
    } else if data.Some? && data.value.JStr? && data.value.s != "" {
      return false;
    }
    return true;
  }

  /** `json2excel` after the parse; the file write is left out. */
  method Json2Excel(json: Json) returns (r: Option<seq<Worksheet>>)
    ensures r == Sheets(json)
  {
    if json.JNull? {
      return None;
    }
    var book := new Book();
    if IsMultiSheet(json) {
      var names := Get(json, ":names").value;
      if !names.JArr? {
        return None;
      }
      r := AddNamedSheets(book, json, names.items);
    } else {
      assert book.sheets == [];
      var ok := AddSheetFrom(book, Some(json), DefaultTitle);
      assert ok ==> book.sheets == SheetData(Some(json), DefaultTitle).value;
      r := if ok then Some(book.sheets) else None;
    }
  }

  /** The `forEach` over `:names`, into a fresh workbook. */
  method AddNamedSheets(book: Book, json: Json, names: seq<Json>) returns (r: Option<seq<Worksheet>>)
    requires book.sheets == []
    modifies book
    ensures r == NamedWorksheets(json, names)
    ensures r.Some? ==> book.sheets == r.value
    ensures r.None? ==>
      exists k :: 0 <= k < |names| && WorksheetFor(json, names[k]).None? && NamedWorksheets(json, names[..k]) == Some(book.sheets)
  {
    var i := 0;
    while i < |names|
      invariant 0 <= i <= |names|
      invariant NamedWorksheets(json, names[..i]) == Some(book.sheets)
    {
      var ok := AddNamedSheet(book, json, names, i);
      if !ok {
        assert WorksheetFor(json, names[i]).None? && NamedWorksheets(json, names[..i]) == Some(book.sheets);
        return None;
      }
      i := i + 1;
    }
    assert names[..i] == names;
    return Some(book.sheets);
  }

  /** The `forEach` body for the name at position `i`. */
  method AddNamedSheet(book: Book, json: Json, names: seq<Json>, i: nat) returns (ok: bool)
    requires i < |names| && NamedWorksheets(json, names[..i]) == Some(book.sheets)
    modifies book
    ensures ok ==> NamedWorksheets(json, names[..i + 1]) == Some(book.sheets)
    ensures !ok ==> NamedWorksheets(json, names).None?
    ensures !ok ==> WorksheetFor(json, names[i]).None? && book.sheets == old(book.sheets)
  {
    var name := names[i];
    NamedWorksheetsSnoc(json, names, i);
    ok := AddSheetFrom(book, Get(json, Text(name)), TitleOf(name));
    if !ok {
      NamedWorksheetsStopped(json, names, i + 1);
    }
  }

  // ---------------------------------------------------------------------------
  // Properties

  /** One more name of the `forEach`. */
  lemma {:induction false} NamedWorksheetsSnoc(json: Json, names: seq<Json>, i: nat)
    requires i < |names|
    ensures var before := NamedWorksheets(json, names[..i]); var more := WorksheetFor(json, names[i]);
      NamedWorksheets(json, names[..i + 1]) ==
        if before.None? || more.None? then None else Some(before.value + more.value)
  {
    var f := name => WorksheetFor(json, name);
    CollectSnoc(f, names, i);
    var parts := Collect(f, names[..i]);
    if parts.Some? && f(names[i]).Some? {
      FlattenSnoc(parts.value, f(names[i]).value);
    }
  }

  /** A name that throws ends the `forEach`, and `json2excel` with it. */
  lemma {:induction false} NamedWorksheetsStopped(json: Json, names: seq<Json>, k: nat)
    requires 0 < k <= |names| && NamedWorksheets(json, names[..k]).None?
    ensures NamedWorksheets(json, names).None?
  {
    CollectStopped(name => WorksheetFor(json, name), names, k);
  }

  lemma {:induction false} FlattenSnoc<T>(xss: seq<seq<T>>, xs: seq<T>)
    ensures Flatten(xss + [xs]) == Flatten(xss) + xs
  {
    assert (xss + [xs])[..|xss|] == xss;
  }

  /** An element of the sequences laid end to end is an element of one of them. */
  lemma {:induction false} FlattenMember<T>(xss: seq<seq<T>>, x: T)
    ensures x in Flatten(xss) <==> exists i :: 0 <= i < |xss| && x in xss[i]
  {
    if xss != [] {
      var n := |xss| - 1;
      var init := xss[..n];
      FlattenMember(init, x);
      assert forall i :: 0 <= i < n ==> init[i] == xss[i];
      if x in Flatten(xss) && x !in xss[n] {
        var i :| 0 <= i < n && x in init[i];
        assert x in xss[i];
      }
    }
  }

  /** A sheet object whose `data` is a non-empty array. */
  predicate HasRows(x: Json)
  {
    var data := Get(x, "data");
    data.Some? && data.value.JArr? && |data.value.items| > 0
  }

  /** A sheet object whose `data` is a non-empty string. */
  predicate StringData(x: Json)
  {
    var data := Get(x, "data");
    data.Some? && data.value.JStr? && data.value.s != ""
  }

  /** A name whose sheet object has a non-empty `data` array. */
  predicate Filled(json: Json, name: Json)
  {
    Get(json, Text(name)).Some? && HasRows(Get(json, Text(name)).value)
  }

  /** The worksheet of a filled name: its title, and its data rows unchanged. */
  function FilledSheet(json: Json, name: Json): Worksheet
    requires Filled(json, name)
  {
    Worksheet(TitleOf(name), Get(Get(json, Text(name)).value, "data").value.items)
  }

  /** The multi-sheet branch succeeds exactly when every name designates a sheet
      object whose `data` is not a non-empty string; its worksheets are then
      exactly those of the filled names. */
  lemma {:induction false} NamedWorksheetsShape(json: Json, names: seq<Json>)
    ensures NamedWorksheets(json, names).Some? <==> forall i :: 0 <= i < |names| ==> WorksheetFor(json, names[i]).Some?
    ensures NamedWorksheets(json, names).Some? ==>
      (forall i :: 0 <= i < |names| && Filled(json, names[i]) ==> FilledSheet(json, names[i]) in NamedWorksheets(json, names).value)
      && forall w :: w in NamedWorksheets(json, names).value ==>
        exists i :: 0 <= i < |names| && Filled(json, names[i]) && w == FilledSheet(json, names[i])
  {
    CollectShape(name => WorksheetFor(json, name), names);
    if NamedWorksheets(json, names).Some? {
      forall i | 0 <= i < |names| && Filled(json, names[i])
        ensures FilledSheet(json, names[i]) in NamedWorksheets(json, names).value
      {
        FilledPresent(json, names, i);
      }
      forall w | w in NamedWorksheets(json, names).value
        ensures exists i :: 0 <= i < |names| && Filled(json, names[i]) && w == FilledSheet(json, names[i])
      {
        PresentFilled(json, names, w);
      }
    }
  }

  /** The reference selection: one worksheet per filled name, in `:names` order,
      and none for the other names. */
  function FilledSheets(json: Json, names: seq<Json>): (r: seq<Worksheet>)
    ensures |r| <= |names|
  {
    if names == [] then []
    else
      var init := FilledSheets(json, names[..|names| - 1]);
      var last := names[|names| - 1];
      if Filled(json, last) then init + [FilledSheet(json, last)] else init
  }

  /** When the multi-sheet branch succeeds, its worksheets are exactly the filled
      names' worksheets, in `:names` order. */
  lemma {:induction false} NamedWorksheetsInOrder(json: Json, names: seq<Json>)
    ensures NamedWorksheets(json, names).Some? ==> NamedWorksheets(json, names).value == FilledSheets(json, names)
  {
    if names != [] {
      var n := |names| - 1;
      NamedWorksheetsInOrder(json, names[..n]);
      NamedWorksheetsSnoc(json, names, n);
      assert names[..n + 1] == names;
      if NamedWorksheets(json, names[..n]).None? {
        NamedWorksheetsStopped(json, names, n);
      }
    }
  }

  lemma {:induction false} FilledPresent(json: Json, names: seq<Json>, i: nat)
    requires i < |names| && Filled(json, names[i]) && NamedWorksheets(json, names).Some?
    ensures FilledSheet(json, names[i]) in NamedWorksheets(json, names).value
  {
    var f := name => WorksheetFor(json, name);
    CollectShape(f, names);
    var parts := Collect(f, names).value;
    assert parts[i] == [FilledSheet(json, names[i])];
    FlattenMember(parts, FilledSheet(json, names[i]));
  }

  lemma {:induction false} PresentFilled(json: Json, names: seq<Json>, w: Worksheet)
    requires NamedWorksheets(json, names).Some? && w in NamedWorksheets(json, names).value
    ensures exists i :: 0 <= i < |names| && Filled(json, names[i]) && w == FilledSheet(json, names[i])
  {
    var f := name => WorksheetFor(json, name);
    CollectShape(f, names);
    var parts := Collect(f, names).value;
    FlattenMember(parts, w);
    var i :| 0 <= i < |parts| && w in parts[i];
    assert parts[i] == WorksheetFor(json, names[i]).value;
    assert Filled(json, names[i]) && w == FilledSheet(json, names[i]);
  }

  // ---------------------------------------------------------------------------
  // The spreadsheet of what `html2json` reads

  /** The worksheets a sheet division ends up as, once read by `html2json` under
      its name and converted by `json2excel`: one when it has rows. */
  function ExcelPart(s: SheetNode, title: string): seq<Worksheet>
  {
    if s.rows != [] then [Worksheet(title, DecodeRows(s.rows))] else []
  }

  /** A page with one sheet division gives the `helix-default` worksheet of its
      rows, or none when it has no rows; its name is lost. */
  lemma {:induction false} ExcelOfOneSheet(s: SheetNode)
    ensures Decode([s]).Some?
    ensures Sheets(Decode([s]).value) == Some(ExcelPart(s, DefaultTitle))
  {
    var pre := Header(SingleType);
    var json := Decode([s]).value;
    TableFieldsLookup(s);
    LookupAppend(pre, TableFields(s), ":type");
    LookupBehind(pre, TableFields(s), "data");
    assert Get(json, "data") == Some(JArr(DecodeRows(s.rows)));
  }

  /** The worksheets of each sheet division read under its name. */
  function ExcelParts(sheets: seq<SheetNode>): (r: seq<seq<Worksheet>>)
    ensures |r| == |sheets|
    ensures forall i :: 0 <= i < |sheets| ==> r[i] == ExcelPart(sheets[i], TitlePrefix + NameKey(sheets[i]))
  {
    if sheets == [] then []
    else
      var s := sheets[|sheets| - 1];
      ExcelParts(sheets[..|sheets| - 1]) + [ExcelPart(s, TitlePrefix + NameKey(s))]
  }

  /** A page with other than one sheet division, the names distinct and none
      reserved, gives one `helix-<name>` worksheet per division that has rows,
      in page order. */
  lemma {:induction false} ExcelOfSheets(sheets: seq<SheetNode>)
    requires |sheets| != 1 && PlainNames(sheets)
    requires forall i, j :: 0 <= i < j < |sheets| ==> NameKey(sheets[i]) != NameKey(sheets[j])
    ensures Decode(sheets).Some?
    ensures Sheets(Decode(sheets).value) == Some(Flatten(ExcelParts(sheets)))
  {
    MultiSheetNames(sheets);
    StoredParts(sheets);
    ExcelMulti(MultiSheet(sheets).value, NamesOf(sheets));
  }

  lemma {:induction false} StoredParts(sheets: seq<SheetNode>)
    requires PlainNames(sheets)
    requires forall i, j :: 0 <= i < j < |sheets| ==> NameKey(sheets[i]) != NameKey(sheets[j])
    ensures MultiSheet(sheets).Some?
    ensures NamedWorksheets(JObj(MultiSheet(sheets).value), NamesOf(sheets)) == Some(Flatten(ExcelParts(sheets)))
  {
    MultiSheetNames(sheets);
    var json := JObj(MultiSheet(sheets).value);
    var names := NamesOf(sheets);
    var parts := ExcelParts(sheets);
    forall i | 0 <= i < |sheets| ensures WorksheetFor(json, names[i]) == Some(parts[i]) {
      StoredPart(sheets, i);
    }
    CollectAll(name => WorksheetFor(json, name), names, parts);
  }

  lemma {:induction false} StoredPart(sheets: seq<SheetNode>, i: nat)
    requires i < |sheets| && PlainNames(sheets)
    requires forall i, j :: 0 <= i < j < |sheets| ==> NameKey(sheets[i]) != NameKey(sheets[j])
    ensures MultiSheet(sheets).Some?
    ensures WorksheetFor(JObj(MultiSheet(sheets).value), NamesOf(sheets)[i])
      == Some(ExcelPart(sheets[i], TitlePrefix + NameKey(sheets[i])))
  {
    var s := sheets[i];
    MultiSheetStored(sheets, i);
    assert Text(NamesOf(sheets)[i]) == NameKey(s);
    StoredWorksheet(MultiSheet(sheets).value, NamesOf(sheets)[i], s);
  }

  /** A name designating a division's element converts to that division's rows. */
  lemma {:induction false} StoredWorksheet(m: Fields, name: Json, s: SheetNode)
    requires Lookup(m, Text(name)) == Some(JObj(TableFields(s)))
    ensures WorksheetFor(JObj(m), name) == Some(ExcelPart(s, TitleOf(name)))
  {
    TableFieldsLookup(s);
  }

  /** An object typed `multi-sheet` with an array of names is converted name by name. */
  lemma {:induction false} ExcelMulti(m: Fields, names: seq<Json>)
    requires Lookup(m, ":type") == Some(JStr(MultiType)) && Lookup(m, ":names") == Some(JArr(names))
    ensures Sheets(JObj(m)) == NamedWorksheets(JObj(m), names)
  {
  }

  /** A last sheet division named `:names` replaces the list of names with its
      element: `html2json` succeeds, and `json2excel` then throws on the
      `forEach` of that element. */
  lemma {:induction false} ReservedNameBreaksExcel(sheets: seq<SheetNode>)
    requires |sheets| >= 2 && NameKey(sheets[|sheets| - 1]) == ":names"
    requires UnreservedNames(sheets[..|sheets| - 1])
    ensures Decode(sheets).Some?
    ensures Sheets(Decode(sheets).value) == None
  {
    var n := |sheets| - 1;
    MultiSheetNames(sheets[..n]);
    MultiSheetStep(sheets, ":type");
    MultiSheetStep(sheets, ":names");
    ExcelNamesNotArray(MultiSheet(sheets).value);
  }

  /** An object typed `multi-sheet` whose `:names` is an object throws. */
  lemma {:induction false} ExcelNamesNotArray(m: Fields)
    requires Lookup(m, ":type") == Some(JStr(MultiType))
    requires Lookup(m, ":names").Some? && Lookup(m, ":names").value.JObj?
    ensures Sheets(JObj(m)) == None
  {
  }
}
