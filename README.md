# Localization helpers: DNT rules and tabular JSON conversion

This project models the core of a pair of localization helper scripts. It proves
properties of that model in Dafny.

**Do-not-translate (DNT) rules** (`htmlutils.js`):
- A rule list names page blocks, a row/column address and a pattern such as
  `equals(Foo || Bar)`.
- The rule compiler turns each comma-separated block scope of each rule into a CSS
  selector. It accumulates one match operation per scope in an insertion-ordered
  map from selector to operations.
- It then stores a fixed rule for inline links under `body > div > a`.
- The annotator walks the map in order. For every element a selector matches, it
  sets `translate="no"` on the element, or on its parent for `dnt-row`, when the
  operation's condition holds of the element's text.

**Tabular JSON conversion** (`jsonutils.js`):
- `json2html` writes a JSON document as sheet divisions: one division per sheet,
  one row division per data object, one span per key.
- `html2json` reads such divisions back into a JSON document.
- `json2excel` decides which worksheets a document gives and what their titles are.

Modules, one per concern:

| file | module | models |
|---|---|---|
| `wrappers.dfy` | `Wrappers` | `Option` (standing for `undefined` and for a thrown TypeError), and `Collect`, which maps over a list stopping at the first failure |
| `ordered_maps.dfy` | `OrderedMaps` | insertion-ordered maps: a JavaScript `Map` and an object's own properties |
| `js_strings.dfy` | `JsStrings` | `trim`, `toLowerCase`, `replace(/\s+/g, ' ')`, `replaceAll`, `indexOf`, `includes`, `startsWith`, `split`, `join` |
| `selector.dfy` | `Selector` | `getHtmlSelector` |
| `dnt_rules.dfy` | `DntRules` | the compile loop of `getDntConfig` |
| `dnt_annotator.dfy` | `DntAnnotator` | `addDntAttribute` and the `dntConfig.forEach` that drives it; class `Document` holds the `translate` markers in an array |
| `json_values.dfy` | `JsonValues` | parsed JSON, property reads, truthiness, `String(v)`, `Object.keys` |
| `sheet_html.dfy` | `SheetHtml` | `createDataDiv` and `json2html`; class `HtmlDocument` is the page body |
| `sheet_json.dfy` | `SheetJson` | `html2json` |
| `sheet_round_trip.dfy` | `SheetRoundTrip` | both converters composed, in both directions |
| `workbook.dfy` | `Workbook` | `json2excel`; class `Book` is the workbook |

How the model is built:
- Each loop of the source is a method with a `while` loop, proved against a
  function that states what the whole loop computes.
- The properties are lemmas about those functions.
- A thrown exception is a `None` result, or a `Run` whose `completed` flag is
  false. Markers set before the throw stay set.

## Model

| member | source | states |
|---|---|---|
| Selector.HtmlSelector | htmlutils.js:13-26 | `noblock` (case-sensitive) gives `body > div` whatever the address. Otherwise the selector is the bare block class exactly when both trimmed row and column are `*`. In every other case it is the class followed by the row step and then the column step. |
| Selector.BlockClassIsJoinedWords | htmlutils.js:17 | The block class is the lower-cased name's whitespace-separated words joined by `-`. |
| Selector.BlockClassIsClean | htmlutils.js:17 | A block class holds no whitespace and no upper-case ASCII letter. |
| Selector.BlockClassIdempotent | htmlutils.js:17 | Normalising a block class a second time leaves it unchanged. |
| Selector.SelectorKeepsBlockClass | htmlutils.js:17-25 | For any block other than `noblock` and any address, the class read back from the selector (after the `.`, up to the first whitespace) is the block class. |
| JsStrings.TrimCollapseIsJoinedWords | htmlutils.js:17 | Collapsing whitespace runs to one space and then trimming gives the words joined by single spaces. |
| JsStrings.JoinSplit | htmlutils.js:50 | Joining the pieces of `split(sep)` with `sep` gives the original string. |
| JsStrings.SplitPiecesLackSeparator | htmlutils.js:50 | No piece of `split(sep)` contains `sep`. |
| DntRules.ParsePattern | htmlutils.js:44-51 | The match is `'*'` exactly when the pattern is absent, empty, `*`, or lacks `(` or `)`. In that case the condition is `exists`. |
| DntRules.ParsedPattern | htmlutils.js:47-51 | For a call pattern, the match is a list of values. The pattern splits as `pre` + `(` + `post` with no `(` in `pre`, and the condition is `pre` trimmed, so it holds no `(`. Each value is trimmed and free of `\|\|`. The untrimmed pieces join back into the text between the first `(` and the first `)`. |
| DntRules.ParseRulePattern | htmlutils.js:45-51 | The reassigned `condition` and `match` equal the pattern parse. |
| DntRules.Push | htmlutils.js:54-58 | Only the selector's entry changes. It becomes its old operations plus the new one, or a one-element list when the selector was absent. Every value stays a list and keys stay distinct. |
| DntRules.CompileScope | htmlutils.js:42-58 | One scope pushes the operation under the selector of its trimmed scope. |
| DntRules.CompileRecord | htmlutils.js:40-59 | Folding a record's scopes extends the pairs accumulated so far by one (selector, operation) pair per scope, in scope order. |
| DntRules.CompileRules | htmlutils.js:37-63 | The loop returns the compiled map of the record list. |
| DntRules.AccumulateLookup | htmlutils.js:54-58 | Each selector's list holds exactly the operations of the pairs naming it, in pair order. A selector no pair names is absent. |
| DntRules.Compiled | htmlutils.js:37-63 | The returned map holds each selector once. It is the loop's map unchanged, followed by `body > div > a` with the fallback object as the last entry. |
| DntRules.NoRuleCompilesToFallback | htmlutils.js:13-25 | No scope of any record compiles to `body > div > a`: every built selector is `body > div` or starts with `.`. |
| DntRules.CompiledLookup | htmlutils.js:37-63 | In the compiled map, `body > div > a` holds the single fallback object. Every other selector holds the operations of its scopes in record order, and a selector no scope names is absent. |
| DntRules.PairsPerScope | htmlutils.js:40-43 | Every comma-separated scope of every record contributes exactly one operation. |
| DntRules.EmptyRulesGiveFallbackOnly | htmlutils.js:62 | An empty rule list compiles to the fallback rule alone. |
| DntRules.CompiledWellFormed | htmlutils.js:45-53 | The compiler never pairs a condition other than `exists` with the `'*'` match. |
| DntRules.CompiledCorrectedLookup | htmlutils.js:62 | With the fallback pushed like the other rules, every value is a list. The fallback selector keeps the operations the records gave it, followed by the fallback. |
| DntAnnotator.ApplyOp | htmlutils.js:69-78 | One operation completes exactly when it does not throw. It sets exactly the old markers plus, when it completes, the one it calls for. `exists` marks the element; a holding `equals`/`beginsWith` marks the element, or its parent for `dnt-row`. |
| DntAnnotator.ApplyOps | htmlutils.js:68-80 | The operations of one element keep the number of markers and never clear one. |
| DntAnnotator.ApplyEntry | htmlutils.js:66-82 | One map entry over its matched elements keeps the number of markers and never clears one. |
| DntAnnotator.ApplyEntries | htmlutils.js:88-90 | The walk over the map keeps the number of markers and never clears one. |
| DntAnnotator.Annotate | htmlutils.js:84-90 | The annotation keeps the number of markers and never clears one. An unavailable map stops it at once, with the markers unchanged. |
| DntAnnotator.ApplyOpsMarks | htmlutils.js:68-80 | One element through its operations completes exactly when none throws. Markers are only ever set. Every marker set is the old marker or one an operation calls for. When it completes, every marker called for is set. |
| DntAnnotator.ApplyEntryMarks | htmlutils.js:66-82 | For selectors the engine accepts, `addDntAttribute` completes exactly when every matched element is safe; an object entry is safe only with no match. It marks as the operations of its matched elements call for, and never clears a marker. |
| DntAnnotator.ApplyEntriesMarks | htmlutils.js:88-90 | For selectors the engine accepts, the walk over the map completes exactly when every entry is safe. It sets only markers some entry calls for, never clears one, and when it completes sets all of them. |
| DntAnnotator.AnnotateMarks | htmlutils.js:84-90 | For selectors the engine accepts, the annotation completes exactly when the rule map is present and safe. An unavailable map (`undefined`) stops it with the markers unchanged. |
| DntAnnotator.CompiledFallbackThrows | htmlutils.js:62-68 | When `body > div > a` matches any element, annotating with the compiled map never completes. |
| DntAnnotator.WellFormedOpsSafe | htmlutils.js:69-78 | Well-formed operations on an element whose parent is an element never throw. |
| DntAnnotator.CorrectedAnnotationCompletes | htmlutils.js:62-90 | With the corrected map and selectors the engine accepts, the annotation of any page whose matched elements have element parents completes. It sets exactly the markers the rules call for. |
| DntAnnotator.Document.RunOperations | htmlutils.js:68-79 | The markers and completion flag after the loop are those of the operations run on the element. |
| DntAnnotator.Document.AddDntAttribute | htmlutils.js:66-82 | The markers and completion flag after the loop are those of the entry run on its matched elements. |
| DntAnnotator.Document.AddDntInfo | htmlutils.js:87-90 | The markers and completion flag after the loop are those of the annotation of the page. |
| JsonValues.Entries | jsonutils.js:24 | `Object.keys` throws exactly on `null`. An object's entries are its properties. |
| JsonValues.NatTextInjective | jsonutils.js:24 | Distinct positions have distinct decimal keys. |
| SheetHtml.DataItems | jsonutils.js:20-21 | The row loop throws exactly for a non-empty string `data`, which passes `data.length > 0` but has no `forEach`. |
| SheetHtml.ColsOfShape | jsonutils.js:24-30 | One span per key, in key order. Each carries the key as its `key` attribute and the value's text as its content. |
| SheetHtml.RowsOfShape | jsonutils.js:20-31 | The rows are built exactly when no data element is `null`. There is then one row per element, in order, each holding that element's spans. |
| SheetHtml.SheetOfShape | jsonutils.js:12-34 | A sheet division carries `total`, `offset` and `limit` as text and the given name. It has one row per element of a non-empty array `data`, and none otherwise. |
| SheetHtml.NamedSheetsShape | jsonutils.js:40-43 | The multi-sheet branch succeeds exactly when every named sheet does. It then gives one sheet per name, in `:names` order. |
| SheetHtml.HtmlDocument.CreateDataDiv | jsonutils.js:12-34 | On success the sheet division is appended to the body. When it throws, the body is unchanged. |
| SheetHtml.BuildRows | jsonutils.js:20-31 | The row loop succeeds exactly when the rows can be built, and returns them. |
| SheetHtml.BuildCols | jsonutils.js:25-30 | The span loop returns the spans of the row's entries. |
| SheetHtml.NamedSheetsNames | jsonutils.js:41-43 | When the multi-sheet branch succeeds, it gives one sheet per name, and the sheet at each position carries that name's text. |
| SheetHtml.Encode | jsonutils.js:40-46 | `null` throws. The single branch gives one sheet named `default`. The multi-sheet branch gives one sheet per `:names` entry, carrying that entry's text as its name. |
| SheetHtml.WriteNamedSheets | jsonutils.js:41-43 | The `forEach` over `:names` gives the named sheets, and the body then holds exactly them. When it throws, the body holds the sheets of the names before the failing one, and that name's sheet throws. |
| SheetHtml.Json2Html | jsonutils.js:37-46 | The converter gives the encoding of the document: the named sheets for a multi-sheet document, the single `default` sheet otherwise. |
| SheetJson.Html2Json | jsonutils.js:57-84 | The reader gives the decoding of the sheet divisions. |
| SheetJson.ReadSheet | jsonutils.js:71-83 | The element of one sheet holds `total`, `offset`, `limit` and `data`, in that order. |
| SheetJson.ReadRow | jsonutils.js:76-81 | The object of one row is the decoded row. |
| SheetJson.StoreTopLevel | jsonutils.js:59-74 | A single sheet's four properties are appended after `:type` and `:names`. |
| SheetJson.DecodeRowHas | jsonutils.js:79-81 | A row's object holds a key exactly when some column names it (the `__proto__` key aside). |
| SheetJson.DecodeRowLastWins | jsonutils.js:79-81 | The value under a key is the text of the last column naming it (the `__proto__` key aside). |
| SheetJson.DecodeRow | jsonutils.js:78-81 | A row's object never holds a key twice, and every value it holds is a string. |
| SheetJson.AddSheet | jsonutils.js:66-70 | One sheet of a multi-sheet page succeeds exactly when `:names` holds an array. It then stores the sheet's element under its name. |
| SheetJson.StoreNamed | jsonutils.js:66-70 | The two assignments of the multi-sheet branch give the one-sheet step of the decoder. |
| SheetJson.MultiSheetShape | jsonutils.js:63-70 | The multi-sheet document holds each key once and keeps `:type` and `:names`. The last sheet's element is stored under its name. |
| SheetJson.DecodeShape | jsonutils.js:57-84 | The result is an object holding each key once. One sheet gives `:type` `sheet`, empty `:names` and the sheet's rows as `data`. Any other number fails exactly when a sheet named `:names` has a successor. |
| SheetJson.ReadInto | jsonutils.js:63-83 | One pass of the loop gives the document as it stands after one more sheet, or fails where the decoder of that prefix fails. |
| SheetJson.MultiSheetNames | jsonutils.js:58-67 | With no sheet named `:type` or `:names`, any count other than one gives a `multi-sheet` whose `:names` lists every name in page order (none for zero sheets). |
| SheetJson.MultiSheetStored | jsonutils.js:66-70 | With no sheet named `:type`, `:names` or `__proto__`, each name holds the element of the last sheet carrying it. |
| SheetJson.MultiSheetThrows | jsonutils.js:67-68 | The multi-sheet reader throws exactly when a sheet named `:names` is followed by another sheet. |
| SheetJson.NamesHeld | jsonutils.js:67-68 | `:names` holds an array unless the last sheet read was named `:names`. |
| SheetRoundTrip.RowRoundTrip | jsonutils.js:75-83 | A row with distinct keys, written as spans (jsonutils.js:21-30) and read back, has the same keys in the same order, each value replaced by its text. |
| SheetRoundTrip.DataRoundTrip | jsonutils.js:75-83 | A sheet's rows, written as row divisions (jsonutils.js:20-31) and read back, come back in order, as text. |
| SheetRoundTrip.SheetRoundTrip | jsonutils.js:71-83 | A sheet object written by `createDataDiv` (jsonutils.js:12-34) and read back comes back with its attributes as the text they were written as and its rows as text. |
| SheetRoundTrip.JsonRoundTripSingle | jsonutils.js:57-83 | A single-sheet document, written by the `default` branch (jsonutils.js:44-46) and read back, comes back as one `sheet`, with empty `:names` and its fields at the top level as text. |
| SheetRoundTrip.JsonRoundTripMulti | jsonutils.js:57-83 | Take a multi-sheet document with other than one name, the names distinct, none reserved and none `__proto__`. It comes back as a `multi-sheet` listing the names as text, in order. Each name designates its sheet's fields as text. |
| SheetRoundTrip.OneNameCollapses | jsonutils.js:58-62 | A multi-sheet document with exactly one name, written by jsonutils.js:40-43, comes back as a single `sheet` with no names. |
| SheetRoundTrip.RowBack | jsonutils.js:21-30 | A row with distinct keys, none an array index (such as `1`) and none `__proto__`, read (jsonutils.js:75-83) and written again, gives the same spans. |
| SheetRoundTrip.HtmlRoundTripSingle | jsonutils.js:44-46 | A single plain sheet division (every span keyed, the keys of a row distinct, none an array index and none `__proto__`), read by `html2json` (jsonutils.js:57-83) and written again, is the same division, renamed `default`. |
| SheetRoundTrip.HtmlRoundTripMulti | jsonutils.js:40-43 | Plain sheet divisions (rows as in HtmlRoundTripSingle), other than exactly one, with distinct names, none reserved and none `__proto__`, read and written again, are the same divisions. |
| Wrappers.CollectShape | jsonutils.js:21-31 | A `forEach` that can throw succeeds exactly when every step does, and then holds each step's result in place. |
| Workbook.Book.AppendSheet | jsonutils.js:97-98 | The worksheet is appended at the end under the given title. |
| Workbook.AddSheetFrom | jsonutils.js:102-106 | Destructuring (here and at jsonutils.js:95-99) and appending succeed exactly when the sheet object gives worksheets, and then append them. Otherwise the workbook is unchanged. |
| Workbook.AddNamedSheets | jsonutils.js:94-100 | The `forEach` over `:names` gives the named worksheets, and the workbook then holds exactly them. When it throws, the workbook holds the worksheets of the names before the failing one, and that name's destructuring throws. |
| Workbook.NamedWorksheetsInOrder | jsonutils.js:94-100 | When the multi-sheet branch succeeds, its worksheets are the `helix-<name>` worksheets of the names with non-empty `data`, in `:names` order. |
| Workbook.Sheets | jsonutils.js:93-107 | The multi-sheet branch gives the worksheets of the names with non-empty `data`, in order. Otherwise the document throws exactly when it is `null` or its `data` is a non-empty string, and gives one `helix-default` worksheet exactly when its `data` is a non-empty array. |
| Workbook.Json2Excel | jsonutils.js:93-107 | The converter gives the worksheets of the document. |
| Workbook.NamedWorksheetsShape | jsonutils.js:94-100 | The multi-sheet branch succeeds exactly when every name designates a usable sheet object. Every name with non-empty `data` gets its `helix-<name>` worksheet, and every worksheet comes from such a name. |
| Workbook.FlattenMember | jsonutils.js:94-100 | A worksheet of the workbook is one a single name contributed. |
| Workbook.ExcelOfOneSheet | jsonutils.js:101-106 | A page with one sheet division, read by `html2json`, gives only the `helix-default` worksheet of its rows, or none when it has no rows. |
| Workbook.ExcelOfSheets | jsonutils.js:93-100 | A page with other than one division, read by `html2json`, with distinct names, none reserved and none `__proto__`, gives one `helix-<name>` worksheet per division with rows, in page order. Divisions without rows are skipped. |
| Workbook.ReservedNameBreaksExcel | jsonutils.js:67-69 | A last division named `:names` overwrites the name list with its element. `html2json` succeeds, and `json2excel` then throws on that element (jsonutils.js:93-94). |

## Left out

- ApplyEntryMarks: `querySelectorAll` throws a `SyntaxError` on a selector it cannot parse (htmlutils.js:67). The model hands each selector the indices it matches and assumes every built selector parses. It does not capture the throw for an empty `row` or `column` (`:nth-child()`), a position that is not of the form An+B such as `abc`, or an empty scope from a stray comma in `block_scope` (a bare `.`).
- ApplyEntriesMarks: its completion statement holds only for maps whose selectors all parse; an unparseable selector makes the walk at htmlutils.js:88 throw, which the model does not capture (see ApplyEntryMarks).
- AnnotateMarks: its completion statement holds only for maps whose selectors all parse; the selector-parse throw at htmlutils.js:67 is not modelled (see ApplyEntryMarks).
- CorrectedAnnotationCompletes: the annotation completes only when every selector built from the rule list parses. A rule with an empty or non-numeric `row` or `column`, or an empty scope, makes the source throw; the model does not capture it (see ApplyEntryMarks).
- DecodeRowHas: `columnJson[key] = text` with the key `__proto__` (jsonutils.js:80) calls the prototype setter, which ignores a string, so the source's row object lacks that key. The model stores it like any other key.
- DecodeRowLastWins: for the key `__proto__` the source stores nothing (jsonutils.js:80); the model gives the last such column's text.
- RowRoundTrip: a row key `__proto__` does not come back in the source (jsonutils.js:80); the model brings it back. Text holding CR or NUL does not survive the serialise/parse step the model takes as the identity: CR and CRLF become LF, NUL is dropped from text and becomes U+FFFD in attributes.
- DataRoundTrip: inherits RowRoundTrip's gaps, the `__proto__` row key and CR/NUL in values.
- SheetRoundTrip: inherits RowRoundTrip's gaps, the `__proto__` row key and CR/NUL in values and attributes.
- JsonRoundTripSingle: inherits RowRoundTrip's gaps, the `__proto__` row key and CR/NUL in values and attributes.
- JsonRoundTripMulti: inherits RowRoundTrip's gaps, the `__proto__` row key and CR/NUL in values, attributes and names.
- AddSheet: for a sheet named `__proto__`, `jsonData[name] = {}` (jsonutils.js:68) sets the prototype to the new object instead of adding a property. The sheet's fields are then written onto that prototype (jsonutils.js:69-74), which `JSON.stringify` (jsonutils.js:85) omits, so the document holds nothing under that name. The model stores the element.
- MultiSheetShape: the last sheet is stored under its name only when that name is not `__proto__`, as for AddSheet; the model states it for every name.
- RowBack: CR/NUL normalisation by the parser is not modelled. Spans keyed `__proto__` or by an array index, which the source drops or moves to the front (jsonutils.js:78-80), are excluded by the premise.
- HtmlRoundTripSingle: CR/NUL normalisation by the parser is not modelled. Spans keyed `__proto__` or by an array index are excluded by the premise, as for RowBack.
- HtmlRoundTripMulti: CR/NUL normalisation by the parser is not modelled. Spans keyed `__proto__` or by an array index, and a division named `__proto__`, are excluded by the premise.
- Network fetches (`getDntConfig`'s request, `fetchText`) are not modelled. The compiler starts from an already fetched rule list. `Annotate` takes the map, or `None` when the list was unavailable.
- File reads and writes, directory creation, `xlsx.writeFile` and the top-level drivers are not modelled. They are I/O.
- JSDOM parsing and serialisation are not modelled. A page is a list of elements with their text and parent index, or a list of sheet divisions. Writing a page with `dom.serialize()` and parsing it again with `new JSDOM(html)` is taken as the identity.
- The CSS engine behind `querySelectorAll` is not modelled. Each selector comes with the indices of the elements it matches, so a selector the engine rejects is not modelled (see ApplyEntryMarks).
- `JSON.parse` and `JSON.stringify` are not modelled. Documents are `Json` values. A number is held by its JavaScript rendering.
- The markdown, hast and docx pipeline (`getMdastFromMd`, `getHtml`, `html2docx` and the rest) is not modelled. It consists of thin calls into libraries.
- `xlsx.utils.json_to_sheet` cell layout is not modelled. It is a library. A worksheet is its title and the row objects handed to it.
- The library checks on sheet titles (length, characters, duplicates) are not modelled.
- `toLowerCase` is modelled on ASCII letters only. Unicode case mapping is library data.
- Property key order: a JavaScript object lists integer-like keys first, in numeric order. The model keeps every key in insertion order.
- Property reads: a `data` object with a numeric `length` property, and property reads on strings, arrays and numbers beyond `length`, are not modelled. Only objects have the properties the converters read.
- A non-empty string `data` is modelled as throwing in both converters. In `json2html` it has no `forEach`. In `json2excel` what `json_to_sheet` makes of it is library behaviour, and it is taken as a failure.
- An unavailable rule list: `getDntConfig` logs `DNT Config unvailable.` and returns `undefined` (htmlutils.js:32-34). The `dntConfig.forEach` at htmlutils.js:88 then throws, so no marker is set. The model gives `Annotate` `None` there and states that outcome (`DntAnnotator.Annotate`, `DntAnnotator.AnnotateMarks`); the log line is I/O.
- DntRules.Record / Selector.HtmlSelector: `block_scope`, `row` and `column` are strings in the model. In the source a rule whose `block_scope` is missing or not a string throws at `split` (htmlutils.js:40), and one whose `row` or `column` is missing or not a string throws at `trim` (htmlutils.js:18-19); those failures are not modelled.
- JsonValues.Get / SheetHtml.SheetFor / Workbook.WorksheetFor: reads see only a document's own properties. A `:names` entry such as `constructor` or `toString` reads an inherited `Object.prototype` member in the source, and `jsonData[name] = {}` with the name `__proto__` (jsonutils.js:68) replaces the prototype instead of adding a property; neither is modelled.
- JsonValues.Entries: `Object.keys` of a string lists one index per UTF-16 code unit. The model works on `char` sequences and lists one index per `char`, so strings outside the Basic Multilingual Plane differ.
- Workbook.SheetData: its own contract only bounds the result to at most one worksheet. What it yields is stated by `Workbook.NamedWorksheetsShape` and the `Excel…` lemmas.

## Findings

| source | as written | input that shows it | evidently intended | confidence | as-written member | corrected member |
|---|---|---|---|---|---|---|
| htmlutils.js:62 | The inline-link rule is stored with `set` as a single object rather than a list. (No rule can compile to `body > div > a`, so nothing is overwritten: `DntRules.NoRuleCompilesToFallback`.) | Any page with an `a` directly inside a top-level `div`. `addDntAttribute` reaches `operations.forEach` on an object and throws, so the page is never fully annotated. | Push the rule onto the selector's list like every other rule. Entries then stay lists and annotation completes. | not executed | DntAnnotator.CompiledFallbackThrows | DntAnnotator.CorrectedAnnotationCompletes |
