/**
  The DNT rule compiler (the body of `getDntConfig` once the rule list has been
  fetched): every record of the list contributes one match operation per
  comma-separated block scope, accumulated per selector in an insertion-ordered
  map, and a fixed rule for inline links is stored last.
 */
module DntRules {
  import opened Wrappers
  import opened JsStrings
  import opened OrderedMaps
  import Selector

  /** One record of the rule list's `data`: `block_scope`, `pattern` (absent when
      `None`), `action`, and the `row`/`column` address the selector builder reads. */
  datatype Record = Record(blockScope: string, pattern: Option<string>, action: string, row: string, column: string)

  /** The `match` field of an operation: the string `'*'`, or the list of values. */
  datatype Match = Wildcard | Values(values: seq<string>)

  datatype Operation = Operation(condition: string, matchTexts: Match, action: string)

  /** A value of the rule map: the list the loop builds, or the single object that
      the inline-link fallback stores. */
  datatype Entry = OpList(ops: seq<Operation>) | OpObject(op: Operation)

  /** The rule map (a JavaScript `Map`): selector keys in insertion order. */
  type Config = seq<(string, Entry)>

  const Exists: string := "exists"
  const FallbackSelector: string := "body > div > a"
  const FallbackOp: Operation := Operation("beginsWith", Values(["http://", "https://"]), "dnt")

  // ---------------------------------------------------------------------------
  // Pattern parsing

  /** `s.substring(start, end)`, which swaps its arguments when `start > end`. */
  function Substring(s: string, start: nat, end: nat): string
    requires start <= |s| && end <= |s|
  {
    if start <= end then s[start..end] else s[end..start]
  }

  /** The test guarding the parse: present, non-empty, not `*`, holding both `(` and `)`. */
  predicate IsCallPattern(pattern: Option<string>)
  {
    pattern.Some? && |pattern.value| > 0 && pattern.value != "*"
    && Contains(pattern.value, "(") && Contains(pattern.value, ")")
  }

  /** The text the match values are split from: between the first `(` and the first `)`. */
  function Inner(p: string): string
    requires Contains(p, "(") && Contains(p, ")")
  {
    Substring(p, IndexOf(p, "(") + 1, IndexOf(p, ")"))
  }

  /** The `condition` and `match` that the rule compiler derives from a pattern.
      A pattern that is absent, empty, `*`, or lacks `(` or `)` gives `exists` and
      `'*'`; any other gives a list of values. */
  function ParsePattern(pattern: Option<string>): (r: (string, Match))
    ensures r.1 == Wildcard <==> !IsCallPattern(pattern)
    ensures r.1 == Wildcard ==> r.0 == Exists
  {
    if IsCallPattern(pattern) then
      var p := pattern.value;
      (Trim(p[..IndexOf(p, "(")]), Values(TrimAll(Split(Inner(p), "||"))))
    else
      (Exists, Wildcard)
  }

  predicate Trimmed(s: string)
  {
    s == [] || (!IsWhitespace(s[0]) && !IsWhitespace(s[|s| - 1]))
  }

  lemma {:induction false} SliceLacks(x: string, a: nat, b: nat, sub: string)
    requires a <= b <= |x|
    requires !Contains(x, sub)
    ensures !Contains(x[a..b], sub)
  {
    var y := x[a..b];
    forall j | 0 <= j && j + |sub| <= |y| ensures !OccursAt(y, sub, j) {
      assert !OccursAt(x, sub, a + j);
      var u, v := x[a + j..a + j + |sub|], y[j..j + |sub|];
      assert forall t :: 0 <= t < |u| ==> u[t] == x[a + j + t] == v[t];
      assert u == v;
    }
  }

  lemma {:induction false} TrimLacks(x: string, sub: string)
    requires !Contains(x, sub)
    ensures !Contains(Trim(x), sub)
  {
    var t := TrimStart(x);
    assert t == x[|x| - |t|..|x|];
    SliceLacks(x, |x| - |t|, |x|, sub);
    var r := TrimEnd(t);
    assert r == t[0..|r|];
    SliceLacks(t, 0, |r|, sub);
  }

  /** A parsed pattern: the condition is the trimmed text before the first `(` and
      contains no `(`; every match value is trimmed and free of `||`; and the values,
      untrimmed, join back with `||` into the text between the parentheses. */
  lemma {:induction false} ParsedPattern(p: string)
    requires IsCallPattern(Some(p))
    ensures ParsePattern(Some(p)).1.Values?
    ensures exists pre, post :: p == pre + "(" + post && '(' !in pre && ParsePattern(Some(p)).0 == Trim(pre)
    ensures var cond := ParsePattern(Some(p)).0;
      Trimmed(cond) && '(' !in cond
    ensures var vals := ParsePattern(Some(p)).1.values;
      forall k :: 0 <= k < |vals| ==> Trimmed(vals[k]) && !Contains(vals[k], "||")
    ensures var pieces := Split(Inner(p), "||");
      Join(pieces, "||") == Inner(p) && ParsePattern(Some(p)).1.values == TrimAll(pieces)
  {
    ConditionPlain(p);
    ConditionBeforeParen(p);
    assert ParsePattern(Some(p)).0 == Trim(p[..IndexOf(p, "(")]);
    ValuesPlain(Inner(p));
  }

  /** The condition is the trimmed text before a `(` that no earlier `(` precedes. */
  lemma ConditionBeforeParen(p: string)
    requires Contains(p, "(")
    ensures exists pre, post :: p == pre + "(" + post && '(' !in pre && Trim(p[..IndexOf(p, "(")]) == Trim(pre)
  {
    ConditionPlain(p);
    var open := IndexOf(p, "(");
    assert p == p[..open] + "(" + p[open + 1..] && '(' !in p[..open];
  }

  /** The text before the first `(` holds no `(`, and neither does its trimmed form. */
  lemma {:induction false} ConditionPlain(p: string)
    requires Contains(p, "(")
    ensures var open := IndexOf(p, "(");
      p == p[..open] + "(" + p[open + 1..] && '(' !in p[..open]
    ensures var cond := Trim(p[..IndexOf(p, "(")]);
      Trimmed(cond) && '(' !in cond
  {
    var open := IndexOf(p, "(");
    var before := p[..open];
    forall k | 0 <= k < |before| ensures before[k] != '(' {
      assert !OccursAt(p, "(", k);
      assert p[k..k + 1] == [before[k]];
    }
    assert '(' !in before;
    assert p[open..open + 1] == "(";
    assert p == p[..open] + p[open..open + 1] + p[open + 1..];
  }

  lemma {:induction false} ValuesPlain(inner: string)
    ensures var pieces := Split(inner, "||");
      Join(pieces, "||") == inner
      && forall k :: 0 <= k < |pieces| ==> Trimmed(TrimAll(pieces)[k]) && !Contains(TrimAll(pieces)[k], "||")
  {
    var pieces := Split(inner, "||");
    JoinSplit(inner, "||");
    SplitPiecesLackSeparator(inner, "||");
    forall k | 0 <= k < |pieces| ensures !Contains(Trim(pieces[k]), "||") {
      TrimLacks(pieces[k], "||");
    }
  }

  // ---------------------------------------------------------------------------
  // The ordered rule map

  predicate AllLists(m: Config)
  {
    forall i :: 0 <= i < |m| ==> m[i].1.OpList?
  }

  /** The operations an optional list entry holds (none for a missing key). */
  function OpsOf(e: Option<Entry>): seq<Operation>
  {
    if e.Some? && e.value.OpList? then e.value.ops else []
  }

  /** Lines 54-58: `get(selector).push(op)` when the selector is present,
      `set(selector, [op])` otherwise. Only the entry for `key` changes. */
  function Push(m: Config, key: string, op: Operation): (r: Config)
    requires AllLists(m)
    ensures AllLists(r)
    ensures DistinctKeys(m) ==> DistinctKeys(r)
    ensures Lookup(r, key) == Some(OpList(OpsOf(Lookup(m, key)) + [op]))
    ensures forall k :: k != key ==> Lookup(r, k) == Lookup(m, k)
  {
    var i := KeyIndex(m, key);
    if i < |m| then
      var r := m[i := (key, OpList(m[i].1.ops + [op]))];
      assert forall k :: KeyIndex(r, k) == KeyIndex(m, k) by {
        forall k ensures KeyIndex(r, k) == KeyIndex(m, k) { SameKeysSameIndex(m, r, k); }
      }
      r
    else
      var r := m + [(key, OpList([op]))];
      assert forall k :: k != key ==> Lookup(r, k) == Lookup(m, k) by {
        forall k | k != key ensures Lookup(r, k) == Lookup(m, k) { AppendKeyIndex(m, (key, OpList([op])), k); }
      }
      assert KeyIndex(r, key) == |m| by { AppendKeyIndex(m, (key, OpList([op])), key); }
      assert Lookup(m, key) == None;
      assert OpsOf(Lookup(m, key)) + [op] == [op];
      r
  }

  // ---------------------------------------------------------------------------
  // The compiler's specification

  /** The operation a record contributes for each of its scopes. */
  function OperationFor(r: Record): Operation
  {
    var (condition, matchTexts) := ParsePattern(r.pattern);
    Operation(condition, matchTexts, r.action)
  }

  /** The comma-separated block scopes of a record, not yet trimmed. */
  function Scopes(r: Record): seq<string>
  {
    Split(r.blockScope, ",")
  }

  /** The selectors of a list of scopes sharing one address, in scope order. */
  function SelectorsOf(scopes: seq<string>, address: Selector.Address): seq<string>
  {
    if scopes == [] then []
    else SelectorsOf(scopes[..|scopes| - 1], address) + [Selector.HtmlSelector(Trim(scopes[|scopes| - 1]), address)]
  }

  /** Each selector paired with one shared operation, in order. */
  function Tag(selectors: seq<string>, op: Operation): seq<(string, Operation)>
  {
    if selectors == [] then []
    else Tag(selectors[..|selectors| - 1], op) + [(selectors[|selectors| - 1], op)]
  }

  lemma {:induction false} SelectorsOfLength(scopes: seq<string>, address: Selector.Address)
    ensures |SelectorsOf(scopes, address)| == |scopes|
  {
    if scopes != [] {
      SelectorsOfLength(scopes[..|scopes| - 1], address);
    }
  }

  lemma {:induction false} TagShape(selectors: seq<string>, op: Operation)
    ensures |Tag(selectors, op)| == |selectors|
    ensures forall k :: 0 <= k < |selectors| ==> Tag(selectors, op)[k] == (selectors[k], op)
  {
    if selectors != [] {
      var init := selectors[..|selectors| - 1];
      TagShape(init, op);
      var ts := Tag(selectors, op);
      forall k | 0 <= k < |init| ensures ts[k] == (selectors[k], op) {
        assert ts[k] == Tag(init, op)[k];
      }
    }
  }

  lemma {:induction false} TagSnoc(done: seq<(string, Operation)>, selectors: seq<string>, s: string, op: Operation)
    ensures done + Tag(selectors + [s], op) == (done + Tag(selectors, op)) + [(s, op)]
  {
    assert (selectors + [s])[..|selectors|] == selectors;
    assert Tag(selectors + [s], op) == Tag(selectors, op) + [(s, op)];
  }

  /** The (selector, operation) pairs of one record, one per scope, in scope order. */
  function ScopePairs(r: Record): seq<(string, Operation)>
  {
    Tag(SelectorsOf(Scopes(r), Selector.Address(r.row, r.column)), OperationFor(r))
  }

  /** All (selector, operation) pairs of a record list, in record order. */
  function Pairs(records: seq<Record>): seq<(string, Operation)>
  {
    if records == [] then [] else Pairs(records[..|records| - 1]) + ScopePairs(records[|records| - 1])
  }

  /** The map the loop builds from a list of (selector, operation) pairs. */
  function Accumulate(pairs: seq<(string, Operation)>): (m: Config)
    ensures AllLists(m) && DistinctKeys(m)
  {
    if pairs == [] then []
    else
      var last := pairs[|pairs| - 1];
      Push(Accumulate(pairs[..|pairs| - 1]), last.0, last.1)
  }

  /** What `getDntConfig` returns for a fetched rule list. No rule compiles to the
      fallback selector, so `set` appends the fallback after the entries the loop
      built, which it leaves as they were. */
  function Compiled(records: seq<Record>): (r: Config)
    ensures DistinctKeys(r) && |r| > 0
    ensures r[..|r| - 1] == Accumulate(Pairs(records))
    ensures r[|r| - 1] == (FallbackSelector, OpObject(FallbackOp))
  {
    NoRuleCompilesToFallback(records);
    AccumulateLookup(Pairs(records), FallbackSelector);
    SetKeyNew(Accumulate(Pairs(records)), FallbackSelector, OpObject(FallbackOp));
    SetKey(Accumulate(Pairs(records)), FallbackSelector, OpObject(FallbackOp))
  }

  /** A selector the builder can produce: `body > div`, or one starting with `.`. */
  predicate BuiltSelector(s: string)
  {
    s == Selector.BodyDiv || (|s| > 0 && s[0] == '.')
  }

  /** Every selector `getHtmlSelector` builds is `body > div` or starts with `.`. */
  lemma HtmlSelectorBuilt(blockScope: string, address: Selector.Address)
    ensures BuiltSelector(Selector.HtmlSelector(blockScope, address))
  {
  }

  lemma {:induction false} SelectorsOfBuilt(scopes: seq<string>, address: Selector.Address)
    ensures forall k :: 0 <= k < |SelectorsOf(scopes, address)| ==> BuiltSelector(SelectorsOf(scopes, address)[k])
  {
    if scopes != [] {
      var init := scopes[..|scopes| - 1];
      SelectorsOfBuilt(init, address);
      var ss := SelectorsOf(scopes, address);
      HtmlSelectorBuilt(Trim(scopes[|scopes| - 1]), address);
      forall k | 0 <= k < |ss| ensures BuiltSelector(ss[k]) {
        if k < |SelectorsOf(init, address)| {
          assert ss[k] == SelectorsOf(init, address)[k];
        }
      }
    }
  }

  /** Every pair's selector is one the builder produces. */
  lemma {:induction false} PairsBuilt(records: seq<Record>)
    ensures forall k :: 0 <= k < |Pairs(records)| ==> BuiltSelector(Pairs(records)[k].0)
  {
    if records != [] {
      var init, last := records[..|records| - 1], records[|records| - 1];
      PairsBuilt(init);
      var selectors := SelectorsOf(Scopes(last), Selector.Address(last.row, last.column));
      SelectorsOfBuilt(Scopes(last), Selector.Address(last.row, last.column));
      TagShape(selectors, OperationFor(last));
      var all := Pairs(records);
      forall k | 0 <= k < |all| ensures BuiltSelector(all[k].0) {
        if k >= |Pairs(init)| {
          assert all[k] == ScopePairs(last)[k - |Pairs(init)|];
        }
      }
    }
  }

  lemma {:induction false} OpsForAbsent(pairs: seq<(string, Operation)>, key: string)
    requires forall k :: 0 <= k < |pairs| ==> pairs[k].0 != key
    ensures OpsFor(pairs, key) == []
  {
    if pairs != [] {
      OpsForAbsent(pairs[..|pairs| - 1], key);
    }
  }

  /** No scope of any record compiles to `body > div > a`: the builder gives
      `body > div` or a class selector. */
  lemma {:induction false} NoRuleCompilesToFallback(records: seq<Record>)
    ensures OpsFor(Pairs(records), FallbackSelector) == []
  {
    PairsBuilt(records);
    var ps := Pairs(records);
    forall k | 0 <= k < |ps| ensures ps[k].0 != FallbackSelector {
      assert BuiltSelector(ps[k].0);
      assert FallbackSelector[0] == 'b';
    }
    OpsForAbsent(ps, FallbackSelector);
  }

  /** The reference definition: the operations of the pairs whose selector is `key`, in order. */
  function OpsFor(pairs: seq<(string, Operation)>, key: string): seq<Operation>
  {
    if pairs == [] then []
    else
      var last := pairs[|pairs| - 1];
      OpsFor(pairs[..|pairs| - 1], key) + (if last.0 == key then [last.1] else [])
  }

  /** The number of scopes over a record list. */
  function ScopeCount(records: seq<Record>): nat
  {
    if records == [] then 0 else ScopeCount(records[..|records| - 1]) + |Scopes(records[|records| - 1])|
  }

  // ---------------------------------------------------------------------------
  // The compiler

  /** The loop of `getDntConfig` (lines 37-63) over an already fetched rule list. */
  method CompileRules(records: seq<Record>) returns (config: Config)
    ensures config == Compiled(records)
  {
    config := [];
    var i := 0;
    while i < |records|
      invariant 0 <= i <= |records|
      invariant config == Accumulate(Pairs(records[..i]))
    {
      var record := records[i];
      var condition, matchTexts := ParseRulePattern(record.pattern);
      var operation := Operation(condition, matchTexts, record.action);
      var scopes := Split(record.blockScope, ",");
      config := CompileRecord(config, scopes, Selector.Address(record.row, record.column), operation, Pairs(records[..i]));
      PairsSnoc(records, i);
      i := i + 1;
    }
    assert records[..|records|] == records;
    config := SetKey(config, FallbackSelector, OpObject(FallbackOp));
  }

  /** Lines 44-51: `condition` and `match` start as `exists` and `'*'`, and are
      reassigned from the pattern when it has the call shape. */
  method ParseRulePattern(pattern: Option<string>) returns (condition: string, matchTexts: Match)
    ensures (condition, matchTexts) == ParsePattern(pattern)
  {
    condition := Exists;
    matchTexts := Wildcard;
    if pattern.Some? && |pattern.value| > 0 {
      var p := pattern.value;
      if p != "*" && Contains(p, "(") && Contains(p, ")") {
        condition := Trim(p[..IndexOf(p, "(")]);
        matchTexts := Values(TrimAll(Split(Substring(p, IndexOf(p, "(") + 1, IndexOf(p, ")")), "||")));
      }
    }
  }

  /** The inner `forEach` (lines 40-59): every scope of one record, in order. The
      operation a record contributes does not depend on the scope, so it is
      computed once per record and handed in. */
  method CompileRecord(config0: Config, scopes: seq<string>, address: Selector.Address, op: Operation, ghost done: seq<(string, Operation)>) returns (config: Config)
    requires config0 == Accumulate(done)
    ensures config == Accumulate(done + Tag(SelectorsOf(scopes, address), op))
  {
    config := config0;
    var j := 0;
    assert done + Tag(SelectorsOf(scopes[..0], address), op) == done;
    while j < |scopes|
      invariant 0 <= j <= |scopes|
      invariant config == Accumulate(done + Tag(SelectorsOf(scopes[..j], address), op))
    {
      ScopeStep(done, scopes, j, address, op);
      config := CompileScope(config, scopes[j], address, op);
      j := j + 1;
    }
    assert scopes[..|scopes|] == scopes;
  }

  /** One scope (lines 41-59): its selector gets the operation appended
      (`get(selector).push`) or a fresh one-element list (`set(selector, [op])`). */
  method CompileScope(config0: Config, scope: string, address: Selector.Address, operation: Operation) returns (config: Config)
    requires AllLists(config0)
    ensures config == Push(config0, Selector.HtmlSelector(Trim(scope), address), operation)
  {
    var blockScope := Trim(scope);
    var selector := Selector.HtmlSelector(blockScope, address);
    var k := KeyIndex(config0, selector);
    PushAt(config0, selector, operation);
    if k < |config0| {
      config := config0[k := (selector, OpList(config0[k].1.ops + [operation]))];
    } else {
      config := config0 + [(selector, OpList([operation]))];
    }
  }

  lemma {:induction false} PushAt(m: Config, key: string, op: Operation)
    requires AllLists(m)
    ensures var i := KeyIndex(m, key);
      Push(m, key, op) == if i < |m| then m[i := (key, OpList(m[i].1.ops + [op]))] else m + [(key, OpList([op]))]
  {
  }

  /** One more scope of the current record folded into the map. */
  lemma {:induction false} ScopeStep(done: seq<(string, Operation)>, scopes: seq<string>, j: nat, address: Selector.Address, op: Operation)
    requires j < |scopes|
    ensures Accumulate(done + Tag(SelectorsOf(scopes[..j + 1], address), op))
      == Push(Accumulate(done + Tag(SelectorsOf(scopes[..j], address), op)), Selector.HtmlSelector(Trim(scopes[j]), address), op)
  {
    var sel := Selector.HtmlSelector(Trim(scopes[j]), address);
    var selectors := SelectorsOf(scopes[..j], address);
    SelectorsSnoc(scopes, j, address);
    TagSnoc(done, selectors, sel, op);
    AccumulateSnoc(done + Tag(selectors, op), (sel, op));
  }

  lemma {:induction false} SelectorsSnoc(scopes: seq<string>, j: nat, address: Selector.Address)
    requires j < |scopes|
    ensures SelectorsOf(scopes[..j + 1], address)
      == SelectorsOf(scopes[..j], address) + [Selector.HtmlSelector(Trim(scopes[j]), address)]
  {
    assert scopes[..j + 1][..j] == scopes[..j];
  }

  lemma {:induction false} AccumulateSnoc(pairs: seq<(string, Operation)>, p: (string, Operation))
    ensures Accumulate(pairs + [p]) == Push(Accumulate(pairs), p.0, p.1)
  {
    assert (pairs + [p])[..|pairs|] == pairs;
  }

  lemma {:induction false} PairsSnoc(records: seq<Record>, i: nat)
    requires i < |records|
    ensures Pairs(records[..i]) + ScopePairs(records[i]) == Pairs(records[..i + 1])
  {
    assert records[..i + 1][..i] == records[..i];
  }

  // ---------------------------------------------------------------------------
  // Properties

  /** Each selector's list holds exactly the operations of the pairs that produced it, in order. */
  lemma {:induction false} AccumulateLookup(pairs: seq<(string, Operation)>, key: string)
    ensures Lookup(Accumulate(pairs), key) == if OpsFor(pairs, key) == [] then None else Some(OpList(OpsFor(pairs, key)))
  {
    if pairs != [] {
      var init, last := pairs[..|pairs| - 1], pairs[|pairs| - 1];
      AccumulateLookup(init, key);
      assert Accumulate(pairs) == Push(Accumulate(init), last.0, last.1);
      assert OpsFor(pairs, key) == OpsFor(init, key) + (if last.0 == key then [last.1] else []);
      assert OpsOf(Lookup(Accumulate(init), key)) == OpsFor(init, key);
      if last.0 == key {
        assert Lookup(Accumulate(pairs), key) == Some(OpList(OpsFor(init, key) + [last.1]));
      } else {
        assert OpsFor(pairs, key) == OpsFor(init, key);
      }
    }
  }

  /** The compiled map: the fallback selector holds the single fallback object,
      whatever the records say; every other selector holds the operations of its
      scopes in record order, and is absent when no scope produced it. */
  lemma {:induction false} CompiledLookup(records: seq<Record>, key: string)
    ensures Lookup(Compiled(records), key) ==
      if key == FallbackSelector then Some(OpObject(FallbackOp))
      else if OpsFor(Pairs(records), key) == [] then None
      else Some(OpList(OpsFor(Pairs(records), key)))
  {
    AccumulateLookup(Pairs(records), key);
  }

  lemma {:induction false} ScopePairsLength(r: Record)
    ensures |ScopePairs(r)| == |Scopes(r)|
  {
    var selectors := SelectorsOf(Scopes(r), Selector.Address(r.row, r.column));
    SelectorsOfLength(Scopes(r), Selector.Address(r.row, r.column));
    TagShape(selectors, OperationFor(r));
  }

  /** Every scope contributes exactly one pair. */
  lemma {:induction false} PairsPerScope(records: seq<Record>)
    ensures |Pairs(records)| == ScopeCount(records)
  {
    if records != [] {
      PairsPerScope(records[..|records| - 1]);
      ScopePairsLength(records[|records| - 1]);
    }
  }

  /** An empty rule list gives exactly the inline-link fallback. */
  lemma EmptyRulesGiveFallbackOnly()
    ensures Compiled([]) == [(FallbackSelector, OpObject(FallbackOp))]
  {
  }

  predicate WellFormedOp(op: Operation)
  {
    op.condition != Exists ==> op.matchTexts.Values?
  }

  predicate WellFormedEntry(e: Entry)
  {
    match e
    case OpList(ops) => forall j :: 0 <= j < |ops| ==> WellFormedOp(ops[j])
    case OpObject(op) => WellFormedOp(op)
  }

  predicate WellFormedConfig(m: Config)
  {
    forall i :: 0 <= i < |m| ==> WellFormedEntry(m[i].1)
  }

  lemma {:induction false} PushWellFormed(m: Config, key: string, op: Operation)
    requires AllLists(m) && WellFormedConfig(m) && WellFormedOp(op)
    ensures WellFormedConfig(Push(m, key, op))
  {
    var i := KeyIndex(m, key);
    var r := Push(m, key, op);
    if i < |m| {
      assert r == m[i := (key, OpList(m[i].1.ops + [op]))];
    } else {
      assert r == m + [(key, OpList([op]))];
    }
  }

  lemma {:induction false} AccumulateWellFormed(pairs: seq<(string, Operation)>)
    requires forall k :: 0 <= k < |pairs| ==> WellFormedOp(pairs[k].1)
    ensures WellFormedConfig(Accumulate(pairs))
  {
    if pairs != [] {
      var init := pairs[..|pairs| - 1];
      AccumulateWellFormed(init);
      PushWellFormed(Accumulate(init), pairs[|pairs| - 1].0, pairs[|pairs| - 1].1);
    }
  }

  lemma {:induction false} OperationWellFormed(r: Record)
    ensures WellFormedOp(OperationFor(r))
  {
  }

  lemma {:induction false} PairsWellFormed(records: seq<Record>)
    ensures forall k :: 0 <= k < |Pairs(records)| ==> WellFormedOp(Pairs(records)[k].1)
  {
    if records != [] {
      var init, last := records[..|records| - 1], records[|records| - 1];
      PairsWellFormed(init);
      OperationWellFormed(last);
      var ps := ScopePairs(last);
      TagShape(SelectorsOf(Scopes(last), Selector.Address(last.row, last.column)), OperationFor(last));
      var all := Pairs(records);
      assert all == Pairs(init) + ps;
      forall k | 0 <= k < |all| ensures WellFormedOp(all[k].1) {
        if k >= |Pairs(init)| {
          assert all[k] == ps[k - |Pairs(init)|];
        }
      }
    }
  }

  lemma {:induction false} SetEntryWellFormed(m: Config, key: string, e: Entry)
    requires WellFormedConfig(m) && WellFormedEntry(e)
    ensures WellFormedConfig(SetKey(m, key, e))
  {
    var i := KeyIndex(m, key);
    if i < |m| {
      assert SetKey(m, key, e) == m[i := (key, e)];
    } else {
      assert SetKey(m, key, e) == m + [(key, e)];
    }
  }

  /** The compiler never pairs a condition other than `exists` with the `'*'` match. */
  lemma {:induction false} CompiledWellFormed(records: seq<Record>)
    ensures WellFormedConfig(Compiled(records))
  {
    PairsWellFormed(records);
    AccumulateWellFormed(Pairs(records));
    SetEntryWellFormed(Accumulate(Pairs(records)), FallbackSelector, OpObject(FallbackOp));
  }

  // ---------------------------------------------------------------------------
  // The evidently intended fallback

  /** The compiled map with the fallback pushed as one more operation of its
      selector, as the other rules are, instead of stored as a bare object. */
  function CompiledCorrected(records: seq<Record>): Config
  {
    Push(Accumulate(Pairs(records)), FallbackSelector, FallbackOp)
  }

  /** With the fallback pushed, every value of the map is a list, and the fallback
      selector keeps the operations the records gave it, followed by the fallback. */
  lemma {:induction false} CompiledCorrectedLookup(records: seq<Record>, key: string)
    ensures AllLists(CompiledCorrected(records))
    ensures Lookup(CompiledCorrected(records), key) ==
      if key == FallbackSelector then Some(OpList(OpsFor(Pairs(records), key) + [FallbackOp]))
      else if OpsFor(Pairs(records), key) == [] then None
      else Some(OpList(OpsFor(Pairs(records), key)))
  {
    AccumulateLookup(Pairs(records), key);
    AccumulateLookup(Pairs(records), FallbackSelector);
  }

  lemma {:induction false} CompiledCorrectedWellFormed(records: seq<Record>)
    ensures AllLists(CompiledCorrected(records)) && WellFormedConfig(CompiledCorrected(records))
  {
    PairsWellFormed(records);
    AccumulateWellFormed(Pairs(records));
    PushWellFormed(Accumulate(Pairs(records)), FallbackSelector, FallbackOp);
  }
}
