/**
  The DNT annotator: `addDntAttribute` (htmlutils.js:66-82) and the loop over the
  rule map that calls it (htmlutils.js:88-90). A parsed page is a fixed list of
  elements with their text and parent; the only thing that changes is each
  element's `translate="no"` marker. The CSS engine behind `querySelectorAll` is
  not modelled: every selector comes with the indices of the elements it matches.
 */
module DntAnnotator {
  import opened Wrappers
  import opened JsStrings
  import opened OrderedMaps
  import opened DntRules

  const DntRow: string := "dnt-row"

  /** The elements of a parsed page, in document order: each one's `textContent`
      and the index of its `parentNode`, or -1 when the parent is the document node,
      which has no `setAttribute`. */
  datatype Elements = Elements(text: seq<string>, parent: seq<int>)

  /** The markers after a walk, and whether it got to the end rather than stopping
      on a thrown TypeError. Markers set before the throw stay set. */
  datatype Run = Run(marks: seq<bool>, completed: bool)

  predicate Fits(els: Elements, marks: seq<bool>)
  {
    |els.text| == |marks| && |els.parent| == |marks|
    && forall i :: 0 <= i < |marks| ==> -1 <= els.parent[i] < |marks|
  }

  predicate InRange(matches: seq<nat>, n: nat)
  {
    forall k :: 0 <= k < |matches| ==> matches[k] < n
  }

  predicate AllInRange(matches: seq<seq<nat>>, n: nat)
  {
    forall c :: 0 <= c < |matches| ==> InRange(matches[c], n)
  }

  // ---------------------------------------------------------------------------
  // One operation on one element

  /** Whether the condition of an operation other than `exists` holds of an
      element's text (lines 75-76), or None when evaluating it throws. `equals`
      asks `includes` and `beginsWith` asks `some` of the match; on the string
      `'*'`, `includes` is a substring test (true of "" and "*" only) and `some`
      is missing. Any other condition never holds. */
  function Holds(op: Operation, text: string): Option<bool>
  {
    if op.condition == "equals" then
      match op.matchTexts
      case Values(vs) => Some(text in vs)
      case Wildcard => Some(text == "" || text == "*")
    else if op.condition == "beginsWith" then
      match op.matchTexts
      case Values(vs) => Some(exists k :: 0 <= k < |vs| && StartsWith(text, vs[k]))
      case Wildcard => None
    else Some(false)
  }

  /** The node a holding condition marks (line 72): the parent for `dnt-row`, the element otherwise. */
  function Target(els: Elements, e: nat, op: Operation): int
    requires e < |els.parent|
  {
    if op.action == DntRow then els.parent[e] else e
  }

  /** Operation `op`, run on matched element `e`, marks element `i`: `exists` marks
      the element itself whatever the action; any other condition marks its target
      when it holds. */
  predicate OpMarks(els: Elements, e: nat, op: Operation, i: int)
    requires e < |els.text| && e < |els.parent|
  {
    if op.condition == Exists then i == e
    else Holds(op, els.text[e]) == Some(true) && i == Target(els, e, op)
  }

  /** Operation `op`, run on matched element `e`, throws: its condition cannot be
      evaluated, or it holds and its target is the document node. */
  predicate OpThrows(els: Elements, e: nat, op: Operation)
    requires e < |els.text| && e < |els.parent|
  {
    op.condition != Exists
    && (Holds(op, els.text[e]).None? || (Holds(op, els.text[e]) == Some(true) && Target(els, e, op) < 0))
  }

  /** The body of the `operations.forEach` callback (lines 69-78). */
  function ApplyOp(els: Elements, marks: seq<bool>, e: nat, op: Operation): (r: Run)
    requires Fits(els, marks) && e < |marks|
    ensures |r.marks| == |marks|
    ensures r.completed <==> !OpThrows(els, e, op)
    ensures forall i :: 0 <= i < |marks| ==> (r.marks[i] <==> marks[i] || (r.completed && OpMarks(els, e, op, i)))
  {
    if op.condition == Exists then Run(marks[e := true], true)
    else
      match Holds(op, els.text[e])
      case None => Run(marks, false)
      case Some(holds) =>
        if !holds then Run(marks, true)
        else
          var t := Target(els, e, op);
          if t < 0 then Run(marks, false) else Run(marks[t := true], true)
  }

  // ---------------------------------------------------------------------------
  // The walks

  /** `operations.forEach` on one element: the operations in order, stopping at the first throw. */
  function ApplyOps(els: Elements, marks: seq<bool>, e: nat, ops: seq<Operation>): (r: Run)
    requires Fits(els, marks) && e < |marks|
    ensures |r.marks| == |marks|
    ensures forall i :: 0 <= i < |marks| && marks[i] ==> r.marks[i]
  {
    if ops == [] then Run(marks, true)
    else
      var r := ApplyOps(els, marks, e, ops[..|ops| - 1]);
      if !r.completed then r else ApplyOp(els, r.marks, e, ops[|ops| - 1])
  }

  /** `addDntAttribute` (lines 66-82): the matched elements in order, each through
      the entry's operations. An entry that is a single object, not a list, has no
      `forEach`: the first matched element throws, and with no matched element
      nothing happens. */
  function ApplyEntry(els: Elements, marks: seq<bool>, matches: seq<nat>, entry: Entry): (r: Run)
    requires Fits(els, marks) && InRange(matches, |marks|)
    ensures |r.marks| == |marks|
    ensures forall i :: 0 <= i < |marks| && marks[i] ==> r.marks[i]
  {
    if matches == [] then Run(marks, true)
    else
      var r := ApplyEntry(els, marks, matches[..|matches| - 1], entry);
      if !r.completed then r
      else
        match entry
        case OpObject(_) => Run(r.marks, false)
        case OpList(ops) => ApplyOps(els, r.marks, matches[|matches| - 1], ops)
  }

  /** `dntConfig.forEach` (lines 88-90): the entries in insertion order;
      `matches[c]` holds the elements the selector of entry `c` matches. */
  function ApplyEntries(els: Elements, marks: seq<bool>, config: Config, matches: seq<seq<nat>>): (r: Run)
    requires Fits(els, marks) && |matches| == |config| && AllInRange(matches, |marks|)
    ensures |r.marks| == |marks|
    ensures forall i :: 0 <= i < |marks| && marks[i] ==> r.marks[i]
  {
    if config == [] then Run(marks, true)
    else
      var n := |config| - 1;
      var r := ApplyEntries(els, marks, config[..n], matches[..n]);
      if !r.completed then r else ApplyEntry(els, r.marks, matches[n], config[n].1)
  }

  /** The annotation of a page with the map `getDntConfig` resolved to; when the rule
      list could not be fetched it resolved to `undefined`, whose `forEach` throws. */
  function Annotate(els: Elements, marks: seq<bool>, config: Option<Config>, matches: seq<seq<nat>>): (r: Run)
    requires Fits(els, marks) && AllInRange(matches, |marks|)
    requires config.Some? ==> |matches| == |config.value|
    ensures |r.marks| == |marks|
    ensures forall i :: 0 <= i < |marks| && marks[i] ==> r.marks[i]
    ensures config.None? ==> !r.completed && r.marks == marks
  {
    match config
    case None => Run(marks, false)
    case Some(c) => ApplyEntries(els, marks, c, matches)
  }

  // ---------------------------------------------------------------------------
  // Reference predicates

  ghost predicate MarkedByOps(els: Elements, e: nat, ops: seq<Operation>, i: int)
    requires e < |els.text| && e < |els.parent|
  {
    exists j :: 0 <= j < |ops| && OpMarks(els, e, ops[j], i)
  }

  predicate OpsSafe(els: Elements, e: nat, ops: seq<Operation>)
    requires e < |els.text| && e < |els.parent|
  {
    forall j :: 0 <= j < |ops| ==> !OpThrows(els, e, ops[j])
  }

  ghost predicate MarkedByEntry(els: Elements, matches: seq<nat>, entry: Entry, i: int)
    requires InRange(matches, |els.text|) && |els.parent| == |els.text|
  {
    entry.OpList? && exists k :: 0 <= k < |matches| && MarkedByOps(els, matches[k], entry.ops, i)
  }

  predicate EntrySafe(els: Elements, matches: seq<nat>, entry: Entry)
    requires InRange(matches, |els.text|) && |els.parent| == |els.text|
  {
    matches == [] || (entry.OpList? && forall k :: 0 <= k < |matches| ==> OpsSafe(els, matches[k], entry.ops))
  }

  ghost predicate MarkedByConfig(els: Elements, config: Config, matches: seq<seq<nat>>, i: int)
    requires |matches| == |config| && AllInRange(matches, |els.text|) && |els.parent| == |els.text|
  {
    exists c :: 0 <= c < |config| && MarkedByEntry(els, matches[c], config[c].1, i)
  }

  predicate ConfigSafe(els: Elements, config: Config, matches: seq<seq<nat>>)
    requires |matches| == |config| && AllInRange(matches, |els.text|) && |els.parent| == |els.text|
  {
    forall c :: 0 <= c < |config| ==> EntrySafe(els, matches[c], config[c].1)
  }

  // ---------------------------------------------------------------------------
  // Properties of the walks

  /** One element through a list of operations: it completes exactly when no
      operation throws; markers are only ever set; every marker it sets is one an
      operation marks; and when it completes, every such marker is set. */
  lemma {:induction false} ApplyOpsMarks(els: Elements, marks: seq<bool>, e: nat, ops: seq<Operation>)
    requires Fits(els, marks) && e < |marks|
    ensures var r := ApplyOps(els, marks, e, ops);
      && (r.completed <==> OpsSafe(els, e, ops))
      && (forall i :: 0 <= i < |marks| && marks[i] ==> r.marks[i])
      && (forall i :: 0 <= i < |marks| && r.marks[i] ==> marks[i] || MarkedByOps(els, e, ops, i))
      && (r.completed ==> forall i :: 0 <= i < |marks| && MarkedByOps(els, e, ops, i) ==> r.marks[i])
  {
    if ops != [] {
      var init, last := ops[..|ops| - 1], ops[|ops| - 1];
      ApplyOpsMarks(els, marks, e, init);
      var r0 := ApplyOps(els, marks, e, init);
      var r := ApplyOps(els, marks, e, ops);
      if r0.completed {
        assert r == ApplyOp(els, r0.marks, e, last);
        forall i | 0 <= i < |marks| && r.marks[i]
          ensures marks[i] || MarkedByOps(els, e, ops, i)
        {
          if !r0.marks[i] {
            assert OpMarks(els, e, ops[|ops| - 1], i);
          } else if !marks[i] {
            var j :| 0 <= j < |init| && OpMarks(els, e, init[j], i);
            assert ops[j] == init[j];
          }
        }
        if r.completed {
          forall i | 0 <= i < |marks| && MarkedByOps(els, e, ops, i)
            ensures r.marks[i]
          {
            var j :| 0 <= j < |ops| && OpMarks(els, e, ops[j], i);
            if j < |init| {
              assert init[j] == ops[j];
            }
          }
        }
        assert OpsSafe(els, e, ops) <==> OpsSafe(els, e, init) && !OpThrows(els, e, last) by {
          if OpsSafe(els, e, init) && !OpThrows(els, e, last) {
            forall j | 0 <= j < |ops| ensures !OpThrows(els, e, ops[j]) {
              if j < |init| {
                assert init[j] == ops[j];
              }
            }
          }
          if OpsSafe(els, e, ops) {
            forall j | 0 <= j < |init| ensures !OpThrows(els, e, init[j]) {
              assert init[j] == ops[j];
            }
          }
        }
      } else {
        assert r == r0;
        var j :| 0 <= j < |init| && OpThrows(els, e, init[j]);
        assert ops[j] == init[j];
        forall i | 0 <= i < |marks| && r.marks[i]
          ensures marks[i] || MarkedByOps(els, e, ops, i)
        {
          if !marks[i] {
            var j :| 0 <= j < |init| && OpMarks(els, e, init[j], i);
            assert ops[j] == init[j];
          }
        }
      }
    }
  }

  /** How the entry predicates split off the last matched element. */
  lemma {:induction false} EntrySnoc(els: Elements, matches: seq<nat>, entry: Entry)
    requires InRange(matches, |els.text|) && |els.parent| == |els.text| && matches != []
    ensures var init, last := matches[..|matches| - 1], matches[|matches| - 1];
      && InRange(init, |els.text|)
      && (EntrySafe(els, matches, entry) <==>
          EntrySafe(els, init, entry) && entry.OpList? && OpsSafe(els, last, entry.ops))
      && (forall i :: MarkedByEntry(els, matches, entry, i) <==>
          MarkedByEntry(els, init, entry, i) || (entry.OpList? && MarkedByOps(els, last, entry.ops, i)))
  {
    var init, last := matches[..|matches| - 1], matches[|matches| - 1];
    assert forall k :: 0 <= k < |init| ==> init[k] == matches[k];
    forall i ensures MarkedByEntry(els, matches, entry, i) ==>
      MarkedByEntry(els, init, entry, i) || (entry.OpList? && MarkedByOps(els, last, entry.ops, i))
    {
      if MarkedByEntry(els, matches, entry, i) {
        var k :| 0 <= k < |matches| && MarkedByOps(els, matches[k], entry.ops, i);
        if k < |init| {
          assert MarkedByOps(els, init[k], entry.ops, i);
        }
      }
    }
    forall i ensures MarkedByEntry(els, init, entry, i) ==> MarkedByEntry(els, matches, entry, i)
    {
      if MarkedByEntry(els, init, entry, i) {
        var k :| 0 <= k < |init| && MarkedByOps(els, init[k], entry.ops, i);
        assert MarkedByOps(els, matches[k], entry.ops, i);
      }
    }
    forall i ensures entry.OpList? && MarkedByOps(els, last, entry.ops, i) ==> MarkedByEntry(els, matches, entry, i)
    {
      if entry.OpList? && MarkedByOps(els, last, entry.ops, i) {
        assert MarkedByOps(els, matches[|matches| - 1], entry.ops, i);
      }
    }
  }

  /** `addDntAttribute` on one entry: it completes exactly when the entry is safe
      for every matched element (an object entry is safe only with no match);
      markers are only ever set; every marker it sets is one the entry's operations
      mark on a matched element; and when it completes, every such marker is set. */
  lemma {:induction false} ApplyEntryMarks(els: Elements, marks: seq<bool>, matches: seq<nat>, entry: Entry)
    requires Fits(els, marks) && InRange(matches, |marks|)
    ensures var r := ApplyEntry(els, marks, matches, entry);
      && (r.completed <==> EntrySafe(els, matches, entry))
      && (forall i :: 0 <= i < |marks| && marks[i] ==> r.marks[i])
      && (forall i :: 0 <= i < |marks| && r.marks[i] ==> marks[i] || MarkedByEntry(els, matches, entry, i))
      && (r.completed ==> forall i :: 0 <= i < |marks| && MarkedByEntry(els, matches, entry, i) ==> r.marks[i])
  {
    if matches != [] {
      var init, last := matches[..|matches| - 1], matches[|matches| - 1];
      EntrySnoc(els, matches, entry);
      ApplyEntryMarks(els, marks, init, entry);
      var r0 := ApplyEntry(els, marks, init, entry);
      if r0.completed && entry.OpList? {
        ApplyOpsMarks(els, r0.marks, last, entry.ops);
      }
    }
  }

  /** How the map predicates split off the last entry. */
  lemma {:induction false} ConfigSnoc(els: Elements, config: Config, matches: seq<seq<nat>>)
    requires |matches| == |config| && AllInRange(matches, |els.text|) && |els.parent| == |els.text| && config != []
    ensures var n := |config| - 1;
      && AllInRange(matches[..n], |els.text|)
      && (ConfigSafe(els, config, matches) <==>
          ConfigSafe(els, config[..n], matches[..n]) && EntrySafe(els, matches[n], config[n].1))
      && (forall i :: MarkedByConfig(els, config, matches, i) <==>
          MarkedByConfig(els, config[..n], matches[..n], i) || MarkedByEntry(els, matches[n], config[n].1, i))
  {
    var n := |config| - 1;
    var c0, m0 := config[..n], matches[..n];
    assert forall c :: 0 <= c < n ==> c0[c] == config[c] && m0[c] == matches[c];
    forall i ensures MarkedByConfig(els, config, matches, i) ==>
      MarkedByConfig(els, c0, m0, i) || MarkedByEntry(els, matches[n], config[n].1, i)
    {
      if MarkedByConfig(els, config, matches, i) {
        var c :| 0 <= c < |config| && MarkedByEntry(els, matches[c], config[c].1, i);
        if c < n {
          assert MarkedByEntry(els, m0[c], c0[c].1, i);
        }
      }
    }
    forall i ensures MarkedByConfig(els, c0, m0, i) ==> MarkedByConfig(els, config, matches, i)
    {
      if MarkedByConfig(els, c0, m0, i) {
        var c :| 0 <= c < |c0| && MarkedByEntry(els, m0[c], c0[c].1, i);
        assert MarkedByEntry(els, matches[c], config[c].1, i);
      }
    }
  }

  /** The walk over the whole map: it completes exactly when every entry is safe
      for the elements its selector matches; markers are only ever set; every
      marker it sets is one some entry marks; and when it completes, every such
      marker is set. */
  lemma {:induction false} ApplyEntriesMarks(els: Elements, marks: seq<bool>, config: Config, matches: seq<seq<nat>>)
    requires Fits(els, marks) && |matches| == |config| && AllInRange(matches, |marks|)
    ensures var r := ApplyEntries(els, marks, config, matches);
      && (r.completed <==> ConfigSafe(els, config, matches))
      && (forall i :: 0 <= i < |marks| && marks[i] ==> r.marks[i])
      && (forall i :: 0 <= i < |marks| && r.marks[i] ==> marks[i] || MarkedByConfig(els, config, matches, i))
      && (r.completed ==> forall i :: 0 <= i < |marks| && MarkedByConfig(els, config, matches, i) ==> r.marks[i])
  {
    if config != [] {
      var n := |config| - 1;
      ConfigSnoc(els, config, matches);
      ApplyEntriesMarks(els, marks, config[..n], matches[..n]);
      var r0 := ApplyEntries(els, marks, config[..n], matches[..n]);
      if r0.completed {
        ApplyEntryMarks(els, r0.marks, matches[n], config[n].1);
      }
    }
  }

  /** The annotation of a page: it completes exactly when the rule map was fetched
      and every entry is safe, so an unavailable rule list always stops it before
      any marker is set; otherwise it marks as `ApplyEntriesMarks` says. */
  lemma {:induction false} AnnotateMarks(els: Elements, marks: seq<bool>, config: Option<Config>, matches: seq<seq<nat>>)
    requires Fits(els, marks) && AllInRange(matches, |marks|)
    requires config.Some? ==> |matches| == |config.value|
    ensures var r := Annotate(els, marks, config, matches);
      && (r.completed <==> config.Some? && ConfigSafe(els, config.value, matches))
      && (config.None? ==> r.marks == marks)
      && (forall i :: 0 <= i < |marks| && marks[i] ==> r.marks[i])
  {
    if config.Some? {
      ApplyEntriesMarks(els, marks, config.value, matches);
    }
  }

  // ---------------------------------------------------------------------------
  // The inline-link fallback

  /** The compiled map, as written, stores the inline-link rule as a single object:
      on any page where `body > div > a` matches an element, the annotation throws
      (at that entry, or at an earlier one), so it never completes. */
  lemma {:induction false} CompiledFallbackThrows(records: seq<Record>, els: Elements, marks: seq<bool>, matches: seq<seq<nat>>)
    requires Fits(els, marks) && AllInRange(matches, |marks|)
    requires |matches| == |Compiled(records)|
    requires KeyIndex(Compiled(records), FallbackSelector) < |matches|
    requires matches[KeyIndex(Compiled(records), FallbackSelector)] != []
    ensures !Annotate(els, marks, Some(Compiled(records)), matches).completed
  {
    var config := Compiled(records);
    var c := KeyIndex(config, FallbackSelector);
    CompiledLookup(records, FallbackSelector);
    assert config[c].1 == OpObject(FallbackOp);
    assert !EntrySafe(els, matches[c], config[c].1);
    ApplyEntriesMarks(els, marks, config, matches);
  }

  /** Every matched element has an element, not the document node, as parent. */
  predicate ParentsAreElements(els: Elements, matches: seq<seq<nat>>)
    requires AllInRange(matches, |els.parent|)
  {
    forall c, k :: 0 <= c < |matches| && 0 <= k < |matches[c]| ==> els.parent[matches[c][k]] >= 0
  }

  /** A well-formed operation on an element whose parent is an element never throws. */
  lemma {:induction false} WellFormedOpsSafe(els: Elements, e: nat, ops: seq<Operation>)
    requires e < |els.text| && e < |els.parent| && els.parent[e] >= 0
    requires forall j :: 0 <= j < |ops| ==> WellFormedOp(ops[j])
    ensures OpsSafe(els, e, ops)
  {
  }

  /** With the fallback pushed onto its selector's list instead, the annotation of
      any page whose matched elements all have element parents completes, and sets
      exactly the markers the rules call for. */
  lemma {:induction false} CorrectedAnnotationCompletes(records: seq<Record>, els: Elements, marks: seq<bool>, matches: seq<seq<nat>>)
    requires Fits(els, marks) && AllInRange(matches, |marks|)
    requires |matches| == |CompiledCorrected(records)|
    requires ParentsAreElements(els, matches)
    ensures var config := CompiledCorrected(records);
      var r := Annotate(els, marks, Some(config), matches);
      && r.completed
      && forall i :: 0 <= i < |marks| ==> (r.marks[i] <==> marks[i] || MarkedByConfig(els, config, matches, i))
  {
    var config := CompiledCorrected(records);
    CompiledCorrectedWellFormed(records);
    forall c | 0 <= c < |config| ensures EntrySafe(els, matches[c], config[c].1) {
      forall k | 0 <= k < |matches[c]| ensures OpsSafe(els, matches[c][k], config[c].1.ops) {
        assert WellFormedEntry(config[c].1);
        WellFormedOpsSafe(els, matches[c][k], config[c].1.ops);
      }
    }
    ApplyEntriesMarks(els, marks, config, matches);
  }

  // ---------------------------------------------------------------------------
  // Walks that stop early

  lemma {:induction false} ApplyOpsStopped(els: Elements, marks: seq<bool>, e: nat, ops: seq<Operation>, n: nat)
    requires Fits(els, marks) && e < |marks| && n <= |ops|
    requires !ApplyOps(els, marks, e, ops[..n]).completed
    ensures ApplyOps(els, marks, e, ops) == ApplyOps(els, marks, e, ops[..n])
    decreases |ops|
  {
    if n == |ops| {
      assert ops[..n] == ops;
    } else {
      var init := ops[..|ops| - 1];
      assert init[..n] == ops[..n];
      ApplyOpsStopped(els, marks, e, init, n);
    }
  }

  lemma {:induction false} ApplyEntryStopped(els: Elements, marks: seq<bool>, matches: seq<nat>, entry: Entry, n: nat)
    requires Fits(els, marks) && InRange(matches, |marks|) && n <= |matches|
    requires !ApplyEntry(els, marks, matches[..n], entry).completed
    ensures ApplyEntry(els, marks, matches, entry) == ApplyEntry(els, marks, matches[..n], entry)
    decreases |matches|
  {
    if n == |matches| {
      assert matches[..n] == matches;
    } else {
      var init := matches[..|matches| - 1];
      assert init[..n] == matches[..n];
      ApplyEntryStopped(els, marks, init, entry, n);
    }
  }

  lemma {:induction false} ApplyEntriesStopped(els: Elements, marks: seq<bool>, config: Config, matches: seq<seq<nat>>, n: nat)
    requires Fits(els, marks) && |matches| == |config| && AllInRange(matches, |marks|) && n <= |config|
    requires !ApplyEntries(els, marks, config[..n], matches[..n]).completed
    ensures ApplyEntries(els, marks, config, matches) == ApplyEntries(els, marks, config[..n], matches[..n])
    decreases |config|
  {
    if n == |config| {
      assert config[..n] == config && matches[..n] == matches;
    } else {
      var m := |config| - 1;
      assert config[..m][..n] == config[..n] && matches[..m][..n] == matches[..n];
      ApplyEntriesStopped(els, marks, config[..m], matches[..m], n);
    }
  }

  // ---------------------------------------------------------------------------
  // The page

  /** A parsed page: its elements are fixed; `translateNo[i]` is whether element
      `i` carries `translate="no"`. */
  class Document {
    const elements: Elements
    const translateNo: array<bool>

    ghost predicate Valid()
      reads this, translateNo
    {
      Fits(elements, translateNo[..])
    }

    /** A page whose elements carry no marker yet. */
    constructor (text: seq<string>, parent: seq<int>)
      requires |text| == |parent|
      requires forall i :: 0 <= i < |parent| ==> -1 <= parent[i] < |parent|
      ensures Valid() && elements == Elements(text, parent)
      ensures forall i :: 0 <= i < translateNo.Length ==> !translateNo[i]
    {
      elements := Elements(text, parent);
      translateNo := new bool[|text|](i => false);
    }

    /** The `operations.forEach` callback of lines 68-79 for one matched element. */
    method RunOperations(e: nat, ops: seq<Operation>) returns (completed: bool)
      requires Valid() && e < translateNo.Length
      modifies translateNo
      ensures Valid()
      ensures Run(translateNo[..], completed) == ApplyOps(elements, old(translateNo[..]), e, ops)
    {
      ghost var start := translateNo[..];
      var j := 0;
      while j < |ops|
        invariant 0 <= j <= |ops|
        invariant Valid()
        invariant Run(translateNo[..], true) == ApplyOps(elements, start, e, ops[..j])
      {
        assert ops[..j + 1][..j] == ops[..j];
        var op := ops[j];
        if op.condition == Exists {
          translateNo[e] := true;
        } else {
          var dntElement := if op.action == DntRow then elements.parent[e] else e;
          var holds := Holds(op, elements.text[e]);
          if holds.None? {
            ApplyOpsStopped(elements, start, e, ops, j + 1);
            return false;
          }
          if holds.value {
            if dntElement < 0 {
              ApplyOpsStopped(elements, start, e, ops, j + 1);
              return false;
            }
            translateNo[dntElement] := true;
          }
        }
        j := j + 1;
      }
      assert ops[..|ops|] == ops;
      return true;
    }

    /** `addDntAttribute(selector, operations, document)`, given the elements the
        selector matches. */
    method AddDntAttribute(matches: seq<nat>, entry: Entry) returns (completed: bool)
      requires Valid() && InRange(matches, translateNo.Length)
      modifies translateNo
      ensures Valid()
      ensures Run(translateNo[..], completed) == ApplyEntry(elements, old(translateNo[..]), matches, entry)
    {
      ghost var start := translateNo[..];
      var k := 0;
      while k < |matches|
        invariant 0 <= k <= |matches|
        invariant Valid()
        invariant Run(translateNo[..], true) == ApplyEntry(elements, start, matches[..k], entry)
      {
        assert matches[..k + 1][..k] == matches[..k];
        match entry
        case OpObject(_) =>
          ApplyEntryStopped(elements, start, matches, entry, k + 1);
          return false;
        case OpList(ops) =>
          var ok := RunOperations(matches[k], ops);
          if !ok {
            ApplyEntryStopped(elements, start, matches, entry, k + 1);
            return false;
          }
        k := k + 1;
      }
      assert matches[..|matches|] == matches;
      return true;
    }

    /** `dntConfig.forEach((operations, selector) => addDntAttribute(...))` of
        lines 88-90, with `matches[c]` the elements entry `c`'s selector matches;
        `None` is the `undefined` an unavailable rule list leaves. */
    method AddDntInfo(config: Option<Config>, matches: seq<seq<nat>>) returns (completed: bool)
      requires Valid() && AllInRange(matches, translateNo.Length)
      requires config.Some? ==> |matches| == |config.value|
      modifies translateNo
      ensures Valid()
      ensures Run(translateNo[..], completed) == Annotate(elements, old(translateNo[..]), config, matches)
    {
      if config.None? {
        return false;
      }
      var entries := config.value;
      ghost var start := translateNo[..];
      var c := 0;
      while c < |entries|
        invariant 0 <= c <= |entries|
        invariant Valid()
        invariant Run(translateNo[..], true) == ApplyEntries(elements, start, entries[..c], matches[..c])
      {
        assert entries[..c + 1][..c] == entries[..c] && matches[..c + 1][..c] == matches[..c];
        var ok := AddDntAttribute(matches[c], entries[c].1);
        if !ok {
          ApplyEntriesStopped(elements, start, entries, matches, c + 1);
          return false;
        }
        c := c + 1;
      }
      assert entries[..|entries|] == entries && matches[..|matches|] == matches;
      return true;
    }
  }
}
