/**
  The selector builder of the DNT rule handling (`getHtmlSelector`): a block
  name plus a row/column address becomes a CSS selector.
 */
module Selector {
  import opened JsStrings

  /** The `row` and `column` fields of a DNT rule record: `*` or a 1-based position, as text. */
  datatype Address = Address(row: string, column: string)

  /** The block scope that stands for "no block": the top-level divisions of the body. */
  const NoBlock: string := "noblock"
  const BodyDiv: string := "body > div"

  /** The class name of a block: lower-cased, every whitespace run collapsed to one
      space, trimmed, and the spaces replaced by `-`. */
  function BlockClass(name: string): string
  {
    ReplaceChar(Trim(CollapseWhitespace(ToLower(name))), ' ', '-')
  }

  /** One descent step: any child division for `*`, the child at that position otherwise. */
  function Step(position: string): (r: string)
    ensures StartsWith(r, " > div")
  {
    if position == "*" then " > div" else " > div:nth-child(" + position + ")"
  }

  /** `getHtmlSelector`. The sentinel `noblock` (compared case-sensitively) always
      gives `body > div`; otherwise the block's class selector, bare when both trimmed
      row and column are `*`, and else followed by the row step and then the column step. */
  function HtmlSelector(blockScope: string, address: Address): (r: string)
    ensures blockScope == NoBlock ==> r == BodyDiv
    ensures blockScope != NoBlock ==>
      (r == "." + BlockClass(blockScope) <==> Trim(address.row) == "*" && Trim(address.column) == "*")
    ensures blockScope != NoBlock && !(Trim(address.row) == "*" && Trim(address.column) == "*") ==>
      r == "." + BlockClass(blockScope) + Step(Trim(address.row)) + Step(Trim(address.column))
  {
    if blockScope == NoBlock then BodyDiv
    else
      var block := "." + BlockClass(blockScope);
      var column := Trim(address.column);
      var row := Trim(address.row);
      if column == "*" && row == "*" then block
      else block + Step(row) + Step(column)
  }

  /** The class named by a selector: what follows the leading `.` up to the first whitespace. */
  function ClassOf(selector: string): string
    requires selector != []
  {
    var rest := selector[1..];
    rest[..WordLength(rest)]
  }

  // ---------------------------------------------------------------------------
  // Properties

  predicate Clean(s: string)
  {
    NoWhitespace(s) && NoAsciiUpper(s)
  }

  /** The class name of a block is its lower-cased words joined by `-`. */
  lemma {:induction false} BlockClassIsJoinedWords(name: string)
    ensures BlockClass(name) == Join(Words(ToLower(name)), "-")
  {
    var lower := ToLower(name);
    TrimCollapseIsJoinedWords(lower);
    ReplaceJoinedWords(Words(lower), '-');
  }

  lemma {:induction false} WordsOfClean(s: string)
    requires NoAsciiUpper(s)
    ensures forall k :: 0 <= k < |Words(s)| ==> Clean(Words(s)[k])
    decreases |s|
  {
    var t := TrimStart(s);
    if t != [] {
      var n := WordLength(t);
      NoUpperSlices(s, t, n);
      WordsOfClean(t[n..]);
      var ws := Words(t[n..]);
      assert Words(s) == [t[..n]] + ws;
      forall k | 0 <= k < |Words(s)| ensures Clean(Words(s)[k]) {
        if k > 0 {
          assert Words(s)[k] == ws[k - 1];
        }
      }
    }
  }

  lemma {:induction false} NoUpperSlices(s: string, t: string, n: nat)
    requires NoAsciiUpper(s)
    requires |t| <= |s| && t == s[|s| - |t|..]
    requires n == WordLength(t)
    ensures Clean(t[..n]) && NoAsciiUpper(t[n..])
  {
    assert forall k :: 0 <= k < |t| ==> t[k] == s[|s| - |t| + k];
  }

  lemma {:induction false} JoinClean(ws: seq<string>, sep: string)
    requires Clean(sep)
    requires forall k :: 0 <= k < |ws| ==> Clean(ws[k])
    ensures Clean(Join(ws, sep))
  {
    if |ws| > 1 {
      JoinClean(ws[1..], sep);
    }
  }

  /** A block class contains neither whitespace nor an upper-case ASCII letter. */
  lemma {:induction false} BlockClassIsClean(name: string)
    ensures NoWhitespace(BlockClass(name)) && NoAsciiUpper(BlockClass(name))
  {
    var lower := ToLower(name);
    JoinedWordsClean(lower);
    BlockClassIsJoinedWords(name);
  }

  /** The words of a text without upper-case letters, joined by `-`, are clean. */
  lemma {:induction false} JoinedWordsClean(lower: string)
    requires NoAsciiUpper(lower)
    ensures Clean(Join(Words(lower), "-"))
  {
    WordsOfClean(lower);
    JoinClean(Words(lower), "-");
  }

  lemma {:induction false} WordsOfOneWord(s: string)
    requires s != [] && NoWhitespace(s)
    ensures Words(s) == [s]
  {
    assert s + [] == s;
    WordLengthOfWord(s, []);
    WordsOfWordStart(s);
    assert s[..|s|] == s;
  }

  lemma {:induction false} WordsOfWordStart(s: string)
    requires s != [] && !IsWhitespace(s[0])
    ensures Words(s) == [s[..WordLength(s)]] + Words(s[WordLength(s)..])
  {
    assert TrimStart(s) == s;
  }

  lemma {:induction false} WordLengthOfWord(w: string, rest: string)
    requires NoWhitespace(w)
    requires rest == [] || IsWhitespace(rest[0])
    ensures WordLength(w + rest) == |w|
    decreases |w|
  {
    if w == [] {
      assert w + rest == rest;
    } else {
      assert (w + rest)[1..] == w[1..] + rest;
      WordLengthOfWord(w[1..], rest);
    }
  }

  /** Normalising a block class again changes nothing. */
  lemma {:induction false} BlockClassIdempotent(name: string)
    ensures BlockClass(BlockClass(name)) == BlockClass(name)
  {
    var c := BlockClass(name);
    BlockClassIsClean(name);
    assert ToLower(c) == c;
    BlockClassIsJoinedWords(c);
    if c != [] {
      WordsOfOneWord(c);
    } else {
      assert Words(c) == [];
    }
  }

  /** The class a selector names is the block's normalised class: the class name
      can be read back from the selector, whatever steps follow it. */
  lemma {:induction false} SelectorKeepsBlockClass(blockScope: string, address: Address)
    requires blockScope != NoBlock
    ensures ClassOf(HtmlSelector(blockScope, address)) == BlockClass(blockScope)
  {
    var c := BlockClass(blockScope);
    BlockClassIsClean(blockScope);
    assert HtmlSelector(blockScope, address) == ClassSelector(c, address);
    ClassSelectorNamesClass(c, address);
  }

  /** A class selector over `address`: the class alone when both positions are `*`. */
  function ClassSelector(c: string, address: Address): string
  {
    if Trim(address.row) == "*" && Trim(address.column) == "*" then "." + c
    else "." + c + Step(Trim(address.row)) + Step(Trim(address.column))
  }

  lemma {:induction false} ClassSelectorNamesClass(c: string, address: Address)
    requires NoWhitespace(c)
    ensures ClassOf(ClassSelector(c, address)) == c
  {
    if Trim(address.row) == "*" && Trim(address.column) == "*" {
      ClassOfPrefixed("." + c, c, []);
    } else {
      ClassOfStepped(c, Step(Trim(address.row)), Step(Trim(address.column)));
    }
  }

  lemma {:induction false} ClassOfStepped(c: string, first: string, second: string)
    requires NoWhitespace(c) && StartsWith(first, " > div")
    ensures ClassOf("." + c + first + second) == c
  {
    assert first[0] == ' ';
    assert "." + c + first + second == "." + c + (first + second);
    ClassOfPrefixed("." + c + first + second, c, first + second);
  }

  lemma {:induction false} ClassOfPrefixed(r: string, c: string, steps: string)
    requires NoWhitespace(c)
    requires steps == [] || steps[0] == ' '
    requires r == "." + c + steps
    ensures ClassOf(r) == c
  {
    assert steps == [] || IsWhitespace(steps[0]);
    assert r[1..] == c + steps;
    WordLengthOfWord(c, steps);
  }
}
