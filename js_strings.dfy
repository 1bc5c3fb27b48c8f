/**
  The JavaScript string operations the DNT rule handling relies on: `trim`,
  `toLowerCase`, `replace(/\s+/g, ' ')`, `replaceAll`, `indexOf`, `includes`,
  `startsWith` and `split` with a string separator, each stated on `seq<char>`.
 */
module JsStrings {

  /** The code points ECMAScript counts as WhiteSpace or LineTerminator: what
      `String.prototype.trim` strips and what the regular-expression class `\s` matches. */
  predicate IsWhitespace(c: char)
  {
    c == ' ' || c == '\t' || c == '\n' || c == '\r' || c == '\U{000B}' || c == '\U{000C}'
    || c == '\U{00A0}' || c == '\U{1680}' || ('\U{2000}' <= c <= '\U{200A}')
    || c == '\U{2028}' || c == '\U{2029}' || c == '\U{202F}' || c == '\U{205F}'
    || c == '\U{3000}' || c == '\U{FEFF}'
  }

  predicate NoWhitespace(s: string)
  {
    forall k :: 0 <= k < |s| ==> !IsWhitespace(s[k])
  }

  predicate IsAsciiUpper(c: char)
  {
    'A' <= c <= 'Z'
  }

  predicate NoAsciiUpper(s: string)
  {
    forall k :: 0 <= k < |s| ==> !IsAsciiUpper(s[k])
  }

  // ---------------------------------------------------------------------------
  // trim

  /** Drops the leading whitespace: what is left is a suffix of `s` that is empty
      or starts with a non-whitespace character, and everything dropped is whitespace. */
  function TrimStart(s: string): (r: string)
    ensures |r| <= |s| && r == s[|s| - |r|..]
    ensures r == [] || !IsWhitespace(r[0])
  {
    if s != [] && IsWhitespace(s[0]) then TrimStart(s[1..]) else s
  }

  lemma {:induction false} TrimStartDropsWhitespace(s: string)
    ensures forall k :: 0 <= k < |s| - |TrimStart(s)| ==> IsWhitespace(s[k])
  {
    if s != [] && IsWhitespace(s[0]) {
      TrimStartDropsWhitespace(s[1..]);
    }
  }

  /** Drops the trailing whitespace, symmetrically to `TrimStart`. */
  function TrimEnd(s: string): (r: string)
    ensures |r| <= |s| && r == s[..|r|]
    ensures r == [] || !IsWhitespace(r[|r| - 1])
  {
    if s != [] && IsWhitespace(s[|s| - 1]) then TrimEnd(s[..|s| - 1]) else s
  }

  /** `String.prototype.trim`. */
  function Trim(s: string): (r: string)
    ensures |r| <= |s|
    ensures forall c :: c in r ==> c in s
    ensures r == [] || (!IsWhitespace(r[0]) && !IsWhitespace(r[|r| - 1]))
  {
    var t := TrimStart(s);
    var r := TrimEnd(t);
    assert forall c :: c in r ==> c in t;
    r
  }

  /** `.map(item => item.trim())`. */
  function TrimAll(ss: seq<string>): (rs: seq<string>)
    ensures |rs| == |ss|
    ensures forall k :: 0 <= k < |rs| ==> rs[k] == Trim(ss[k])
  {
    seq(|ss|, k requires 0 <= k < |ss| => Trim(ss[k]))
  }

  // ---------------------------------------------------------------------------
  // toLowerCase, replace(/\s+/g, ' '), replaceAll(' ', '-')

  function LowerChar(c: char): (d: char)
    ensures !IsAsciiUpper(d)
    ensures IsWhitespace(d) <==> IsWhitespace(c)
  {
    if IsAsciiUpper(c) then (c as int + 32) as char else c
  }

  /** `String.prototype.toLowerCase` on the ASCII letters. */
  function ToLower(s: string): (r: string)
    ensures |r| == |s| && NoAsciiUpper(r)
    ensures forall k :: 0 <= k < |s| ==> r[k] == LowerChar(s[k])
  {
    seq(|s|, k requires 0 <= k < |s| => LowerChar(s[k]))
  }

  /** `s.replace(/\s+/g, ' ')`: every maximal run of whitespace becomes one space. */
  function CollapseWhitespace(s: string): string
    decreases |s|
  {
    if s == [] then []
    else if IsWhitespace(s[0]) then [' '] + CollapseWhitespace(TrimStart(s))
    else [s[0]] + CollapseWhitespace(s[1..])
  }

  /** `s.replaceAll(from, to)` for a one-character pattern. */
  function ReplaceChar(s: string, from: char, to: char): (r: string)
    ensures |r| == |s|
    ensures forall k :: 0 <= k < |s| ==> r[k] == (if s[k] == from then to else s[k])
  {
    seq(|s|, k requires 0 <= k < |s| => if s[k] == from then to else s[k])
  }

  // ---------------------------------------------------------------------------
  // indexOf, includes, startsWith, split

  /** `sub` occurs in `s` at position `j`. */
  predicate OccursAt(s: string, sub: string, j: int)
  {
    0 <= j && j + |sub| <= |s| && s[j..j + |sub|] == sub
  }

  /** `String.prototype.indexOf`: the first position at which `sub` occurs, or -1. */
  function IndexOf(s: string, sub: string): (i: int)
    ensures -1 <= i
    ensures i >= 0 ==> OccursAt(s, sub, i)
    ensures forall j :: 0 <= j && (i < 0 || j < i) ==> !OccursAt(s, sub, j)
    decreases |s|
  {
    if |s| < |sub| then -1
    else if s[..|sub|] == sub then 0
    else
      var k := IndexOf(s[1..], sub);
      forall j | 1 <= j ensures OccursAt(s, sub, j) <==> OccursAt(s[1..], sub, j - 1) {
        if j + |sub| <= |s| {
          SliceOfTail(s, j, j + |sub|);
        }
      }
      if k < 0 then -1 else k + 1
  }

  lemma {:induction false} SliceOfTail(s: string, a: int, b: int)
    requires 1 <= a <= b <= |s|
    ensures s[1..][a - 1..b - 1] == s[a..b]
  {
  }

  /** `String.prototype.includes`. */
  predicate Contains(s: string, sub: string)
  {
    IndexOf(s, sub) >= 0
  }

  /** `String.prototype.startsWith`. */
  predicate StartsWith(s: string, prefix: string)
  {
    |prefix| <= |s| && s[..|prefix|] == prefix
  }

  /** `parts.join(sep)`. */
  function Join(parts: seq<string>, sep: string): string
  {
    if |parts| == 0 then ""
    else if |parts| == 1 then parts[0]
    else parts[0] + sep + Join(parts[1..], sep)
  }

  lemma {:induction false} JoinCons(w: string, ws: seq<string>, sep: string)
    requires ws != []
    ensures Join([w] + ws, sep) == w + sep + Join(ws, sep)
  {
    assert ([w] + ws)[1..] == ws;
  }

  lemma {:induction false} Regroup(a: string, b: string, c: string, d: string)
    ensures a + (b + (c + d)) == (a + b + c) + d
  {
  }

  /** `String.prototype.split` with a non-empty string separator: the pieces
      between successive leftmost non-overlapping occurrences of `sep`. */
  function Split(s: string, sep: string): (parts: seq<string>)
    requires sep != []
    ensures |parts| >= 1
    decreases |s|
  {
    var i := IndexOf(s, sep);
    if i < 0 then [s] else [s[..i]] + Split(s[i + |sep|..], sep)
  }

  /** Joining the pieces of a split with the same separator gives back the string. */
  lemma {:induction false} JoinSplit(s: string, sep: string)
    requires sep != []
    ensures Join(Split(s, sep), sep) == s
    decreases |s|
  {
    var i := IndexOf(s, sep);
    var parts := Split(s, sep);
    if i >= 0 {
      var rest := s[i + |sep|..];
      var tail := Split(rest, sep);
      assert parts == [s[..i]] + tail;
      assert parts[1..] == tail;
      JoinSplit(rest, sep);
      assert Join(parts, sep) == s[..i] + sep + rest;
      assert s[i..i + |sep|] == sep;
      assert s == s[..i] + s[i..i + |sep|] + rest;
    }
  }

  /** No piece of a split contains the separator. */
  lemma {:induction false} SplitPiecesLackSeparator(s: string, sep: string)
    requires sep != []
    ensures forall k :: 0 <= k < |Split(s, sep)| ==> !Contains(Split(s, sep)[k], sep)
    decreases |s|
  {
    var i := IndexOf(s, sep);
    if i >= 0 {
      var rest := s[i + |sep|..];
      SplitPiecesLackSeparator(rest, sep);
      var head := s[..i];
      forall j | OccursAt(head, sep, j) ensures OccursAt(s, sep, j) {
        assert head[j..j + |sep|] == s[j..j + |sep|];
      }
      assert !Contains(head, sep);
      assert Split(s, sep)[1..] == Split(rest, sep);
    }
  }

  // ---------------------------------------------------------------------------
  // Words: the reference definition of a normalised block name

  /** The length of the longest whitespace-free prefix of `t`. */
  function WordLength(t: string): (n: nat)
    ensures n <= |t|
    ensures forall k :: 0 <= k < n ==> !IsWhitespace(t[k])
    ensures n == |t| || IsWhitespace(t[n])
  {
    if t == [] || IsWhitespace(t[0]) then 0 else 1 + WordLength(t[1..])
  }

  /** The maximal runs of non-whitespace characters of `s`, in order. */
  function Words(s: string): (ws: seq<string>)
    ensures forall k :: 0 <= k < |ws| ==> ws[k] != [] && NoWhitespace(ws[k])
    decreases |s|
  {
    var t := TrimStart(s);
    if t == [] then []
    else
      var n := WordLength(t);
      assert n >= 1;
      [t[..n]] + Words(t[n..])
  }

  /** " " when `s` ends in whitespace, "" otherwise. */
  function Trail(s: string): string
  {
    if s != [] && IsWhitespace(s[|s| - 1]) then " " else ""
  }

  lemma {:induction false} CollapseWord(w: string, rest: string)
    requires NoWhitespace(w)
    ensures CollapseWhitespace(w + rest) == w + CollapseWhitespace(rest)
    decreases |w|
  {
    if w != [] {
      assert (w + rest)[1..] == w[1..] + rest;
      CollapseWord(w[1..], rest);
    } else {
      assert w + rest == rest;
    }
  }

  lemma {:induction false} WordsAfterWhitespace(s: string)
    ensures Words(s) == Words(TrimStart(s))
  {
    var t := TrimStart(s);
    assert TrimStart(t) == t;
  }

  lemma {:induction false} JoinEnds(ws: seq<string>, sep: string)
    requires ws != []
    requires forall k :: 0 <= k < |ws| ==> ws[k] != [] && NoWhitespace(ws[k])
    ensures Join(ws, sep) != []
    ensures Join(ws, sep)[0] == ws[0][0]
    ensures Join(ws, sep)[|Join(ws, sep)| - 1] == ws[|ws| - 1][|ws[|ws| - 1]| - 1]
  {
    if |ws| > 1 {
      JoinEnds(ws[1..], sep);
    }
  }

  /** A string that starts with a non-whitespace character collapses to its words
      joined by single spaces, plus one space if it ended in whitespace. */
  lemma {:induction false} CollapseIsJoinedWords(u: string)
    requires u == [] || !IsWhitespace(u[0])
    ensures CollapseWhitespace(u) == Join(Words(u), " ") + Trail(u)
    decreases |u|, 1
  {
    if u != [] {
      var n := WordLength(u);
      var w, rest := u[..n], u[n..];
      FirstWord(u);
      if rest == [] {
        CollapseLastWord(u, w);
      } else if TrimStart(rest) == [] {
        CollapseWordThenBlanks(u, w, rest);
      } else {
        CollapseWordThenMore(u, w, rest);
      }
    }
  }

  lemma {:induction false} FirstWord(u: string)
    requires u != [] && !IsWhitespace(u[0])
    ensures var n := WordLength(u);
      && u == u[..n] + u[n..] && u[..n] != [] && NoWhitespace(u[..n])
      && Words(u) == [u[..n]] + Words(u[n..])
      && CollapseWhitespace(u) == u[..n] + CollapseWhitespace(u[n..])
      && (u[n..] == [] || IsWhitespace(u[n..][0]))
  {
    assert TrimStart(u) == u;
    var n := WordLength(u);
    assert u == u[..n] + u[n..];
    CollapseWord(u[..n], u[n..]);
  }

  lemma {:induction false} CollapseLastWord(u: string, w: string)
    requires u == w && w != [] && NoWhitespace(w)
    requires Words(u) == [w] + Words([])
    requires CollapseWhitespace(u) == w + CollapseWhitespace([])
    ensures CollapseWhitespace(u) == Join(Words(u), " ") + Trail(u)
  {
    assert Words(u) == [w];
    assert Join(Words(u), " ") == w;
    assert Trail(u) == "";
  }

  lemma {:induction false} CollapseWordThenBlanks(u: string, w: string, rest: string)
    requires u == w + rest && w != [] && NoWhitespace(w) && rest != [] && IsWhitespace(rest[0])
    requires TrimStart(rest) == []
    requires Words(u) == [w] + Words(rest)
    requires CollapseWhitespace(u) == w + CollapseWhitespace(rest)
    ensures CollapseWhitespace(u) == Join(Words(u), " ") + Trail(u)
  {
    assert CollapseWhitespace(rest) == " ";
    assert u[|u| - 1] == rest[|rest| - 1];
    TrimStartDropsWhitespace(rest);
    assert Trail(u) == " ";
    assert Words(rest) == [];
    assert Words(u) == [w];
  }

  lemma {:induction false} CollapseWordThenMore(u: string, w: string, rest: string)
    requires u == w + rest && w != [] && NoWhitespace(w) && rest != [] && IsWhitespace(rest[0])
    requires TrimStart(rest) != []
    requires Words(u) == [w] + Words(rest)
    requires CollapseWhitespace(u) == w + CollapseWhitespace(rest)
    ensures CollapseWhitespace(u) == Join(Words(u), " ") + Trail(u)
    decreases |u|, 0
  {
    var v := TrimStart(rest);
    WordsAfterWhitespace(rest);
    assert CollapseWhitespace(rest) == " " + CollapseWhitespace(v);
    CollapseIsJoinedWords(v);
    TrailOfSuffix(rest, v);
    assert rest == u[|u| - |rest|..];
    TrailOfSuffix(u, rest);
    WordThenJoined(CollapseWhitespace(u), CollapseWhitespace(rest), CollapseWhitespace(v), w, Words(v), Trail(v));
  }

  lemma {:induction false} TrailOfSuffix(x: string, suffix: string)
    requires suffix != [] && |suffix| <= |x| && suffix == x[|x| - |suffix|..]
    ensures Trail(suffix) == Trail(x)
  {
    assert suffix[|suffix| - 1] == x[|x| - 1];
  }

  lemma {:induction false} WordThenJoined(cu: string, crest: string, cv: string, w: string, ws: seq<string>, t: string)
    requires ws != []
    requires cu == w + crest && crest == " " + cv && cv == Join(ws, " ") + t
    ensures cu == Join([w] + ws, " ") + t
  {
    JoinCons(w, ws, " ");
    Regroup(w, " ", Join(ws, " "), t);
  }

  /** Collapsing the whitespace runs and then trimming leaves the words joined by single spaces. */
  lemma {:induction false} TrimCollapseIsJoinedWords(s: string)
    ensures Trim(CollapseWhitespace(s)) == Join(Words(s), " ")
  {
    var v := TrimStart(s);
    WordsAfterWhitespace(s);
    CollapseIsJoinedWords(v);
    var ws := Words(v);
    var j := Join(ws, " ");
    var c := CollapseWhitespace(s);
    if s != [] && IsWhitespace(s[0]) {
      assert c == " " + CollapseWhitespace(v);
      TrimAfterSpaceIsJoin(c, v, ws);
    } else {
      assert v == s;
      TrimJoin(c, ws, Trail(v));
    }
  }

  lemma {:induction false} TrimAfterSpaceIsJoin(c: string, v: string, ws: seq<string>)
    requires v == [] || !IsWhitespace(v[0])
    requires ws == Words(v)
    requires CollapseWhitespace(v) == Join(ws, " ") + Trail(v)
    requires c == " " + CollapseWhitespace(v)
    ensures Trim(c) == Join(ws, " ")
  {
    assert c[1..] == CollapseWhitespace(v);
    assert TrimStart(c) == TrimStart(CollapseWhitespace(v));
    TrimJoin(CollapseWhitespace(v), ws, Trail(v));
  }

  lemma {:induction false} TrimJoin(c: string, ws: seq<string>, t: string)
    requires forall k :: 0 <= k < |ws| ==> ws[k] != [] && NoWhitespace(ws[k])
    requires t == "" || t == " "
    requires c == Join(ws, " ") + t
    ensures Trim(c) == Join(ws, " ")
  {
    var j := Join(ws, " ");
    if ws != [] {
      JoinEnds(ws, " ");
    }
    TrimPadded(j, t);
  }

  /** Trimming a string with no whitespace at either end, optionally followed by one space. */
  lemma {:induction false} TrimPadded(j: string, t: string)
    requires j == [] || (!IsWhitespace(j[0]) && !IsWhitespace(j[|j| - 1]))
    requires t == "" || t == " "
    ensures Trim(j + t) == j
  {
    var c := j + t;
    if t == "" {
      assert c == j;
    } else if j == [] {
      assert c == " ";
      assert TrimStart(c) == [];
    } else {
      assert TrimStart(c) == c;
      assert c[..|c| - 1] == j;
      assert TrimEnd(c) == TrimEnd(j);
    }
  }

  lemma {:induction false} ReplaceAppend(a: string, b: string, from: char, to: char)
    ensures ReplaceChar(a + b, from, to) == ReplaceChar(a, from, to) + ReplaceChar(b, from, to)
  {
  }

  /** Replacing the spaces of space-joined words by `to` joins them by `to`. */
  lemma {:induction false} ReplaceJoinedWords(ws: seq<string>, to: char)
    requires forall k :: 0 <= k < |ws| ==> NoWhitespace(ws[k])
    ensures ReplaceChar(Join(ws, " "), ' ', to) == Join(ws, [to])
  {
    if |ws| == 1 {
      assert ReplaceChar(ws[0], ' ', to) == ws[0];
    } else if |ws| > 1 {
      ReplaceJoinedWords(ws[1..], to);
      ReplaceAppend(ws[0] + " ", Join(ws[1..], " "), ' ', to);
      ReplaceAppend(ws[0], " ", ' ', to);
      assert ReplaceChar(ws[0], ' ', to) == ws[0];
    }
  }
}
