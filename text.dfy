/** The two pure helpers of the mute module: the whisper-text sanitiser and the
    invite-channel chooser. */
module DumbText {
  import opened Wrappers
  import opened Js

  /** The characters `\s` matches in this model. */
  predicate IsWs(c: char) {
    c == ' ' || c == '\t' || c == '\n' || c == '\r' || c == '\U{000B}' || c == '\U{000C}'
  }

  predicate AllWs(s: string) {
    forall i :: 0 <= i < |s| ==> IsWs(s[i])
  }

  predicate StartsWithNewline(s: string) {
    |s| > 0 && s[0] == '\n'
  }

  predicate EndsWithNewline(s: string) {
    |s| > 0 && s[|s| - 1] == '\n'
  }

  /** Three newlines in a row start at `i`. */
  predicate TripleAt(s: string, i: nat)
    requires i + 3 <= |s|
  {
    s[i] == '\n' && s[i + 1] == '\n' && s[i + 2] == '\n'
  }

  /** No three newlines in a row anywhere in `s`. */
  predicate NoTripleNewline(s: string) {
    forall i: nat :: i + 3 <= |s| ==> !TripleAt(s, i)
  }

  predicate HasNewline(s: string) {
    exists i :: 0 <= i < |s| && s[i] == '\n'
  }

  // ---------------------------------------------------------------------------
  // First pass: `replace(/^\s*\n|^\s+$|\n\s*$/g, '')`
  // ---------------------------------------------------------------------------

  /** The length of the maximal all-whitespace prefix of `s`. */
  function LeadWs(s: string): (w: nat)
    ensures w <= |s|
    ensures forall i :: 0 <= i < w ==> IsWs(s[i])
    ensures w < |s| ==> !IsWs(s[w])
  {
    if s == [] || !IsWs(s[0]) then 0 else 1 + LeadWs(s[1..])
  }

  /** Where the maximal all-whitespace suffix of `s` begins. */
  function TrailWs(s: string): (t: nat)
    ensures t <= |s|
    ensures forall i :: t <= i < |s| ==> IsWs(s[i])
    ensures t > 0 ==> !IsWs(s[t - 1])
  {
    if s == [] || !IsWs(s[|s| - 1]) then |s| else TrailWs(s[..|s| - 1])
  }

  /** The length of what the first alternative `^\s*\n` removes: the greedy `\s*`
      backs off to the last newline of the leading whitespace, so this is the
      position just after that newline, 0 when the leading whitespace has none. */
  function HeadCut(s: string): (h: nat)
    ensures h <= LeadWs(s)
    ensures h > 0 ==> s[h - 1] == '\n'
    ensures forall k :: h <= k < LeadWs(s) ==> s[k] != '\n'
  {
    if s == [] || !IsWs(s[0]) then
      0
    else
      var k := HeadCut(s[1..]);
      if k > 0 then k + 1
      else if s[0] == '\n' then 1
      else 0
  }

  /** Where the third alternative `\n\s*$` first matches when the scan starts at
      `i`: the leftmost newline at or after `i` that only whitespace follows, that
      is, one inside the trailing whitespace; `|s|` when there is none. */
  function TailStart(s: string, i: nat): (e: nat)
    requires i <= |s|
    ensures i <= e <= |s|
    ensures e < |s| ==> s[e] == '\n' && TrailWs(s) <= e
    ensures forall k :: i <= k < e && TrailWs(s) <= k ==> s[k] != '\n'
    decreases |s| - i
  {
    if i == |s| then |s|
    else if s[i] == '\n' && TrailWs(s) <= i then i
    else TailStart(s, i + 1)
  }

  /** The first pass of the sanitiser. The regular expression is anchored without
      the `m` flag, so `^` only matches at 0 and `$` only at the end: at 0 the
      first alternative wins over the second, which applies only to a non-empty
      all-whitespace text holding no newline; the scan then resumes after the
      first match, where only the third alternative can match. */
  function StripEdges(s: string): (r: string)
    ensures exists p, q :: 0 <= p <= q <= |s| && r == s[p..q] && AllWs(s[..p]) && AllWs(s[q..])
    ensures !StartsWithNewline(r) && !EndsWithNewline(r)
    ensures HeadCut(r) == 0 && TailStart(r, 0) == |r|
    ensures !HasNewline(s) ==> r == (if AllWs(s) then [] else s)
    ensures s != [] && !IsWs(s[0]) && !IsWs(s[|s| - 1]) ==> r == s
    // unless the second alternative empties it, the text is cut exactly at the
    // first and the third alternatives' matches
    ensures !(s != [] && AllWs(s) && !HasNewline(s)) ==> r == s[HeadCut(s)..TailStart(s, HeadCut(s))]
  {
    var h := HeadCut(s);
    if h == 0 && s != [] && AllWs(s) then
      assert LeadWs(s) == |s|;
      assert !HasNewline(s);
      assert s[|s|..|s|] == [] && s[..|s|] == s;
      []
    else
      var e := TailStart(s, h);
      StripEdgesKeepsNoBlankLine(s, h, e);
      StripEdgesCutsWhitespace(s, h, e);
      s[h..e]
  }

  /** The first pass cuts whitespace only, and cuts nothing from a text without
      newlines or from one whose ends are not whitespace. */
  lemma StripEdgesCutsWhitespace(s: string, h: nat, e: nat)
    requires h == HeadCut(s) && e == TailStart(s, h)
    ensures AllWs(s[..h]) && AllWs(s[e..])
    ensures !HasNewline(s) ==> s[h..e] == s
    ensures s != [] && !IsWs(s[0]) && !IsWs(s[|s| - 1]) ==> s[h..e] == s
  {

  }

  /** The first pass keeps the indentation after a stripped blank line and the
      whitespace before a stripped line end: it is not a trim. */
  lemma StripEdgesIsNotTrim()
    ensures StripEdges("\n x") == " x"
    ensures StripEdges("x \n") == "x "
  {
    var s := "\n x";
    assert s[1..] == " x" && s[1..][1..] == "x";
    assert HeadCut(s) == 1;
    assert TailStart(s, 1) == 3;
    var u := "x \n";
    assert u[..2] == "x " && u[..2][..1] == "x";
    assert TrailWs(u) == 1;
    assert HeadCut(u) == 0;
    assert TailStart(u, 0) == 2;
  }

  /** What is left after the first pass has no whitespace run holding a newline
      at either edge, and so neither begins nor ends with a newline. */
  lemma StripEdgesKeepsNoBlankLine(s: string, h: nat, e: nat)
    requires h == HeadCut(s) && e == TailStart(s, h)
    ensures var r := s[h..e]; HeadCut(r) == 0 && TailStart(r, 0) == |r|
    ensures var r := s[h..e]; !StartsWithNewline(r) && !EndsWithNewline(r)
  {
    NoBlankLineAtStart(s, h, e);
    NoBlankLineAtEnd(s, h, e);
  }

  /** A whitespace prefix of length `m` is inside the leading whitespace. */
  lemma LeadWsCovers(s: string, m: nat)
    requires m <= |s|
    requires forall i :: 0 <= i < m ==> IsWs(s[i])
    ensures m <= LeadWs(s)
  {
  }

  lemma NoBlankLineAtStart(s: string, h: nat, e: nat)
    requires h <= LeadWs(s) && h <= e <= |s|
    requires forall k :: h <= k < LeadWs(s) ==> s[k] != '\n'
    ensures forall j :: 0 <= j < LeadWs(s[h..e]) ==> s[h..e][j] != '\n'
  {
    var r := s[h..e];
    forall j | 0 <= j < LeadWs(r)
      ensures r[j] != '\n'
    {
      assert s[h + j] == r[j];
      forall i | 0 <= i <= h + j
        ensures IsWs(s[i])
      {
        if i >= h {
          assert s[i] == r[i - h];
        }
      }
      LeadWsCovers(s, h + j + 1);
    }
  }

  lemma NoBlankLineAtEnd(s: string, h: nat, e: nat)
    requires h <= |s| && e == TailStart(s, h)
    ensures TailStart(s[h..e], 0) == e - h
  {

  }

  // ---------------------------------------------------------------------------
  // Second pass: `replace(/\n{3,}/g, '\n\n')`
  // ---------------------------------------------------------------------------

  /** The number of newlines `s` starts with. */
  function NewlineRun(s: string): (n: nat)
    ensures n <= |s|
    ensures forall i :: 0 <= i < n ==> s[i] == '\n'
    ensures n < |s| ==> s[n] != '\n'
  {
    if s == [] || s[0] != '\n' then 0 else 1 + NewlineRun(s[1..])
  }

  /** The second pass: every maximal run of three or more newlines becomes exactly
      two; a shorter run does not match `\n{3,}` at any of its positions and is
      kept. The greedy quantifier takes the whole run. */
  function Collapse(s: string): (r: string)
    ensures |r| <= |s|
    ensures r == [] <==> s == []
    ensures s != [] && s[0] != '\n' ==> r[0] == s[0]
    ensures s != [] && s[|s| - 1] != '\n' ==> r != [] && r[|r| - 1] == s[|s| - 1]
    decreases |s|
  {
    if s == [] then []
    else if s[0] != '\n' then [s[0]] + Collapse(s[1..])
    else
      var n := NewlineRun(s);
      (if n >= 3 then "\n\n" else s[..n]) + Collapse(s[n..])
  }

  /** Removes every newline, keeping everything else in order. */
  function DropNewlines(s: string): (r: string)
    ensures |r| <= |s| && !HasNewline(r)
  {
    if s == [] then []
    else if s[0] == '\n' then DropNewlines(s[1..])
    else [s[0]] + DropNewlines(s[1..])
  }

  lemma {:induction false} DropNewlinesAppend(a: string, b: string)
    ensures DropNewlines(a + b) == DropNewlines(a) + DropNewlines(b)
  {
    if a != [] {
      var head := if a[0] == '\n' then [] else [a[0]];
      assert (a + b)[0] == a[0];
      assert (a + b)[1..] == a[1..] + b;
      assert DropNewlines(a + b) == head + DropNewlines(a[1..] + b);
      assert DropNewlines(a) == head + DropNewlines(a[1..]);
      DropNewlinesAppend(a[1..], b);
    } else {
      assert a + b == b;
    }
  }

  lemma {:induction false} DropNewlinesOfNewlines(s: string)
    requires forall i :: 0 <= i < |s| ==> s[i] == '\n'
    ensures DropNewlines(s) == []
  {
    if s != [] {
      DropNewlinesOfNewlines(s[1..]);
    }
  }

  /** Two texts without three newlines in a row still have none when joined,
      unless the first ends and the second starts with a newline. */
  lemma NoTripleNewlineAppend(x: string, y: string)
    requires NoTripleNewline(x) && NoTripleNewline(y)
    requires !(EndsWithNewline(x) && StartsWithNewline(y))
    ensures NoTripleNewline(x + y)
  {
    var z := x + y;
    forall i: nat | i + 3 <= |z|
      ensures !TripleAt(z, i)
    {
      if i + 3 <= |x| {
        assert z[i] == x[i] && z[i + 1] == x[i + 1] && z[i + 2] == x[i + 2];
        assert !TripleAt(x, i);
      } else if i >= |x| {
        var k := i - |x|;
        assert z[i] == y[k] && z[i + 1] == y[k + 1] && z[i + 2] == y[k + 2];
        assert !TripleAt(y, k);
      } else {
        assert z[|x| - 1] == x[|x| - 1] && z[|x|] == y[0];
      }
    }
  }

  lemma NoTripleNewlineSuffix(s: string, n: nat)
    requires NoTripleNewline(s) && n <= |s|
    ensures NoTripleNewline(s[n..])
  {
    var u := s[n..];
    forall i: nat | i + 3 <= |u|
      ensures !TripleAt(u, i)
    {
      assert u[i] == s[n + i] && u[i + 1] == s[n + i + 1] && u[i + 2] == s[n + i + 2];
      assert !TripleAt(s, n + i);
    }
  }

  /** After the second pass no three newlines are left in a row. */
  lemma {:induction false} CollapseNoTriple(s: string)
    ensures NoTripleNewline(Collapse(s))
    decreases |s|
  {
    if s == [] {
    } else if s[0] != '\n' {
      CollapseNoTriple(s[1..]);
      NoTripleNewlineAppend([s[0]], Collapse(s[1..]));
    } else {
      var n := NewlineRun(s);
      var rest := s[n..];
      CollapseNoTriple(rest);
      assert rest != [] ==> rest[0] != '\n';
      var head := if n >= 3 then "\n\n" else s[..n];
      assert |head| <= 2;
      NoTripleNewlineAppend(head, Collapse(rest));
    }
  }

  /** The second pass only removes newlines: every other character stays, in order. */
  lemma {:induction false} CollapseKeepsText(s: string)
    ensures DropNewlines(Collapse(s)) == DropNewlines(s)
    decreases |s|
  {
    if s == [] {
    } else if s[0] != '\n' {
      CollapseKeepsText(s[1..]);
      DropNewlinesAppend([s[0]], Collapse(s[1..]));
    } else {
      var n := NewlineRun(s);
      var head := if n >= 3 then "\n\n" else s[..n];
      CollapseKeepsText(s[n..]);
      DropNewlinesAppend(head, Collapse(s[n..]));
      DropNewlinesAppend(s[..n], s[n..]);
      assert s == s[..n] + s[n..];
      DropNewlinesOfNewlines(head);
      DropNewlinesOfNewlines(s[..n]);
    }
  }

  /** A text without three newlines in a row starts with a run the second pass keeps. */
  lemma CollapseShortRun(s: string)
    requires s != [] && s[0] == '\n' && NoTripleNewline(s)
    ensures NewlineRun(s) < 3
    ensures Collapse(s) == s[..NewlineRun(s)] + Collapse(s[NewlineRun(s)..])
  {
    assert NewlineRun(s) >= 3 ==> TripleAt(s, 0);
  }

  /** A text without three newlines in a row goes through the second pass unchanged. */
  lemma {:induction false} CollapseKeepsNoTriple(s: string)
    requires NoTripleNewline(s)
    ensures Collapse(s) == s
    decreases |s|
  {
    if s != [] {
      if s[0] != '\n' {
        NoTripleNewlineSuffix(s, 1);
        CollapseKeepsNoTriple(s[1..]);
        assert s == [s[0]] + s[1..];
      } else {
        var n := NewlineRun(s);
        CollapseShortRun(s);
        NoTripleNewlineSuffix(s, n);
        CollapseKeepsNoTriple(s[n..]);
        assert s == s[..n] + s[n..];
      }
    }
  }

  /** The second pass leaves a text unchanged exactly when it has no three
      newlines in a row. */
  lemma CollapseFixedPoint(s: string)
    ensures Collapse(s) == s <==> NoTripleNewline(s)
  {
    CollapseNoTriple(s);
    if NoTripleNewline(s) {
      CollapseKeepsNoTriple(s);
    }
  }

  /** The newline run of a concatenation: a run that ends inside `x` stops there,
      one that fills `x` goes on into `y`. */
  lemma {:induction false} NewlineRunAppend(x: string, y: string)
    ensures NewlineRun(x + y) == if NewlineRun(x) < |x| then NewlineRun(x) else |x| + NewlineRun(y)
    decreases |x|
  {
    if x == [] {
      assert x + y == y;
    } else if x[0] == '\n' {
      assert (x + y)[1..] == x[1..] + y;
      NewlineRunAppend(x[1..], y);
    }
  }

  /** A text of newlines only: three or more become exactly two, fewer are kept. */
  lemma CollapseNewlines(n: string)
    requires forall i :: 0 <= i < |n| ==> n[i] == '\n'
    ensures Collapse(n) == if |n| >= 3 then "\n\n" else n
  {
    if n != [] {
      assert NewlineRun(n) == |n|;
      assert n[|n|..] == [] && n[..|n|] == n;
    }
  }

  /** The second pass works piece by piece on texts that do not meet in a newline,
      so together with `CollapseNewlines` it fixes what becomes of every run. */
  lemma {:induction false} CollapseAppend(x: string, y: string)
    requires !(EndsWithNewline(x) && StartsWithNewline(y))
    ensures Collapse(x + y) == Collapse(x) + Collapse(y)
    decreases |x|
  {
    if x == [] {
      assert x + y == y;
    } else if x[0] != '\n' {
      var c, rest := [x[0]], x[1..];
      CollapseAppendChar(x, y);
      EndsWithNewlineSuffix(x, 1);
      CollapseAppend(rest, y);
      Reassociate(c, Collapse(rest), Collapse(y));
    } else if NewlineRun(x) < |x| {
      var m := NewlineRun(x);
      var run, rest := if m >= 3 then "\n\n" else x[..m], x[m..];
      CollapseAppendRun(x, y);
      EndsWithNewlineSuffix(x, m);
      CollapseAppend(rest, y);
      Reassociate(run, Collapse(rest), Collapse(y));
    } else {
      CollapseAppendWholeRun(x, y);
    }
  }

  lemma Reassociate(a: string, b: string, c: string)
    ensures a + (b + c) == (a + b) + c
  {
  }

  lemma EndsWithNewlineSuffix(x: string, k: nat)
    requires k <= |x|
    ensures EndsWithNewline(x[k..]) ==> EndsWithNewline(x)
  {
    if k < |x| {
      assert x[k..][|x| - k - 1] == x[|x| - 1];
    }
  }

  lemma CollapseAppendChar(x: string, y: string)
    requires x != [] && x[0] != '\n'
    ensures Collapse(x + y) == [x[0]] + Collapse(x[1..] + y)
    ensures Collapse(x) == [x[0]] + Collapse(x[1..])
  {
    assert (x + y)[1..] == x[1..] + y;
  }

  lemma CollapseAppendRun(x: string, y: string)
    requires x != [] && x[0] == '\n' && NewlineRun(x) < |x|
    ensures var m := NewlineRun(x);
      var run := if m >= 3 then "\n\n" else x[..m];
      Collapse(x + y) == run + Collapse(x[m..] + y) && Collapse(x) == run + Collapse(x[m..])
  {
    var m := NewlineRun(x);
    NewlineRunAppend(x, y);
    assert (x + y)[m..] == x[m..] + y;
    assert (x + y)[..m] == x[..m];
  }

  lemma CollapseAppendWholeRun(x: string, y: string)
    requires x != [] && x[0] == '\n' && NewlineRun(x) == |x| && !StartsWithNewline(y)
    ensures Collapse(x + y) == Collapse(x) + Collapse(y)
  {
    NewlineRunAppend(x, y);
    assert NewlineRun(y) == 0;
    var run := if |x| >= 3 then "\n\n" else x;
    assert (x + y)[|x|..] == y && (x + y)[..|x|] == x;
    assert Collapse(x + y) == run + Collapse(y);
    assert x[|x|..] == [] && x[..|x|] == x;
    assert Collapse(x) == run;
  }

  // ---------------------------------------------------------------------------
  // The helpers as the module uses them
  // ---------------------------------------------------------------------------

  /** The two passes together: no three newlines in a row, no newline at either
      end, and a text without newlines comes back unchanged unless it is only
      whitespace. */
  lemma SanitisedText(s: string)
    ensures var r := Collapse(StripEdges(s));
      NoTripleNewline(r) && !StartsWithNewline(r) && !EndsWithNewline(r) && |r| <= |s| &&
      (!HasNewline(s) ==> r == (if AllWs(s) then [] else s))
  {
    var stripped := StripEdges(s);
    CollapseNoTriple(stripped);
    if !HasNewline(s) {
      assert !HasNewline(stripped) by {
        if !AllWs(s) {
          assert stripped == s;
        }
      }
      CollapseFixedPoint(stripped);
    }
  }

  /** `parseText`: `None` stands for the `false` returned for a non-string. A string
      comes back with its leading and trailing blank lines gone and every run of
      three or more newlines cut to two. */
  function ParseText(text: JsValue): (r: Option<string>)
    ensures r.None? <==> !text.Str?
    ensures r.Some? ==> NoTripleNewline(r.value)
    ensures r.Some? ==> !StartsWithNewline(r.value) && !EndsWithNewline(r.value)
    ensures r.Some? ==> |r.value| <= |text.s|
    ensures r.Some? && !HasNewline(text.s) ==> r.value == (if AllWs(text.s) then [] else text.s)
  {
    match text
    case Str(s) =>
      SanitisedText(s);
      Some(Collapse(StripEdges(s)))
    case _ => None
  }

  /** Sanitising twice is not sanitising once: the first pass can leave a text that
      is only whitespace, which the next application empties. */
  lemma ParseTextNotIdempotent()
    ensures ParseText(Str("\n  ")) == Some("  ")
    ensures ParseText(Str("  ")) == Some([])
  {
    var s := "\n  ";
    assert s[1..] == "  " && s[1..][1..] == " " && s[1..][1..][1..] == "";
    assert HeadCut(s) == 1;
    assert TailStart(s, 1) == 3;
    assert StripEdges(s) == "  ";
    assert Collapse(" ") == " ";
    assert Collapse("  ") == "  ";
    assert StripEdges("  ") == [];
  }

  /** `getChannel`: a string is returned as it is, the empty string included; any
      other value yields `token`, the random base-36 text the caller drew. */
  function GetChannel(channel: JsValue, token: string): (r: string)
    ensures channel.Str? ==> r == channel.s
    ensures !channel.Str? ==> r == token
  {
    if channel.Str? then channel.s else token
  }
}
