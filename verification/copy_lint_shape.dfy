/**
 What decides where code is found in a text: its backticks and line ends, and whether anything
 stands between them. Rewriting words leaves that untouched.
 */
module CopyLintShape {
  import opened CopyLint
  import opened CopyLintGate

  predicate Control(c: char) { c == '`' || c == '\n' }

  /** One more character in front of a shape. */
  function Prefixed(c: char, t: string): string {
    if Control(c) then [c] + t else if t != "" && t[0] == 'x' then t else "x" + t
  }

  /** The text with every stretch free of backticks and line ends shrunk to one letter. */
  function Shape(s: string): string {
    if s == "" then "" else Prefixed(s[0], Shape(s[1..]))
  }

  /** Two shapes side by side; plain stretches that touch become one. */
  function Meld(a: string, b: string): string {
    if a != "" && b != "" && a[|a| - 1] == 'x' && b[0] == 'x' then a + b[1..] else a + b
  }

  lemma MeldAfter(h: string, a: string, b: string)
    requires a != ""
    ensures Meld(h + a, b) == h + Meld(a, b)
  {
    assert (h + a)[|h + a| - 1] == a[|a| - 1];
    assert h + a + b == h + (a + b);
    if b != "" { assert h + a + b[1..] == h + (a + b[1..]); }
  }

  lemma OneLetter(b: string)
    requires b != "" && b[0] == 'x'
    ensures "x" + b[1..] == b
  {
  }

  lemma PrefixAlone(c: char, b: string)
    ensures Prefixed(c, b) == Meld(Prefixed(c, ""), b)
  {
    assert Prefixed(c, "") == if Control(c) then [c] else "x";
    if b != "" && b[0] == 'x' { OneLetter(b); }
  }

  lemma PrefixMelds(c: char, a: string, b: string)
    ensures Prefixed(c, Meld(a, b)) == Meld(Prefixed(c, a), b)
  {
    if a == "" {
      PrefixAlone(c, b);
    } else {
      assert Meld(a, b) != "" && Meld(a, b)[0] == a[0];
      MeldAfter([c], a, b);
      MeldAfter("x", a, b);
    }
  }

  lemma {:induction false} ShapeAppend(a: string, b: string)
    ensures Shape(a + b) == Meld(Shape(a), Shape(b))
    decreases |a|
  {
    if a == "" {
      assert a + b == b;
    } else {
      assert (a + b)[0] == a[0] && (a + b)[1..] == a[1..] + b;
      ShapeAppend(a[1..], b);
      PrefixMelds(a[0], Shape(a[1..]), Shape(b));
    }
  }

  lemma SameShapes(a: string, b: string, a': string, b': string)
    requires Shape(a) == Shape(a') && Shape(b) == Shape(b')
    ensures Shape(a + b) == Shape(a' + b')
  {
    ShapeAppend(a, b);
    ShapeAppend(a', b');
  }

  predicate Plain(s: string) { forall i :: 0 <= i < |s| ==> !Control(s[i]) }

  lemma {:induction false} ShapeOfPlain(s: string)
    requires s != "" && Plain(s)
    ensures Shape(s) == "x"
    decreases |s|
  {
    if |s| > 1 { ShapeOfPlain(s[1..]); } else { assert s[1..] == ""; }
  }

  // ---- the shape decides where code is -----------------------------------------------------------

  predicate TickFirst(s: string) { s != "" && s[0] == '`' }

  lemma TickByShape(s: string)
    ensures TickFirst(s) <==> TickFirst(Shape(s))
    ensures TickFirst(s) ==> Shape(s)[1..] == Shape(s[1..])
  {
  }

  lemma TicksOneByOne(s: string)
    ensures Ticks(s) <==> TickFirst(s) && TickFirst(s[1..]) && TickFirst(s[1..][1..])
    ensures Ticks(s) ==> s[1..][1..][1..] == s[3..]
  {
  }

  lemma TicksByShape(s: string)
    ensures Ticks(s) <==> Ticks(Shape(s))
    ensures Ticks(s) ==> Shape(s)[3..] == Shape(s[3..])
  {
    TicksOneByOne(s);
    TicksOneByOne(Shape(s));
    TickByShape(s);
    if TickFirst(s) {
      TickByShape(s[1..]);
      if TickFirst(s[1..]) { TickByShape(s[1..][1..]); }
    }
  }

  lemma {:induction false} ClosesByShape(s: string)
    ensures FirstTicks(s) < |s| <==> FirstTicks(Shape(s)) < |Shape(s)|
    decreases |s|
  {
    if s != "" {
      TicksByShape(s);
      ClosesByShape(s[1..]);
      var t := Shape(s[1..]);
      if Control(s[0]) { assert Shape(s)[1..] == t; } else if t == "" || t[0] != 'x' { assert Shape(s)[1..] == t; }
    }
  }

  /** A fence starts here. */
  predicate FenceHere(lx: Lexicon, s: string) { MatchLen(lx, Fence, s) > 0 }

  /** An inline span starts here. */
  predicate InlineHere(lx: Lexicon, s: string) { MatchLen(lx, Inline, s) > 0 }

  lemma FenceByShape(lx: Lexicon, s: string)
    ensures FenceHere(lx, s) <==> FenceHere(lx, Shape(s))
  {
    TicksByShape(s);
    if Ticks(s) { ClosesByShape(s[3..]); }
  }

  lemma {:induction false} RunByShape(s: string)
    ensures CodeRun(s) == 0 && s == "" ==> Shape(s) == ""
    ensures CodeRun(s) == 0 && s != "" ==> Shape(s) != "" && Shape(s)[0] == s[0] && Control(s[0])
    ensures CodeRun(s) > 0 ==> Shape(s) != "" && Shape(s)[0] == 'x'
    ensures CodeRun(s) > 0 && CodeRun(s) == |s| ==> Shape(s) == "x"
    ensures 0 < CodeRun(s) < |s| ==> |Shape(s)| > 1 && Shape(s)[1] == s[CodeRun(s)]
    decreases |s|
  {
    if s != "" && !Control(s[0]) {
      RunByShape(s[1..]);
      if s[1..] != "" && CodeRun(s[1..]) < |s[1..]| { assert s[1..][CodeRun(s[1..])] == s[CodeRun(s)]; }
    }
  }

  lemma InlineByShape(lx: Lexicon, s: string)
    ensures InlineHere(lx, s) <==> |Shape(s)| >= 3 && Shape(s)[0] == '`' && Shape(s)[1] == 'x' && Shape(s)[2] == '`'
  {
    if s != "" && s[0] == '`' {
      RunByShape(s[1..]);
      assert Shape(s) == ['`'] + Shape(s[1..]);
    }
  }

  /** Two texts of one shape start with code alike. */
  lemma SameShapeSameCode(lx: Lexicon, a: string, b: string)
    requires Shape(a) == Shape(b)
    ensures FenceHere(lx, a) <==> FenceHere(lx, b)
    ensures InlineHere(lx, a) <==> InlineHere(lx, b)
  {
    FenceByShape(lx, a);
    FenceByShape(lx, b);
    InlineByShape(lx, a);
    InlineByShape(lx, b);
  }

  /** Code starts with a backtick. */
  lemma CodeNeedsTick(lx: Lexicon, s: string)
    requires s == "" || s[0] != '`'
    ensures !FenceHere(lx, s) && !InlineHere(lx, s)
  {
  }

  // ---- rewriting keeps the shape ------------------------------------------------------------------

  lemma WordShape(lx: Lexicon, w: string)
    requires Valid(lx)
    ensures Shape(RewriteWord(lx, w)) == Shape(w)
  {
    if Internal(lx, w) {
      ShapeOfPlain(w);
      if w in lx.labels { assert PlainLabel(lx.labels[w]); }
      ShapeOfPlain(RewriteWord(lx, w));
    }
  }

  lemma {:induction false} RewriteShape(lx: Lexicon, s: string)
    requires Valid(lx)
    ensures Shape(Rewrite(lx, s)) == Shape(s)
    decreases |s|
  {
    if s != "" {
      var k := if WordLen(lx, s) == 0 then 1 else WordLen(lx, s);
      RewriteStep(lx, s, k);
      var w, t := s[..k], s[k..];
      WordShape(lx, w);
      RewriteShape(lx, t);
      SameShapes(RewriteWord(lx, w), Rewrite(lx, t), w, t);
      assert w + t == s;
    }
  }

  lemma {:induction false} ReadableShape(lx: Lexicon, s: string)
    requires Valid(lx)
    ensures Shape(Readable(lx, s)) == Shape(s)
    decreases |s|
  {
    var q := NextSpan(lx, s);
    if q == |s| {
      ReadableLast(lx, s);
      RewriteShape(lx, s);
    } else {
      SpanAtNext(lx, s);
      var n := SkipLen(lx, s[q..]);
      ReadableStep(lx, s, q, n);
      RewriteShape(lx, s[..q]);
      ReadableShape(lx, s[q + n..]);
      SameShapes(Rewrite(lx, s[..q]), s[q..q + n], s[..q], s[q..q + n]);
      SameShapes(Rewrite(lx, s[..q]) + s[q..q + n], Readable(lx, s[q + n..]), s[..q] + s[q..q + n], s[q + n..]);
      ThreeParts(s, q, n);
    }
  }

  lemma WordHasNoTick(lx: Lexicon, w: string)
    requires Valid(lx) && w != "" && WordLen(lx, w) == |w|
    ensures '`' !in RewriteWord(lx, w)
  {
    if Internal(lx, w) && w in lx.labels { assert PlainLabel(lx.labels[w]); }
  }

  lemma TickStandsAlone(lx: Lexicon, s: string, k: nat, i: nat)
    requires Valid(lx) && s != "" && k == if WordLen(lx, s) == 0 then 1 else WordLen(lx, s)
    requires i < |RewriteWord(lx, s[..k])| && RewriteWord(lx, s[..k])[i] == '`'
    ensures k == 1 && s[0] == '`' && i == 0
  {
    WordLenOfWord(lx, s);
    if WordLen(lx, s) == 0 {
      assert s[..1] == [s[0]] && !IdentShape(s[..1]);
    } else {
      WordHasNoTick(lx, s[..k]);
    }
  }

  lemma CharOfSecond(a: string, b: string, i: nat)
    requires |a| <= i < |a + b|
    ensures (a + b)[i] == b[i - |a|]
  {
  }

  lemma Regrouped(w: string, a: string, b: string, c: string, d: string)
    requires w == a + b && b == c + d
    ensures w == (a + c) + d
  {
  }

  /** The first piece of a text and what it becomes; a backtick is a piece of its own. */
  lemma PieceRewritten(lx: Lexicon, x: string) returns (w: string, y: string, a: string)
    requires Valid(lx) && x != ""
    ensures w != "" && x == w + y && Rewrite(lx, x) == a + Rewrite(lx, y)
    ensures forall i :: 0 <= i < |a| && a[i] == '`' ==> i == 0 && TickFirst(x)
  {
    var j := if WordLen(lx, x) == 0 then 1 else WordLen(lx, x);
    RewriteStep(lx, x, j);
    w, y, a := x[..j], x[j..], RewriteWord(lx, x[..j]);
    forall i | 0 <= i < |a| && a[i] == '`' ensures i == 0 && TickFirst(x) { TickStandsAlone(lx, x, j, i); }
  }

  /**
   A backtick in the rewritten text was one in the text, and everything from there on is rewritten as
   if it stood alone.
   */
  lemma {:induction false} TickOrigin(lx: Lexicon, x: string, i: nat)
      returns (head: string, tail: string, before: string)
    requires Valid(lx) && i < |Rewrite(lx, x)| && Rewrite(lx, x)[i] == '`'
    ensures x == head + tail && TickFirst(tail) && |before| == i && Rewrite(lx, x) == before + Rewrite(lx, tail)
    decreases |x|
  {
    var w, y, a := PieceRewritten(lx, x);
    if i < |a| {
      head, tail, before := "", x, "";
    } else {
      var b := Rewrite(lx, y);
      CharOfSecond(a, b, i);
      head, tail, before := TickOrigin(lx, y, i - |a|);
      Regrouped(x, w, y, head, tail);
      Regrouped(Rewrite(lx, x), a, b, before, Rewrite(lx, tail));
      head, before := w + head, a + before;
    }
  }
}
