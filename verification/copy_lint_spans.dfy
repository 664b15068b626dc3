/**
 The spans of a text one at a time: a text is a stretch without code or URL, one span, and the
 rest. Rewriting keeps that structure, whatever the text.
 */
module CopyLintSpans {
  import opened CopyLint
  import opened CopyLintGate
  import opened CopyLintShape

  /** No span starts within the first `n` characters. */
  ghost predicate Bare(lx: Lexicon, s: string, n: nat) {
    n <= |s| && forall i :: 0 <= i < n ==> SkipLen(lx, s[i..]) == 0
  }

  /** `u` is the first span of the text made of `x`, `u` and `r`. */
  ghost predicate Opens(lx: Lexicon, x: string, u: string, r: string) {
    u != "" && SkipLen(lx, u + r) == |u| && Bare(lx, x + (u + r), |x|)
  }

  lemma {:induction false} NextAfterBare(lx: Lexicon, s: string, n: nat)
    requires Bare(lx, s, n) && (n < |s| ==> SkipLen(lx, s[n..]) > 0)
    ensures NextSpan(lx, s) == n
    decreases n
  {
    assert s[0..] == s;
    if n > 0 {
      assert forall i :: 0 <= i < n - 1 ==> s[1..][i..] == s[i + 1..];
      assert s[1..][n - 1..] == s[n..];
      NextAfterBare(lx, s[1..], n - 1);
    }
  }

  lemma OpensNext(lx: Lexicon, x: string, u: string, r: string)
    requires Opens(lx, x, u, r)
    ensures var s := x + (u + r);
            && NextSpan(lx, s) == |x| < |s| && SkipLen(lx, s[|x|..]) == |u|
            && s[..|x|] == x && s[|x|..] == u + r && s[|x|..|x| + |u|] == u && s[|x| + |u|..] == r
  {
    var s := x + (u + r);
    assert s[|x|..] == u + r;
    NextAfterBare(lx, s, |x|);
  }

  /** A text with a span in it comes apart at the first. */
  lemma FirstSpan(lx: Lexicon, s: string) returns (x: string, u: string, r: string)
    requires NextSpan(lx, s) < |s|
    ensures s == x + (u + r) && Opens(lx, x, u, r) && |r| < |s|
  {
    var q := NextSpan(lx, s);
    SpanAtNext(lx, s);
    var n := SkipLen(lx, s[q..]);
    x, u, r := s[..q], s[q..q + n], s[q + n..];
    ThreeParts(s, q, n);
    Assoc(x, u, r);
    assert u + r == s[q..];
    forall i | 0 <= i < q ensures SkipLen(lx, s[i..]) == 0 { NothingBeforeSpan(lx, s, i); }
  }

  lemma NoSpanIsBare(lx: Lexicon, s: string)
    requires NextSpan(lx, s) == |s|
    ensures Bare(lx, s, |s|)
  {
    forall i | 0 <= i < |s| ensures SkipLen(lx, s[i..]) == 0 { NothingBeforeSpan(lx, s, i); }
  }

  lemma ReadableParts(lx: Lexicon, s: string, q: nat, n: nat, x: string, u: string, r: string)
    requires q == NextSpan(lx, s) < |s| && n == SkipLen(lx, s[q..])
    requires s[..q] == x && s[q..q + n] == u && s[q + n..] == r
    ensures Readable(lx, s) == Rewrite(lx, x) + u + Readable(lx, r)
  {
    ReadableStep(lx, s, q, n);
  }

  lemma ReadableOpens(lx: Lexicon, x: string, u: string, r: string)
    requires Opens(lx, x, u, r)
    ensures Readable(lx, x + (u + r)) == Rewrite(lx, x) + (u + Readable(lx, r))
  {
    OpensNext(lx, x, u, r);
    ReadableParts(lx, x + (u + r), |x|, |u|, x, u, r);
    Assoc(Rewrite(lx, x), u, Readable(lx, r));
  }

  // ---- a span stays what it is ------------------------------------------------------------------

  lemma SpanStarts(lx: Lexicon, s: string)
    requires SkipLen(lx, s) > 0
    ensures s != "" && (s[0] == '`' || s[0] == 'h')
    ensures s[0] == '`' <==> FenceHere(lx, s) || InlineHere(lx, s)
    ensures s[0] == 'h' <==> StartsUrl(lx, s)
  {
  }

  lemma {:induction false} TicksFoundAlike(a: string, y: string, z: string)
    requires FirstTicks(a + y) + 3 <= |a|
    ensures FirstTicks(a + z) == FirstTicks(a + y)
    decreases |a|
  {
    var n := FirstTicks(a + y);
    assert a + y != "" && (a + y)[0] == (a + z)[0] == a[0];
    if n == 0 {
      assert Ticks(a + z);
    } else {
      assert (a + y)[1..] == a[1..] + y && (a + z)[1..] == a[1..] + z;
      TicksFoundAlike(a[1..], y, z);
    }
  }

  lemma {:induction false} RunFoundAlike(a: string, y: string, z: string)
    requires CodeRun(a + y) < |a|
    ensures CodeRun(a + z) == CodeRun(a + y)
    decreases |a|
  {
    assert (a + y)[1..] == a[1..] + y && (a + z)[1..] == a[1..] + z;
    if !Control(a[0]) { RunFoundAlike(a[1..], y, z); }
  }

  /** A fence is the same fence whatever comes after it. */
  lemma FenceStays(lx: Lexicon, u: string, r: string, m: string)
    requires u != "" && MatchLen(lx, Fence, u + r) == |u|
    ensures MatchLen(lx, Fence, u + m) == |u|
  {
    assert (u + r)[3..] == u[3..] + r && (u + m)[3..] == u[3..] + m;
    TicksFoundAlike(u[3..], r, m);
  }

  lemma InlineStays(lx: Lexicon, u: string, r: string, m: string)
    requires u != "" && MatchLen(lx, Inline, u + r) == |u|
    ensures MatchLen(lx, Inline, u + m) == |u|
  {
    assert (u + r)[1..] == u[1..] + r && (u + m)[1..] == u[1..] + m;
    RunFoundAlike(u[1..], r, m);
  }

  lemma UrlKept(lx: Lexicon, u: string, r: string, m: string)
    requires Valid(lx) && u != "" && MatchLen(lx, Url, u + r) == |u| && Parted(lx, m)
    ensures MatchLen(lx, Url, u + m) == |u| > 7 && Parted(lx, r)
  {
    UrlStays(lx, u + r, m);
    assert (u + r)[..|u|] == u && (u + r)[|u|..] == r;
  }

  /** The three kinds of a span. */
  lemma SpanKinds(lx: Lexicon, u: string, r: string)
    requires Valid(lx) && u != "" && SkipLen(lx, u + r) == |u|
    ensures FenceHere(lx, u + r) ==> MatchLen(lx, Fence, u + r) == |u|
    ensures InlineHere(lx, u + r) && !FenceHere(lx, u + r) ==> MatchLen(lx, Inline, u + r) == |u|
    ensures StartsUrl(lx, u + r) <==> u[0] == 'h'
    ensures StartsUrl(lx, u + r) ==>
              MatchLen(lx, Url, u + r) == |u| > 7 && Parted(lx, r) && !FenceHere(lx, u + r) && !InlineHere(lx, u + r)
    ensures u[0] == '`' <==> FenceHere(lx, u + r) || InlineHere(lx, u + r)
    ensures u[0] == '`' || u[0] == 'h'
  {
    SpanStarts(lx, u + r);
    if StartsUrl(lx, u + r) { UrlStays(lx, u + r, r); assert (u + r)[|u|..] == r; }
  }

  /** A span stays when what follows is replaced by something of the same shape that begins alike. */
  lemma SpanStays(lx: Lexicon, u: string, r: string, m: string)
    requires Valid(lx) && u != "" && SkipLen(lx, u + r) == |u|
    requires Shape(r) == Shape(m) && (Parted(lx, r) ==> Parted(lx, m))
    ensures SkipLen(lx, u + m) == |u|
    ensures FenceHere(lx, u + m) <==> FenceHere(lx, u + r)
  {
    SpanKinds(lx, u, r);
    SameShapes(u, r, u, m);
    SameShapeSameCode(lx, u + r, u + m);
    if FenceHere(lx, u + r) {
      FenceStays(lx, u, r, m);
    } else if InlineHere(lx, u + r) {
      InlineStays(lx, u, r, m);
    } else {
      UrlKept(lx, u, r, m);
    }
  }

  lemma SpanIsInk(lx: Lexicon, x: string, u: string, t: string)
    requires Valid(lx) && u != "" && !lx.space(u[0]) && Parted(lx, x + (u + t))
    ensures x != "" && lx.space(x[0])
  {
    assert u + t != "" && (u + t)[0] == u[0];
  }

  lemma ReadableStaysParted(lx: Lexicon, r: string)
    requires Valid(lx) && Parted(lx, r)
    ensures Parted(lx, Readable(lx, r))
  {
    var q := NextSpan(lx, r);
    if q == |r| {
      ReadableLast(lx, r);
      RewriteKeepsBoundary(lx, r);
    } else {
      var x, u, t := FirstSpan(lx, r);
      ReadableOpens(lx, x, u, t);
      SpanKinds(lx, u, t);
      SpanIsInk(lx, x, u, t);
      RewriteKeepsBoundary(lx, x);
    }
  }

  // ---- no span appears in a rewritten stretch ------------------------------------------------------

  lemma SuffixOfFirst(a: string, b: string, i: nat)
    requires i < |a|
    ensures (a + b)[i..] == a[i..] + b && (a + b)[i..] != "" && (a + b)[i..][0] == a[i]
  {
  }

  lemma NoCodeInRewritten(lx: Lexicon, x: string, y: string, z: string, i: nat)
    requires Valid(lx) && i < |Rewrite(lx, x)| && Shape(y) == Shape(z) && Bare(lx, x + y, |x|)
    ensures var w := Rewrite(lx, x) + z; !FenceHere(lx, w[i..]) && !InlineHere(lx, w[i..])
  {
    var a := Rewrite(lx, x);
    SuffixOfFirst(a, z, i);
    if a[i] != '`' {
      CodeNeedsTick(lx, (a + z)[i..]);
    } else {
      var head, tail, before := TickOrigin(lx, x, i);
      assert a[i..] == Rewrite(lx, tail) && x[|head|..] == tail;
      SuffixOfFirst(x, y, |head|);
      SameTail(lx, tail, y, z);
    }
  }

  lemma SameTail(lx: Lexicon, x: string, y: string, z: string)
    requires Valid(lx) && Shape(y) == Shape(z) && SkipLen(lx, x + y) == 0
    ensures !FenceHere(lx, Rewrite(lx, x) + z) && !InlineHere(lx, Rewrite(lx, x) + z)
  {
    RewriteShape(lx, x);
    SameShapes(Rewrite(lx, x), z, x, y);
    SameShapeSameCode(lx, Rewrite(lx, x) + z, x + y);
  }

  lemma {:induction false} RewriteAppend(lx: Lexicon, x: string, y: string)
    requires Valid(lx) && AtBoundary(lx, y)
    ensures Rewrite(lx, x + y) == Rewrite(lx, x) + Rewrite(lx, y)
    decreases |x|
  {
    if x == "" {
      assert x + y == y;
    } else {
      var k := FirstPiece(lx, x);
      var t := x + y;
      WordLenAppend(lx, x, y);
      assert t[..k] == x[..k] && t[k..] == x[k..] + y;
      RewriteStep(lx, x, k);
      RewriteStep(lx, t, k);
      RewriteAppend(lx, x[k..], y);
      Assoc(RewriteWord(lx, x[..k]), Rewrite(lx, x[k..]), Rewrite(lx, y));
    }
  }

  /** A URL at `i` with its colon at `p` uses a character of `z` only as the one after its slashes. */
  lemma UrlBeforeTick(lx: Lexicon, a: string, z: string, i: nat, p: nat)
    requires TickFirst(z) && i < |a| && UrlFrom(lx, a + z, i, p)
    ensures p + 3 <= |a| && UrlFrom(lx, a + "`", i, p)
  {
    assert (a + z)[|a|] == '`';
  }

  lemma OneTickAfter(lx: Lexicon, x: string)
    requires Valid(lx)
    ensures Rewrite(lx, x + "`") == Rewrite(lx, x) + "`"
  {
    RewriteAppend(lx, x, "`");
    assert "`"[1..] == "";
  }

  /** No URL starts in the rewritten stretch before code. */
  lemma NoUrlBeforeCode(lx: Lexicon, x: string, z: string, i: nat)
    requires Valid(lx) && TickFirst(z) && !HasUrl(lx, x + "`") && i < |Rewrite(lx, x)|
    ensures !StartsUrl(lx, (Rewrite(lx, x) + z)[i..])
  {
    var a := Rewrite(lx, x);
    if StartsUrl(lx, (a + z)[i..]) {
      StartIsUrl(lx, a + z, i);
      var p := if UrlFrom(lx, a + z, i, i + 4) then i + 4 else i + 5;
      UrlBeforeTick(lx, a, z, i, p);
      UrlFromAt(lx, a + "`", i, p);
      OneTickAfter(lx, x);
      UrlComesFromInput(lx, x + "`");
    }
  }

  lemma NoUrlAtAll(lx: Lexicon, x: string, i: nat)
    requires Valid(lx) && !HasUrl(lx, x) && i <= |Rewrite(lx, x)|
    ensures !StartsUrl(lx, Rewrite(lx, x)[i..])
  {
    var a := Rewrite(lx, x);
    if StartsUrl(lx, a[i..]) {
      StartIsUrl(lx, a, i);
      var p := if UrlFrom(lx, a, i, i + 4) then i + 4 else i + 5;
      UrlFromAt(lx, a, i, p);
      UrlComesFromInput(lx, x);
    }
  }

  lemma BareHasNoUrl(lx: Lexicon, x: string, y: string)
    requires Valid(lx) && Bare(lx, x + y, |x|)
    ensures !HasUrl(lx, x) && (y != "" ==> !HasUrl(lx, x + [y[0]]))
  {
    var s := x + y;
    forall i | 0 <= i < |x| ensures !StartsUrl(lx, s[i..]) {
      if StartsUrl(lx, s[i..]) { UrlLonger(lx, s[i..]); }
    }
    BeforeFirstUrl(lx, s, |x|);
    assert s[..|x|] == x;
    if y != "" { assert s[..|x| + 1] == x + [y[0]]; }
  }

  lemma NoUrlBeforeSpan(lx: Lexicon, x: string, u: string, r: string, m: string, i: nat)
    requires Valid(lx) && Opens(lx, x, u, r) && i < |Rewrite(lx, x)| && SkipLen(lx, u + m) == |u|
    ensures !StartsUrl(lx, (Rewrite(lx, x) + (u + m))[i..])
  {
    var a := Rewrite(lx, x);
    BareHasNoUrl(lx, x, u + r);
    SpanKinds(lx, u, m);
    if u[0] == '`' {
      NoUrlBeforeCode(lx, x, u + m, i);
    } else {
      var w := a + (u + m);
      assert w[..|a|] == a && w[|a|..] == u + m;
      NoUrlBeforeUrl(lx, x, w, i);
    }
  }

  /** The rewritten text has the same spans between its rewritten stretches. */
  lemma OpensRewritten(lx: Lexicon, x: string, u: string, r: string)
    requires Valid(lx) && Opens(lx, x, u, r)
    ensures Opens(lx, Rewrite(lx, x), u, Readable(lx, r))
    ensures FenceHere(lx, u + Readable(lx, r)) <==> FenceHere(lx, u + r)
  {
    var a, m := Rewrite(lx, x), Readable(lx, r);
    ReadableShape(lx, r);
    if Parted(lx, r) { ReadableStaysParted(lx, r); }
    SpanStays(lx, u, r, m);
    SameShapes(u, r, u, m);
    forall i | 0 <= i < |a| ensures SkipLen(lx, (a + (u + m))[i..]) == 0 {
      NoCodeInRewritten(lx, x, u + r, u + m, i);
      NoUrlBeforeSpan(lx, x, u, r, m, i);
    }
  }

  lemma BareRewritten(lx: Lexicon, s: string)
    requires Valid(lx) && NextSpan(lx, s) == |s|
    ensures NextSpan(lx, Rewrite(lx, s)) == |Rewrite(lx, s)|
  {
    var a := Rewrite(lx, s);
    NoSpanIsBare(lx, s);
    assert s + "" == s && a + "" == a;
    BareHasNoUrl(lx, s, "");
    forall i | 0 <= i < |a| ensures SkipLen(lx, a[i..]) == 0 {
      NoCodeInRewritten(lx, s, "", "", i);
      NoUrlAtAll(lx, s, i);
    }
    NextAfterBare(lx, a, |a|);
  }
}
