/**
 Where the rewriter and the gate agree. The rewriter looks for the three patterns together, from
 left to right; the gate cuts one pattern after the other. On a legible text, and on no other, both
 cut the same stretches.
 */
module CopyLintAgreement {
  import opened CopyLint
  import opened CopyLintGate
  import opened CopyLintPieces
  import opened CopyLintShape
  import opened CopyLintSpans

  // ---- the spans, cut kind by kind ----------------------------------------------------------------

  /** In which pass the gate cuts the span at the front: fences, inline spans, URLs. */
  function Rank(lx: Lexicon, s: string): (k: nat)
    ensures k < 3
  {
    if FenceHere(lx, s) then 0 else if InlineHere(lx, s) then 1 else 2
  }

  /** What is left of a span after `k` passes. */
  function LeftPieces(lx: Lexicon, u: string, r: string, k: nat): seq<Piece> {
    if Rank(lx, u + r) < k then [Gone(u)] else Chars(u)
  }

  /** The text with those of the spans cut that are of the first `k` kinds, each as one piece. */
  function BlankOver(lx: Lexicon, s: string, spans: seq<(nat, nat)>, k: nat): seq<Piece>
    requires Fits(s, spans)
    decreases |spans|
  {
    if spans == [] then Chars(s)
    else
      var (q, n) := spans[0];
      Chars(s[..q]) + (LeftPieces(lx, s[q..q + n], s[q + n..], k) + BlankOver(lx, s[q + n..], spans[1..], k))
  }

  function BlankPieces(lx: Lexicon, s: string, k: nat): seq<Piece> { BlankOver(lx, s, Spans(lx, s), k) }

  /** The same as the gate's later passes see it. */
  function Blank(lx: Lexicon, s: string, k: nat): string { Flat(BlankPieces(lx, s, k)) }

  function Left(lx: Lexicon, u: string, r: string, k: nat): string { if Rank(lx, u + r) < k then " " else u }

  /**
   No code starts inside this span: an inline span's closing backtick opens no fence, and nothing in a
   URL opens a fence or, once the fences after it are cut, an inline span.
   */
  predicate Sound(lx: Lexicon, u: string, r: string) {
    if TickFirst(u) then FenceHere(lx, u + r) || !FenceHere(lx, "`" + r)
    else NoMatchWithin(lx, Fence, u + r, |u|) && NoMatchWithin(lx, Inline, u + Blank(lx, r, 1), |u|)
  }

  predicate SoundOver(lx: Lexicon, s: string, spans: seq<(nat, nat)>)
    requires Fits(s, spans)
    decreases |spans|
  {
    if spans == [] then true
    else
      var (q, n) := spans[0];
      Sound(lx, s[q..q + n], s[q + n..]) && SoundOver(lx, s[q + n..], spans[1..])
  }

  /** All spans of the text are sound. */
  predicate Legible(lx: Lexicon, s: string) { SoundOver(lx, s, Spans(lx, s)) }

  lemma OverFirst(lx: Lexicon, s: string, spans: seq<(nat, nat)>, q: nat, n: nat, rest: seq<(nat, nat)>, k: nat)
    requires spans != [] && Fits(s, spans) && spans[0] == (q, n) && spans[1..] == rest
    requires q + n <= |s| && Fits(s[q + n..], rest)
    ensures BlankOver(lx, s, spans, k)
            == Chars(s[..q]) + (LeftPieces(lx, s[q..q + n], s[q + n..], k) + BlankOver(lx, s[q + n..], rest, k))
    ensures SoundOver(lx, s, spans) <==> Sound(lx, s[q..q + n], s[q + n..]) && SoundOver(lx, s[q + n..], rest)
  {
  }

  lemma BlankStep(lx: Lexicon, s: string, q: nat, n: nat, k: nat)
    requires q == NextSpan(lx, s) < |s| && n == SkipLen(lx, s[q..])
    ensures BlankPieces(lx, s, k)
            == Chars(s[..q]) + (LeftPieces(lx, s[q..q + n], s[q + n..], k) + BlankPieces(lx, s[q + n..], k))
    ensures Legible(lx, s) <==> Sound(lx, s[q..q + n], s[q + n..]) && Legible(lx, s[q + n..])
  {
    SpansStep(lx, s, q, n);
    OverFirst(lx, s, Spans(lx, s), q, n, Spans(lx, s[q + n..]), k);
  }

  lemma BlankParts(lx: Lexicon, s: string, q: nat, n: nat, x: string, u: string, r: string, k: nat)
    requires q == NextSpan(lx, s) < |s| && n == SkipLen(lx, s[q..])
    requires s[..q] == x && s[q..q + n] == u && s[q + n..] == r
    ensures BlankPieces(lx, s, k) == Chars(x) + (LeftPieces(lx, u, r, k) + BlankPieces(lx, r, k))
    ensures Legible(lx, s) <==> Sound(lx, u, r) && Legible(lx, r)
  {
    BlankStep(lx, s, q, n, k);
  }

  lemma BlankOpensPieces(lx: Lexicon, x: string, u: string, r: string, k: nat)
    requires Opens(lx, x, u, r)
    ensures BlankPieces(lx, x + (u + r), k) == Chars(x) + (LeftPieces(lx, u, r, k) + BlankPieces(lx, r, k))
    ensures Legible(lx, x + (u + r)) <==> Sound(lx, u, r) && Legible(lx, r)
  {
    OpensNext(lx, x, u, r);
    BlankParts(lx, x + (u + r), |x|, |u|, x, u, r, k);
  }

  lemma FlatLeft(lx: Lexicon, u: string, r: string, k: nat)
    ensures Flat(LeftPieces(lx, u, r, k)) == Left(lx, u, r, k)
  {
  }

  lemma BlankOpens(lx: Lexicon, x: string, u: string, r: string, k: nat)
    requires Opens(lx, x, u, r)
    ensures Blank(lx, x + (u + r), k) == x + (Left(lx, u, r, k) + Blank(lx, r, k))
    ensures Legible(lx, x + (u + r)) <==> Sound(lx, u, r) && Legible(lx, r)
  {
    BlankOpensPieces(lx, x, u, r, k);
    FlatAppend(Chars(x), LeftPieces(lx, u, r, k) + BlankPieces(lx, r, k));
    FlatAppend(LeftPieces(lx, u, r, k), BlankPieces(lx, r, k));
    FlatChars(x);
    FlatLeft(lx, u, r, k);
  }

  lemma BlankLast(lx: Lexicon, s: string, k: nat)
    requires NextSpan(lx, s) == |s|
    ensures BlankPieces(lx, s, k) == Chars(s) && Blank(lx, s, k) == s && Legible(lx, s)
  {
    ReadableLast(lx, s);
    FlatChars(s);
  }

  // ---- one pass of the gate ------------------------------------------------------------------------

  lemma CutEverywhere(lx: Lexicon, pat: Pattern, s: string)
    requires NoMatchWithin(lx, pat, s, |s|)
    ensures Cut(lx, pat, s) == s
  {
    assert s + "" == s;
    CutThrough(lx, pat, s, "");
  }

  lemma CutSpan(lx: Lexicon, pat: Pattern, u: string, r: string)
    requires u != "" && MatchLen(lx, pat, u + r) == |u|
    ensures Cut(lx, pat, u + r) == " " + Cut(lx, pat, r)
  {
    CutMatch(lx, pat, u + r, |u|);
    assert (u + r)[|u|..] == r;
  }

  lemma NothingCut(lx: Lexicon, pat: Pattern, s: string)
    requires NoMatchWithin(lx, pat, s, |s|)
    ensures CutPieces(lx, pat, Chars(s)) == Chars(s)
  {
    assert Chars(s) + [] == Chars(s);
    FlatChars(s);
    PiecesThrough(lx, pat, Chars(s), []);
  }

  /** One pass over a stretch without a match, what stands there for the span, and the rest. */
  lemma PassStep(lx: Lexicon, pat: Pattern, x: string, v: seq<Piece>, r: seq<Piece>)
    requires NoMatchWithin(lx, pat, x + (Flat(v) + Flat(r)), |x|)
    ensures CutPieces(lx, pat, Chars(x) + (v + r)) == Chars(x) + CutPieces(lx, pat, v + r)
  {
    FlatAppend(Chars(x), v + r);
    FlatAppend(v, r);
    FlatChars(x);
    PiecesThrough(lx, pat, Chars(x), v + r);
  }

  /** A stretch in which no match starts is passed over, whatever follows. */
  lemma SpanPassed(lx: Lexicon, pat: Pattern, u: string, r: seq<Piece>)
    requires NoMatchWithin(lx, pat, u + Flat(r), |u|)
    ensures CutPieces(lx, pat, Chars(u) + r) == Chars(u) + CutPieces(lx, pat, r)
  {
    FlatAppend(Chars(u), r);
    FlatChars(u);
    PiecesThrough(lx, pat, Chars(u), r);
  }

  lemma SpanCut(lx: Lexicon, pat: Pattern, u: string, r: seq<Piece>)
    requires u != "" && MatchLen(lx, pat, u + Flat(r)) == |u|
    ensures CutPieces(lx, pat, Chars(u) + r) == [Gone(u)] + CutPieces(lx, pat, r)
  {
    FlatAppend(Chars(u), r);
    FlatChars(u);
    SourceChars(u);
    PiecesMatch(lx, pat, Chars(u), r);
  }

  /** Nothing starts at a piece that has been cut. */
  lemma GonePassed(lx: Lexicon, pat: Pattern, u: string, r: seq<Piece>)
    ensures CutPieces(lx, pat, [Gone(u)] + r) == [Gone(u)] + CutPieces(lx, pat, r)
  {
    var ps := [Gone(u)] + r;
    assert Flat(ps)[0] == ' ' && ps[1..] == r;
    NoMatchAtSpace(lx, pat, Flat(ps));
    CutPiecesStep(lx, pat, ps);
  }

  lemma NoMatchAtSpace(lx: Lexicon, pat: Pattern, s: string)
    requires s != "" && s[0] == ' '
    ensures MatchLen(lx, pat, s) == 0
  {
  }

  lemma CodeNeedsTickAt(lx: Lexicon, pat: Pattern, s: string)
    requires !TickFirst(s) && !pat.Url?
    ensures MatchLen(lx, pat, s) == 0
  {
  }

  lemma NoCodeWithoutTick(lx: Lexicon, pat: Pattern, v: string, r: string)
    requires '`' !in v && !pat.Url?
    ensures NoMatchWithin(lx, pat, v + r, |v|)
  {
    forall i | 0 <= i < |v| ensures MatchLen(lx, pat, (v + r)[i..]) == 0 {
      SuffixOfFirst(v, r, i);
      CodeNeedsTickAt(lx, pat, (v + r)[i..]);
    }
  }

  /** A pass for code goes through a stretch without backticks. */
  lemma CutPlain(lx: Lexicon, pat: Pattern, v: string, r: string)
    requires '`' !in v && !pat.Url?
    ensures Cut(lx, pat, v + r) == v + Cut(lx, pat, r)
  {
    NoCodeWithoutTick(lx, pat, v, r);
    CutThrough(lx, pat, v, r);
  }

  lemma BareOf(lx: Lexicon, pat: Pattern, s: string, n: nat)
    requires Valid(lx) && Bare(lx, s, n)
    ensures NoMatchWithin(lx, pat, s, n)
  {
    forall i | 0 <= i < n ensures MatchLen(lx, pat, s[i..]) == 0 { NoSkipNoMatch(lx, pat, s[i..]); }
  }

  lemma NoSkipNoMatch(lx: Lexicon, pat: Pattern, s: string)
    requires Valid(lx) && SkipLen(lx, s) == 0
    ensures MatchLen(lx, pat, s) == 0
  {
  }

  // ---- the first pass: fences ----------------------------------------------------------------------

  lemma {:induction false} RunIsPlain(s: string, i: nat)
    requires i < CodeRun(s)
    ensures !Control(s[i])
  {
    if i > 0 { RunIsPlain(s[1..], i - 1); }
  }

  lemma InlineInside(lx: Lexicon, u: string, r: string, i: nat)
    requires u != "" && MatchLen(lx, Inline, u + r) == |u| && 0 < i < |u|
    ensures if i == |u| - 1 then u[i] == '`' else u[i] != '`'
  {
    var s := u + r;
    if i < |u| - 1 {
      RunIsPlain(s[1..], i - 1);
      assert s[1..][i - 1] == u[i];
    }
  }

  /** No fence opens within an inline span but at its closing backtick. */
  lemma FencesInInline(lx: Lexicon, u: string, r: string)
    requires u != "" && !FenceHere(lx, u + r) && MatchLen(lx, Inline, u + r) == |u|
    ensures |u| >= 3 && NoMatchWithin(lx, Fence, u + r, |u| - 1)
    ensures (u + r)[|u| - 1..] == "`" + r
  {
    var s := u + r;
    assert s[0..] == s;
    forall i | 0 <= i < |u| - 1 ensures MatchLen(lx, Fence, s[i..]) == 0 {
      SuffixOfFirst(u, r, i);
      if i > 0 {
        InlineInside(lx, u, r, i);
        CodeNeedsTickAt(lx, Fence, s[i..]);
      }
    }
    SuffixOfFirst(u, r, |u| - 1);
    InlineInside(lx, u, r, |u| - 1);
    assert u[|u| - 1..] == "`";
  }

  lemma FenceSpan(lx: Lexicon, u: string, r: string)
    requires Valid(lx) && u != "" && SkipLen(lx, u + r) == |u| && Sound(lx, u, r)
    ensures CutPieces(lx, Fence, Chars(u) + Chars(r)) == LeftPieces(lx, u, r, 1) + CutPieces(lx, Fence, Chars(r))
  {
    SpanKinds(lx, u, r);
    FlatChars(r);
    if FenceHere(lx, u + r) {
      SpanCut(lx, Fence, u, Chars(r));
    } else {
      if InlineHere(lx, u + r) { FencesInInline(lx, u, r); }
      SpanPassed(lx, Fence, u, Chars(r));
    }
  }

  lemma FenceStep(lx: Lexicon, x: string, u: string, r: string)
    requires Valid(lx) && Opens(lx, x, u, r) && Sound(lx, u, r)
    ensures CutPieces(lx, Fence, Chars(x + (u + r)))
            == Chars(x) + (LeftPieces(lx, u, r, 1) + CutPieces(lx, Fence, Chars(r)))
  {
    BareOf(lx, Fence, x + (u + r), |x|);
    CharsAppend(x, u + r);
    CharsAppend(u, r);
    FlatChars(u);
    FlatChars(r);
    PassStep(lx, Fence, x, Chars(u), Chars(r));
    FenceSpan(lx, u, r);
  }

  lemma {:induction false} FencePass(lx: Lexicon, s: string)
    requires Valid(lx) && Legible(lx, s)
    ensures CutPieces(lx, Fence, Chars(s)) == BlankPieces(lx, s, 1)
    decreases |s|
  {
    if NextSpan(lx, s) == |s| {
      NoSpanIsBare(lx, s);
      BareOf(lx, Fence, s, |s|);
      NothingCut(lx, Fence, s);
      BlankLast(lx, s, 1);
    } else {
      var x, u, r := FirstSpan(lx, s);
      BlankOpensPieces(lx, x, u, r, 1);
      FencePass(lx, r);
      FenceStep(lx, x, u, r);
    }
  }

  // ---- the second pass: inline spans ---------------------------------------------------------------

  /** The line goes on to a backtick. */
  predicate TickAhead(s: string) { var n := CodeRun(s); n < |s| && s[n] == '`' }

  lemma InlineMeans(lx: Lexicon, s: string)
    ensures InlineHere(lx, "`" + s) <==> CodeRun(s) > 0 && TickAhead(s)
  {
    assert ("`" + s)[1..] == s;
  }

  lemma {:induction false} TickAheadAppend(a: string, b: string)
    ensures TickAhead(a + b) <==> if CodeRun(a) < |a| then TickAhead(a) else TickAhead(b)
    ensures CodeRun(a + b) == if CodeRun(a) < |a| then CodeRun(a) else |a| + CodeRun(b)
    decreases |a|
  {
    if a == "" {
      assert a + b == b;
    } else {
      assert (a + b)[0] == a[0] && (a + b)[1..] == a[1..] + b;
      TickAheadAppend(a[1..], b);
    }
  }

  /** A backtick ahead after the first pass was ahead before it. */
  lemma TickAheadOpens(lx: Lexicon, x: string, u: string, r: string, r': string)
    requires Valid(lx) && u != "" && SkipLen(lx, u + r) == |u|
    requires TickAhead(x + (Left(lx, u, r, 1) + r')) && (TickAhead(r') ==> TickAhead(r))
    ensures TickAhead(x + (u + r))
  {
    SpanKinds(lx, u, r);
    TickAheadAppend(x, Left(lx, u, r, 1) + r');
    TickAheadAppend(x, u + r);
    if u[0] == 'h' {
      TickAheadAppend(u, r');
      TickAheadAppend(u, r);
    }
  }

  lemma {:induction false} TickAheadStays(lx: Lexicon, s: string)
    requires Valid(lx) && TickAhead(Blank(lx, s, 1))
    ensures TickAhead(s)
    decreases |s|
  {
    if NextSpan(lx, s) == |s| {
      BlankLast(lx, s, 1);
    } else {
      var x, u, r := FirstSpan(lx, s);
      BlankOpens(lx, x, u, r, 1);
      if TickAhead(Blank(lx, r, 1)) { TickAheadStays(lx, r); }
      TickAheadOpens(lx, x, u, r, Blank(lx, r, 1));
    }
  }

  /** One more backtick before a fence is a fence. */
  lemma FourTicks(lx: Lexicon, s: string)
    requires FenceHere(lx, s)
    ensures FenceHere(lx, "`" + s)
  {
    var t := "`" + s;
    assert t[3..] == s[2..] && s[2..][1..] == s[3..];
  }

  lemma SomethingBeforeTick(lx: Lexicon, x: string, u: string, r: string, r': string)
    requires Valid(lx) && u != "" && SkipLen(lx, u + r) == |u| && !FenceHere(lx, "`" + (x + (u + r)))
    requires CodeRun(x + (Left(lx, u, r, 1) + r')) > 0
    ensures CodeRun(x + (u + r)) > 0
  {
    SpanKinds(lx, u, r);
    if x == "" {
      assert x + (u + r) == u + r && x + (Left(lx, u, r, 1) + r') == Left(lx, u, r, 1) + r';
      if FenceHere(lx, u + r) { FourTicks(lx, u + r); }
    } else {
      assert (x + (u + r))[0] == x[0] == (x + (Left(lx, u, r, 1) + r'))[0];
    }
  }

  /** The first pass makes no inline span. */
  lemma NoNewInline(lx: Lexicon, x: string, u: string, r: string)
    requires Valid(lx) && Opens(lx, x, u, r) && SkipLen(lx, "`" + (x + (u + r))) == 0
    ensures !InlineHere(lx, "`" + Blank(lx, x + (u + r), 1))
  {
    var s := x + (u + r);
    BlankOpens(lx, x, u, r, 1);
    InlineMeans(lx, s);
    InlineMeans(lx, Blank(lx, s, 1));
    if InlineHere(lx, "`" + Blank(lx, s, 1)) {
      TickAheadStays(lx, s);
      SomethingBeforeTick(lx, x, u, r, Blank(lx, r, 1));
    }
  }

  lemma OpensLater(lx: Lexicon, x: string, u: string, r: string, i: nat)
    requires Opens(lx, x, u, r) && i <= |x|
    ensures Opens(lx, x[i..], u, r) && (x + (u + r))[i..] == x[i..] + (u + r)
  {
    var s, t := x + (u + r), x[i..] + (u + r);
    assert s[i..] == t;
    forall j | 0 <= j < |x[i..]| ensures SkipLen(lx, t[j..]) == 0 { assert t[j..] == s[i + j..]; }
  }

  lemma TickThenRest(x: string, y: string, i: nat)
    requires i < |x| && x[i] == '`'
    ensures (x + y)[i..] == "`" + (x[i + 1..] + y)
  {
  }

  lemma NoInlineAt(lx: Lexicon, x: string, u: string, r: string, i: nat)
    requires Valid(lx) && Opens(lx, x, u, r) && i < |x| && x[i] == '`'
    ensures !InlineHere(lx, (x + (Left(lx, u, r, 1) + Blank(lx, r, 1)))[i..])
  {
    var y := x[i + 1..];
    OpensLater(lx, x, u, r, i + 1);
    BlankOpens(lx, y, u, r, 1);
    TickThenRest(x, u + r, i);
    TickThenRest(x, Left(lx, u, r, 1) + Blank(lx, r, 1), i);
    NoNewInline(lx, y, u, r);
  }

  lemma NoInlineBefore(lx: Lexicon, x: string, u: string, r: string)
    requires Valid(lx) && Opens(lx, x, u, r)
    ensures NoMatchWithin(lx, Inline, x + (Left(lx, u, r, 1) + Blank(lx, r, 1)), |x|)
  {
    var z := Left(lx, u, r, 1) + Blank(lx, r, 1);
    forall i | 0 <= i < |x| ensures MatchLen(lx, Inline, (x + z)[i..]) == 0 {
      SuffixOfFirst(x, z, i);
      if x[i] == '`' { NoInlineAt(lx, x, u, r, i); } else { CodeNeedsTickAt(lx, Inline, (x + z)[i..]); }
    }
  }

  lemma InlineSpan(lx: Lexicon, u: string, r: string)
    requires Valid(lx) && u != "" && SkipLen(lx, u + r) == |u| && Sound(lx, u, r)
    ensures var t := BlankPieces(lx, r, 1);
            CutPieces(lx, Inline, LeftPieces(lx, u, r, 1) + t) == LeftPieces(lx, u, r, 2) + CutPieces(lx, Inline, t)
  {
    var t := BlankPieces(lx, r, 1);
    SpanKinds(lx, u, r);
    if FenceHere(lx, u + r) {
      GonePassed(lx, Inline, u, t);
    } else if InlineHere(lx, u + r) {
      InlineStays(lx, u, r, Flat(t));
      SpanCut(lx, Inline, u, t);
    } else {
      SpanPassed(lx, Inline, u, t);
    }
  }

  lemma InlineStep(lx: Lexicon, x: string, u: string, r: string)
    requires Valid(lx) && Opens(lx, x, u, r) && Sound(lx, u, r)
    ensures CutPieces(lx, Inline, BlankPieces(lx, x + (u + r), 1))
            == Chars(x) + (LeftPieces(lx, u, r, 2) + CutPieces(lx, Inline, BlankPieces(lx, r, 1)))
  {
    BlankOpensPieces(lx, x, u, r, 1);
    NoInlineBefore(lx, x, u, r);
    FlatLeft(lx, u, r, 1);
    PassStep(lx, Inline, x, LeftPieces(lx, u, r, 1), BlankPieces(lx, r, 1));
    InlineSpan(lx, u, r);
  }

  lemma {:induction false} InlinePass(lx: Lexicon, s: string)
    requires Valid(lx) && Legible(lx, s)
    ensures CutPieces(lx, Inline, BlankPieces(lx, s, 1)) == BlankPieces(lx, s, 2)
    decreases |s|
  {
    if NextSpan(lx, s) == |s| {
      NoSpanIsBare(lx, s);
      BareOf(lx, Inline, s, |s|);
      NothingCut(lx, Inline, s);
      BlankLast(lx, s, 1);
      BlankLast(lx, s, 2);
    } else {
      var x, u, r := FirstSpan(lx, s);
      BlankOpensPieces(lx, x, u, r, 2);
      InlinePass(lx, r);
      InlineStep(lx, x, u, r);
    }
  }

  // ---- the third pass: URLs ------------------------------------------------------------------------

  /** A URL at `i` with its colon at `p` is all ink. */
  lemma UrlIsInk(lx: Lexicon, s: string, i: nat, p: nat, j: nat)
    requires Valid(lx) && UrlFrom(lx, s, i, p) && i <= j <= p + 3
    ensures !lx.space(s[j])
  {
    assert lx.word('h') && lx.word('t') && lx.word('p') && lx.word('s');
  }

  lemma UrlColon(lx: Lexicon, s: string, i: nat) returns (p: nat)
    requires i <= |s| && StartsUrl(lx, s[i..])
    ensures UrlFrom(lx, s, i, p)
  {
    StartIsUrl(lx, s, i);
    p := if UrlFrom(lx, s, i, i + 4) then i + 4 else i + 5;
  }

  /** A URL ends its slashes before a space, and before the next URL. */
  lemma UrlEnds(lx: Lexicon, w: string, i: nat, p: nat, n: nat)
    requires Valid(lx) && UrlFrom(lx, w, i, p) && i < n < |w| && (lx.space(w[n]) || StartsUrl(lx, w[n..]))
    ensures p + 3 <= n && (lx.space(w[n]) ==> p + 3 < n)
  {
    if lx.space(w[n]) {
      if n <= p + 3 { UrlIsInk(lx, w, i, p, n); }
    } else {
      StartIsUrl(lx, w, n);
      if n < p + 3 { NoUrlOverTheEdge(lx, w, n, i, p); }
    }
  }

  /** A URL in a text is one in any other that is alike as far as it needs. */
  lemma UrlInBoth(lx: Lexicon, x: string, y: string, z: string, i: nat, p: nat)
    requires y != "" && z != "" && UrlFrom(lx, x + z, i, p) && p + 3 <= |x| && (p + 3 < |x| || y[0] == z[0])
    ensures StartsUrl(lx, (x + y)[i..])
  {
    assert UrlFrom(lx, x + y, i, p);
    UrlIsStart(lx, x + y, i, p);
  }

  /** Neither a space nor a URL after the stretch makes a URL start in it. */
  lemma NoUrlBefore(lx: Lexicon, x: string, y: string, z: string, i: nat)
    requires Valid(lx) && y != "" && z != "" && Bare(lx, x + y, |x|) && i < |x|
    requires lx.space(z[0]) || (y[0] == z[0] && StartsUrl(lx, z))
    ensures !StartsUrl(lx, (x + z)[i..])
  {
    NoSkipNoMatch(lx, Url, (x + y)[i..]);
    if StartsUrl(lx, (x + z)[i..]) {
      var p := UrlColon(lx, x + z, i);
      assert (x + z)[|x|] == z[0] && (x + z)[|x|..] == z;
      UrlEnds(lx, x + z, i, p, |x|);
      UrlInBoth(lx, x, y, z, i, p);
      UrlLonger(lx, (x + y)[i..]);
    }
  }

  lemma BlankStaysParted(lx: Lexicon, r: string, k: nat)
    requires Valid(lx) && Parted(lx, r)
    ensures Parted(lx, Blank(lx, r, k))
  {
    if NextSpan(lx, r) == |r| {
      BlankLast(lx, r, k);
    } else {
      var x, u, t := FirstSpan(lx, r);
      BlankOpens(lx, x, u, t, k);
      SpanKinds(lx, u, t);
      SpanIsInk(lx, x, u, t);
    }
  }

  /** What stands for the span in the third pass is cut, and nothing before it is. */
  lemma UrlSpan(lx: Lexicon, u: string, r: string, t: seq<Piece>)
    requires Valid(lx) && u != "" && SkipLen(lx, u + r) == |u| && (Parted(lx, r) ==> Parted(lx, Flat(t)))
    ensures CutPieces(lx, Url, LeftPieces(lx, u, r, 2) + t) == [Gone(u)] + CutPieces(lx, Url, t)
    ensures var z := Left(lx, u, r, 2) + Flat(t); z != "" && (lx.space(z[0]) || (u[0] == z[0] && StartsUrl(lx, z)))
  {
    SpanKinds(lx, u, r);
    if Rank(lx, u + r) < 2 {
      GonePassed(lx, Url, u, t);
    } else {
      UrlKept(lx, u, r, Flat(t));
      SpanCut(lx, Url, u, t);
    }
  }

  lemma UrlStep(lx: Lexicon, x: string, u: string, r: string)
    requires Valid(lx) && Opens(lx, x, u, r)
    ensures CutPieces(lx, Url, BlankPieces(lx, x + (u + r), 2))
            == Chars(x) + ([Gone(u)] + CutPieces(lx, Url, BlankPieces(lx, r, 2)))
  {
    var t := BlankPieces(lx, r, 2);
    var z := Left(lx, u, r, 2) + Flat(t);
    if Parted(lx, r) { BlankStaysParted(lx, r, 2); }
    BlankOpensPieces(lx, x, u, r, 2);
    UrlSpan(lx, u, r, t);
    forall i | 0 <= i < |x| ensures MatchLen(lx, Url, (x + z)[i..]) == 0 { NoUrlBefore(lx, x, u + r, z, i); }
    FlatLeft(lx, u, r, 2);
    PassStep(lx, Url, x, LeftPieces(lx, u, r, 2), t);
  }

  lemma {:induction false} UrlPass(lx: Lexicon, s: string)
    requires Valid(lx)
    ensures CutPieces(lx, Url, BlankPieces(lx, s, 2)) == BlankPieces(lx, s, 3)
    decreases |s|
  {
    if NextSpan(lx, s) == |s| {
      NoSpanIsBare(lx, s);
      BareOf(lx, Url, s, |s|);
      NothingCut(lx, Url, s);
      BlankLast(lx, s, 2);
      BlankLast(lx, s, 3);
    } else {
      var x, u, r := FirstSpan(lx, s);
      BlankOpensPieces(lx, x, u, r, 3);
      UrlPass(lx, r);
      UrlStep(lx, x, u, r);
    }
  }

  // ---- both sides together ----------------------------------------------------------------------------

  /** What the first pass leaves. */
  function Fenced(lx: Lexicon, s: string): seq<Piece> { CutPieces(lx, Fence, Chars(s)) }

  /** The gate's three passes, with what each has cut. */
  function StripPieces(lx: Lexicon, s: string): seq<Piece> {
    CutPieces(lx, Url, CutPieces(lx, Inline, Fenced(lx, s)))
  }

  lemma FlatStrip(lx: Lexicon, s: string)
    ensures Flat(StripPieces(lx, s)) == StripCode(lx, s)
  {
    FlatChars(s);
    FlatCut(lx, Fence, Chars(s));
    FlatCut(lx, Inline, CutPieces(lx, Fence, Chars(s)));
    FlatCut(lx, Url, CutPieces(lx, Inline, CutPieces(lx, Fence, Chars(s))));
  }

  lemma LegibleIsCutAlike(lx: Lexicon, s: string)
    requires Valid(lx) && Legible(lx, s)
    ensures StripPieces(lx, s) == BlankPieces(lx, s, 3)
  {
    FencePass(lx, s);
    InlinePass(lx, s);
    UrlPass(lx, s);
  }

  // ---- and only on legible texts ---------------------------------------------------------------------

  lemma TailOf(a: string, b: string, rest: seq<Piece>)
    requires Chars(a + b) == Chars(a) + rest
    ensures rest == Chars(b)
  {
    assert rest == (Chars(a) + rest)[|a|..];
    assert Chars(a + b)[|a|..] == Chars(b);
  }

  lemma FenceBack(lx: Lexicon, u: string, r: string, p: seq<Piece>)
    requires Fenced(lx, u + r) == Chars(u) + p
    ensures p == Fenced(lx, r) && NoMatchWithin(lx, Fence, u + r, |u|)
  {
    var t := BackOver(lx, Fence, Chars(u + r), u, p);
    TailOf(u, r, t);
    FlatChars(u + r);
  }

  /** What all three passes leave in front untouched stands aside: the rest is cut as if alone. */
  lemma StretchAside(lx: Lexicon, x: string, y: string, w: seq<Piece>)
    requires StripPieces(lx, x + y) == Chars(x) + w
    ensures StripPieces(lx, y) == w
  {
    var p := Fenced(lx, x + y);
    var q := BackOver(lx, Url, CutPieces(lx, Inline, p), x, w);
    var r := BackOver(lx, Inline, p, x, q);
    FenceBack(lx, x, y, r);
  }

  lemma SourceFirst(ps: seq<Piece>, n: nat, c: char)
    requires 0 < n <= |ps| && ps[0] == Kept(c)
    ensures Source(ps[..n]) != "" && Source(ps[..n])[0] == c
  {
  }

  lemma MatchFirst(lx: Lexicon, pat: Pattern, ps: seq<Piece>)
    requires ps != [] && MatchLen(lx, pat, Flat(ps)) > 0
    ensures ps[0] == Kept(if pat.Url? then 'h' else '`')
  {
  }

  /** Code that has been cut started with a backtick. */
  lemma CodeIsCode(lx: Lexicon, y: string, t: string, w: seq<Piece>)
    requires CutPieces(lx, Inline, CutPieces(lx, Fence, Chars(y))) == [Gone(t)] + w
    ensures TickFirst(t)
  {
    var p := CutPieces(lx, Fence, Chars(y));
    var n := BackToGone(lx, Inline, p, t, w);
    if n > 0 {
      MatchFirst(lx, Inline, p);
      SourceFirst(p, n, '`');
    } else {
      assert p == [Gone(t)] + p[1..];
      var k := BackToGone(lx, Fence, Chars(y), t, p[1..]);
      MatchFirst(lx, Fence, Chars(y));
      SourceFirst(Chars(y), k, '`');
    }
  }

  lemma AllKept(ps: seq<Piece>)
    requires forall i :: 0 <= i < |ps| ==> Face(ps[i]) != ' '
    ensures ps == Chars(Source(ps))
  {
    assert ps == Chars(Flat(ps));
    SourceChars(Flat(ps));
  }

  /** A URL cut whole had no code cut out of it. */
  lemma UrlAllKept(lx: Lexicon, ps: seq<Piece>, u: string, z: seq<Piece>) returns (rest: seq<Piece>)
    requires Valid(lx) && ps != [] && CutPieces(lx, Url, ps) == [Gone(u)] + z && ps[0] != Gone(u)
    ensures ps == Chars(u) + rest && CutPieces(lx, Url, rest) == z
  {
    var n := BackToGone(lx, Url, ps, u, z);
    rest := ps[n..];
    forall i | 0 <= i < n ensures Face(ps[..n][i]) != ' ' { assert !lx.space(Flat(ps)[i]); }
    AllKept(ps[..n]);
    assert ps == ps[..n] + ps[n..];
  }

  lemma UrlSpanBack(lx: Lexicon, u: string, r: string, z: seq<Piece>)
    requires Valid(lx) && u != "" && u[0] != '`' && StripPieces(lx, u + r) == [Gone(u)] + z
    ensures StripPieces(lx, r) == z
    ensures NoMatchWithin(lx, Fence, u + r, |u|) && NoMatchWithin(lx, Inline, u + Flat(Fenced(lx, r)), |u|)
  {
    var p := Fenced(lx, u + r);
    var q := CutPieces(lx, Inline, p);
    var n := BackToGone(lx, Url, q, u, z);
    if q[0] == Gone(u) {
      assert q == [Gone(u)] + q[1..];
      CodeIsCode(lx, u + r, u, q[1..]);
    }
    var q' := UrlAllKept(lx, q, u, z);
    var p' := BackOver(lx, Inline, p, u, q');
    FenceBack(lx, u, r, p');
    FlatAppend(Chars(u), p');
    FlatChars(u);
  }

  /** A fence cut from the closing backtick on reaches past the span. */
  lemma CutPastSpan(a: string, f: string, w: seq<Piece>, n: nat)
    requires n <= |Chars(a) + ([Gone(f)] + w)| && |f| > 1
    ensures |Source((Chars(a) + ([Gone(f)] + w))[..n])| != |a| + 1
  {
    var ps := Chars(a) + ([Gone(f)] + w);
    if n <= |a| {
      assert ps[..n] == Chars(a[..n]);
      SourceChars(a[..n]);
    } else {
      var k := n - |a| - 1;
      assert ps[..n] == Chars(a) + ([Gone(f)] + w[..k]);
      SourceAppend(Chars(a), [Gone(f)] + w[..k]);
      SourceChars(a);
      SourceCons(Gone(f), w[..k]);
    }
  }

  lemma FenceInFront(lx: Lexicon, t: string) returns (f: string, w: seq<Piece>)
    requires FenceHere(lx, t)
    ensures |f| > 1 && Fenced(lx, t) == [Gone(f)] + w
  {
    var n := MatchLen(lx, Fence, t);
    FlatChars(t);
    CutPiecesMatch(lx, Fence, Chars(t), n);
    assert Chars(t)[..n] == Chars(t[..n]);
    SourceChars(t[..n]);
    f, w := t[..n], CutPieces(lx, Fence, Chars(t)[n..]);
  }

  /** Where a fence opens with an inline span's closing backtick, the gate cuts the fence. */
  lemma TakenByFence(lx: Lexicon, u: string, r: string) returns (f: string, w: seq<Piece>)
    requires u != "" && !FenceHere(lx, u + r) && MatchLen(lx, Inline, u + r) == |u| && FenceHere(lx, "`" + r)
    ensures |f| > 1 && Fenced(lx, u + r) == Chars(u[..|u| - 1]) + ([Gone(f)] + w)
  {
    var a, t := u[..|u| - 1], "`" + r;
    FencesInInline(lx, u, r);
    UpToTheTick(u, r);
    CharsAppend(a, t);
    FlatChars(t);
    SpanPassed(lx, Fence, a, Chars(t));
    f, w := FenceInFront(lx, t);
  }

  lemma UpToTheTick(u: string, r: string)
    requires u != "" && (u + r)[|u| - 1..] == "`" + r
    ensures u + r == u[..|u| - 1] + ("`" + r)
  {
    var s := u + r;
    assert s == s[..|u| - 1] + s[|u| - 1..] && s[..|u| - 1] == u[..|u| - 1];
  }

  /** An inline span that is cut as one is cut by the inline pass. */
  lemma CutByInline(lx: Lexicon, u: string, r: string, z: seq<Piece>) returns (n: nat)
    requires TickFirst(u) && !FenceHere(lx, u + r) && StripPieces(lx, u + r) == [Gone(u)] + z
    ensures n <= |Fenced(lx, u + r)| && Source(Fenced(lx, u + r)[..n]) == u
  {
    var p := Fenced(lx, u + r);
    var q := CutPieces(lx, Inline, p);
    n := BackToGone(lx, Url, q, u, z);
    if n > 0 {
      MatchFirst(lx, Url, q);
      SourceFirst(q, n, 'h');
    }
    assert q == [Gone(u)] + q[1..];
    n := BackToGone(lx, Inline, p, u, q[1..]);
    if n == 0 {
      FlatChars(u + r);
      CutPiecesStep(lx, Fence, Chars(u + r));
    }
  }

  lemma InlineSpanBack(lx: Lexicon, u: string, r: string, z: seq<Piece>)
    requires TickFirst(u) && !FenceHere(lx, u + r) && MatchLen(lx, Inline, u + r) == |u|
    requires StripPieces(lx, u + r) == [Gone(u)] + z
    ensures !FenceHere(lx, "`" + r)
  {
    if FenceHere(lx, "`" + r) {
      var n := CutByInline(lx, u, r, z);
      var f, w := TakenByFence(lx, u, r);
      CutPastSpan(u[..|u| - 1], f, w, n);
    }
  }

  /** A sound span of code is cut, and what follows it as if alone. */
  lemma CodeSpanAside(lx: Lexicon, u: string, r: string)
    requires Valid(lx) && u != "" && SkipLen(lx, u + r) == |u| && Sound(lx, u, r) && TickFirst(u)
    ensures StripPieces(lx, u + r) == [Gone(u)] + StripPieces(lx, r)
  {
    var p := Fenced(lx, r);
    SpanKinds(lx, u, r);
    CharsAppend(u, r);
    FenceSpan(lx, u, r);
    if FenceHere(lx, u + r) {
      GonePassed(lx, Inline, u, p);
    } else {
      InlineStays(lx, u, r, Flat(p));
      SpanCut(lx, Inline, u, p);
    }
    GonePassed(lx, Url, u, CutPieces(lx, Inline, p));
  }

  /** A span the gate cuts as one is sound, and what follows it is cut as if alone. */
  lemma SpanBack(lx: Lexicon, u: string, r: string, z: seq<Piece>)
    requires Valid(lx) && u != "" && SkipLen(lx, u + r) == |u| && StripPieces(lx, u + r) == [Gone(u)] + z
    ensures StripPieces(lx, r) == z
    ensures Flat(Fenced(lx, r)) == Blank(lx, r, 1) ==> Sound(lx, u, r)
  {
    SpanKinds(lx, u, r);
    if u[0] == '`' {
      if !FenceHere(lx, u + r) { InlineSpanBack(lx, u, r, z); }
      CodeSpanAside(lx, u, r);
      SameFirst(Gone(u), StripPieces(lx, r), Gone(u), z);
    } else {
      UrlSpanBack(lx, u, r, z);
    }
  }

  lemma {:induction false} CutAlikeIsLegible(lx: Lexicon, s: string)
    requires Valid(lx) && StripPieces(lx, s) == BlankPieces(lx, s, 3)
    ensures Legible(lx, s)
    decreases |s|
  {
    if NextSpan(lx, s) == |s| {
      BlankLast(lx, s, 3);
    } else {
      var x, u, r := FirstSpan(lx, s);
      var z := BlankPieces(lx, r, 3);
      BlankOpensPieces(lx, x, u, r, 3);
      StretchAside(lx, x, u + r, [Gone(u)] + z);
      SpanBack(lx, u, r, z);
      CutAlikeIsLegible(lx, r);
      FencePass(lx, r);
    }
  }

  /** The gate cuts exactly the spans the rewriter skips, no more and no less, if and only if the text is legible. */
  lemma CutAlikeIffLegible(lx: Lexicon, s: string)
    requires Valid(lx)
    ensures StripPieces(lx, s) == BlankPieces(lx, s, 3) <==> Legible(lx, s)
  {
    if Legible(lx, s) {
      LegibleIsCutAlike(lx, s);
    } else if StripPieces(lx, s) == BlankPieces(lx, s, 3) {
      CutAlikeIsLegible(lx, s);
    }
  }

  /** The passes lose none of the text and move none. */
  lemma StripLosesNothing(lx: Lexicon, s: string)
    ensures Source(StripPieces(lx, s)) == s
  {
    SourceChars(s);
    SourceCut(lx, Fence, Chars(s));
    SourceCut(lx, Inline, Fenced(lx, s));
    SourceCut(lx, Url, CutPieces(lx, Inline, Fenced(lx, s)));
  }

  /** On a legible text the gate sees exactly what the rewriter does not skip. */
  lemma BothFindTheSame(lx: Lexicon, s: string)
    requires Valid(lx) && Legible(lx, s)
    ensures StripCode(lx, s) == Blank(lx, s, 3)
  {
    LegibleIsCutAlike(lx, s);
    FlatStrip(lx, s);
  }

  // ---- the rewritten text -----------------------------------------------------------------------------

  /** Outside the spans the rewriter itself sees, nothing internal is left, in any text. */
  lemma {:induction false} NothingLeftOutside(lx: Lexicon, s: string)
    requires Valid(lx)
    ensures Leaks(lx, Blank(lx, Readable(lx, s), 3)) == []
    decreases |s|
  {
    if NextSpan(lx, s) == |s| {
      ReadableLast(lx, s);
      BareRewritten(lx, s);
      BlankLast(lx, Rewrite(lx, s), 3);
      RewriteLeavesNoLeak(lx, s);
    } else {
      var x, u, r := FirstSpan(lx, s);
      var a, m := Rewrite(lx, x), Readable(lx, r);
      ReadableOpens(lx, x, u, r);
      OpensRewritten(lx, x, u, r);
      BlankOpens(lx, a, u, m, 3);
      LeaksAroundSpace(lx, a, Blank(lx, m, 3));
      RewriteLeavesNoLeak(lx, x);
      NothingLeftOutside(lx, r);
    }
  }

  /** A text with nothing internal outside its spans is not touched. */
  lemma {:induction false} CleanIsKept(lx: Lexicon, s: string)
    requires Valid(lx) && Leaks(lx, Blank(lx, s, 3)) == []
    ensures Readable(lx, s) == s
    decreases |s|
  {
    if NextSpan(lx, s) == |s| {
      ReadableLast(lx, s);
      BlankLast(lx, s, 3);
      CleanTextIsKept(lx, s);
    } else {
      var x, u, r := FirstSpan(lx, s);
      BlankOpens(lx, x, u, r, 3);
      LeaksAroundSpace(lx, x, Blank(lx, r, 3));
      CleanTextIsKept(lx, x);
      CleanIsKept(lx, r);
      ReadableOpens(lx, x, u, r);
    }
  }

  /** A second pass of the rewriter changes nothing, whatever the text. */
  lemma RewritingTwiceIsOnce(lx: Lexicon, s: string)
    requires Valid(lx)
    ensures Readable(lx, Readable(lx, s)) == Readable(lx, s)
  {
    NothingLeftOutside(lx, s);
    CleanIsKept(lx, Readable(lx, s));
  }

  /** After the first pass the rewritten text still has the shape of the text. */
  lemma {:induction false} BlankShape(lx: Lexicon, s: string)
    requires Valid(lx)
    ensures Shape(Blank(lx, Readable(lx, s), 1)) == Shape(Blank(lx, s, 1))
    decreases |s|
  {
    if NextSpan(lx, s) == |s| {
      ReadableLast(lx, s);
      BareRewritten(lx, s);
      BlankLast(lx, s, 1);
      BlankLast(lx, Rewrite(lx, s), 1);
      RewriteShape(lx, s);
    } else {
      var x, u, r := FirstSpan(lx, s);
      var a, m := Rewrite(lx, x), Readable(lx, r);
      ReadableOpens(lx, x, u, r);
      OpensRewritten(lx, x, u, r);
      BlankOpens(lx, x, u, r, 1);
      BlankOpens(lx, a, u, m, 1);
      RewriteShape(lx, x);
      BlankShape(lx, r);
      SameShapes(Left(lx, u, m, 1), Blank(lx, m, 1), Left(lx, u, r, 1), Blank(lx, r, 1));
      SameShapes(a, Left(lx, u, m, 1) + Blank(lx, m, 1), x, Left(lx, u, r, 1) + Blank(lx, r, 1));
    }
  }

  lemma NoMatchByShape(lx: Lexicon, pat: Pattern, u: string, r: string, m: string)
    requires !pat.Url? && Shape(r) == Shape(m) && NoMatchWithin(lx, pat, u + r, |u|)
    ensures NoMatchWithin(lx, pat, u + m, |u|)
  {
    forall i | 0 <= i < |u| ensures MatchLen(lx, pat, (u + m)[i..]) == 0 {
      SuffixOfFirst(u, r, i);
      SuffixOfFirst(u, m, i);
      SameShapes(u[i..], r, u[i..], m);
      SameShapeSameCode(lx, u[i..] + r, u[i..] + m);
    }
  }

  lemma SoundStays(lx: Lexicon, u: string, r: string, m: string)
    requires Shape(r) == Shape(m) && Shape(Blank(lx, r, 1)) == Shape(Blank(lx, m, 1)) && Sound(lx, u, r)
    ensures Sound(lx, u, m)
  {
    if TickFirst(u) {
      SameShapes(u, r, u, m);
      SameShapes("`", r, "`", m);
      SameShapeSameCode(lx, u + r, u + m);
      SameShapeSameCode(lx, "`" + r, "`" + m);
    } else {
      NoMatchByShape(lx, Fence, u, r, m);
      NoMatchByShape(lx, Inline, u, Blank(lx, r, 1), Blank(lx, m, 1));
    }
  }

  lemma {:induction false} StaysLegible(lx: Lexicon, s: string)
    requires Valid(lx) && Legible(lx, s)
    ensures Legible(lx, Readable(lx, s))
    decreases |s|
  {
    if NextSpan(lx, s) == |s| {
      ReadableLast(lx, s);
      BareRewritten(lx, s);
      BlankLast(lx, Rewrite(lx, s), 1);
    } else {
      var x, u, r := FirstSpan(lx, s);
      BlankOpens(lx, x, u, r, 3);
      StaysLegible(lx, r);
      ReadableOpens(lx, x, u, r);
      OpensRewritten(lx, x, u, r);
      ReadableShape(lx, r);
      BlankShape(lx, r);
      SoundStays(lx, u, r, Readable(lx, r));
      BlankOpens(lx, Rewrite(lx, x), u, Readable(lx, r), 3);
    }
  }

  /** The rewriter satisfies the gate, and leaves alone what the gate accepts, on every legible text. */
  lemma RewriterSatisfiesGate(lx: Lexicon, s: string)
    requires Valid(lx) && Legible(lx, s)
    ensures GateFinds(lx, Readable(lx, s)) == []
    ensures GateFinds(lx, s) == [] ==> Readable(lx, s) == s
  {
    var w := Readable(lx, s);
    StaysLegible(lx, s);
    BothFindTheSame(lx, w);
    NothingLeftOutside(lx, s);
    BothFindTheSame(lx, s);
    if GateFinds(lx, s) == [] { CleanIsKept(lx, s); }
  }

  // ---- texts that are legible at sight ----------------------------------------------------------------

  /** No three backticks anywhere, and no backtick in what follows `http://` up to the next space. */
  predicate NoFences(s: string) { forall i :: 0 <= i <= |s| ==> !Ticks(s[i..]) }

  predicate NoTickInUrls(lx: Lexicon, s: string) {
    forall i :: 0 <= i <= |s| && StartsUrl(lx, s[i..]) ==> '`' !in s[i..][..InkRun(lx, s[i..])]
  }

  lemma SuffixIsPlain(lx: Lexicon, s: string, k: nat)
    requires k <= |s| && NoFences(s) && NoTickInUrls(lx, s)
    ensures NoFences(s[k..]) && NoTickInUrls(lx, s[k..])
  {
    forall i | 0 <= i <= |s[k..]| ensures s[k..][i..] == s[k + i..] {}
  }

  lemma SoundAtSight(lx: Lexicon, x: string, u: string, r: string)
    requires Valid(lx) && Opens(lx, x, u, r) && NoFences(x + (u + r)) && NoTickInUrls(lx, x + (u + r))
    ensures Sound(lx, u, r)
  {
    var s := x + (u + r);
    SpanKinds(lx, u, r);
    assert s[|x|..] == u + r && (u + r)[..|u|] == u;
    if u[0] == '`' {
      assert !FenceHere(lx, u + r);
      InlineInside(lx, u, r, |u| - 1);
      assert s[|x| + |u| - 1..] == "`" + r;
    } else {
      NoCodeWithoutTick(lx, Fence, u, r);
      NoCodeWithoutTick(lx, Inline, u, Blank(lx, r, 1));
    }
  }

  /** Inline code is legible when the text has no fence and its URLs no backtick. */
  lemma {:induction false} LegibleAtSight(lx: Lexicon, s: string)
    requires Valid(lx) && NoFences(s) && NoTickInUrls(lx, s)
    ensures Legible(lx, s)
    decreases |s|
  {
    if NextSpan(lx, s) < |s| {
      var x, u, r := FirstSpan(lx, s);
      SoundAtSight(lx, x, u, r);
      SuffixIsPlain(lx, s, |x| + |u|);
      assert s[|x| + |u|..] == r;
      LegibleAtSight(lx, r);
      BlankOpens(lx, x, u, r, 3);
    }
  }
}
