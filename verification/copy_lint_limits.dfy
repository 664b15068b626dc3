/**
 Where the rewriter and the gate disagree: two texts that are not legible, on which the rewriter
 keeps what the gate refuses.
 */
module CopyLintLimits {
  import opened CopyLint
  import opened CopyLintGate
  import opened CopyLintShape
  import opened CopyLintAgreement

  /** A lexicon with one identifier and no labels. */
  function Tiny(): Lexicon {
    Lexicon(c => Lower(c) || Digit(c) || c == '_', c => c == ' ' || c == '\n', {"a_b"}, map[])
  }

  /** The text "`a_b```x```", character by character. */
  predicate Tangled(s: string) {
    && |s| == 11 && s[0] == '`' && s[1] == 'a' && s[2] == '_' && s[3] == 'b'
    && s[4] == '`' && s[5] == '`' && s[6] == '`' && s[7] == 'x' && s[8] == '`' && s[9] == '`' && s[10] == '`'
  }

  lemma StripIs(lx: Lexicon, s: string, mid: string, cut: string)
    requires Cut(lx, Fence, s) == mid && Cut(lx, Inline, mid) == cut && Cut(lx, Url, cut) == cut
    ensures StripCode(lx, s) == cut && GateFinds(lx, s) == Leaks(lx, cut)
  {
  }

  /**
   A fence that opens with the closing backtick of an inline span: the rewriter skips the span,
   while the gate cuts the fence first and then sees the identifier.
   */
  lemma FenceTakesTheClosingTick(lx: Lexicon, s: string)
    requires lx == Tiny() && Tangled(s)
    ensures Valid(lx) && Readable(lx, s) == s && GateFinds(lx, s) == ["a_b"] && !Legible(lx, s)
  {
    KeptAsCode(lx, s);
    var cut := CutAsFence(lx, s);
    StripIs(lx, s, cut, cut);
    IdentifierSeen(lx, cut);
    RefusedIsNotLegible(lx, s);
  }

  lemma RefusedIsNotLegible(lx: Lexicon, s: string)
    requires Valid(lx) && Readable(lx, s) == s && GateFinds(lx, s) != []
    ensures !Legible(lx, s)
  {
    if Legible(lx, s) { RewriterSatisfiesGate(lx, s); }
  }

  /** The text "http://`x`a_b", character by character. */
  predicate Quoting(s: string) {
    && |s| == 13 && s[0] == 'h' && s[1] == 't' && s[2] == 't' && s[3] == 'p' && s[4] == ':' && s[5] == '/' &&
        s[6] == '/'
    && s[7] == '`' && s[8] == 'x' && s[9] == '`' && s[10] == 'a' && s[11] == '_' && s[12] == 'b'
  }

  /**
   An inline span within a URL: the rewriter skips the URL whole, while the gate cuts the inline
   span first, which ends the URL before the identifier.
   */
  lemma CodeSplitsTheUrl(lx: Lexicon, s: string)
    requires lx == Tiny() && Quoting(s)
    ensures Valid(lx) && Readable(lx, s) == s && GateFinds(lx, s) == ["a_b"] && !Legible(lx, s)
  {
    KeptAsUrl(lx, s);
    var x, r := CutAtTheSpan(lx, s);
    SeenAfterTheCut(lx, x, r);
    RefusedIsNotLegible(lx, s);
  }

  lemma CutAtTheSpan(lx: Lexicon, s: string) returns (x: string, r: string)
    requires lx == Tiny() && Quoting(s)
    ensures StripCode(lx, s) == x + (" " + r) && '_' !in x && r == ['a', '_', 'b']
  {
    x, r := s[..7], s[10..];
    NoFenceInUrl(lx, s);
    InlineCutFromUrl(lx, s, x, s[7..10], r);
    NoUrlAfterCut(lx, s, x, r);
    StripIs(lx, s, s, x + (" " + r));
  }

  lemma SeenAfterTheCut(lx: Lexicon, x: string, r: string)
    requires lx == Tiny() && '_' !in x && r == ['a', '_', 'b']
    ensures Leaks(lx, x + (" " + r)) == ["a_b"]
  {
    LeaksAroundSpace(lx, x, r);
    NoUnderscoreNoLeak(lx, x);
    OneIdentifier(lx, r);
  }

  lemma KeptAsUrl(lx: Lexicon, s: string)
    requires lx == Tiny() && Quoting(s)
    ensures Readable(lx, s) == s
  {
    InkOnly(lx, s);
    CodeNeedsTick(lx, s);
    assert StartsUrl(lx, s) && SkipLen(lx, s) == 13 && NextSpan(lx, s) == 0;
    assert s[0..] == s && s[..0] == "" && s[0..13] == s && s[13..] == "";
    ReadableStep(lx, s, 0, 13);
    ReadableLast(lx, "");
  }

  lemma NoFenceInUrl(lx: Lexicon, s: string)
    requires Quoting(s)
    ensures Cut(lx, Fence, s) == s
  {
    forall i | 0 <= i < |s| ensures MatchLen(lx, Fence, s[i..]) == 0 {
      if Ticks(s[i..]) { assert s[i..][1] == s[i + 1]; }
    }
    CutEverywhere(lx, Fence, s);
  }

  lemma InlineCutFromUrl(lx: Lexicon, s: string, x: string, u: string, r: string)
    requires Quoting(s) && x == s[..7] && u == s[7..10] && r == s[10..]
    ensures Cut(lx, Inline, s) == x + (" " + r)
  {
    assert s == x + (u + r) && r + "" == r;
    assert (u + r)[1..][1..][0] == '`';
    assert CodeRun((u + r)[1..][1..]) == 0 && CodeRun((u + r)[1..]) == 1;
    CutPlain(lx, Inline, x, u + r);
    CutSpan(lx, Inline, u, r);
    CutPlain(lx, Inline, r, "");
  }

  lemma NoUrlAfterCut(lx: Lexicon, s: string, x: string, r: string)
    requires lx == Tiny() && Quoting(s) && x == s[..7] && r == s[10..]
    ensures Cut(lx, Url, x + (" " + r)) == x + (" " + r)
  {
    var t := x + (" " + r);
    forall i | 0 <= i < |t| ensures MatchLen(lx, Url, t[i..]) == 0 { NoUrlThere(lx, t, i); }
    CutEverywhere(lx, Url, t);
  }

  lemma NoUrlThere(lx: Lexicon, t: string, i: nat)
    requires lx == Tiny() && |t| == 11 && t[7] == ' ' && i < 11 && forall k :: 0 <= k < 11 && k != 4 ==> t[k] != ':'
    ensures !StartsUrl(lx, t[i..])
  {
    if StartsUrl(lx, t[i..]) { var p := UrlColon(lx, t, i); }
  }

  lemma OneIdentifier(lx: Lexicon, t: string)
    requires lx == Tiny() && |t| == 3 && t[0] == 'a' && t[1] == '_' && t[2] == 'b'
    ensures Leaks(lx, t) == ["a_b"]
  {
    assert t[2..][1..] == "" && t[1..][1..] == t[2..];
    assert WordLen(lx, t[2..]) == 1 && WordLen(lx, t[1..]) == 2 && WordLen(lx, t) == 3;
    assert t[..3] == "a_b" && Internal(lx, t[..3]) && t[3..] == "";
    assert Leaks(lx, t) == [t[..3]] + Leaks(lx, t[3..]);
  }

  lemma OpensWithCode(lx: Lexicon, s: string)
    requires Tangled(s)
    ensures NextSpan(lx, s) == 0 && SkipLen(lx, s) == 5
  {
    var t := s[1..];
    assert t[1..][1..] == t[2..];
    assert CodeRun(t[2..]) == 1 && CodeRun(t[1..]) == 2 && CodeRun(t) == 3;
  }

  lemma KeptAsCode(lx: Lexicon, s: string)
    requires lx == Tiny() && Tangled(s)
    ensures Readable(lx, s) == s
  {
    OpensWithCode(lx, s);
    assert s[0..] == s && s[..0] == "";
    ReadableStep(lx, s, 0, 5);
    KeptTicks(lx, s[5..]);
    assert s[0..5] + s[5..] == s;
  }

  lemma KeptTicks(lx: Lexicon, s: string)
    requires lx == Tiny() && |s| == 6 && s[0] == '`' && s[1] == '`' && s[2] == 'x' && s[3] == '`' && s[4] == '`' &&
               s[5] == '`'
    ensures Readable(lx, s) == s
  {
    SecondTickOpens(lx, s);
    ReadableStep(lx, s, 1, 3);
    TwoTicks(lx, s[4..]);
    OneTick(lx, s[..1]);
    assert s[..1] + s[1..4] + s[4..] == s;
  }

  lemma SecondTickOpens(lx: Lexicon, s: string)
    requires |s| == 6 && s[0] == '`' && s[1] == '`' && s[2] == 'x' && s[3] == '`'
    ensures NextSpan(lx, s) == 1 && SkipLen(lx, s[1..]) == 3
  {
    var t := s[1..];
    assert CodeRun(t[1..]) == 1 && SkipLen(lx, t) == 3 && SkipLen(lx, s) == 0;
    assert NextSpan(lx, t) == 0;
  }

  lemma OneTick(lx: Lexicon, s: string)
    requires lx == Tiny() && |s| == 1 && s[0] == '`'
    ensures Rewrite(lx, s) == s && NextSpan(lx, s) == 1
  {
    assert s[1..] == "" && SkipLen(lx, s) == 0;
  }

  lemma TwoTicks(lx: Lexicon, s: string)
    requires lx == Tiny() && |s| == 2 && s[0] == '`' && s[1] == '`'
    ensures Readable(lx, s) == s
  {
    OneTick(lx, s[1..]);
    assert SkipLen(lx, s) == 0 && NextSpan(lx, s) == 2;
    assert Rewrite(lx, s) == [s[0]] + Rewrite(lx, s[1..]) == s;
  }

  lemma CutAsFence(lx: Lexicon, s: string) returns (cut: string)
    requires lx == Tiny() && Tangled(s)
    ensures |cut| == 5 && cut[0] == '`' && cut[1] == 'a' && cut[2] == '_' && cut[3] == 'b' && cut[4] == ' '
    ensures Cut(lx, Fence, s) == cut && Cut(lx, Inline, cut) == cut && Cut(lx, Url, cut) == cut
  {
    FenceCut(lx, s[4..]);
    CutStep(lx, Fence, s[3..]);
    CutStep(lx, Fence, s[2..]);
    CutStep(lx, Fence, s[1..]);
    CutStep(lx, Fence, s);
    assert s[3..][1..] == s[4..] && s[2..][1..] == s[3..] && s[1..][1..] == s[2..];
    cut := Cut(lx, Fence, s);
    CutTail(lx, Inline, cut);
    CutTail(lx, Url, cut);
  }

  lemma FenceCut(lx: Lexicon, s: string)
    requires |s| == 7 && Ticks(s) && s[3] == 'x' && Ticks(s[4..])
    ensures Cut(lx, Fence, s) == " "
  {
    assert s[3..][1..] == s[4..];
    assert FirstTicks(s[3..]) == 1 && MatchLen(lx, Fence, s) == 7;
    assert s[7..] == "";
  }

  lemma CutTail(lx: Lexicon, pat: Pattern, s: string)
    requires !pat.Fence? && |s| == 5 && s[0] == '`' && s[1] == 'a' && s[2] == '_' && s[3] == 'b' && s[4] == ' '
    ensures Cut(lx, pat, s) == s
  {
    var t := s[1..];
    NothingInTail(lx, pat, t);
    assert CodeRun(t[3..]) == 1 && t[2..][1..] == t[3..] && t[1..][1..] == t[2..];
    assert CodeRun(t[1..]) == 3 && CodeRun(t) == 4;
    CutStep(lx, pat, s);
  }

  lemma NothingInTail(lx: Lexicon, pat: Pattern, t: string)
    requires !pat.Fence? && |t| == 4 && t[0] == 'a' && t[1] == '_' && t[2] == 'b' && t[3] == ' '
    ensures Cut(lx, pat, t) == t
  {
    CutStep(lx, pat, t[3..]);
    CutStep(lx, pat, t[2..]);
    CutStep(lx, pat, t[1..]);
    CutStep(lx, pat, t);
    assert t[3..][1..] == "" && t[2..][1..] == t[3..] && t[1..][1..] == t[2..];
  }

  lemma IdentifierSeen(lx: Lexicon, s: string)
    requires lx == Tiny() && |s| == 5 && s[0] == '`' && s[1] == 'a' && s[2] == '_' && s[3] == 'b' && s[4] == ' '
    ensures Leaks(lx, s) == ["a_b"]
  {
    var t := s[1..];
    assert t[3..] == [' '] && t[2..][1..] == t[3..] && t[1..][1..] == t[2..] && t[3..][1..] == "";
    assert WordLen(lx, t[3..]) == 0 && WordLen(lx, t[2..]) == 1 && WordLen(lx, t[1..]) == 2 && WordLen(lx, t) == 3;
    assert t[..3] == "a_b" && Internal(lx, t[..3]);
    assert Leaks(lx, t[3..]) == Leaks(lx, t[3..][1..]) == [];
    assert Leaks(lx, t) == [t[..3]] + Leaks(lx, t[3..]);
  }
}
