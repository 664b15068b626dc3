/**
 The gate's passes with provenance: what has been cut stays visible as a piece that reads as a
 space. Two ways of cutting a text are then the same only if they cut the same stretches of it.
 */
module CopyLintPieces {
  import opened CopyLint
  import opened CopyLintGate

  /** A character still there, or a stretch of the text that a pass has replaced by a space. */
  datatype Piece = Kept(c: char) | Gone(text: string)

  function Face(p: Piece): char { if p.Kept? then p.c else ' ' }

  function Back(p: Piece): string { if p.Kept? then [p.c] else p.text }

  /** What a pass sees. */
  function Flat(ps: seq<Piece>): (s: string)
    ensures |s| == |ps| && forall i :: 0 <= i < |ps| ==> s[i] == Face(ps[i])
  {
    seq(|ps|, i requires 0 <= i < |ps| => Face(ps[i]))
  }

  /** The text it stands for. */
  function Source(ps: seq<Piece>): string { if ps == [] then "" else Back(ps[0]) + Source(ps[1..]) }

  function Chars(s: string): (ps: seq<Piece>)
    ensures |ps| == |s| && forall i :: 0 <= i < |s| ==> ps[i] == Kept(s[i])
  {
    seq(|s|, i requires 0 <= i < |s| => Kept(s[i]))
  }

  /** One pass: every match becomes one piece. */
  function CutPieces(lx: Lexicon, pat: Pattern, ps: seq<Piece>): seq<Piece>
    decreases |ps|
  {
    if ps == [] then []
    else
      var n := MatchLen(lx, pat, Flat(ps));
      if n > 0 then [Gone(Source(ps[..n]))] + CutPieces(lx, pat, ps[n..]) else [ps[0]] + CutPieces(lx, pat, ps[1..])
  }

  lemma FlatAppend(a: seq<Piece>, b: seq<Piece>)
    ensures Flat(a + b) == Flat(a) + Flat(b)
  {
  }

  lemma CharsAppend(a: string, b: string)
    ensures Chars(a + b) == Chars(a) + Chars(b)
  {
  }

  lemma FlatChars(s: string)
    ensures Flat(Chars(s)) == s
  {
  }

  lemma FlatRest(ps: seq<Piece>, n: nat)
    requires n <= |ps|
    ensures Flat(ps)[n..] == Flat(ps[n..])
  {
  }

  lemma {:induction false} SourceChars(s: string)
    ensures Source(Chars(s)) == s
  {
    if s != "" {
      SourceChars(s[1..]);
      assert Chars(s)[1..] == Chars(s[1..]) && [s[0]] + s[1..] == s;
    }
  }

  lemma StringAssoc(a: string, b: string, c: string)
    ensures (a + b) + c == a + (b + c)
  {
  }

  lemma {:induction false} SourceAppend(a: seq<Piece>, b: seq<Piece>)
    ensures Source(a + b) == Source(a) + Source(b)
    decreases |a|
  {
    if a == [] {
      assert a + b == b;
    } else {
      assert (a + b)[0] == a[0] && (a + b)[1..] == a[1..] + b;
      SourceAppend(a[1..], b);
      StringAssoc(Back(a[0]), Source(a[1..]), Source(b));
    }
  }

  lemma CutPiecesMatch(lx: Lexicon, pat: Pattern, ps: seq<Piece>, n: nat)
    requires ps != [] && n == MatchLen(lx, pat, Flat(ps)) > 0
    ensures CutPieces(lx, pat, ps) == [Gone(Source(ps[..n]))] + CutPieces(lx, pat, ps[n..])
  {
  }

  lemma CutPiecesStep(lx: Lexicon, pat: Pattern, ps: seq<Piece>)
    requires ps != [] && MatchLen(lx, pat, Flat(ps)) == 0
    ensures CutPieces(lx, pat, ps) == [ps[0]] + CutPieces(lx, pat, ps[1..])
  {
  }

  lemma FlatFirst(p: Piece, ps: seq<Piece>)
    ensures Flat([p] + ps) == [Face(p)] + Flat(ps)
  {
  }

  /** With its provenance left out, a pass over pieces is the pass over the text. */
  lemma {:induction false} FlatCut(lx: Lexicon, pat: Pattern, ps: seq<Piece>)
    ensures Flat(CutPieces(lx, pat, ps)) == Cut(lx, pat, Flat(ps))
    decreases |ps|
  {
    if ps != [] {
      var n := MatchLen(lx, pat, Flat(ps));
      var k := if n > 0 then n else 1;
      FlatCut(lx, pat, ps[k..]);
      FlatRest(ps, k);
      if n > 0 {
        CutPiecesMatch(lx, pat, ps, n);
        CutMatch(lx, pat, Flat(ps), n);
        FlatFirst(Gone(Source(ps[..n])), CutPieces(lx, pat, ps[n..]));
      } else {
        CutPiecesStep(lx, pat, ps);
        CutStep(lx, pat, Flat(ps));
        FlatFirst(ps[0], CutPieces(lx, pat, ps[1..]));
      }
    }
  }

  lemma SourceCons(p: Piece, ps: seq<Piece>)
    ensures Source([p] + ps) == Back(p) + Source(ps)
  {
    assert ([p] + ps)[1..] == ps;
  }

  lemma SourceSplit(ps: seq<Piece>, n: nat)
    requires n <= |ps|
    ensures Source(ps) == Source(ps[..n]) + Source(ps[n..])
  {
    SourceAppend(ps[..n], ps[n..]);
    assert ps[..n] + ps[n..] == ps;
  }

  /** A pass loses no part of the text and moves none. */
  lemma {:induction false} SourceCut(lx: Lexicon, pat: Pattern, ps: seq<Piece>)
    ensures Source(CutPieces(lx, pat, ps)) == Source(ps)
    decreases |ps|
  {
    if ps != [] {
      var n := MatchLen(lx, pat, Flat(ps));
      if n > 0 {
        var cut := Gone(Source(ps[..n]));
        SourceCut(lx, pat, ps[n..]);
        CutPiecesMatch(lx, pat, ps, n);
        SourceCons(cut, CutPieces(lx, pat, ps[n..]));
        SourceSplit(ps, n);
      } else {
        SourceCut(lx, pat, ps[1..]);
        CutPiecesStep(lx, pat, ps);
        SourceCons(ps[0], CutPieces(lx, pat, ps[1..]));
      }
    }
  }

  // ---- going forward ------------------------------------------------------------------------------

  lemma Uncons(x: seq<Piece>, y: seq<Piece>)
    requires x != []
    ensures x + y == [x[0]] + (x[1..] + y) && (x + y)[0] == x[0] && (x + y)[1..] == x[1..] + y
  {
  }

  /** No match starts in the first part, so the pass goes through it. */
  lemma {:induction false} PiecesThrough(lx: Lexicon, pat: Pattern, x: seq<Piece>, y: seq<Piece>)
    requires NoMatchWithin(lx, pat, Flat(x + y), |x|)
    ensures CutPieces(lx, pat, x + y) == x + CutPieces(lx, pat, y)
    decreases |x|
  {
    if x == [] {
      assert x + y == y;
    } else {
      var t := x[1..];
      NoMatchFurther(lx, pat, Flat(x + y), |x|);
      CutPiecesStep(lx, pat, x + y);
      FlatRest(x + y, 1);
      Uncons(x, y);
      PiecesThrough(lx, pat, t, y);
      Uncons(x, CutPieces(lx, pat, y));
    }
  }

  /** The first part is one match. */
  lemma PiecesMatch(lx: Lexicon, pat: Pattern, v: seq<Piece>, r: seq<Piece>)
    requires v != [] && MatchLen(lx, pat, Flat(v + r)) == |v|
    ensures CutPieces(lx, pat, v + r) == [Gone(Source(v))] + CutPieces(lx, pat, r)
  {
    CutPiecesMatch(lx, pat, v + r, |v|);
    assert (v + r)[..|v|] == v && (v + r)[|v|..] == r;
  }

  // ---- going back ---------------------------------------------------------------------------------

  lemma SameFirst(p: Piece, a: seq<Piece>, q: Piece, b: seq<Piece>)
    requires [p] + a == [q] + b
    ensures p == q && a == b
  {
    assert ([p] + a)[0] == p && ([q] + b)[0] == q;
    assert ([p] + a)[1..] == a && ([q] + b)[1..] == b;
  }

  /** A character a pass leaves in front was in front of it, and no match started there. */
  lemma BackOverChar(lx: Lexicon, pat: Pattern, ps: seq<Piece>, c: char, z: seq<Piece>)
    requires CutPieces(lx, pat, ps) == [Kept(c)] + z
    ensures ps != [] && ps[0] == Kept(c) && MatchLen(lx, pat, Flat(ps)) == 0 && CutPieces(lx, pat, ps[1..]) == z
  {
    var n := MatchLen(lx, pat, Flat(ps));
    if n > 0 {
      CutPiecesMatch(lx, pat, ps, n);
      SameFirst(Gone(Source(ps[..n])), CutPieces(lx, pat, ps[n..]), Kept(c), z);
    } else {
      CutPiecesStep(lx, pat, ps);
      SameFirst(ps[0], CutPieces(lx, pat, ps[1..]), Kept(c), z);
    }
  }

  lemma WithinOneMore(lx: Lexicon, pat: Pattern, s: string, n: nat)
    requires s != "" && MatchLen(lx, pat, s) == 0 && NoMatchWithin(lx, pat, s[1..], n)
    ensures NoMatchWithin(lx, pat, s, n + 1)
  {
    forall i | 0 <= i < n + 1 ensures MatchLen(lx, pat, s[i..]) == 0 {
      if i == 0 { assert s[0..] == s; } else { assert s[1..][i - 1..] == s[i..]; }
    }
  }

  lemma CharsFirst(y: string, z: seq<Piece>)
    requires y != ""
    ensures Chars(y) + z == [Kept(y[0])] + (Chars(y[1..]) + z)
  {
    assert Chars(y) == [Kept(y[0])] + Chars(y[1..]);
  }

  lemma HeadAndTail(ps: seq<Piece>, p: Piece, rest: seq<Piece>)
    requires ps != [] && ps[0] == p && ps[1..] == rest
    ensures ps == [p] + rest
  {
  }

  /** What a pass leaves in front untouched was there before it, and no match started in it. */
  lemma {:induction false} BackOver(lx: Lexicon, pat: Pattern, ps: seq<Piece>, y: string, z: seq<Piece>)
    returns (rest: seq<Piece>)
    requires CutPieces(lx, pat, ps) == Chars(y) + z
    ensures ps == Chars(y) + rest && CutPieces(lx, pat, rest) == z && NoMatchWithin(lx, pat, Flat(ps), |y|)
    decreases |y|
  {
    if y == "" {
      rest := ps;
      assert Chars(y) + z == z && Chars(y) + rest == rest;
    } else {
      CharsFirst(y, z);
      BackOverChar(lx, pat, ps, y[0], Chars(y[1..]) + z);
      rest := BackOver(lx, pat, ps[1..], y[1..], z);
      FlatRest(ps, 1);
      WithinOneMore(lx, pat, Flat(ps), |y[1..]|);
      CharsFirst(y, rest);
      HeadAndTail(ps, Kept(y[0]), Chars(y[1..]) + rest);
    }
  }

  /** A cut piece in front was there before the pass, or this pass made it. */
  lemma BackToGone(lx: Lexicon, pat: Pattern, ps: seq<Piece>, t: string, z: seq<Piece>) returns (n: nat)
    requires CutPieces(lx, pat, ps) == [Gone(t)] + z
    ensures ps != [] && n == MatchLen(lx, pat, Flat(ps))
    ensures n == 0 ==> ps[0] == Gone(t) && CutPieces(lx, pat, ps[1..]) == z
    ensures n > 0 ==> Source(ps[..n]) == t && CutPieces(lx, pat, ps[n..]) == z
  {
    n := MatchLen(lx, pat, Flat(ps));
    if n > 0 {
      CutPiecesMatch(lx, pat, ps, n);
      SameFirst(Gone(Source(ps[..n])), CutPieces(lx, pat, ps[n..]), Gone(t), z);
    } else {
      CutPiecesStep(lx, pat, ps);
      SameFirst(ps[0], CutPieces(lx, pat, ps[1..]), Gone(t), z);
    }
  }
}
