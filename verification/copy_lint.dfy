/**
 The identifier rewriter of prospector/copy_lint.py and the gate it must satisfy. The pattern
 `\b[a-z][a-z0-9]*(?:_[a-z0-9]+)+\b` can only match a whole maximal run of word characters, so a
 match is a whole word of that shape.
 */
module CopyLint {
  /** What the code takes from its tables: the character classes, the internal identifiers and their labels. */
  datatype Lexicon = Lexicon(word: char -> bool, space: char -> bool, idents: set<string>, labels: map<string, string>)

  predicate Lower(c: char) { 'a' <= c <= 'z' }
  predicate Digit(c: char) { '0' <= c <= '9' }

  predicate EndsHttp(s: string) {
    |s| >= 4 && s[|s| - 4] == 'h' && s[|s| - 3] == 't' && s[|s| - 2] == 't' && s[|s| - 1] == 'p'
  }

  predicate EndsHttps(s: string) {
    |s| >= 5 && s[|s| - 5] == 'h' && s[|s| - 4] == 't' && s[|s| - 3] == 't' && s[|s| - 2] == 'p' && s[|s| - 1] == 's'
  }

  /** Identifiers all carry an underscore; labels are plain words. */
  ghost predicate Valid(lx: Lexicon) {
    && (forall c :: Lower(c) || Digit(c) || c == '_' ==> lx.word(c))
    && (forall c :: lx.space(c) ==> !lx.word(c))
    && !lx.word('`') && !lx.word(':') && !lx.word('/') && lx.space(' ') && lx.space('\n')
    && !lx.space('`') && !lx.space(':') && !lx.space('/')
    && (forall t :: t in lx.idents ==> '_' in t)
    && (forall k :: k in lx.labels ==> PlainLabel(lx.labels[k]))
  }

  predicate PlainLabel(l: string) {
    l != "" && '_' !in l && '`' !in l && '\n' !in l && ':' !in l && '/' !in l && !EndsHttp(l) && !EndsHttps(l)
  }

  /** The shape the pattern accepts: starts with a letter, underscores single and inside. */
  predicate IdentShape(w: string) {
    && w != "" && Lower(w[0]) && '_' in w && w[|w| - 1] != '_'
    && (forall i :: 0 <= i < |w| ==> Lower(w[i]) || Digit(w[i]) || w[i] == '_')
    && (forall i :: 0 <= i < |w| - 1 ==> !(w[i] == '_' && w[i + 1] == '_'))
  }

  predicate Internal(lx: Lexicon, w: string) { IdentShape(w) && w in lx.idents }

  /** How long the word at the front of `s` is. */
  function WordLen(lx: Lexicon, s: string): (n: nat)
    ensures n <= |s|
    ensures forall i :: 0 <= i < n ==> lx.word(s[i])
    ensures n < |s| ==> !lx.word(s[n])
  {
    if s == "" || !lx.word(s[0]) then 0 else 1 + WordLen(lx, s[1..])
  }

  function Spaced(w: string): string { seq(|w|, i requires 0 <= i < |w| => if w[i] == '_' then ' ' else w[i]) }

  /** The replacement for one whole word. */
  function RewriteWord(lx: Lexicon, w: string): string {
    if !Internal(lx, w) then w
    else if w in lx.labels then lx.labels[w]
    else Spaced(w)
  }

  /** The substitution over a stretch of text. */
  function Rewrite(lx: Lexicon, s: string): string
    decreases |s|
  {
    if s == "" then ""
    else
      var n := WordLen(lx, s);
      if n == 0 then [s[0]] + Rewrite(lx, s[1..]) else RewriteWord(lx, s[..n]) + Rewrite(lx, s[n..])
  }

  /** The internal identifiers the gate finds, in order. */
  function Leaks(lx: Lexicon, s: string): seq<string>
    decreases |s|
  {
    if s == "" then []
    else
      var n := WordLen(lx, s);
      if n == 0 then Leaks(lx, s[1..])
      else (if Internal(lx, s[..n]) then [s[..n]] else []) + Leaks(lx, s[n..])
  }

  predicate AtBoundary(lx: Lexicon, s: string) { s == "" || !lx.word(s[0]) }

  lemma {:induction false} WordLenAppend(lx: Lexicon, x: string, y: string)
    requires AtBoundary(lx, y)
    ensures WordLen(lx, x + y) == WordLen(lx, x)
    decreases |x|
  {
    if x == "" {
      assert x + y == y;
    } else {
      assert (x + y)[1..] == x[1..] + y;
      WordLenAppend(lx, x[1..], y);
    }
  }

  function Found(lx: Lexicon, p: string): seq<string> { if Internal(lx, p) then [p] else [] }

  /** One piece of the gate's scan: a word, or a single other character, which is never internal. */
  lemma LeaksFirst(lx: Lexicon, s: string, k: nat)
    requires s != "" && k == if WordLen(lx, s) == 0 then 1 else WordLen(lx, s)
    ensures Leaks(lx, s) == Found(lx, s[..k]) + Leaks(lx, s[k..])
  {
    if WordLen(lx, s) == 0 { assert s[..1] == [s[0]] && !IdentShape(s[..1]); }
  }

  lemma LeaksFirstOfTwo(lx: Lexicon, x: string, y: string, k: nat)
    requires x != "" && AtBoundary(lx, y) && k == if WordLen(lx, x) == 0 then 1 else WordLen(lx, x)
    ensures Leaks(lx, x + y) == Found(lx, x[..k]) + Leaks(lx, x[k..] + y)
  {
    WordLenAppend(lx, x, y);
    var t, head, tail := x + y, x[..k], x[k..] + y;
    assert t[..k] == head && t[k..] == tail;
    LeaksFirst(lx, t, k);
  }

  lemma Glue(whole: seq<string>, left: seq<string>, a: seq<string>, b: seq<string>, c: seq<string>)
    requires whole == a + (b + c) && left == a + b
    ensures whole == left + c
  {
  }

  lemma {:induction false} LeaksAppend(lx: Lexicon, x: string, y: string)
    requires AtBoundary(lx, y)
    ensures Leaks(lx, x + y) == Leaks(lx, x) + Leaks(lx, y)
    decreases |x|
  {
    if x == "" {
      assert x + y == y;
    } else {
      var k := if WordLen(lx, x) == 0 then 1 else WordLen(lx, x);
      LeaksFirst(lx, x, k);
      LeaksFirstOfTwo(lx, x, y, k);
      LeaksAppend(lx, x[k..], y);
      Glue(Leaks(lx, x + y), Leaks(lx, x), Found(lx, x[..k]), Leaks(lx, x[k..]), Leaks(lx, y));
    }
  }

  lemma {:induction false} NoUnderscoreNoLeak(lx: Lexicon, s: string)
    requires '_' !in s
    ensures Leaks(lx, s) == []
    decreases |s|
  {
    if s != "" {
      var n := WordLen(lx, s);
      NoUnderscoreNoLeak(lx, s[if n == 0 then 1 else n..]);
    }
  }

  lemma RewriteKeepsBoundary(lx: Lexicon, s: string)
    requires AtBoundary(lx, s)
    ensures AtBoundary(lx, Rewrite(lx, s))
    ensures s != "" ==> Rewrite(lx, s) == [s[0]] + Rewrite(lx, s[1..])
  {
  }

  /** A replaced word has no underscore left; a kept one is not internal. */
  lemma RewrittenWordIsClean(lx: Lexicon, w: string)
    requires Valid(lx) && w != "" && WordLen(lx, w) == |w|
    ensures Leaks(lx, RewriteWord(lx, w)) == []
  {
    if Internal(lx, w) {
      assert '_' !in RewriteWord(lx, w);
      NoUnderscoreNoLeak(lx, RewriteWord(lx, w));
    } else {
      assert w[..|w|] == w;
    }
  }

  lemma {:induction false} WordLenOfWord(lx: Lexicon, s: string)
    ensures WordLen(lx, s[..WordLen(lx, s)]) == WordLen(lx, s)
    decreases |s|
  {
    var n := WordLen(lx, s);
    assert s[..n] + s[n..] == s;
    WordLenAppend(lx, s[..n], s[n..]);
  }

  /** The rewriter satisfies the gate: nothing internal is left in what it returns. */
  lemma {:induction false} RewriteLeavesNoLeak(lx: Lexicon, s: string)
    requires Valid(lx)
    ensures Leaks(lx, Rewrite(lx, s)) == []
    decreases |s|
  {
    if s != "" {
      var n := WordLen(lx, s);
      if n == 0 {
        RewriteLeavesNoLeak(lx, s[1..]);
        assert Rewrite(lx, s)[1..] == Rewrite(lx, s[1..]);
      } else {
        RewriteLeavesNoLeak(lx, s[n..]);
        RewriteKeepsBoundary(lx, s[n..]);
        WordLenOfWord(lx, s);
        RewrittenWordIsClean(lx, s[..n]);
        LeaksAppend(lx, RewriteWord(lx, s[..n]), Rewrite(lx, s[n..]));
      }
    }
  }

  lemma {:induction false} CleanTextIsKept(lx: Lexicon, s: string)
    requires Leaks(lx, s) == []
    ensures Rewrite(lx, s) == s
    decreases |s|
  {
    if s != "" {
      var n := WordLen(lx, s);
      if n == 0 {
        CleanTextIsKept(lx, s[1..]);
      } else {
        CleanTextIsKept(lx, s[n..]);
        assert s[..n] + s[n..] == s;
      }
    }
  }

  /** The rewriter changes a text exactly when the gate would refuse it, and a second pass changes nothing. */
  lemma RewriteActsIffGateRefuses(lx: Lexicon, s: string)
    requires Valid(lx)
    ensures Rewrite(lx, s) == s <==> Leaks(lx, s) == []
    ensures Rewrite(lx, Rewrite(lx, s)) == Rewrite(lx, s)
  {
    RewriteLeavesNoLeak(lx, s);
    CleanTextIsKept(lx, Rewrite(lx, s));
    if Leaks(lx, s) == [] { CleanTextIsKept(lx, s); }
  }

  // ---- only whole words change -------------------------------------------------------------

  function Join(ps: seq<string>): string {
    if ps == [] then "" else ps[0] + Join(ps[1..])
  }

  /** The text cut into maximal words and single other characters. */
  function Pieces(lx: Lexicon, s: string): seq<string>
    decreases |s|
  {
    if s == "" then []
    else
      var n := WordLen(lx, s);
      if n == 0 then [[s[0]]] + Pieces(lx, s[1..]) else [s[..n]] + Pieces(lx, s[n..])
  }

  function RewritePieces(lx: Lexicon, ps: seq<string>): (qs: seq<string>)
    ensures |qs| == |ps|
    ensures forall i :: 0 <= i < |ps| ==> qs[i] == RewriteWord(lx, ps[i])
  {
    if ps == [] then [] else [RewriteWord(lx, ps[0])] + RewritePieces(lx, ps[1..])
  }

  /** A piece is a word or a single character, and two words never touch. */
  predicate Whole(lx: Lexicon, p: string) {
    p != "" && (|p| == 1 || forall k :: 0 <= k < |p| ==> lx.word(p[k]))
  }

  predicate Apart(lx: Lexicon, p: string, q: string) {
    p != "" && q != "" && !(lx.word(p[0]) && lx.word(q[0]))
  }

  predicate Maximal(lx: Lexicon, ps: seq<string>) {
    && (forall i :: 0 <= i < |ps| ==> Whole(lx, ps[i]))
    && (forall i, j :: 0 <= i < |ps| && j == i + 1 && j < |ps| ==> Apart(lx, ps[i], ps[j]))
  }

  /** The first piece of a text and the rest. */
  lemma FirstPiece(lx: Lexicon, s: string) returns (k: nat)
    requires s != ""
    ensures k == (if WordLen(lx, s) == 0 then 1 else WordLen(lx, s)) && 0 < k <= |s|
    ensures Pieces(lx, s) == [s[..k]] + Pieces(lx, s[k..])
    ensures lx.word(s[0]) ==> AtBoundary(lx, s[k..])
  {
    k := if WordLen(lx, s) == 0 then 1 else WordLen(lx, s);
    assert WordLen(lx, s) == 0 ==> s[..1] == [s[0]];
  }

  lemma {:induction false} PiecesAreMaximal(lx: Lexicon, s: string)
    ensures Maximal(lx, Pieces(lx, s))
    ensures s != "" ==> Pieces(lx, s) != [] && Pieces(lx, s)[0] != "" && Pieces(lx, s)[0][0] == s[0]
    ensures s == "" ==> Pieces(lx, s) == []
    decreases |s|
  {
    if s != "" {
      var k := FirstPiece(lx, s);
      PiecesAreMaximal(lx, s[k..]);
    }
  }

  lemma JoinCons(p: string, ps: seq<string>)
    ensures Join([p] + ps) == p + Join(ps)
  {
    assert ([p] + ps)[1..] == ps;
  }

  lemma {:induction false} PiecesJoin(lx: Lexicon, s: string)
    ensures Join(Pieces(lx, s)) == s
    decreases |s|
  {
    if s != "" {
      var k := FirstPiece(lx, s);
      PiecesJoin(lx, s[k..]);
      JoinCons(s[..k], Pieces(lx, s[k..]));
      assert s[..k] + s[k..] == s;
    }
  }

  lemma {:induction false} RewrittenPiecesJoin(lx: Lexicon, s: string)
    requires Valid(lx)
    ensures Join(RewritePieces(lx, Pieces(lx, s))) == Rewrite(lx, s)
    decreases |s|
  {
    if s != "" {
      var k := FirstPiece(lx, s);
      RewrittenPiecesJoin(lx, s[k..]);
      assert Pieces(lx, s)[1..] == Pieces(lx, s[k..]);
      FirstPieceRewritten(lx, s, k);
    }
  }

  /**
   The rewriter touches nothing but whole words that are internal identifiers: text and output are
   the same pieces, each kept or replaced.
   */
  lemma OnlyInternalWordsChange(lx: Lexicon, s: string)
    requires Valid(lx)
    ensures var ps := Pieces(lx, s); var qs := RewritePieces(lx, ps);
            && Join(ps) == s && Maximal(lx, ps) && Join(qs) == Rewrite(lx, s)
            && forall i :: 0 <= i < |ps| ==> qs[i] == ps[i] || Internal(lx, ps[i])
  {
    PiecesAreMaximal(lx, s);
    PiecesJoin(lx, s);
    RewrittenPiecesJoin(lx, s);
  }

  // ---- markup ------------------------------------------------------------------------------

  /** `s` starts with `://` and one character that is no space. */
  predicate SlashesAt(lx: Lexicon, s: string) {
    |s| > 3 && s[0] == ':' && s[1] == '/' && s[2] == '/' && !lx.space(s[3])
  }

  /** A slash at the front of the output was at the front of the input. */
  lemma SlashComesFromInput(lx: Lexicon, s: string)
    requires Valid(lx) && Rewrite(lx, s) != "" && Rewrite(lx, s)[0] == '/'
    ensures s != "" && s[0] == '/' && Rewrite(lx, s)[1..] == Rewrite(lx, s[1..])
  {
    if s != "" && WordLen(lx, s) > 0 { assert false; }
  }

  /** A character at the front of the output that is no space had one at the front of the input. */
  lemma InkComesFromInput(lx: Lexicon, s: string)
    requires Valid(lx) && Rewrite(lx, s) != "" && !lx.space(Rewrite(lx, s)[0])
    ensures s != "" && !lx.space(s[0])
  {
  }

  lemma SlashesComeFromInput(lx: Lexicon, s: string)
    requires Valid(lx) && AtBoundary(lx, s) && SlashesAt(lx, Rewrite(lx, s))
    ensures SlashesAt(lx, s)
  {
    RewriteKeepsBoundary(lx, s);
    var r1 := Rewrite(lx, s)[1..];
    assert r1 == Rewrite(lx, s[1..]) && r1[0] == Rewrite(lx, s)[1] == '/';
    SlashComesFromInput(lx, s[1..]);
    var r2 := r1[1..];
    assert r2[0] == Rewrite(lx, s)[2] == '/';
    SlashComesFromInput(lx, s[1..][1..]);
    var s3 := s[1..][1..][1..];
    assert r2[1..][0] == Rewrite(lx, s)[3];
    InkComesFromInput(lx, s3);
    assert s3 == s[3..];
  }

  predicate HttpBefore(s: string) { EndsHttp(s) || EndsHttps(s) }

  /** A match of `https?://\S+` whose colon stands at `p`. */
  predicate UrlAt(lx: Lexicon, s: string, p: nat) {
    p <= |s| && SlashesAt(lx, s[p..]) && HttpBefore(s[..p])
  }

  ghost predicate HasUrl(lx: Lexicon, s: string) { exists p: nat :: UrlAt(lx, s, p) }

  lemma WordEndsInHttp(lx: Lexicon, w: string)
    requires Valid(lx) && HttpBefore(RewriteWord(lx, w))
    ensures HttpBefore(w)
  {
  }

  /** A URL's "http" is letters throughout, so it cannot straddle the end of a piece. */
  lemma HttpStaysInOnePart(lx: Lexicon, a: string, b: string, p: nat)
    requires Valid(lx) && |a| < p <= |a + b| && HttpBefore((a + b)[..p])
    requires a != "" && b != "" && !(lx.word(a[|a| - 1]) && lx.word(b[0]))
    ensures HttpBefore(b[..p - |a|])
  {
    var t := (a + b)[..p];
    assert t[|a| - 1] == a[|a| - 1] && t[|a|] == b[0];
    assert forall i :: |a| <= i < p ==> t[i] == b[..p - |a|][i - |a|];
  }

  /** The URL's colon opens the rest: the piece before it ended in "http" already. */
  lemma UrlAtCut(lx: Lexicon, s: string, k: nat)
    requires Valid(lx) && s != "" && k == if WordLen(lx, s) == 0 then 1 else WordLen(lx, s)
    requires UrlAt(lx, Rewrite(lx, s), |RewriteWord(lx, s[..k])|)
    ensures UrlAt(lx, s, k)
  {
    var a, b := RewriteWord(lx, s[..k]), Rewrite(lx, s[k..]);
    FirstPieceRewritten(lx, s, k);
    assert (a + b)[..|a|] == a && (a + b)[|a|..] == b;
    WordEndsInHttp(lx, s[..k]);
    SlashesComeFromInput(lx, s[k..]);
  }

  lemma UrlPastCut(lx: Lexicon, s: string, k: nat, p: nat)
    requires Valid(lx) && s != "" && k == if WordLen(lx, s) == 0 then 1 else WordLen(lx, s)
    requires UrlAt(lx, Rewrite(lx, s), p) && p > |RewriteWord(lx, s[..k])|
    ensures UrlAt(lx, Rewrite(lx, s[k..]), p - |RewriteWord(lx, s[..k])|)
  {
    FirstPieceRewritten(lx, s, k);
    UrlInSecondPart(lx, RewriteWord(lx, s[..k]), Rewrite(lx, s[k..]), p);
  }

  lemma UrlInSecondPart(lx: Lexicon, a: string, b: string, p: nat)
    requires Valid(lx) && a != "" && b != "" && !(lx.word(a[|a| - 1]) && lx.word(b[0]))
    requires p > |a| && UrlAt(lx, a + b, p)
    ensures UrlAt(lx, b, p - |a|)
  {
    HttpStaysInOnePart(lx, a, b, p);
    assert (a + b)[p..] == b[p - |a|..];
  }

  /**
   A URL's colon never lies inside a piece: the only piece with a colon is the colon alone, and
   "http" is before it.
   */
  lemma ColonEndsPiece(lx: Lexicon, s: string, k: nat, p: nat)
    requires Valid(lx) && s != "" && k == if WordLen(lx, s) == 0 then 1 else WordLen(lx, s)
    requires UrlAt(lx, Rewrite(lx, s), p)
    ensures p >= |RewriteWord(lx, s[..k])|
  {
    FirstPieceRewritten(lx, s, k);
    var t := Rewrite(lx, s);
    assert t[p..][0] == t[p] == ':' && p >= 4;
    if p < |RewriteWord(lx, s[..k])| { assert false; }
  }

  lemma UrlInSuffix(lx: Lexicon, s: string, k: nat)
    requires k <= |s| && HasUrl(lx, s[k..])
    ensures HasUrl(lx, s)
  {
    var j: nat :| UrlAt(lx, s[k..], j);
    assert s[k + j..] == s[k..][j..];
    assert forall i :: 0 <= i < j ==> s[..k + j][k + i] == s[k..][..j][i];
    assert UrlAt(lx, s, k + j);
  }

  lemma UrlSplit(lx: Lexicon, s: string, k: nat)
    requires Valid(lx) && s != "" && k == if WordLen(lx, s) == 0 then 1 else WordLen(lx, s)
    requires HasUrl(lx, Rewrite(lx, s))
    ensures HasUrl(lx, s) || HasUrl(lx, Rewrite(lx, s[k..]))
  {
    var p: nat :| UrlAt(lx, Rewrite(lx, s), p);
    ColonEndsPiece(lx, s, k, p);
    if p == |RewriteWord(lx, s[..k])| { UrlAtCut(lx, s, k); } else { UrlPastCut(lx, s, k, p); }
  }

  /** The output has a URL only when the input had one. */
  lemma {:induction false} UrlComesFromInput(lx: Lexicon, s: string)
    requires Valid(lx) && HasUrl(lx, Rewrite(lx, s))
    ensures HasUrl(lx, s)
    decreases |s|
  {
    if s != "" {
      var k := FirstPiece(lx, s);
      UrlSplit(lx, s, k);
      if HasUrl(lx, Rewrite(lx, s[k..])) {
        UrlComesFromInput(lx, s[k..]);
        UrlInSuffix(lx, s, k);
      }
    }
  }

  /** How the first piece and the rest of the output meet. */
  lemma FirstPieceRewritten(lx: Lexicon, s: string, k: nat)
    requires Valid(lx) && s != "" && k == if WordLen(lx, s) == 0 then 1 else WordLen(lx, s)
    ensures var a, b := RewriteWord(lx, s[..k]), Rewrite(lx, s[k..]);
            && Rewrite(lx, s) == a + b && a != ""
            && (b != "" ==> !(lx.word(a[|a| - 1]) && lx.word(b[0])))
            && (HttpBefore(a) ==> AtBoundary(lx, s[k..]))
            && (forall i :: 0 <= i < |a| ==> a[i] != ':' || a == ":")
  {
    var n := WordLen(lx, s);
    if n == 0 {
      assert s[..1] == [s[0]] && !IdentShape(s[..1]);
    } else {
      RewriteKeepsBoundary(lx, s[n..]);
    }
  }

  lemma {:induction false} NoNewBacktick(lx: Lexicon, s: string)
    requires Valid(lx) && '`' !in s
    ensures '`' !in Rewrite(lx, s)
    decreases |s|
  {
    if s != "" {
      var k := FirstPiece(lx, s);
      NoNewBacktick(lx, s[k..]);
      FirstPieceRewritten(lx, s, k);
      assert '`' !in RewriteWord(lx, s[..k]);
    }
  }
}
