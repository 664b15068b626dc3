/**
 The rewriter and the gate of prospector/copy_lint.py on whole texts: code spans and URLs are
 skipped by the one and cut by the other.
 */
module CopyLintGate {
  import opened CopyLint

  // ---- the three patterns, matched at the front of a text -----------------------------------

  datatype Pattern = Fence | Inline | Url

  predicate Ticks(s: string) { |s| >= 3 && s[0] == '`' && s[1] == '`' && s[2] == '`' }

  /** Where the next three backticks are. */
  function FirstTicks(s: string): (n: nat)
    ensures n <= |s|
    ensures n < |s| ==> Ticks(s[n..])
  {
    if s == "" || Ticks(s) then 0 else 1 + FirstTicks(s[1..])
  }

  /** How many characters come before a backtick or a line end. */
  function CodeRun(s: string): (n: nat)
    ensures n <= |s|
  {
    if s == "" || s[0] == '`' || s[0] == '\n' then 0 else 1 + CodeRun(s[1..])
  }

  /** How many characters come before a space. */
  function InkRun(lx: Lexicon, s: string): (n: nat)
    ensures n <= |s|
    ensures forall i :: 0 <= i < n ==> !lx.space(s[i])
    ensures n < |s| ==> lx.space(s[n])
  {
    if s == "" || lx.space(s[0]) then 0 else 1 + InkRun(lx, s[1..])
  }

  /** `http://` or `https://` and a character that is no space, starting at `i` with its colon at `p`. */
  predicate UrlFrom(lx: Lexicon, s: string, i: nat, p: nat) {
    && p + 3 < |s| && (i + 4 == p || (i + 5 == p && s[i + 4] == 's'))
    && s[i] == 'h' && s[i + 1] == 't' && s[i + 2] == 't' && s[i + 3] == 'p'
    && s[p] == ':' && s[p + 1] == '/' && s[p + 2] == '/' && !lx.space(s[p + 3])
  }

  predicate StartsUrl(lx: Lexicon, s: string) { UrlFrom(lx, s, 0, 4) || UrlFrom(lx, s, 0, 5) }

  /** The length of the pattern's match at the front of `s`, 0 when there is none. */
  function MatchLen(lx: Lexicon, pat: Pattern, s: string): (n: nat)
    ensures n <= |s|
  {
    match pat
    case Fence =>
      if !Ticks(s) then 0 else
      var e := FirstTicks(s[3..]);
      if e == |s| - 3 then 0 else e + 6
    case Inline =>
      if s == "" || s[0] != '`' then 0 else
      var n := CodeRun(s[1..]);
      if n >= 1 && n + 1 < |s| && s[n + 1] == '`' then n + 2 else 0
    case Url => if StartsUrl(lx, s) then InkRun(lx, s) else 0
  }

  // ---- the gate's side: `_strip_code` -------------------------------------------------------

  /** Every match of one pattern replaced by a space. */
  function Cut(lx: Lexicon, pat: Pattern, s: string): string
    decreases |s|
  {
    if s == "" then ""
    else
      var n := MatchLen(lx, pat, s);
      if n > 0 then " " + Cut(lx, pat, s[n..]) else [s[0]] + Cut(lx, pat, s[1..])
  }

  function StripCode(lx: Lexicon, s: string): string { Cut(lx, Url, Cut(lx, Inline, Cut(lx, Fence, s))) }

  /** What the gate finds in a text. */
  function GateFinds(lx: Lexicon, s: string): seq<string> { Leaks(lx, StripCode(lx, s)) }

  // ---- the rewriter's side: `_SKIP_SPAN_RE` -------------------------------------------------

  /** The three patterns as alternatives of one, tried in order. */
  function SkipLen(lx: Lexicon, s: string): (n: nat)
    ensures n <= |s|
  {
    if MatchLen(lx, Fence, s) > 0 then MatchLen(lx, Fence, s)
    else if MatchLen(lx, Inline, s) > 0 then MatchLen(lx, Inline, s)
    else MatchLen(lx, Url, s)
  }

  /** Where the next span to skip starts; the end of the text when there is none. */
  function NextSpan(lx: Lexicon, s: string): (q: nat)
    ensures q <= |s|
  {
    if s == "" || SkipLen(lx, s) > 0 then 0 else 1 + NextSpan(lx, s[1..])
  }

  lemma {:induction false} NothingBeforeSpan(lx: Lexicon, s: string, i: nat)
    requires i < NextSpan(lx, s)
    ensures SkipLen(lx, s[i..]) == 0
    decreases i
  {
    if i == 0 {
      assert s[0..] == s;
    } else {
      NothingBeforeSpan(lx, s[1..], i - 1);
      assert s[1..][i - 1..] == s[i..];
    }
  }

  lemma {:induction false} SpanAtNext(lx: Lexicon, s: string)
    requires NextSpan(lx, s) < |s|
    ensures SkipLen(lx, s[NextSpan(lx, s)..]) > 0
  {
    if SkipLen(lx, s) > 0 {
      assert s[0..] == s;
    } else {
      SpanAtNext(lx, s[1..]);
      assert s[1..][NextSpan(lx, s[1..])..] == s[NextSpan(lx, s)..];
    }
  }

  /** Each span lies in what the spans before it have left over: how far in it starts, and how long it is. */
  predicate Fits(s: string, spans: seq<(nat, nat)>)
    decreases |spans|
  {
    spans == [] || (spans[0].0 + spans[0].1 <= |s| && Fits(s[spans[0].0 + spans[0].1..], spans[1..]))
  }

  /** The spans to skip, as `finditer` yields them. */
  function Spans(lx: Lexicon, s: string): (spans: seq<(nat, nat)>)
    ensures Fits(s, spans)
    decreases |s|
  {
    var q := NextSpan(lx, s);
    if q == |s| then []
    else
      SpanAtNext(lx, s);
      var n := SkipLen(lx, s[q..]);
      var rest := Spans(lx, s[q + n..]);
      assert ([(q, n)] + rest)[1..] == rest;
      [(q, n)] + rest
  }

  /** Spans kept, everything between them rewritten. */
  function Splice(lx: Lexicon, s: string, spans: seq<(nat, nat)>): string
    requires Fits(s, spans)
    decreases |spans|
  {
    if spans == [] then Rewrite(lx, s)
    else
      var (q, n) := spans[0];
      Rewrite(lx, s[..q]) + s[q..q + n] + Splice(lx, s[q + n..], spans[1..])
  }

  /** The rewriting of a whole text. */
  function Readable(lx: Lexicon, s: string): string { Splice(lx, s, Spans(lx, s)) }

  // ---- URLs -------------------------------------------------------------------------------------

  lemma UrlLonger(lx: Lexicon, s: string)
    requires Valid(lx) && StartsUrl(lx, s)
    ensures MatchLen(lx, Url, s) == InkRun(lx, s) > 7
  {
    assert lx.word('h') && lx.word('t') && lx.word('p') && lx.word('s');
  }

  predicate Parted(lx: Lexicon, s: string) { s == "" || lx.space(s[0]) }

  lemma {:induction false} InkRunAppend(lx: Lexicon, x: string, y: string)
    requires Parted(lx, y)
    ensures InkRun(lx, x + y) == InkRun(lx, x)
    decreases |x|
  {
    if x == "" {
      assert x + y == y;
    } else {
      assert (x + y)[1..] == x[1..] + y;
      InkRunAppend(lx, x[1..], y);
    }
  }

  lemma {:induction false} InkOnly(lx: Lexicon, s: string)
    requires forall i :: 0 <= i < |s| ==> !lx.space(s[i])
    ensures InkRun(lx, s) == |s|
  {
    if s != "" { InkOnly(lx, s[1..]); }
  }

  /** A URL is still the same URL when something else follows the space after it. */
  lemma UrlStays(lx: Lexicon, s: string, m: string)
    requires Valid(lx) && StartsUrl(lx, s) && Parted(lx, m)
    ensures var u := s[..MatchLen(lx, Url, s)];
            StartsUrl(lx, u + m) && MatchLen(lx, Url, u + m) == |u| > 7 && Parted(lx, s[|u|..])
  {
    UrlLonger(lx, s);
    var u := s[..InkRun(lx, s)];
    InkOnly(lx, u);
    InkRunAppend(lx, u, m);
    assert StartsUrl(lx, u + m);
  }

  lemma CutStep(lx: Lexicon, pat: Pattern, s: string)
    requires s != "" && MatchLen(lx, pat, s) == 0
    ensures Cut(lx, pat, s) == [s[0]] + Cut(lx, pat, s[1..])
  {
  }

  lemma CutMatch(lx: Lexicon, pat: Pattern, s: string, n: nat)
    requires s != "" && n == MatchLen(lx, pat, s) > 0
    ensures Cut(lx, pat, s) == " " + Cut(lx, pat, s[n..])
  {
  }

  predicate NoMatchWithin(lx: Lexicon, pat: Pattern, s: string, n: nat) {
    n <= |s| && forall i :: 0 <= i < n ==> MatchLen(lx, pat, s[i..]) == 0
  }

  lemma NoMatchFurther(lx: Lexicon, pat: Pattern, s: string, n: nat)
    requires n > 0 && NoMatchWithin(lx, pat, s, n)
    ensures MatchLen(lx, pat, s) == 0 && NoMatchWithin(lx, pat, s[1..], n - 1)
  {
    assert s[0..] == s;
    forall i | 0 <= i < n - 1 ensures MatchLen(lx, pat, s[1..][i..]) == 0 { assert s[1..][i..] == s[i + 1..]; }
  }

  /** No match starts in the first part, so cutting goes through it. */
  lemma {:induction false} CutThrough(lx: Lexicon, pat: Pattern, x: string, y: string)
    requires NoMatchWithin(lx, pat, x + y, |x|)
    ensures Cut(lx, pat, x + y) == x + Cut(lx, pat, y)
    decreases |x|
  {
    if x == "" {
      assert x + y == y;
    } else {
      NoMatchFurther(lx, pat, x + y, |x|);
      CutStep(lx, pat, x + y);
      assert (x + y)[1..] == x[1..] + y && [x[0]] + x[1..] == x;
      CutThrough(lx, pat, x[1..], y);
      Assoc([x[0]], x[1..], Cut(lx, pat, y));
    }
  }

  lemma StartIsUrl(lx: Lexicon, s: string, i: nat)
    requires i <= |s| && StartsUrl(lx, s[i..])
    ensures UrlFrom(lx, s, i, i + 4) || UrlFrom(lx, s, i, i + 5)
  {
  }

  lemma UrlIsStart(lx: Lexicon, s: string, i: nat, p: nat)
    requires UrlFrom(lx, s, i, p)
    ensures StartsUrl(lx, s[i..])
  {
    assert UrlFrom(lx, s[i..], 0, p - i);
  }

  /** The two ways of saying that a text has a URL. */
  lemma UrlFromAt(lx: Lexicon, s: string, i: nat, p: nat)
    requires UrlFrom(lx, s, i, p)
    ensures HasUrl(lx, s)
  {
    assert s[p..][0] == s[p] && s[p..][1] == s[p + 1] && s[p..][2] == s[p + 2] && s[p..][3] == s[p + 3];
    assert UrlAt(lx, s, p);
  }

  lemma UrlAtFrom(lx: Lexicon, s: string) returns (i: nat, p: nat)
    requires HasUrl(lx, s)
    ensures UrlFrom(lx, s, i, p)
  {
    p :| UrlAt(lx, s, p);
    assert s[p..][0] == s[p] && s[p..][1] == s[p + 1] && s[p..][2] == s[p + 2] && s[p..][3] == s[p + 3];
    i := if EndsHttp(s[..p]) then p - 4 else p - 5;
  }

  /** A stretch that no URL starts in has none, one more character included. */
  lemma BeforeFirstUrl(lx: Lexicon, s: string, q: nat)
    requires q <= |s| && forall i :: 0 <= i < q ==> !StartsUrl(lx, s[i..])
    ensures !HasUrl(lx, s[..q]) && (q < |s| ==> !HasUrl(lx, s[..q + 1]))
  {
    if HasUrl(lx, s[..q]) {
      var i, p := UrlAtFrom(lx, s[..q]);
      UrlIsStart(lx, s, i, p);
    }
    if q < |s| && HasUrl(lx, s[..q + 1]) {
      var i, p := UrlAtFrom(lx, s[..q + 1]);
      UrlIsStart(lx, s, i, p);
    }
  }

  lemma {:induction false} WordLenInside(lx: Lexicon, x: string, y: string)
    requires WordLen(lx, x) < |x|
    ensures WordLen(lx, x + y) == WordLen(lx, x)
    decreases |x|
  {
    assert (x + y)[1..] == x[1..] + y;
    if lx.word(x[0]) { WordLenInside(lx, x[1..], y); }
  }

  lemma RewriteStep(lx: Lexicon, s: string, k: nat)
    requires Valid(lx) && s != "" && k == if WordLen(lx, s) == 0 then 1 else WordLen(lx, s)
    ensures Rewrite(lx, s) == RewriteWord(lx, s[..k]) + Rewrite(lx, s[k..])
  {
    FirstPieceRewritten(lx, s, k);
  }

  /** The first piece of a longer text is the same when it does not reach the end. */
  lemma RewriteFirst(lx: Lexicon, x: string, y: string, k: nat)
    requires Valid(lx) && x != "" && k == (if WordLen(lx, x) == 0 then 1 else WordLen(lx, x)) && k < |x|
    ensures Rewrite(lx, x + y) == RewriteWord(lx, x[..k]) + Rewrite(lx, x[k..] + y)
  {
    WordLenInside(lx, x, y);
    var t, head, tail := x + y, x[..k], x[k..] + y;
    assert t[..k] == head && t[k..] == tail;
    RewriteStep(lx, t, k);
  }

  lemma RewriteNotEmpty(lx: Lexicon, s: string)
    requires Valid(lx) && s != ""
    ensures Rewrite(lx, s) != ""
  {
    var k := FirstPiece(lx, s);
    FirstPieceRewritten(lx, s, k);
    assert RewriteWord(lx, s[..k]) != "";
  }

  lemma SlashInRest(lx: Lexicon, s: string, k: nat)
    requires Valid(lx) && s != "" && k == (if WordLen(lx, s) == 0 then 1 else WordLen(lx, s)) && k < |s|
    requires Rewrite(lx, s) != "" && Rewrite(lx, s)[|Rewrite(lx, s)| - 1] == '/'
    ensures Rewrite(lx, s[k..]) != "" && Rewrite(lx, s[k..])[|Rewrite(lx, s[k..])| - 1] == '/'
  {
    RewriteStep(lx, s, k);
    RewriteNotEmpty(lx, s[k..]);
    LastOfTwo(RewriteWord(lx, s[..k]), Rewrite(lx, s[k..]));
  }

  lemma LetterAfterPiece(lx: Lexicon, s: string, k: nat)
    requires Valid(lx) && s != "" && k == (if WordLen(lx, s) == 0 then 1 else WordLen(lx, s)) && k < |s|
    requires Rewrite(lx, s[k..] + "h") == Rewrite(lx, s[k..]) + "h"
    ensures Rewrite(lx, s + "h") == Rewrite(lx, s) + "h"
  {
    RewriteStep(lx, s, k);
    RewriteFirst(lx, s, "h", k);
    Assoc(RewriteWord(lx, s[..k]), Rewrite(lx, s[k..]), "h");
  }

  /**
   A text whose rewriting ends in a slash ends in that slash itself, and is rewritten alike with a
   letter after it.
   */
  lemma {:induction false} RewriteBeforeLetter(lx: Lexicon, s: string)
    requires Valid(lx) && Rewrite(lx, s) != "" && Rewrite(lx, s)[|Rewrite(lx, s)| - 1] == '/'
    ensures Rewrite(lx, s + "h") == Rewrite(lx, s) + "h"
    decreases |s|
  {
    var k := FirstPiece(lx, s);
    if k == |s| {
      SlashPiece(lx, s);
    } else {
      SlashInRest(lx, s, k);
      RewriteBeforeLetter(lx, s[k..]);
      LetterAfterPiece(lx, s, k);
    }
  }

  lemma LastOfTwo(a: string, b: string)
    requires b != ""
    ensures (a + b)[|a + b| - 1] == b[|b| - 1]
  {
  }

  lemma WordNeverEndsInSlash(lx: Lexicon, w: string)
    requires Valid(lx) && w != "" && WordLen(lx, w) == |w|
    ensures RewriteWord(lx, w) != "" && RewriteWord(lx, w)[|RewriteWord(lx, w)| - 1] != '/'
  {
    if Internal(lx, w) && w in lx.labels {
      assert PlainLabel(lx.labels[w]);
    } else {
      assert lx.word(w[|w| - 1]);
    }
  }

  lemma OneWord(lx: Lexicon, s: string)
    requires s != "" && WordLen(lx, s) == |s|
    ensures Rewrite(lx, s) == RewriteWord(lx, s)
  {
    assert s[..|s|] == s && Rewrite(lx, s[|s|..]) == "";
  }

  lemma SlashPiece(lx: Lexicon, s: string)
    requires Valid(lx) && s != "" && (WordLen(lx, s) == |s| || |s| == 1)
    requires Rewrite(lx, s) != "" && Rewrite(lx, s)[|Rewrite(lx, s)| - 1] == '/'
    ensures s == "/" && Rewrite(lx, s + "h") == Rewrite(lx, s) + "h"
  {
    if WordLen(lx, s) == |s| {
      OneWord(lx, s);
      WordNeverEndsInSlash(lx, s);
      assert false;
    } else {
      assert s[1..] == "" && Rewrite(lx, s) == [s[0]];
      SlashThenLetter(lx);
    }
  }

  lemma SlashThenLetter(lx: Lexicon)
    requires Valid(lx)
    ensures Rewrite(lx, "/h") == "/h" && Rewrite(lx, "/") == "/"
  {
    assert "/h"[1..] == "h" && "h"[1..] == "";
    assert WordLen(lx, "h") == 1 && "h"[..1] == "h" && !Internal(lx, "h");
    assert Rewrite(lx, "h") == "h";
    assert "/"[1..] == "";
  }

  // ---- the rewritten text keeps its URLs where they were -------------------------------------

  /** No URL starts in a rewritten stretch that is followed by a URL. */
  lemma NoUrlBeforeUrl(lx: Lexicon, pre: string, w: string, i: nat)
    requires Valid(lx) && !HasUrl(lx, pre) && !HasUrl(lx, pre + "h")
    requires |Rewrite(lx, pre)| <= |w| && w[..|Rewrite(lx, pre)|] == Rewrite(lx, pre) &&
               StartsUrl(lx, w[|Rewrite(lx, pre)|..])
    requires i < |Rewrite(lx, pre)|
    ensures !StartsUrl(lx, w[i..])
  {
    if StartsUrl(lx, w[i..]) {
      StartIsUrl(lx, w, i);
      var p := if UrlFrom(lx, w, i, i + 4) then i + 4 else i + 5;
      NoUrlAcross(lx, pre, w, i, p);
    }
  }

  lemma NoUrlInside(lx: Lexicon, pre: string, i: nat, p: nat)
    requires Valid(lx) && !HasUrl(lx, pre)
    ensures !UrlFrom(lx, Rewrite(lx, pre), i, p)
  {
    if UrlFrom(lx, Rewrite(lx, pre), i, p) {
      UrlFromAt(lx, Rewrite(lx, pre), i, p);
      UrlComesFromInput(lx, pre);
    }
  }

  lemma NoUrlToTheEdge(lx: Lexicon, pre: string, i: nat, p: nat)
    requires Valid(lx) && !HasUrl(lx, pre + "h") && p + 3 == |Rewrite(lx, pre)|
    ensures !UrlFrom(lx, Rewrite(lx, pre) + "h", i, p)
  {
    var r := Rewrite(lx, pre);
    if UrlFrom(lx, r + "h", i, p) {
      assert r[p + 2] == '/';
      RewriteBeforeLetter(lx, pre);
      NoUrlInside(lx, pre + "h", i, p);
    }
  }

  lemma NoUrlOverTheEdge(lx: Lexicon, w: string, n: nat, i: nat, p: nat)
    requires (UrlFrom(lx, w, n, n + 4) || UrlFrom(lx, w, n, n + 5)) && i < n < p + 3
    ensures !UrlFrom(lx, w, i, p)
  {
  }

  lemma NoUrlAcross(lx: Lexicon, pre: string, w: string, i: nat, p: nat)
    requires Valid(lx) && !HasUrl(lx, pre) && !HasUrl(lx, pre + "h")
    requires |Rewrite(lx, pre)| <= |w| && w[..|Rewrite(lx, pre)|] == Rewrite(lx, pre) &&
               StartsUrl(lx, w[|Rewrite(lx, pre)|..])
    requires i < |Rewrite(lx, pre)|
    ensures !UrlFrom(lx, w, i, p)
  {
    var n := |Rewrite(lx, pre)|;
    StartIsUrl(lx, w, n);
    if p + 3 < n {
      NoUrlInside(lx, pre, i, p);
      UrlInPrefix(lx, w, n, i, p);
    } else if p + 3 == n {
      NoUrlToTheEdge(lx, pre, i, p);
      assert w[..n + 1] == Rewrite(lx, pre) + "h";
      UrlInPrefix(lx, w, n + 1, i, p);
    } else {
      NoUrlOverTheEdge(lx, w, n, i, p);
    }
  }

  lemma UrlInPrefix(lx: Lexicon, w: string, n: nat, i: nat, p: nat)
    requires p + 3 < n <= |w|
    ensures UrlFrom(lx, w, i, p) == UrlFrom(lx, w[..n], i, p)
  {
  }

  // ---- the spans of a text, one at a time --------------------------------------------------------

  lemma SpansStep(lx: Lexicon, s: string, q: nat, n: nat)
    requires q == NextSpan(lx, s) < |s| && n == SkipLen(lx, s[q..])
    ensures Spans(lx, s) == [(q, n)] + Spans(lx, s[q + n..])
  {
  }

  lemma FitsFirst(s: string, q: nat, n: nat, rest: seq<(nat, nat)>)
    requires q + n <= |s| && Fits(s[q + n..], rest)
    ensures Fits(s, [(q, n)] + rest)
  {
    var spans := [(q, n)] + rest;
    assert spans[0] == (q, n) && spans[1..] == rest;
  }

  lemma SpliceFirst(lx: Lexicon, s: string, spans: seq<(nat, nat)>, q: nat, n: nat, rest: seq<(nat, nat)>)
    requires spans != [] && Fits(s, spans) && spans[0] == (q, n) && spans[1..] == rest
    requires q + n <= |s| && Fits(s[q + n..], rest)
    ensures Splice(lx, s, spans) == Rewrite(lx, s[..q]) + s[q..q + n] + Splice(lx, s[q + n..], rest)
  {
  }

  lemma SpliceStep(lx: Lexicon, s: string, q: nat, n: nat, rest: seq<(nat, nat)>)
    requires q + n <= |s| && Fits(s[q + n..], rest)
    ensures Fits(s, [(q, n)] + rest)
    ensures Splice(lx, s, [(q, n)] + rest) == Rewrite(lx, s[..q]) + s[q..q + n] + Splice(lx, s[q + n..], rest)
  {
    FitsFirst(s, q, n, rest);
    SpliceFirst(lx, s, [(q, n)] + rest, q, n, rest);
  }

  lemma ReadableStep(lx: Lexicon, s: string, q: nat, n: nat)
    requires q == NextSpan(lx, s) < |s| && n == SkipLen(lx, s[q..])
    ensures Readable(lx, s) == Rewrite(lx, s[..q]) + s[q..q + n] + Readable(lx, s[q + n..])
  {
    SpansStep(lx, s, q, n);
    SpliceStep(lx, s, q, n, Spans(lx, s[q + n..]));
  }

  lemma ReadableLast(lx: Lexicon, s: string)
    requires NextSpan(lx, s) == |s|
    ensures Spans(lx, s) == [] && Readable(lx, s) == Rewrite(lx, s)
  {
  }

  lemma ThreeParts(s: string, q: nat, n: nat)
    requires q + n <= |s|
    ensures s[..q] + s[q..q + n] + s[q + n..] == s
  {
  }

  lemma Assoc(a: string, b: string, c: string)
    ensures (a + b) + c == a + (b + c)
  {
  }

  /** A space between two texts keeps their identifiers apart. */
  lemma LeaksAroundSpace(lx: Lexicon, x: string, y: string)
    requires Valid(lx)
    ensures Leaks(lx, x + (" " + y)) == Leaks(lx, x) + Leaks(lx, y)
  {
    LeaksAppend(lx, x, " " + y);
    assert (" " + y)[1..] == y && !lx.word((" " + y)[0]);
  }
}
