/**
 `buyer_readable` and `check_identifier_leak` of prospector/copy_lint.py, as they go through a text.
 */
module CopyLintCode {
  import opened CopyLint
  import opened CopyLintGate
  import opened CopyLintAgreement

  /** The early exit is safe: without an underscore there is nothing to rewrite. */
  lemma {:induction false} NoUnderscoreIsKept(lx: Lexicon, s: string)
    requires '_' !in s
    ensures Readable(lx, s) == s
    decreases |s|
  {
    var q := NextSpan(lx, s);
    if q == |s| {
      ReadableLast(lx, s);
      NoUnderscoreNoLeak(lx, s);
      CleanTextIsKept(lx, s);
    } else {
      var n := SkipLen(lx, s[q..]);
      SpanAtNext(lx, s);
      ReadableStep(lx, s, q, n);
      NoUnderscoreNoLeak(lx, s[..q]);
      CleanTextIsKept(lx, s[..q]);
      NoUnderscoreIsKept(lx, s[q + n..]);
      ThreeParts(s, q, n);
    }
  }

  lemma {:induction false} JoinSnoc(ps: seq<string>, p: string)
    ensures Join(ps + [p]) == Join(ps) + p
    decreases |ps|
  {
    if ps == [] {
      assert ps + [p] == [p];
    } else {
      assert (ps + [p])[1..] == ps[1..] + [p];
      JoinSnoc(ps[1..], p);
    }
  }

  lemma Regroup(j: string, a: string, b: string, c: string)
    ensures j + a + b + c == j + (a + b + c)
  {
  }

  /** One span further: what has been put out and what is left still make the whole. */
  lemma OneSpanOn(lx: Lexicon, out: seq<string>, s: string, q: nat, n: nat, rest: seq<(nat, nat)>)
    requires q + n <= |s| && Fits(s[q + n..], rest)
    ensures Fits(s, [(q, n)] + rest)
    ensures Join(out + [Rewrite(lx, s[..q])] + [s[q..q + n]]) + Splice(lx, s[q + n..], rest)
            == Join(out) + Splice(lx, s, [(q, n)] + rest)
  {
    var a, b := Rewrite(lx, s[..q]), s[q..q + n];
    SpliceStep(lx, s, q, n, rest);
    JoinSnoc(out, a);
    JoinSnoc(out + [a], b);
    Regroup(Join(out), a, b, Splice(lx, s[q + n..], rest));
  }

  /**
   Goes through the spans, keeping each and rewriting the stretch before it; `rest` is the text after
   the last span.
   */
  method Walk(lx: Lexicon, text: string, spans: seq<(nat, nat)>) returns (out: seq<string>)
    requires Fits(text, spans)
    ensures Join(out) == Splice(lx, text, spans)
  {
    out := [];
    var rest := text;
    assert spans[0..] == spans;
    for k := 0 to |spans|
      invariant Fits(rest, spans[k..])
      invariant Join(out) + Splice(lx, rest, spans[k..]) == Splice(lx, text, spans)
    {
      var (q, n) := spans[k];
      assert spans[k..] == [(q, n)] + spans[k + 1..] && spans[k..][1..] == spans[k + 1..];
      OneSpanOn(lx, out, rest, q, n, spans[k + 1..]);
      out := out + [Rewrite(lx, rest[..q])] + [rest[q..q + n]];
      rest := rest[q + n..];
    }
    JoinSnoc(out, Rewrite(lx, rest));
    out := out + [Rewrite(lx, rest)];
  }

  /** The rewriter, with its early exit. */
  method BuyerReadable(lx: Lexicon, text: string) returns (r: string)
    requires Valid(lx)
    ensures r == Readable(lx, text)
    ensures Legible(lx, text) ==> GateFinds(lx, r) == []
  {
    if '_' !in text {
      NoUnderscoreIsKept(lx, text);
      r := text;
    } else {
      var out := Walk(lx, text, Spans(lx, text));
      r := Join(out);
    }
    if Legible(lx, text) { RewriterSatisfiesGate(lx, text); }
  }

  function Lowered(s: string): string {
    seq(|s|, i requires 0 <= i < |s| => if 'A' <= s[i] <= 'Z' then s[i] - 'A' + 'a' else s[i])
  }

  predicate EndsWith(s: string, suffix: string) { |suffix| <= |s| && s[|s| - |suffix|..] == suffix }

  const DATA_SUFFIXES := [".json", ".csv", ".tsv", ".svg", ".yaml", ".yml", ".xml"]

  /** Writing, by its name and its first character that is no space; data files are no prose. */
  predicate IsProse(lx: Lexicon, name: string, text: string) {
    && (forall i :: 0 <= i < |DATA_SUFFIXES| ==> !EndsWith(Lowered(name), DATA_SUFFIXES[i]))
    && (var n := SpaceRun(lx, text); n < |text| ==> text[n] !in "{[<")
  }

  function SpaceRun(lx: Lexicon, s: string): (n: nat)
    ensures n <= |s|
  {
    if s == "" || !lx.space(s[0]) then 0 else 1 + SpaceRun(lx, s[1..])
  }

  datatype Problem = Problem(name: string, counts: map<string, nat>)

  predicate Refused(lx: Lexicon, name: string, text: string) {
    text != "" && IsProse(lx, name, text) && GateFinds(lx, text) != []
  }

  /** The counts of one problem are exactly how often each identifier was found. */
  ghost predicate Counts(found: map<string, nat>, toks: seq<string>) {
    (forall t :: t in found <==> t in toks) && (forall t :: t in found ==> found[t] == multiset(toks)[t])
  }

  lemma CountOne(found: map<string, nat>, toks: seq<string>, t: string)
    requires Counts(found, toks)
    ensures Counts(found[t := (if t in found then found[t] else 0) + 1], toks + [t])
  {
  }

  /** The texts the gate refuses, in order. */
  function Refusals(lx: Lexicon, texts: seq<(string, string)>): seq<(string, string)> {
    if texts == [] then []
    else
      var last := texts[|texts| - 1];
      Refusals(lx, texts[..|texts| - 1]) + if Refused(lx, last.0, last.1) then [last] else []
  }

  predicate About(p: Problem, text: (string, string)) { p.name == text.0 }

  /** The gate over all texts: one problem for each text refused, in order, with the right counts. */
  method CheckIdentifierLeak(lx: Lexicon, texts: seq<(string, string)>) returns (problems: seq<Problem>)
    ensures |problems| == |Refusals(lx, texts)|
    ensures forall i :: 0 <= i < |problems| ==>
              About(problems[i], Refusals(lx, texts)[i]) &&
                  Counts(problems[i].counts, GateFinds(lx, Refusals(lx, texts)[i].1))
  {
    problems := [];
    for k := 0 to |texts|
      invariant |problems| == |Refusals(lx, texts[..k])|
      invariant forall i :: 0 <= i < |problems| ==>
                  About(problems[i], Refusals(lx, texts[..k])[i]) &&
                      Counts(problems[i].counts, GateFinds(lx, Refusals(lx, texts[..k])[i].1))
    {
      var (name, text) := texts[k];
      RefusalsSnoc(lx, texts, k);
      if text == "" || !IsProse(lx, name, text) { continue; }
      var found := CountLeaks(lx, text);
      if found != map[] { problems := problems + [Problem(name, found)]; }
    }
    assert texts[..|texts|] == texts;
  }

  lemma RefusalsSnoc(lx: Lexicon, texts: seq<(string, string)>, k: nat)
    requires k < |texts|
    ensures Refusals(lx, texts[..k + 1]) == Refusals(lx, texts[..k]) +
              (if Refused(lx, texts[k].0, texts[k].1) then [texts[k]] else [])
  {
    assert texts[..k + 1][..k] == texts[..k];
  }

  /** The dictionary of one text: filled match by match. */
  method CountLeaks(lx: Lexicon, text: string) returns (found: map<string, nat>)
    ensures Counts(found, GateFinds(lx, text)) && (found == map[] <==> GateFinds(lx, text) == [])
  {
    found := map[];
    var toks := GateFinds(lx, text);
    for j := 0 to |toks|
      invariant Counts(found, toks[..j])
    {
      assert toks[..j + 1] == toks[..j] + [toks[j]];
      CountOne(found, toks[..j], toks[j]);
      found := found[toks[j] := (if toks[j] in found then found[toks[j]] else 0) + 1];
    }
    assert toks[..|toks|] == toks;
    if toks != [] { assert toks[0] in found; }
  }
}
