/**
 Near-duplicate removal within each market, from prospector/dedup.py. The character ratio,
 lower-casing and stripping are arbitrary functions; the word overlap is computed.
 */
module Dedup {
  import opened Common

  /** The thresholds, and what the code takes from the standard library. `ratio` is not assumed symmetric. */
  datatype Tuning = Tuning(lower: string -> string, strip: string -> string, ratio: (string, string) -> real,
      stop: set<string>,
                           threshold: real, tokenThreshold: Option<real>, defaultMarket: string)

  datatype Candidate = Candidate(market: string, title: string, oneLiner: string)

  /** A catalogue entry: bare text, or text with its market. */
  datatype Entry = Bare(text: string) | Pair(market: string, text: string)

  datatype Fingerprint = Fingerprint(market: string, text: string)

  // ---- the two signals ---------------------------------------------------------------------

  predicate Letter(c: char) { 'a' <= c <= 'z' }

  function LetterRun(s: string): (n: nat)
    ensures n <= |s|
  {
    if s == "" || !Letter(s[0]) then 0 else 1 + LetterRun(s[1..])
  }

  /** The words of a lower-cased text that carry meaning. */
  function ContentTokens(stop: set<string>, s: string): set<string>
    decreases |s|
  {
    if s == "" then {}
    else
      var n := LetterRun(s);
      if n == 0 then ContentTokens(stop, s[1..])
      else ContentTokens(stop, s[n..]) + if s[..n] !in stop && n > 2 then {s[..n]} else {}
  }

  /** A whole word of `s`: a run of letters that no letter touches. */
  ghost predicate WordAt(s: string, i: nat, w: string) {
    && i + |w| <= |s| && s[i..i + |w|] == w && w != ""
    && (forall k :: 0 <= k < |w| ==> Letter(w[k]))
    && (i > 0 ==> !Letter(s[i - 1])) && (i + |w| < |s| ==> !Letter(s[i + |w|]))
  }

  lemma {:induction false} RunOfLetters(s: string)
    ensures forall k :: 0 <= k < LetterRun(s) ==> Letter(s[k])
    ensures LetterRun(s) < |s| ==> !Letter(s[LetterRun(s)])
  {
    if s != "" && Letter(s[0]) {
      RunOfLetters(s[1..]);
      assert forall k :: 0 < k < |s| ==> s[k] == s[1..][k - 1];
    }
  }

  lemma WordLater(s: string, n: nat, i: nat, w: string)
    requires n <= |s| && (n == 0 || i > 0 || !Letter(s[n - 1])) && WordAt(s[n..], i, w)
    ensures WordAt(s, n + i, w)
  {
    assert s[n + i..n + i + |w|] == s[n..][i..i + |w|];
  }

  lemma WordBehind(s: string, n: nat, i: nat, w: string)
    requires n <= i && WordAt(s, i, w)
    ensures WordAt(s[n..], i - n, w)
  {
    assert s[n..][i - n..i - n + |w|] == s[i..i + |w|];
  }

  /** The tokens are exactly the whole words longer than two letters that are no stopwords. */
  lemma {:induction false} TokensAreTheWords(stop: set<string>, s: string, w: string)
    ensures w in ContentTokens(stop, s) <==> |w| > 2 && w !in stop && exists i :: WordAt(s, i, w)
    decreases |s|
  {
    if s != "" {
      var n := LetterRun(s);
      RunOfLetters(s);
      if n == 0 {
        TokensAreTheWords(stop, s[1..], w);
        if i :| WordAt(s[1..], i, w) { WordLater(s, 1, i, w); }
        if i :| WordAt(s, i, w) { WordBehind(s, 1, i, w); }
      } else {
        TokensAreTheWords(stop, s[n..], w);
        if i :| WordAt(s[n..], i, w) { FirstWordEnds(s, n, i, w); }
        if i :| WordAt(s, i, w) { FirstWordOrLater(s, n, i, w); }
        assert WordAt(s, 0, s[..n]) by { assert s[0..n] == s[..n]; }
      }
    }
  }

  lemma FirstWordEnds(s: string, n: nat, i: nat, w: string)
    requires 0 < n == LetterRun(s) && WordAt(s[n..], i, w)
    ensures WordAt(s, n + i, w)
  {
    RunOfLetters(s);
    assert n < |s| ==> s[n..][0] == s[n];
    WordLater(s, n, i, w);
  }

  lemma FirstWordOrLater(s: string, n: nat, i: nat, w: string)
    requires 0 < n == LetterRun(s) && WordAt(s, i, w)
    ensures (i == 0 && w == s[..n]) || (n < i && WordAt(s[n..], i - n, w))
  {
    RunOfLetters(s);
    assert s[i] == w[0];
    if i == 0 {
      assert forall k :: 0 <= k < |w| ==> s[k] == w[k];
    } else {
      WordBehind(s, if n <= i then n else 0, i, w);
    }
  }

  /** Shared words against all words. */
  function Jaccard(a: set<string>, b: set<string>): (r: real)
    ensures 0.0 <= r <= 1.0
  {
    if a + b == {} then 0.0
    else
      SizeOfPart(a * b, a + b);
      FractionOfWhole(|a * b|, |a + b|);
      |a * b| as real / |a + b| as real
  }

  lemma SizeOfPart(a: set<string>, b: set<string>)
    requires a <= b
    ensures |a| <= |b|
  {
    assert b == a + (b - a);
  }

  lemma FractionOfWhole(n: nat, m: nat)
    requires n <= m && m > 0
    ensures 0.0 <= n as real / m as real <= 1.0
  {
  }

  predicate IsNearDuplicate(cfg: Tuning, a: string, b: string) {
    || cfg.ratio(cfg.lower(a), cfg.lower(b)) >= cfg.threshold
    || (cfg.tokenThreshold.Some?
        && Jaccard(ContentTokens(cfg.stop, cfg.lower(a)),
            ContentTokens(cfg.stop, cfg.lower(b))) >= cfg.tokenThreshold.value)
  }

  // ---- markets -----------------------------------------------------------------------------

  function Market(cfg: Tuning, market: string): string {
    cfg.lower(if market != "" then market else cfg.lower(cfg.defaultMarket))
  }

  function EntryMarket(cfg: Tuning, e: Entry): string { if e.Pair? then Market(cfg, e.market) else Market(cfg, "") }

  function Normalised(cfg: Tuning, e: Entry): Fingerprint { Fingerprint(EntryMarket(cfg, e), cfg.lower(e.text)) }

  function NormaliseCatalogue(cfg: Tuning, es: seq<Entry>): seq<Fingerprint> {
    if es == [] then [] else NormaliseCatalogue(cfg, es[..|es| - 1]) + [Normalised(cfg, es[|es| - 1])]
  }

  /** A candidate's comparison text, under its market. */
  function Print(cfg: Tuning, c: Candidate): Fingerprint {
    Fingerprint(Market(cfg, c.market), cfg.strip(c.title + " " + c.oneLiner))
  }

  function Prints(cfg: Tuning, cs: seq<Candidate>): seq<Fingerprint> {
    if cs == [] then [] else Prints(cfg, cs[..|cs| - 1]) + [Print(cfg, cs[|cs| - 1])]
  }

  // ---- the specification -------------------------------------------------------------------

  predicate Matches(cfg: Tuning, c: Fingerprint, f: Fingerprint) {
    f.market == c.market && IsNearDuplicate(cfg, c.text, f.text)
  }

  /** The first entry that matches, searching from the front. */
  function FirstMatch(cfg: Tuning, c: Fingerprint, fs: seq<Fingerprint>): Option<string> {
    if fs == [] then None else if Matches(cfg, c, fs[0]) then Some(fs[0].text) else FirstMatch(cfg, c, fs[1..])
  }

  lemma {:induction false} FirstMatchMeaning(cfg: Tuning, c: Fingerprint, fs: seq<Fingerprint>)
    ensures var m := FirstMatch(cfg, c, fs);
            && (m.None? <==> forall i :: 0 <= i < |fs| ==> !Matches(cfg, c, fs[i]))
            && (m.Some? ==> exists i :: 0 <= i < |fs| && Matches(cfg, c, fs[i]) && fs[i].text == m.value)
    decreases |fs|
  {
    if fs != [] && !Matches(cfg, c, fs[0]) {
      FirstMatchMeaning(cfg, c, fs[1..]);
      assert forall i :: 0 < i < |fs| ==> fs[i] == fs[1..][i - 1];
      var m := FirstMatch(cfg, c, fs[1..]);
      if m.Some? {
        var i :| 0 <= i < |fs[1..]| && Matches(cfg, c, fs[1..][i]) && fs[1..][i].text == m.value;
        assert fs[i + 1] == fs[1..][i];
      }
    }
  }

  /** The catalogue first, then what has been kept so far. */
  function MatchOf(cfg: Tuning, cat: seq<Fingerprint>, kept: seq<Candidate>, c: Candidate): Option<string> {
    var m := FirstMatch(cfg, Print(cfg, c), cat);
    if m.Some? then m else FirstMatch(cfg, Print(cfg, c), Prints(cfg, kept))
  }

  datatype Outcome = Outcome(unique: seq<Candidate>, dropped: seq<(Candidate, string)>)

  function Step(cfg: Tuning, cat: seq<Fingerprint>, o: Outcome, c: Candidate): Outcome {
    var m := MatchOf(cfg, cat, o.unique, c);
    if m.Some? then o.(dropped := o.dropped + [(c, m.value)]) else o.(unique := o.unique + [c])
  }

  function Run(cfg: Tuning, cat: seq<Fingerprint>, cs: seq<Candidate>): Outcome {
    if cs == [] then Outcome([], []) else Step(cfg, cat, Run(cfg, cat, cs[..|cs| - 1]), cs[|cs| - 1])
  }

  // ---- what the outcome is -----------------------------------------------------------------

  lemma {:induction false} PrintsAt(cfg: Tuning, cs: seq<Candidate>)
    ensures |Prints(cfg, cs)| == |cs| && forall i :: 0 <= i < |cs| ==> Prints(cfg, cs)[i] == Print(cfg, cs[i])
  {
    if cs != [] { PrintsAt(cfg, cs[..|cs| - 1]); }
  }

  lemma PrintsSnoc(cfg: Tuning, cs: seq<Candidate>, c: Candidate)
    ensures Prints(cfg, cs + [c]) == Prints(cfg, cs) + [Print(cfg, c)]
  {
    assert (cs + [c])[..|cs|] == cs;
  }

  predicate Clashes(cfg: Tuning, a: Candidate, b: Candidate) { Matches(cfg, Print(cfg, a), Print(cfg, b)) }

  /** Nothing kept matches its market's catalogue or anything kept before it. */
  ghost predicate Clean(cfg: Tuning, cat: seq<Fingerprint>, kept: seq<Candidate>) {
    && (forall i, j :: 0 <= i < |kept| && 0 <= j < |cat| ==> !Matches(cfg, Print(cfg, kept[i]), cat[j]))
    && (forall i, j :: 0 <= j < i < |kept| ==> !Clashes(cfg, kept[i], kept[j]))
  }

  /**
   The text dropped for is a real one: of the catalogue or of something kept, in the same market, and
   a near duplicate.
   */
  ghost predicate Justified(cfg: Tuning, cat: seq<Fingerprint>, kept: seq<Candidate>, d: (Candidate, string)) {
    || (exists j :: 0 <= j < |cat| && Matches(cfg, Print(cfg, d.0), cat[j]) && cat[j].text == d.1)
    || (exists j :: 0 <= j < |kept| && Clashes(cfg, d.0, kept[j]) && Print(cfg, kept[j]).text == d.1)
  }

  lemma MatchMeaning(cfg: Tuning, cat: seq<Fingerprint>, kept: seq<Candidate>, c: Candidate)
    ensures var m := MatchOf(cfg, cat, kept, c);
            && (m.None? <==> (forall j :: 0 <= j < |cat| ==> !Matches(cfg, Print(cfg, c), cat[j]))
                             && forall j :: 0 <= j < |kept| ==> !Clashes(cfg, c, kept[j]))
            && (m.Some? ==> Justified(cfg, cat, kept, (c, m.value)))
  {
    PrintsAt(cfg, kept);
    FirstMatchMeaning(cfg, Print(cfg, c), cat);
    FirstMatchMeaning(cfg, Print(cfg, c), Prints(cfg, kept));
    var m := FirstMatch(cfg, Print(cfg, c), Prints(cfg, kept));
    if FirstMatch(cfg, Print(cfg, c), cat).None? && m.Some? {
      var i :| 0 <= i < |Prints(cfg, kept)| && Matches(cfg, Print(cfg, c), Prints(cfg, kept)[i]) &&
          Prints(cfg, kept)[i].text == m.value;
      assert Clashes(cfg, c, kept[i]);
    }
    if m.None? {
      forall j | 0 <= j < |kept| ensures !Clashes(cfg, c, kept[j]) {
        assert !Matches(cfg, Print(cfg, c), Prints(cfg, kept)[j]);
      }
    }
  }

  lemma JustifiedLater(cfg: Tuning, cat: seq<Fingerprint>, kept: seq<Candidate>, c: Candidate, d: (Candidate, string))
    requires Justified(cfg, cat, kept, d)
    ensures Justified(cfg, cat, kept + [c], d)
  {
    if j :| 0 <= j < |kept| && Clashes(cfg, d.0, kept[j]) && Print(cfg, kept[j]).text == d.1 {
      assert (kept + [c])[j] == kept[j];
    }
  }

  /** No kept item matches; every dropped one has a real match. */
  lemma {:induction false} KeptAreCleanDropsJustified(cfg: Tuning, cat: seq<Fingerprint>, cs: seq<Candidate>)
    ensures var o := Run(cfg, cat, cs);
            Clean(cfg, cat, o.unique) && forall i :: 0 <= i < |o.dropped| ==>
                Justified(cfg, cat, o.unique, o.dropped[i])
    decreases |cs|
  {
    if cs != [] {
      var c, was := cs[|cs| - 1], Run(cfg, cat, cs[..|cs| - 1]);
      KeptAreCleanDropsJustified(cfg, cat, cs[..|cs| - 1]);
      MatchMeaning(cfg, cat, was.unique, c);
      forall i | 0 <= i < |was.dropped| ensures Justified(cfg, cat, was.unique + [c], was.dropped[i]) {
        JustifiedLater(cfg, cat, was.unique, c, was.dropped[i]);
      }
    }
  }

  /** Which candidates are kept. */
  function Mask(cfg: Tuning, cat: seq<Fingerprint>, cs: seq<Candidate>): (m: seq<bool>)
    ensures |m| == |cs|
  {
    if cs == [] then []
    else
      var front := cs[..|cs| - 1];
      Mask(cfg, cat, front) + [MatchOf(cfg, cat, Run(cfg, cat, front).unique, cs[|cs| - 1]).None?]
  }

  /** The elements a mask picks, in order. */
  function Pick(cs: seq<Candidate>, mask: seq<bool>, want: bool): seq<Candidate>
    requires |cs| == |mask|
  {
    if cs == [] then []
    else
      var n := |cs| - 1;
      Pick(cs[..n], mask[..n], want) + if mask[n] == want then [cs[n]] else []
  }

  function Firsts(ds: seq<(Candidate, string)>): seq<Candidate> {
    if ds == [] then [] else Firsts(ds[..|ds| - 1]) + [ds[|ds| - 1].0]
  }

  /** Kept and dropped are the candidates, each once, both in the order they came. */
  lemma {:induction false} OutcomePartitionsInOrder(cfg: Tuning, cat: seq<Fingerprint>, cs: seq<Candidate>)
    ensures var o, mask := Run(cfg, cat, cs), Mask(cfg, cat, cs);
            o.unique == Pick(cs, mask, true) && Firsts(o.dropped) == Pick(cs, mask, false)
    decreases |cs|
  {
    if cs != [] {
      var n := |cs| - 1;
      OutcomePartitionsInOrder(cfg, cat, cs[..n]);
      assert Mask(cfg, cat, cs)[..n] == Mask(cfg, cat, cs[..n]);
      FirstsSnoc(Run(cfg, cat, cs[..n]).dropped, cs[n]);
    }
  }

  lemma FirstsSnoc(ds: seq<(Candidate, string)>, c: Candidate)
    ensures forall t: string :: Firsts(ds + [(c, t)]) == Firsts(ds) + [c]
  {
    forall t: string ensures Firsts(ds + [(c, t)]) == Firsts(ds) + [c] { assert (ds + [(c, t)])[..|ds|] == ds; }
  }

  lemma LastOfClean(cfg: Tuning, cat: seq<Fingerprint>, cs: seq<Candidate>)
    requires cs != [] && Clean(cfg, cat, cs)
    ensures var n := |cs| - 1; Clean(cfg, cat, cs[..n]) && MatchOf(cfg, cat, cs[..n], cs[n]).None?
  {
    MatchMeaning(cfg, cat, cs[..|cs| - 1], cs[|cs| - 1]);
  }

  lemma {:induction false} CleanRunDropsNothing(cfg: Tuning, cat: seq<Fingerprint>, cs: seq<Candidate>)
    requires Clean(cfg, cat, cs)
    ensures Run(cfg, cat, cs) == Outcome(cs, [])
    decreases |cs|
  {
    if cs != [] {
      var n := |cs| - 1;
      LastOfClean(cfg, cat, cs);
      CleanRunDropsNothing(cfg, cat, cs[..n]);
      assert cs[..n] + [cs[n]] == cs;
    }
  }

  /** Running again on what was kept drops nothing. */
  lemma RerunDropsNothing(cfg: Tuning, cat: seq<Fingerprint>, cs: seq<Candidate>)
    ensures Run(cfg, cat, Run(cfg, cat, cs).unique) == Outcome(Run(cfg, cat, cs).unique, [])
  {
    KeptAreCleanDropsJustified(cfg, cat, cs);
    CleanRunDropsNothing(cfg, cat, Run(cfg, cat, cs).unique);
  }

  // ---- markets do not interfere ------------------------------------------------------------

  function Of(cfg: Tuning, m: string, cs: seq<Candidate>): seq<Candidate> {
    if cs == [] then []
    else if Market(cfg, cs[|cs| - 1].market) == m then Of(cfg, m, cs[..|cs| - 1]) + [cs[|cs| - 1]]
    else Of(cfg, m, cs[..|cs| - 1])
  }

  function DropsOf(cfg: Tuning, m: string, ds: seq<(Candidate, string)>): seq<(Candidate, string)> {
    if ds == [] then []
    else if Market(cfg, ds[|ds| - 1].0.market) == m then DropsOf(cfg, m, ds[..|ds| - 1]) + [ds[|ds| - 1]]
    else DropsOf(cfg, m, ds[..|ds| - 1])
  }

  function EntriesOf(cfg: Tuning, m: string, es: seq<Entry>): seq<Entry> {
    if es == [] then []
    else if EntryMarket(cfg, es[|es| - 1]) == m then EntriesOf(cfg, m, es[..|es| - 1]) + [es[|es| - 1]]
    else EntriesOf(cfg, m, es[..|es| - 1])
  }

  function PrintsOf(m: string, fs: seq<Fingerprint>): seq<Fingerprint> {
    if fs == [] then [] else if fs[0].market == m then [fs[0]] + PrintsOf(m, fs[1..]) else PrintsOf(m, fs[1..])
  }

  lemma {:induction false} PrintsOfSnoc(m: string, fs: seq<Fingerprint>, f: Fingerprint)
    ensures PrintsOf(m, fs + [f]) == if f.market == m then PrintsOf(m, fs) + [f] else PrintsOf(m, fs)
    decreases |fs|
  {
    if fs == [] {
      assert fs + [f] == [f];
    } else {
      assert (fs + [f])[1..] == fs[1..] + [f];
      PrintsOfSnoc(m, fs[1..], f);
    }
  }

  /** Entries of other markets make no difference to the search. */
  lemma {:induction false} SearchIsLocal(cfg: Tuning, c: Fingerprint, fs: seq<Fingerprint>)
    ensures FirstMatch(cfg, c, PrintsOf(c.market, fs)) == FirstMatch(cfg, c, fs)
    decreases |fs|
  {
    if fs != [] {
      SearchIsLocal(cfg, c, fs[1..]);
      var rest := PrintsOf(c.market, fs[1..]);
      if fs[0].market == c.market { assert ([fs[0]] + rest)[1..] == rest; }
    }
  }

  lemma {:induction false} PrintsOfKept(cfg: Tuning, m: string, cs: seq<Candidate>)
    ensures PrintsOf(m, Prints(cfg, cs)) == Prints(cfg, Of(cfg, m, cs))
    decreases |cs|
  {
    if cs != [] {
      var front, c := cs[..|cs| - 1], cs[|cs| - 1];
      PrintsOfKept(cfg, m, front);
      PrintsOfSnoc(m, Prints(cfg, front), Print(cfg, c));
      if Market(cfg, c.market) == m { PrintsSnoc(cfg, Of(cfg, m, front), c); }
    }
  }

  lemma {:induction false} PrintsOfEntries(cfg: Tuning, m: string, es: seq<Entry>)
    ensures PrintsOf(m, NormaliseCatalogue(cfg, es)) == NormaliseCatalogue(cfg, EntriesOf(cfg, m, es))
    decreases |es|
  {
    if es != [] {
      var front, e := es[..|es| - 1], es[|es| - 1];
      PrintsOfEntries(cfg, m, front);
      PrintsOfSnoc(m, NormaliseCatalogue(cfg, front), Normalised(cfg, e));
      if EntryMarket(cfg, e) == m {
        var mine := EntriesOf(cfg, m, front);
        assert (mine + [e])[..|mine|] == mine;
      }
    }
  }

  lemma MatchIsLocal(cfg: Tuning, cat: seq<Fingerprint>, kept: seq<Candidate>, c: Candidate)
    ensures var m := Market(cfg, c.market);
            MatchOf(cfg, PrintsOf(m, cat), Of(cfg, m, kept), c) == MatchOf(cfg, cat, kept, c)
  {
    var m := Market(cfg, c.market);
    SearchIsLocal(cfg, Print(cfg, c), cat);
    SearchIsLocal(cfg, Print(cfg, c), Prints(cfg, kept));
    PrintsOfKept(cfg, m, kept);
  }

  lemma RunSnoc(cfg: Tuning, cat: seq<Fingerprint>, cs: seq<Candidate>, c: Candidate)
    ensures Run(cfg, cat, cs + [c]) == Step(cfg, cat, Run(cfg, cat, cs), c)
  {
    assert (cs + [c])[..|cs|] == cs;
  }

  lemma StepIsLocal(cfg: Tuning, cat: seq<Fingerprint>, o: Outcome, c: Candidate)
    ensures var m := Market(cfg, c.market); var p := Step(cfg, cat, o, c);
            Step(cfg, PrintsOf(m, cat), Outcome(Of(cfg, m, o.unique), DropsOf(cfg, m, o.dropped)), c)
            == Outcome(Of(cfg, m, p.unique), DropsOf(cfg, m, p.dropped))
  {
    MatchIsLocal(cfg, cat, o.unique, c);
    OfSnoc(cfg, Market(cfg, c.market), o, c);
  }

  lemma StepElsewhere(cfg: Tuning, cat: seq<Fingerprint>, o: Outcome, c: Candidate, m: string)
    requires Market(cfg, c.market) != m
    ensures var p := Step(cfg, cat, o, c);
            && Of(cfg, m, p.unique) == Of(cfg, m, o.unique)
            && DropsOf(cfg, m, p.dropped) == DropsOf(cfg, m, o.dropped)
  {
    OfSnoc(cfg, m, o, c);
  }

  lemma {:induction false} RunIsLocal(cfg: Tuning, cat: seq<Fingerprint>, cs: seq<Candidate>, m: string)
    ensures var o := Run(cfg, cat, cs);
            Run(cfg, PrintsOf(m, cat), Of(cfg, m, cs)) == Outcome(Of(cfg, m, o.unique), DropsOf(cfg, m, o.dropped))
    decreases |cs|
  {
    if cs != [] {
      var front, c := cs[..|cs| - 1], cs[|cs| - 1];
      RunIsLocal(cfg, cat, front, m);
      if Market(cfg, c.market) == m {
        RunSnoc(cfg, PrintsOf(m, cat), Of(cfg, m, front), c);
        StepIsLocal(cfg, cat, Run(cfg, cat, front), c);
      } else {
        StepElsewhere(cfg, cat, Run(cfg, cat, front), c, m);
      }
    }
  }

  lemma OfSnoc(cfg: Tuning, m: string, o: Outcome, c: Candidate)
    ensures Of(cfg, m, o.unique + [c]) == if Market(cfg, c.market) == m then Of(cfg, m, o.unique) + [c]
              else Of(cfg, m, o.unique)
    ensures forall t: string :: DropsOf(cfg, m, o.dropped + [(c, t)]) == if Market(cfg, c.market) == m
              then DropsOf(cfg, m, o.dropped) + [(c, t)] else DropsOf(cfg, m, o.dropped)
  {
    assert (o.unique + [c])[..|o.unique|] == o.unique;
    forall t: string
      ensures DropsOf(cfg, m, o.dropped + [(c, t)]) == if Market(cfg, c.market) == m
                then DropsOf(cfg, m, o.dropped) + [(c, t)] else DropsOf(cfg, m, o.dropped)
    {
      assert (o.dropped + [(c, t)])[..|o.dropped|] == o.dropped;
    }
  }

  /**
   Market non-interference: what happens to one market's candidates is what happens when only that
   market's candidates and entries are there.
   */
  lemma MarketsDoNotInterfere(cfg: Tuning, es: seq<Entry>, cs: seq<Candidate>, m: string)
    ensures var whole := Run(cfg, NormaliseCatalogue(cfg, es), cs);
            Run(cfg, NormaliseCatalogue(cfg, EntriesOf(cfg, m, es)), Of(cfg, m, cs))
            == Outcome(Of(cfg, m, whole.unique), DropsOf(cfg, m, whole.dropped))
  {
    RunIsLocal(cfg, NormaliseCatalogue(cfg, es), cs, m);
    PrintsOfEntries(cfg, m, es);
  }

  // ---- the code ----------------------------------------------------------------------------

  /** Both shapes of catalogue become fingerprints. */
  method NormalisedCatalogue(cfg: Tuning, es: seq<Entry>) returns (out: seq<Fingerprint>)
    ensures out == NormaliseCatalogue(cfg, es)
  {
    out := [];
    for i := 0 to |es|
      invariant out == NormaliseCatalogue(cfg, es[..i])
    {
      assert es[..i + 1][..i] == es[..i];
      out := out + [Normalised(cfg, es[i])];
    }
    assert es[..|es|] == es;
  }

  /** The first search: the catalogue entries of the same market. */
  method SearchCatalogue(cfg: Tuning, fp: Fingerprint, cat: seq<Fingerprint>) returns (matched: Option<string>)
    ensures matched == FirstMatch(cfg, fp, cat)
  {
    for i := 0 to |cat|
      invariant FirstMatch(cfg, fp, cat) == FirstMatch(cfg, fp, cat[i..])
    {
      assert cat[i..][0] == cat[i] && cat[i..][1..] == cat[i + 1..];
      if cat[i].market != fp.market { continue; }
      if IsNearDuplicate(cfg, fp.text, cat[i].text) { return Some(cat[i].text); }
    }
    matched := None;
  }

  /** The second search: what has been kept so far in the same market. */
  method SearchKept(cfg: Tuning, fp: Fingerprint, unique: seq<Candidate>) returns (matched: Option<string>)
    ensures matched == FirstMatch(cfg, fp, Prints(cfg, unique))
  {
    PrintsAt(cfg, unique);
    ghost var fs := Prints(cfg, unique);
    for i := 0 to |unique|
      invariant FirstMatch(cfg, fp, fs) == FirstMatch(cfg, fp, fs[i..])
    {
      assert fs[i..][0] == fs[i] && fs[i..][1..] == fs[i + 1..];
      var kept := Print(cfg, unique[i]);
      if kept.market != fp.market { continue; }
      if IsNearDuplicate(cfg, fp.text, kept.text) { return Some(kept.text); }
    }
    matched := None;
  }

  /** Goes through the candidates in order, keeping or dropping each. */
  method RemoveDuplicates(cfg: Tuning, es: seq<Entry>, cs: seq<Candidate>)
    returns (unique: seq<Candidate>, dropped: seq<(Candidate, string)>)
    ensures Outcome(unique, dropped) == Run(cfg, NormaliseCatalogue(cfg, es), cs)
    ensures Clean(cfg, NormaliseCatalogue(cfg, es), unique)
  {
    unique, dropped := [], [];
    var cat := NormalisedCatalogue(cfg, es);
    for i := 0 to |cs|
      invariant Outcome(unique, dropped) == Run(cfg, cat, cs[..i])
    {
      assert cs[..i + 1] == cs[..i] + [cs[i]];
      RunSnoc(cfg, cat, cs[..i], cs[i]);
      var fp := Print(cfg, cs[i]);
      var matched := SearchCatalogue(cfg, fp, cat);
      if matched.None? { matched := SearchKept(cfg, fp, unique); }
      if matched.Some? {
        dropped := dropped + [(cs[i], matched.value)];
      } else {
        unique := unique + [cs[i]];
      }
    }
    assert cs[..|cs|] == cs;
    KeptAreCleanDropsJustified(cfg, cat, cs);
  }
}
