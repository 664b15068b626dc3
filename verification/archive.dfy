/**
 The citation archiver of prospector/archive.py: a persistent cache of mementos fed by two
 metered lookup services and a capture service. Every request is recorded in a ghost log; what
 the services answer, and how long they take, is arbitrary.
 */
module Archive {
  import opened Common

  type Memento = s: string | s != "" witness "memento"
  type Span = r: real | 0.0 <= r

  datatype Service = Cdx | Availability

  /**
   What one lookup request came back with. `Status` is any status but 200 and 429, `Unparsable` a body that is no
   list of captures, and `Errored` a request that raised anything but a timeout or a connection error.
   */
  datatype Reply =
    | Limited(retryAfter: Option<real>)
    | TimedOut
    | Status
    | Unparsable
    | Errored
    | Empty
    | Captured(memento: Memento)

  /** A capture request; `SaveTimedOut` covers a failed connection, `Broken` any other failure. */
  datatype Saving = SaveTimedOut | Broken | SaveLimited | Declined | Taken(memento: Memento)

  datatype Answer = Answer(reply: Reply, saving: Saving, took: Span)

  datatype Call =
    | Look(service: Service, url: string, at: real, reply: Reply)
    | Keep(url: string, at: real, saving: Saving)

  datatype Entry = Entry(memento: Option<Memento>, ts: real)
  type Cache = map<string, Entry>

  const FAILURE_TTL := 21600.0
  const MIN_INTERVAL := 1.5
  const SAVE_TIMEOUT_FUSE := 2

  /** The wait before the next attempt, or None when the ladder is spent. */
  function Backoff(attempt: nat): Option<real> {
    if attempt == 0 then Some(4.0) else if attempt == 1 then Some(12.0) else if attempt == 2 then Some(30.0) else None
  }

  /** A server-stated wait outranks ours, but never beyond a minute. */
  function Wait(stated: Option<real>, backoff: real): (w: real)
    requires 0.0 <= backoff <= 60.0
    ensures backoff <= w <= 60.0
  {
    var s := if stated.Some? then stated.value else 0.0;
    var longer := if s > backoff then s else backoff;
    if longer > 60.0 then 60.0 else longer
  }

  /** Each attempt comes at least its backoff after the one before. */
  predicate Rising(cs: seq<Call>) {
    |cs| <= 4 && forall i :: 0 <= i < |cs| - 1 ==> Backoff(i).Some? && cs[i + 1].at - cs[i].at >= Backoff(i).value
  }

  // ---- what a lookup said ------------------------------------------------------------------

  /** No answer at all: never evidence about the URL. */
  predicate Silent(c: Call) { c.Look? && (c.reply.Limited? || c.reply.TimedOut?) }

  /**
   The calls of one climb of the ladder: every attempt but the last went unanswered, and silence ends
   it only at the top.
   */
  predicate Ladder(cs: seq<Call>, service: Service, url: string) {
    && 1 <= |cs| <= 4
    && (forall i :: 0 <= i < |cs| ==> cs[i].Look? && cs[i].service == service && cs[i].url == url)
    && (forall i :: 0 <= i < |cs| - 1 ==> Silent(cs[i]))
    && (Silent(cs[|cs| - 1]) ==> |cs| == 4)
  }

  predicate Climbing(cs: seq<Call>, service: Service, url: string) {
    |cs| <= 3 && forall i :: 0 <= i < |cs| ==> Silent(cs[i]) && cs[i].service == service && cs[i].url == url
  }

  lemma ClimbOn(cs: seq<Call>, service: Service, url: string, c: Call)
    requires Climbing(cs, service, url) && c.Look? && c.service == service && c.url == url
    ensures |cs| == 3 || !Silent(c) ==> Ladder(cs + [c], service, url)
    ensures |cs| < 3 && Silent(c) ==> Climbing(cs + [c], service, url)
  {
  }

  predicate LastSilent(cs: seq<Call>) { cs != [] && Silent(cs[|cs| - 1]) }

  function LastMemento(cs: seq<Call>): Option<Memento> {
    if cs != [] && cs[|cs| - 1].Look? && cs[|cs| - 1].reply.Captured? then Some(cs[|cs| - 1].reply.memento) else None
  }

  /** One lookup of one spelling of a URL; `fused` says whether the fallback had been switched off before it. */
  datatype Lookup = Lookup(url: string, fused: bool, cdx: seq<Call>, fallback: seq<Call>) {
    predicate Proper() {
      && Ladder(cdx, Cdx, url)
      && (fallback == [] <==> fused || LastMemento(cdx).Some?)
      && (fallback != [] ==> Ladder(fallback, Availability, url))
    }

    function Found(): Option<Memento> { if LastMemento(cdx).Some? then LastMemento(cdx) else LastMemento(fallback) }

    /** Neither service answered. */
    predicate Unanswered() { LastSilent(cdx) && (fallback == [] || LastSilent(fallback)) }

    predicate FusedAfter() { fused || LastSilent(fallback) }

    function Calls(): seq<Call> { cdx + fallback }
  }

  function OtherForm(url: string): string { if url != "" && url[|url| - 1] == '/' then url[..|url| - 1] else url + "/" }

  function Slashes(s: string): nat { if s == "" then 0 else (if s[0] == '/' then 1 else 0) + Slashes(s[1..]) }

  /** A URL's lookup, with the other slash form when the first was answered "no". */
  datatype Visit = Visit(first: Lookup, second: Option<Lookup>) {
    function Url(): string { first.url }

    predicate Proper() {
      && first.Proper()
      && (second.Some? <==> first.Found().None? && !first.Unanswered() && Slashes(OtherForm(first.url)) >= 3)
      && (second.Some? ==> second.value.Proper() && second.value.url == OtherForm(first.url)
                           && second.value.fused == first.FusedAfter())
    }

    function Found(): Option<Memento> {
      if first.Found().Some? || second.None? then first.Found() else second.value.Found()
    }

    predicate Unanswered() { if second.Some? then second.value.Unanswered() else first.Unanswered() }

    predicate Missed() { Found().None? && !Unanswered() }

    predicate FusedAfter() { if second.Some? then second.value.FusedAfter() else first.FusedAfter() }

    function Calls(): seq<Call> { first.Calls() + if second.Some? then second.value.Calls() else [] }
  }

  lemma FoundIsAnswered(v: Visit)
    requires v.Proper()
    ensures v.Found().Some? ==> !v.Unanswered()
  {
  }

  /** The service itself sent something, and not a rate limit. */
  predicate IsReply(r: Reply) { r.Status? || r.Unparsable? || r.Empty? || r.Captured? }

  /** The service said in so many words that it has no capture. */
  predicate IsNo(r: Reply) { r.Empty? }

  /** Some lookup of exactly this URL came back with such a reply. */
  ghost predicate HasReply(cs: seq<Call>, url: string, good: Reply -> bool) {
    exists i :: 0 <= i < |cs| && cs[i].Look? && cs[i].url == url && good(cs[i].reply)
  }

  predicate LastReply(cs: seq<Call>, good: Reply -> bool) {
    cs != [] && cs[|cs| - 1].Look? && good(cs[|cs| - 1].reply)
  }

  predicate LastErred(cs: seq<Call>) { cs != [] && cs[|cs| - 1].Look? && cs[|cs| - 1].reply.Errored? }

  /** Some service gave an answer for exactly this URL. */
  ghost predicate Answered(cs: seq<Call>, url: string) { HasReply(cs, url, IsReply) }

  /** Some service said that it has no capture of exactly this URL. */
  ghost predicate ToldNo(cs: seq<Call>, url: string) { HasReply(cs, url, IsNo) }

  /**
   What stands in for an answer when no service gave one: a request that erred, the other service
   having erred too, or kept silent, or not been asked.
   */
  predicate OnlyErrors(l: Lookup) {
    || (LastErred(l.cdx) && (l.fallback == [] || LastErred(l.fallback) || LastSilent(l.fallback)))
    || (LastSilent(l.cdx) && LastErred(l.fallback))
  }

  /** One of the two services ended its ladder by saying that it has no capture. */
  predicate EndsInNo(l: Lookup) { LastReply(l.cdx, IsNo) || LastReply(l.fallback, IsNo) }

  lemma LadderReply(cs: seq<Call>, service: Service, url: string, good: Reply -> bool)
    requires Ladder(cs, service, url) && !good(TimedOut) && forall w :: !good(Limited(w))
    ensures HasReply(cs, url, good) <==> LastReply(cs, good)
  {
    if LastReply(cs, good) { assert good(cs[|cs| - 1].reply); }
  }

  lemma LadderEnd(cs: seq<Call>, service: Service, url: string)
    requires Ladder(cs, service, url)
    ensures LastSilent(cs) || LastErred(cs) || LastReply(cs, IsReply)
    ensures LastMemento(cs).None? ==> forall i :: 0 <= i < |cs| ==> cs[i].Look? && !cs[i].reply.Captured?
  {
  }

  lemma ReplyInEither(a: seq<Call>, b: seq<Call>, url: string, good: Reply -> bool)
    ensures HasReply(a + b, url, good) <==> HasReply(a, url, good) || HasReply(b, url, good)
  {
    assert forall i :: 0 <= i < |a| ==> (a + b)[i] == a[i];
    assert forall i :: 0 <= i < |b| ==> (a + b)[|a| + i] == b[i];
    if HasReply(a, url, good) {
      var i :| 0 <= i < |a| && a[i].Look? && a[i].url == url && good(a[i].reply);
      assert (a + b)[i] == a[i];
    }
    if HasReply(b, url, good) {
      var i :| 0 <= i < |b| && b[i].Look? && b[i].url == url && good(b[i].reply);
      assert (a + b)[|a| + i] == b[i];
    }
  }

  lemma LookupReply(l: Lookup, good: Reply -> bool)
    requires l.Proper() && !good(TimedOut) && forall w :: !good(Limited(w))
    ensures HasReply(l.Calls(), l.url, good) <==> LastReply(l.cdx, good) || LastReply(l.fallback, good)
  {
    LadderReply(l.cdx, Cdx, l.url, good);
    ReplyInEither(l.cdx, l.fallback, l.url, good);
    if l.fallback != [] { LadderReply(l.fallback, Availability, l.url, good); }
  }

  /** A lookup that is not unanswered was answered by a service, or only errors stand in for an answer. */
  lemma LookupMeaning(l: Lookup)
    requires l.Proper()
    ensures l.Unanswered() ==> l.Found().None? && !Answered(l.Calls(), l.url)
    ensures !l.Unanswered() ==> (Answered(l.Calls(), l.url) <==> !OnlyErrors(l))
    ensures ToldNo(l.Calls(), l.url) <==> EndsInNo(l)
    ensures l.Found().None? ==> forall i :: 0 <= i < |l.Calls()| ==> l.Calls()[i].Look? && !l.Calls()[i].reply.Captured?
  {
    LookupReply(l, IsReply);
    LookupReply(l, IsNo);
    LadderEnd(l.cdx, Cdx, l.url);
    if l.fallback != [] { LadderEnd(l.fallback, Availability, l.url); }
  }

  lemma OtherCalls(l: Lookup, url: string, good: Reply -> bool)
    requires l.Proper() && l.url != url
    ensures !HasReply(l.Calls(), url, good)
  {
    assert forall i :: 0 <= i < |l.Calls()| ==> l.Calls()[i].url == l.url;
  }

  /** Only the lookup of the URL itself says anything about it, not that of its other slash form. */
  lemma VisitReply(v: Visit, good: Reply -> bool)
    requires v.Proper()
    ensures HasReply(v.Calls(), v.Url(), good) <==> HasReply(v.first.Calls(), v.Url(), good)
  {
    if v.second.Some? {
      OtherCalls(v.second.value, v.Url(), good);
      ReplyInEither(v.first.Calls(), v.second.value.Calls(), v.Url(), good);
    } else {
      assert v.Calls() == v.first.Calls();
    }
  }

  /**
   A visit that ends without an answer found nothing; one that ends in a miss saw no capture, had the
   URL itself answered unless only errors stand in for that, and was told "no capture" exactly when
   one of the services ended on that.
   */
  lemma VisitMeaning(v: Visit)
    requires v.Proper()
    ensures v.Unanswered() ==> v.Found().None?
    ensures v.Missed() ==> (Answered(v.Calls(), v.Url()) <==> !OnlyErrors(v.first))
    ensures ToldNo(v.Calls(), v.Url()) <==> EndsInNo(v.first)
    ensures v.Found().None? ==> forall i :: 0 <= i < |v.Calls()| ==> v.Calls()[i].Look? && !v.Calls()[i].reply.Captured?
  {
    LookupMeaning(v.first);
    VisitReply(v, IsReply);
    VisitReply(v, IsNo);
    if v.second.Some? { LookupMeaning(v.second.value); }
  }

  // ---- what one run does to the cache ------------------------------------------------------

  function At<V>(m: map<string, V>, u: string): Option<V> { if u in m then Some(m[u]) else None }

  function MementoAt(c: Cache, u: string): Option<Memento> { if u in c then c[u].memento else None }

  /** The URLs a run looks at: http ones, each once, up to the cap. */
  function Distinct(urls: seq<string>): (r: seq<string>)
    ensures forall u :: u in r <==> u in urls && StartsHttp(u)
    ensures forall i, j :: 0 <= i < j < |r| ==> r[i] != r[j]
  {
    Once(urls, StartsHttp)
  }

  predicate StartsHttp(u: string) { |u| >= 4 && u[0] == 'h' && u[1] == 't' && u[2] == 't' && u[3] == 'p' }

  /** What the cap keeps is what came first: the distinct URLs stand in the order of their first appearance. */
  lemma DistinctInOrder(urls: seq<string>)
    ensures InOrder(urls, Distinct(urls))
  {
    OnceInOrder(urls, StartsHttp);
  }

  function Chosen(urls: seq<string>, maxUrls: nat): seq<string> {
    var d := Distinct(urls);
    if |d| > maxUrls then d[..maxUrls] else d
  }

  /** The cache has neither a memento nor a recent failure, so the URL is worth a request. */
  predicate Wanted(c: Cache, now: real, u: string) {
    u in c ==> c[u].memento.None? && now - c[u].ts >= FAILURE_TTL
  }

  function VisitOf(vs: seq<Visit>, u: string): Option<Visit> {
    if vs == [] then None
    else if vs[|vs| - 1].Url() == u then Some(vs[|vs| - 1])
    else VisitOf(vs[..|vs| - 1], u)
  }

  function SaveOf(ks: seq<Call>, u: string): Option<Call> {
    if ks == [] then None
    else if ks[|ks| - 1].url == u then Some(ks[|ks| - 1])
    else SaveOf(ks[..|ks| - 1], u)
  }

  function Kept(k: Call): Option<Memento> { if k.Keep? && k.saving.Taken? then Some(k.saving.memento) else None }

  /**
   The timeout count after one more save: an answer clears it, and a request that broke some other
   way leaves it alone.
   */
  function StreakAfter(n: nat, s: Saving): nat { if s.SaveTimedOut? then n + 1 else if s.Broken? then n else 0 }

  /** Whether that save tells the batch to stop: a rate limit, or one timeout too many. */
  predicate StopsAt(n: nat, s: Saving) { s.SaveLimited? || (s.SaveTimedOut? && n + 1 >= SAVE_TIMEOUT_FUSE) }

  function Streak(ks: seq<Call>): nat {
    if ks == [] || !ks[|ks| - 1].Keep? then 0 else StreakAfter(Streak(ks[..|ks| - 1]), ks[|ks| - 1].saving)
  }

  predicate Stops(ks: seq<Call>) {
    ks != [] && ks[|ks| - 1].Keep? && StopsAt(Streak(ks[..|ks| - 1]), ks[|ks| - 1].saving)
  }

  predicate TimedOutSave(c: Call) { c.Keep? && c.saving.SaveTimedOut? }

  predicate BrokenSave(c: Call) { c.Keep? && c.saving.Broken? }

  predicate BrokenSince(ks: seq<Call>, j: nat) { forall k :: j < k < |ks| ==> BrokenSave(ks[k]) }

  /** A save timed out, with nothing since but requests that broke some other way. */
  ghost predicate TimedOutLast(ks: seq<Call>) {
    exists j :: 0 <= j < |ks| && TimedOutSave(ks[j]) && BrokenSince(ks, j)
  }

  lemma BrokenSnoc(ks: seq<Call>, j: nat)
    requires j < |ks| - 1
    ensures BrokenSince(ks, j) <==> BrokenSince(ks[..|ks| - 1], j) && BrokenSave(ks[|ks| - 1])
  {
    var front := ks[..|ks| - 1];
    assert forall k :: 0 <= k < |front| ==> front[k] == ks[k];
  }

  lemma {:induction false} StreakMeans(ks: seq<Call>)
    ensures Streak(ks) > 0 <==> TimedOutLast(ks)
    decreases |ks|
  {
    if ks != [] {
      var n := |ks| - 1;
      var front := ks[..n];
      StreakMeans(front);
      forall j: nat | j < n ensures BrokenSince(ks, j) <==> BrokenSince(front, j) && BrokenSave(ks[n]) {
        BrokenSnoc(ks, j);
      }
      assert BrokenSince(ks, n);
      if TimedOutLast(front) && BrokenSave(ks[n]) {
        var j :| 0 <= j < n && TimedOutSave(front[j]) && BrokenSince(front, j);
        assert TimedOutSave(ks[j]);
      }
      if TimedOutLast(ks) && !TimedOutSave(ks[n]) {
        var j :| 0 <= j <= n && TimedOutSave(ks[j]) && BrokenSince(ks, j);
        assert TimedOutSave(front[j]);
      }
    }
  }

  /**
   The saves stop the batch exactly when the last was rate limited, or timed out after one that timed
   out too, with nothing between them but requests that broke some other way.
   */
  lemma StopsExactly(ks: seq<Call>)
    requires forall i :: 0 <= i < |ks| ==> ks[i].Keep?
    ensures Stops(ks) <==>
              ks != [] && (ks[|ks| - 1].saving.SaveLimited?
                           || (TimedOutSave(ks[|ks| - 1]) && TimedOutLast(ks[..|ks| - 1])))
  {
    if ks != [] { StreakMeans(ks[..|ks| - 1]); }
  }

  /** Two timeouts that are not in a row stop the batch all the same. */
  lemma BrokenKeepsTheStreak(a: Call, b: Call, c: Call)
    requires a.Keep? && a.saving.SaveTimedOut? && b.Keep? && b.saving.Broken? && c.Keep? && c.saving.SaveTimedOut?
    ensures Stops([a, b, c])
  {
    var front := [a, b, c][..2];
    assert TimedOutSave(front[0]) && BrokenSince(front, 0);
    StopsExactly([a, b, c]);
  }

  /** The entry a URL has after a run, given what was asked about it. */
  function Settled(was: Option<Entry>, v: Option<Visit>, k: Option<Call>, saveNew: bool, now: real): Option<Entry> {
    if v.None? then was
    else if v.value.Found().Some? then Some(Entry(v.value.Found(), now))
    else if v.value.Unanswered() then was
    else if !saveNew then Some(Entry(None, now))
    else if k.None? then was
    else Some(Entry(Kept(k.value), now))
  }

  /** One run: the URLs it took on, whom it asked in order, and when its saving pass ran. */
  datatype Run = Run(urls: seq<string>, saveNew: bool, now: real, budget: real,
                     visits: seq<Visit>, saves: seq<Call>, saveStart: real, saveEnd: real)

  ghost predicate LooksProper(r: Run, before: Cache) {
    && (forall i :: 0 <= i < |r.visits| ==>
          r.visits[i].Proper() && r.visits[i].Url() in r.urls && Wanted(before, r.now, r.visits[i].Url()))
    && (forall i :: 0 <= i < |r.visits| - 1 ==> !r.visits[i].Unanswered())
    && (forall u :: u in r.urls && Wanted(before, r.now, u) && VisitOf(r.visits, u).None? ==>
          r.visits != [] && r.visits[|r.visits| - 1].Unanswered())
  }

  /** A miss that should have been saved and was not. */
  predicate Owed(r: Run, u: string) {
    r.saveNew && VisitOf(r.visits, u).Some? && VisitOf(r.visits, u).value.Missed() && SaveOf(r.saves, u).None?
  }

  ghost predicate SavesProper(r: Run) {
    && (r.saves != [] ==> r.saveNew)
    && (forall i :: 0 <= i < |r.saves| ==>
          && r.saves[i].Keep? && r.saves[i].at - r.saveStart < r.budget
          && VisitOf(r.visits, r.saves[i].url).Some? && VisitOf(r.visits, r.saves[i].url).value.Missed())
    && (forall i :: 0 < i < |r.saves| ==> !Stops(r.saves[..i]))
    && (forall u :: Owed(r, u) ==> Stops(r.saves) || r.saveEnd - r.saveStart >= r.budget)
  }

  /** The whole effect of a run on the cache, and the map it returns. */
  ghost predicate Accounts(r: Run, before: Cache, after: Cache, out: map<string, Memento>) {
    && (forall u :: At(after, u) == Settled(At(before, u), VisitOf(r.visits, u), SaveOf(r.saves, u), r.saveNew, r.now))
    && (forall u :: At(out, u) == if u in r.urls then MementoAt(after, u) else None)
  }

  ghost predicate Faithful(r: Run, before: Cache, after: Cache, out: map<string, Memento>) {
    LooksProper(r, before) && SavesProper(r) && Accounts(r, before, after, out)
  }

  lemma {:induction false} VisitFound(vs: seq<Visit>, u: string) returns (i: nat)
    requires VisitOf(vs, u).Some?
    ensures i < |vs| && vs[i].Url() == u && vs[i] == VisitOf(vs, u).value
    decreases |vs|
  {
    i := |vs| - 1;
    if vs[i].Url() != u { i := VisitFound(vs[..i], u); }
  }

  /** A memento in the cache is never changed or lost by a run that could read the cache. */
  lemma MementosAreForever(r: Run, before: Cache, after: Cache, out: map<string, Memento>, u: string)
    requires Faithful(r, before, after, out) && MementoAt(before, u).Some?
    ensures At(after, u) == At(before, u)
    ensures u in r.urls ==> At(out, u) == MementoAt(before, u)
  {
    if VisitOf(r.visits, u).Some? {
      var i := VisitFound(r.visits, u);
      assert false;
    }
    assert At(after, u) == Settled(At(before, u), VisitOf(r.visits, u), SaveOf(r.saves, u), r.saveNew, r.now);
    assert At(before, u) == Some(before[u]);
    assert u in r.urls ==> At(out, u) == MementoAt(after, u);
  }

  /**
   A URL newly recorded as missing was asked about in this run and no reply had a capture. Some service answered for
   exactly that URL, if and only if it is not errors alone that stand in for an answer; and some service said that it
   has no capture, if and only if one ended its ladder with that.
   */
  lemma MissingMeansAnswered(r: Run, before: Cache, after: Cache, out: map<string, Memento>, u: string) returns (i: nat)
    requires Faithful(r, before, after, out)
    requires u in after && after[u].memento.None? && At(after, u) != At(before, u)
    ensures i < |r.visits| && r.visits[i].Url() == u && u in r.urls
    ensures Answered(r.visits[i].Calls(), u) <==> !OnlyErrors(r.visits[i].first)
    ensures ToldNo(r.visits[i].Calls(), u) <==> EndsInNo(r.visits[i].first)
    ensures forall j :: 0 <= j < |r.visits[i].Calls()| ==>
              r.visits[i].Calls()[j].Look? && !r.visits[i].Calls()[j].reply.Captured?
  {
    assert At(after, u) == Settled(At(before, u), VisitOf(r.visits, u), SaveOf(r.saves, u), r.saveNew, r.now);
    i := VisitFound(r.visits, u);
    VisitMeaning(r.visits[i]);
  }

  /** Both services came back at once with the same useless reply. */
  function MuteLookup(url: string, at: real, reply: Reply): Lookup {
    Lookup(url, false, [Look(Cdx, url, at, reply)], [Look(Availability, url, at + MIN_INTERVAL, reply)])
  }

  function MuteVisit(url: string, reply: Reply): Visit {
    Visit(MuteLookup(url, 0.0, reply),
      if Slashes(OtherForm(url)) >= 3 then Some(MuteLookup(OtherForm(url), 2.0 * MIN_INTERVAL, reply)) else None)
  }

  function MuteRun(url: string, reply: Reply): Run {
    Run([url], false, 0.0, 0.0, [MuteVisit(url, reply)], [], 0.0, 0.0)
  }

  /** A run over these URLs by a process that has done nothing yet, from this cache to that one. */
  ghost predicate FirstRun(r: Run, urls: seq<string>, maxUrls: nat, before: Cache, after: Cache) {
    && r.urls == Chosen(urls, maxUrls)
    && Faithful(r, before, after, map[])
    && Chained(r.visits, false)
    && Paced(Asked(r.visits) + r.saves)
  }

  lemma OnlyOne(url: string)
    requires StartsHttp(url)
    ensures Chosen([url], 1) == [url]
  {
    assert [url][..0] == [] && Once([], StartsHttp) == [];
  }

  /** A proper visit that ends in a miss is all there is to such a run over one URL. */
  lemma OneVisitRun(v: Visit, r: Run)
    requires StartsHttp(v.Url()) && v.Proper() && v.Missed() && !v.first.fused && Paced(v.Calls())
    requires r == Run([v.Url()], false, 0.0, 0.0, [v], [], 0.0, 0.0)
    ensures FirstRun(r, [v.Url()], 1, map[], map[v.Url() := Entry(None, 0.0)])
  {
    OnlyOne(v.Url());
    assert r.visits[..0] == [];
    assert Asked(r.visits) + r.saves == v.Calls();
    assert forall u :: VisitOf(r.visits, u) == if u == v.Url() then Some(v) else None;
    assert LooksProper(r, map[]) && SavesProper(r);
  }

  lemma MuteLookupIsProper(url: string, at: real, reply: Reply)
    requires reply.Status? || reply.Unparsable? || reply.Errored?
    ensures var l := MuteLookup(url, at, reply);
            && l.Proper() && l.Found().None? && !l.Unanswered() && !l.FusedAfter()
            && (OnlyErrors(l) <==> reply.Errored?) && !EndsInNo(l)
  {
  }

  lemma MuteVisitIsProper(url: string, reply: Reply)
    requires reply.Status? || reply.Unparsable? || reply.Errored?
    ensures var v := MuteVisit(url, reply);
            && v.Proper() && v.Missed() && Paced(v.Calls())
            && (OnlyErrors(v.first) <==> reply.Errored?) && !EndsInNo(v.first)
  {
    MuteLookupIsProper(url, 0.0, reply);
    MuteLookupIsProper(OtherForm(url), 2.0 * MIN_INTERVAL, reply);
  }

  /**
   For any URL there is a run that remembers it as missing although no service said a word about it:
   its requests erred.
   */
  lemma ErrorIsRememberedAsNo(url: string) returns (r: Run, after: Cache)
    requires StartsHttp(url)
    ensures FirstRun(r, [url], 1, map[], after) && url in after && after[url].memento.None?
    ensures |r.visits| == 1 && !Answered(r.visits[0].Calls(), url)
  {
    r, after := MuteRun(url, Errored), map[url := Entry(None, 0.0)];
    MuteVisitIsProper(url, Errored);
    OneVisitRun(MuteVisit(url, Errored), r);
    VisitMeaning(r.visits[0]);
  }

  /**
   For any URL there is a run that remembers it as missing although both services only failed: they
   answered, with a status that says nothing about the URL.
   */
  lemma StatusIsRememberedAsNo(url: string) returns (r: Run, after: Cache)
    requires StartsHttp(url)
    ensures FirstRun(r, [url], 1, map[], after) && url in after && after[url].memento.None?
    ensures |r.visits| == 1 && Answered(r.visits[0].Calls(), url) && !ToldNo(r.visits[0].Calls(), url)
  {
    r, after := MuteRun(url, Status), map[url := Entry(None, 0.0)];
    MuteVisitIsProper(url, Status);
    OneVisitRun(MuteVisit(url, Status), r);
    VisitMeaning(r.visits[0]);
  }

  /** A URL whose lookup went unanswered keeps its old entry, and it is the last URL looked up. */
  lemma UnansweredIsForgotten(r: Run, before: Cache, after: Cache, out: map<string, Memento>, i: nat)
    requires Faithful(r, before, after, out) && i < |r.visits| && r.visits[i].Unanswered()
    ensures i == |r.visits| - 1
    ensures At(after, r.visits[i].Url()) == At(before, r.visits[i].Url())
  {
    var u := r.visits[i].Url();
    FoundIsAnswered(r.visits[i]);
    assert VisitOf(r.visits, u) == Some(r.visits[i]);
    assert At(after, u) == Settled(At(before, u), VisitOf(r.visits, u), SaveOf(r.saves, u), r.saveNew, r.now);
  }

  /**
   No save follows one that told the batch to stop, none is sent past the budget, and none for a URL
   with an answer still pending.
   */
  lemma NothingAfterStop(r: Run, before: Cache, after: Cache, out: map<string, Memento>, i: nat)
    requires Faithful(r, before, after, out) && i < |r.saves|
    ensures Stops(r.saves[..i + 1]) ==> i == |r.saves| - 1
    ensures r.saveNew && r.saves[i].at - r.saveStart < r.budget
    ensures VisitOf(r.visits, r.saves[i].url).Some? && VisitOf(r.visits, r.saves[i].url).value.Missed()
  {
  }

  /** A URL left unasked keeps its entry, and so does one the saving pass did not reach. */
  lemma UnaskedIsUntouched(r: Run, before: Cache, after: Cache, out: map<string, Memento>, u: string)
    requires Faithful(r, before, after, out)
    requires VisitOf(r.visits, u).None? || Owed(r, u)
    ensures At(after, u) == At(before, u)
    ensures u in r.urls ==>
              || !Wanted(before, r.now, u)
              || (r.visits != [] && r.visits[|r.visits| - 1].Unanswered())
              || Stops(r.saves) || r.saveEnd - r.saveStart >= r.budget
  {
    assert At(after, u) == Settled(At(before, u), VisitOf(r.visits, u), SaveOf(r.saves, u), r.saveNew, r.now);
  }

  // ---- many runs over one cache file -------------------------------------------------------

  /**
   A run in the life of the file: whether the file could be read, what the run left in memory, and
   whether it was written back.
   */
  datatype Episode = Episode(legible: bool, run: Run, after: Cache, out: map<string, Memento>, written: bool)

  function Loaded(disk: Cache, e: Episode): Cache { if e.legible then disk else map[] }

  function DiskAfter(disk: Cache, e: Episode): Cache { if e.written then e.after else disk }

  ghost predicate History(disk: Cache, es: seq<Episode>)
    decreases es
  {
    es == [] || (Faithful(es[0].run, Loaded(disk, es[0]), es[0].after, es[0].out) &&
        History(DiskAfter(disk, es[0]), es[1..]))
  }

  function Disk(disk: Cache, es: seq<Episode>): Cache
    decreases es
  {
    if es == [] then disk else Disk(DiskAfter(disk, es[0]), es[1..])
  }

  /** Written back from a cache that could not be read. */
  predicate Overwrites(e: Episode) { !e.legible && e.written }

  /** A memento on disk survives every run of a history in which no unreadable cache is written over. */
  lemma {:induction false} MementosSurvive(disk: Cache, es: seq<Episode>, u: string)
    requires History(disk, es) && MementoAt(disk, u).Some?
    requires forall i :: 0 <= i < |es| ==> !Overwrites(es[i])
    ensures At(Disk(disk, es), u) == At(disk, u)
    decreases |es|
  {
    if es != [] {
      var e := es[0];
      if e.legible { MementosAreForever(e.run, disk, e.after, e.out, u); }
      assert At(DiskAfter(disk, e), u) == At(disk, u);
      assert MementoAt(DiskAfter(disk, e), u) == MementoAt(disk, u);
      MementosSurvive(DiskAfter(disk, e), es[1..], u);
    }
  }

  lemma {:induction false} NeverAskedNeverBack(disk: Cache, es: seq<Episode>, u: string)
    requires History(disk, es) && u !in disk
    requires forall i :: 0 <= i < |es| ==> u !in es[i].run.urls
    ensures u !in Disk(disk, es)
    decreases |es|
  {
    if es != [] {
      NotAskedNotTouched(disk, es[0], u);
      NeverAskedNeverBack(DiskAfter(disk, es[0]), es[1..], u);
    }
  }

  lemma NotAskedNotTouched(disk: Cache, e: Episode, u: string)
    requires Faithful(e.run, Loaded(disk, e), e.after, e.out) && u !in e.run.urls
    ensures At(e.after, u) == At(Loaded(disk, e), u)
  {
    var was := Loaded(disk, e);
    if VisitOf(e.run.visits, u).Some? { var i := VisitFound(e.run.visits, u); }
    assert At(e.after, u) == Settled(At(was, u), VisitOf(e.run.visits, u), SaveOf(e.run.saves, u), e.run.saveNew,
             e.run.now);
  }

  /**
   For a memento no later run asks about, the loss has exactly one cause: a run that could not read
   the cache and wrote its own over it.
   */
  lemma {:induction false} LostIffOverwritten(disk: Cache, es: seq<Episode>, u: string)
    requires History(disk, es) && MementoAt(disk, u).Some?
    requires forall i :: 0 <= i < |es| ==> u !in es[i].run.urls
    ensures MementoAt(Disk(disk, es), u) == MementoAt(disk, u) <==> forall i :: 0 <= i < |es| ==> !Overwrites(es[i])
    decreases |es|
  {
    if es != [] {
      var e := es[0];
      NotAskedNotTouched(disk, e, u);
      if Overwrites(e) {
        assert At(e.after, u) == None;
        NeverAskedNeverBack(DiskAfter(disk, e), es[1..], u);
      } else {
        assert At(DiskAfter(disk, e), u) == At(disk, u);
        LostIffOverwritten(DiskAfter(disk, e), es[1..], u);
        assert (forall i :: 0 <= i < |es| ==> !Overwrites(es[i])) <==>
                 (forall i :: 0 <= i < |es[1..]| ==> !Overwrites(es[1..][i])) by {
          assert forall i :: 0 < i < |es| ==> es[i] == es[1..][i - 1];
        }
      }
    }
  }

  /**
   Any memento can be lost that way: one run that cannot read the cache and looks for another URL is
   enough.
   */
  lemma MementoIsLost(url: string, m: Memento, other: string) returns (disk: Cache, e: Episode)
    requires StartsHttp(other) && other != url
    ensures MementoAt(disk, url) == Some(m) && History(disk, [e])
    ensures FirstRun(e.run, [other], 1, Loaded(disk, e), e.after)
    ensures url !in Disk(disk, [e])
  {
    disk := map[url := Entry(Some(m), 0.0)];
    var after := map[other := Entry(None, 0.0)];
    e := Episode(false, MuteRun(other, Status), after, map[], true);
    MuteVisitIsProper(other, Status);
    OneVisitRun(MuteVisit(other, Status), e.run);
    assert [e][1..] == [] && Disk(after, []) == after;
  }

  // ---- the module itself -------------------------------------------------------------------

  /** Lookups never come closer together than the minimum interval, whatever the service or the URL. */
  ghost predicate Paced(log: seq<Call>) {
    forall i, j :: 0 <= i < j < |log| && log[i].Look? && log[j].Look? ==> log[j].at - log[i].at >= MIN_INTERVAL
  }

  /** The calls of a run, lookups first. */
  function Asked(vs: seq<Visit>): seq<Call> {
    if vs == [] then [] else Asked(vs[..|vs| - 1]) + vs[|vs| - 1].Calls()
  }

  // ---- the two passes, step by step --------------------------------------------------------

  predicate Unique(urls: seq<string>) { forall i, j :: 0 <= i < j < |urls| ==> urls[i] != urls[j] }

  lemma NextUrl(urls: seq<string>, k: nat)
    requires Unique(urls) && k < |urls|
    ensures urls[k] !in urls[..k] && urls[..k + 1] == urls[..k] + [urls[k]]
  {
    assert forall j :: 0 <= j < k ==> urls[..k][j] == urls[j];
  }

  ghost predicate VisitsProper(vs: seq<Visit>, urls: seq<string>, before: Cache, now: real) {
    && (forall i :: 0 <= i < |vs| ==> vs[i].Proper() && vs[i].Url() in urls && Wanted(before, now, vs[i].Url()))
    && (forall i :: 0 <= i < |vs| - 1 ==> !vs[i].Unanswered())
  }

  ghost predicate AllCovered(vs: seq<Visit>, urls: seq<string>, before: Cache, now: real) {
    forall u :: u in urls && Wanted(before, now, u) && VisitOf(vs, u).None? ==> vs != [] && vs[|vs| - 1].Unanswered()
  }

  /** The entry after the first pass. */
  function AfterLook(was: Option<Entry>, v: Option<Visit>, now: real): Option<Entry> {
    if v.Some? && v.value.Found().Some? then Some(Entry(v.value.Found(), now)) else was
  }

  ghost predicate Looked(vs: seq<Visit>, before: Cache, cache: Cache, now: real) {
    forall u :: At(cache, u) == AfterLook(At(before, u), VisitOf(vs, u), now)
  }

  ghost predicate Misses(vs: seq<Visit>, misses: seq<string>) {
    Unique(misses) && forall u :: u in misses <==> VisitOf(vs, u).Some? && VisitOf(vs, u).value.Missed()
  }

  lemma Unvisited(vs: seq<Visit>, urls: seq<string>, before: Cache, now: real, u: string)
    requires VisitsProper(vs, urls, before, now) && u !in urls
    ensures VisitOf(vs, u).None?
  {
    if VisitOf(vs, u).Some? { var i := VisitFound(vs, u); }
  }

  lemma VisitsSnoc(vs: seq<Visit>, v: Visit)
    ensures forall u :: VisitOf(vs + [v], u) == if u == v.Url() then Some(v) else VisitOf(vs, u)
    ensures Asked(vs + [v]) == Asked(vs) + v.Calls()
  {
    assert (vs + [v])[..|vs|] == vs;
  }

  /** The map to return: the memento of every URL taken on so far. */
  ghost predicate Answers(out: map<string, Memento>, urls: seq<string>, cache: Cache) {
    forall u :: At(out, u) == if u in urls then MementoAt(cache, u) else None
  }

  predicate Refusing(vs: seq<Visit>) { vs != [] && vs[|vs| - 1].Unanswered() }

  predicate Hit(vs: seq<Visit>) { exists i :: 0 <= i < |vs| && vs[i].Found().Some? }

  /** A URL that is not asked about: it has a memento, or failed recently, or the lookups have stopped. */
  lemma PassOver(vs: seq<Visit>, urls: seq<string>, before: Cache, now: real, cache: Cache,
      out: map<string, Memento>, u: string)
    requires u !in urls && VisitOf(vs, u).None?
    requires VisitsProper(vs, urls, before, now) && AllCovered(vs, urls, before, now)
    requires Looked(vs, before, cache, now) && Answers(out, urls, cache)
    requires !Wanted(before, now, u) || Refusing(vs)
    ensures VisitsProper(vs, urls + [u], before, now) && AllCovered(vs, urls + [u], before, now)
    ensures Answers(if MementoAt(cache, u).Some? then out[u := cache[u].memento.value] else out, urls + [u], cache)
  {
    assert At(out, u) == None;
  }

  lemma TakeOnProper(vs: seq<Visit>, urls: seq<string>, before: Cache, now: real, v: Visit)
    requires v.Proper() && Wanted(before, now, v.Url()) && !Refusing(vs) && VisitsProper(vs, urls, before, now)
    ensures VisitsProper(vs + [v], urls + [v.Url()], before, now)
  {
    var more := vs + [v];
    forall i | 0 <= i < |more|
      ensures more[i].Proper() && more[i].Url() in urls + [v.Url()] && Wanted(before, now, more[i].Url())
      ensures i < |more| - 1 ==> !more[i].Unanswered()
    {
      if i < |vs| { assert more[i] == vs[i]; }
    }
  }

  lemma TakeOnCovered(vs: seq<Visit>, urls: seq<string>, before: Cache, now: real, v: Visit)
    requires !Refusing(vs) && AllCovered(vs, urls, before, now)
    ensures AllCovered(vs + [v], urls + [v.Url()], before, now)
  {
    VisitsSnoc(vs, v);
    assert forall u :: VisitOf(vs + [v], u).None? ==> VisitOf(vs, u).None? && u != v.Url();
  }

  lemma TakeOnHit(vs: seq<Visit>, v: Visit)
    ensures Hit(vs + [v]) == (Hit(vs) || v.Found().Some?)
  {
    assert (vs + [v])[|vs|] == v;
    assert forall i :: 0 <= i < |vs| ==> (vs + [v])[i] == vs[i];
  }

  lemma TakeOnMisses(vs: seq<Visit>, misses: seq<string>, v: Visit)
    requires VisitOf(vs, v.Url()).None? && Misses(vs, misses)
    ensures Misses(vs + [v], if v.Missed() then misses + [v.Url()] else misses)
  {
    VisitsSnoc(vs, v);
    assert v.Url() !in misses;
  }

  lemma TakeOnCache(vs: seq<Visit>, urls: seq<string>, before: Cache, now: real, cache: Cache,
      out: map<string, Memento>, v: Visit)
    requires v.Url() !in urls && VisitOf(vs, v.Url()).None? && Wanted(before, now, v.Url())
    requires Looked(vs, before, cache, now) && Answers(out, urls, cache)
    ensures v.Found().None? ==> Looked(vs + [v], before, cache, now) && Answers(out, urls + [v.Url()], cache)
    ensures v.Found().Some? ==>
              var after := cache[v.Url() := Entry(v.Found(), now)];
              Looked(vs + [v], before, after, now) && Answers(out[v.Url() := v.Found().value], urls + [v.Url()], after)
  {
    VisitsSnoc(vs, v);
    var u := v.Url();
    assert At(cache, u) == AfterLook(At(before, u), None, now) == At(before, u);
    assert At(out, u) == None;
    assert MementoAt(cache, u) == None;
  }

  /** Whether the fallback is switched off after these visits. */
  predicate Fuse(vs: seq<Visit>, blown: bool) { if vs == [] then blown else vs[|vs| - 1].FusedAfter() }

  /** Every visit starts with the fuse as the one before left it. */
  predicate Chained(vs: seq<Visit>, blown: bool) {
    vs == [] || (Chained(vs[..|vs| - 1], blown) && vs[|vs| - 1].first.fused == Fuse(vs[..|vs| - 1], blown))
  }

  lemma ChainedSnoc(vs: seq<Visit>, blown: bool, v: Visit)
    requires Chained(vs, blown) && v.first.fused == Fuse(vs, blown)
    ensures Chained(vs + [v], blown) && Fuse(vs + [v], blown) == v.FusedAfter()
  {
    assert (vs + [v])[..|vs|] == vs;
  }

  /** Once the fallback has stayed silent through its whole ladder it is never asked again. */
  lemma {:induction false} FuseStaysBlown(vs: seq<Visit>, blown: bool, i: nat, j: nat)
    requires Chained(vs, blown) && i < j < |vs| && (forall k :: 0 <= k < |vs| ==> vs[k].Proper())
    requires vs[i].FusedAfter()
    ensures vs[j].first.fallback == [] && (vs[j].second.Some? ==> vs[j].second.value.fallback == []) &&
              vs[j].FusedAfter()
    decreases |vs|, j
  {
    var front := vs[..|vs| - 1];
    if j < |vs| - 1 {
      FuseStaysBlown(front, blown, i, j);
    } else if i < j - 1 {
      FuseStaysBlown(front, blown, i, j - 1);
    }
    assert vs[j].Proper();
  }

  lemma AskedSnoc(start: seq<Call>, vs: seq<Visit>, v: Visit)
    ensures start + Asked(vs) + v.Calls() == start + Asked(vs + [v])
  {
    VisitsSnoc(vs, v);
    assert start + Asked(vs) + v.Calls() == start + (Asked(vs) + v.Calls());
  }

  lemma BothCalls(start: seq<Call>, first: Lookup, second: Lookup)
    ensures start + first.Calls() + second.Calls() == start + Visit(first, Some(second)).Calls()
  {
    assert Visit(first, Some(second)).Calls() == first.Calls() + second.Calls();
    assert start + first.Calls() + second.Calls() == start + (first.Calls() + second.Calls());
  }

  /** Where the first pass has got to. */
  datatype Pass = Pass(cache: Cache, out: map<string, Memento>, misses: seq<string>, dirty: bool, limited: bool) {
    ghost predicate Good(vs: seq<Visit>, before: Cache, now: real, urls: seq<string>) {
      && VisitsProper(vs, urls, before, now) && AllCovered(vs, urls, before, now)
      && Looked(vs, before, cache, now) && Misses(vs, misses) && Answers(out, urls, cache)
      && limited == Refusing(vs) && dirty == Hit(vs)
    }

    function PassedOver(u: string): Pass {
      if MementoAt(cache, u).Some? then this.(out := out[u := cache[u].memento.value]) else this
    }

    function Took(v: Visit, now: real): Pass {
      if v.Found().Some? then
        Pass(cache[v.Url() := Entry(v.Found(), now)], out[v.Url() := v.Found().value], misses, true, v.Unanswered())
      else if v.Unanswered() then this.(limited := true)
      else this.(misses := misses + [v.Url()], limited := false)
    }
  }

  lemma PassOverKeeps(p: Pass, vs: seq<Visit>, before: Cache, now: real, urls: seq<string>, u: string)
    requires p.Good(vs, before, now, urls) && u !in urls && (!Wanted(p.cache, now, u) || p.limited)
    ensures p.PassedOver(u).Good(vs, before, now, urls + [u])
  {
    Unvisited(vs, urls, before, now, u);
    assert At(p.cache, u) == AfterLook(At(before, u), VisitOf(vs, u), now) == At(before, u);
    PassOver(vs, urls, before, now, p.cache, p.out, u);
  }

  lemma TakeOnKeeps(p: Pass, vs: seq<Visit>, before: Cache, now: real, urls: seq<string>, v: Visit)
    requires p.Good(vs, before, now, urls) && v.Proper() && v.Url() !in urls && Wanted(p.cache, now, v.Url()) &&
               !p.limited
    ensures p.Took(v, now).Good(vs + [v], before, now, urls + [v.Url()])
    ensures Asked(vs + [v]) == Asked(vs) + v.Calls()
  {
    Unvisited(vs, urls, before, now, v.Url());
    assert At(p.cache, v.Url()) == AfterLook(At(before, v.Url()), VisitOf(vs, v.Url()), now) == At(before, v.Url());
    FoundIsAnswered(v);
    VisitsSnoc(vs, v);
    TakeOnProper(vs, urls, before, now, v);
    TakeOnCovered(vs, urls, before, now, v);
    TakeOnCache(vs, urls, before, now, p.cache, p.out, v);
    TakeOnMisses(vs, p.misses, v);
    TakeOnHit(vs, v);
  }

  /** The fixed surroundings of the second pass. */
  datatype Saver = Saver(first: Pass, urls: seq<string>, saveNew: bool, now: real, start: real, budget: real) {
    ghost predicate Good(p: Pass, ks: seq<Call>, done: seq<string>) {
      && Ledger(ks, done)
      && (forall u :: At(p.cache, u) == AfterSave(At(first.cache, u), u in done, SaveOf(ks, u), saveNew, now))
      && Answers(p.out, urls, p.cache)
      && (forall u :: u in done ==> MementoAt(first.cache, u).None?)
      && p.limited == Stops(ks) && p.dirty == (first.dirty || ks != [] || (!saveNew && done != []))
    }

    /** What was sent to be saved: only misses, within the budget, and nothing after a stop. */
    ghost predicate Ledger(ks: seq<Call>, done: seq<string>) {
      && (forall i :: 0 <= i < |ks| ==> ks[i].Keep? && ks[i].url in done && ks[i].at - start < budget)
      && (forall i :: 0 < i < |ks| ==> !Stops(ks[..i]))
      && (ks != [] ==> saveNew)
    }

    lemma LedgerGrows(ks: seq<Call>, done: seq<string>, k: Call)
      requires Ledger(ks, done) && k.Keep? && saveNew && !Stops(ks) && k.at - start < budget
      ensures Ledger(ks + [k], done + [k.url])
    {
      SaveSnoc(ks, k);
    }

    /** Some miss was left unsaved. */
    ghost predicate Short(ks: seq<Call>, done: seq<string>) {
      exists u :: u in done && saveNew && SaveOf(ks, u).None?
    }

    function Settle(p: Pass, u: string, memento: Option<Memento>, limited: bool): Pass {
      Pass(p.cache[u := Entry(memento, now)],
          if memento.Some? then p.out[u := memento.value] else p.out, p.misses, true, limited)
    }

    lemma Unsaved(p: Pass, ks: seq<Call>, done: seq<string>, u: string)
      requires Good(p, ks, done) && u !in done
      ensures SaveOf(ks, u).None? && At(p.cache, u) == At(first.cache, u)
    {
      if SaveOf(ks, u).Some? { var i := SaveFound(ks, u); }
    }

    lemma SavedKeeps(p: Pass, ks: seq<Call>, done: seq<string>, k: Call)
      requires Good(p, ks, done) && k.Keep? && k.url !in done && k.url in urls && saveNew && !p.limited &&
                 k.at - start < budget
      requires MementoAt(first.cache, k.url).None?
      ensures Good(Settle(p, k.url, Kept(k), Stops(ks + [k])), ks + [k], done + [k.url])
      ensures Short(ks + [k], done + [k.url]) ==> Short(ks, done)
    {
      Unsaved(p, ks, done, k.url);
      LedgerGrows(ks, done, k);
      SaveSnoc(ks, k);
      assert At(p.out, k.url) == None;
    }

    lemma DeferredKeeps(p: Pass, ks: seq<Call>, done: seq<string>, u: string)
      requires Good(p, ks, done) && saveNew && u !in done && MementoAt(first.cache, u).None?
      ensures Good(p, ks, done + [u])
    {
      Unsaved(p, ks, done, u);
    }

    lemma MissedKeeps(p: Pass, ks: seq<Call>, done: seq<string>, u: string)
      requires Good(p, ks, done) && !saveNew && u !in done && u in urls && MementoAt(first.cache, u).None?
      ensures Good(Settle(p, u, None, p.limited), ks, done + [u])
    {
      Unsaved(p, ks, done, u);
      assert At(p.out, u) == None;
    }
  }

  function AfterSave(was: Option<Entry>, done: bool, k: Option<Call>, saveNew: bool, now: real): Option<Entry> {
    if !done || (saveNew && k.None?) then was else if !saveNew then Some(Entry(None, now))
        else Some(Entry(Kept(k.value), now))
  }

  lemma {:induction false} SaveFound(ks: seq<Call>, u: string) returns (i: nat)
    requires SaveOf(ks, u).Some?
    ensures i < |ks| && ks[i].url == u && ks[i] == SaveOf(ks, u).value
    decreases |ks|
  {
    i := |ks| - 1;
    if ks[i].url != u { i := SaveFound(ks[..i], u); }
  }

  lemma SaveSnoc(ks: seq<Call>, k: Call)
    requires k.Keep?
    ensures forall u :: SaveOf(ks + [k], u) == if u == k.url then Some(k) else SaveOf(ks, u)
    ensures Streak(ks + [k]) == StreakAfter(Streak(ks), k.saving) && Stops(ks + [k]) == StopsAt(Streak(ks), k.saving)
    ensures forall i :: 0 < i <= |ks| ==> (ks + [k])[..i] == ks[..i]
    ensures ks[..|ks|] == ks
  {
    assert (ks + [k])[..|ks|] == ks;
  }

  ghost predicate Ready(p: Pass, urls: seq<string>) {
    && Unique(p.misses) && Answers(p.out, urls, p.cache)
    && forall u :: u in p.misses ==> u in urls && MementoAt(p.cache, u).None?
  }

  lemma MissesReady(p: Pass, vs: seq<Visit>, before: Cache, now: real, urls: seq<string>)
    requires p.Good(vs, before, now, urls)
    ensures Ready(p, urls)
  {
    forall u | u in p.misses ensures u in urls && MementoAt(p.cache, u).None? {
      var i := VisitFound(vs, u);
      assert At(p.cache, u) == AfterLook(At(before, u), VisitOf(vs, u), now);
    }
  }

  /** The two passes together do exactly what the account of the run says. */
  lemma RunIsFaithful(r: Run, before: Cache, p: Pass, s: Saver, q: Pass)
    requires p.Good(r.visits, before, r.now, r.urls) && s.Good(q, r.saves, p.misses)
    requires s == Saver(p, r.urls, r.saveNew, r.now, r.saveStart, r.budget)
    requires s.Short(r.saves, p.misses) ==> Stops(r.saves) || r.saveEnd - r.saveStart >= r.budget
    ensures Faithful(r, before, q.cache, q.out)
  {
    forall u ensures Owed(r, u) ==> Stops(r.saves) || r.saveEnd - r.saveStart >= r.budget {
      if Owed(r, u) { assert u in p.misses; }
    }
    forall u ensures At(q.cache, u)
        == Settled(At(before, u), VisitOf(r.visits, u), SaveOf(r.saves, u), r.saveNew, r.now) {
      SettledInTwo(r, before, p, s, q, u);
    }
  }

  lemma SettledInTwo(r: Run, before: Cache, p: Pass, s: Saver, q: Pass, u: string)
    requires p.Good(r.visits, before, r.now, r.urls) && s.Good(q, r.saves, p.misses)
    requires s == Saver(p, r.urls, r.saveNew, r.now, r.saveStart, r.budget)
    ensures At(q.cache, u) == Settled(At(before, u), VisitOf(r.visits, u), SaveOf(r.saves, u), r.saveNew, r.now)
  {
    var v := VisitOf(r.visits, u);
    assert At(p.cache, u) == AfterLook(At(before, u), v, r.now);
    assert u in p.misses <==> v.Some? && v.value.Missed();
    if v.Some? {
      var i := VisitFound(r.visits, u);
      FoundIsAnswered(v.value);
    }
  }

  lemma CleanRunKeeps(before: Cache, p: Pass, s: Saver, q: Pass, vs: seq<Visit>, ks: seq<Call>)
    requires Looked(vs, before, p.cache, s.now) && p.dirty == Hit(vs) && s.first == p && s.Good(q, ks, p.misses) &&
               !q.dirty
    ensures q.cache == before
  {
    forall u ensures At(q.cache, u) == At(before, u) {
      if VisitOf(vs, u).Some? { var i := VisitFound(vs, u); }
    }
    SameMap(q.cache, before);
  }

  lemma SameMap(a: Cache, b: Cache)
    requires forall u :: At(a, u) == At(b, u)
    ensures a == b
  {
    assert forall u :: u in a <==> At(a, u).Some?;
    assert forall u :: u in b <==> At(b, u).Some?;
    assert forall u :: u in a ==> At(a, u) == Some(a[u]);
    assert forall u :: u in b ==> At(b, u) == Some(b[u]);
  }

  class Archiver {
    const net: nat -> Answer
    var turn: nat
    var clock: real
    var lastCall: real
    var availBlocked: bool
    var saveTimeouts: nat
    var disk: Cache
    ghost var log: seq<Call>

    ghost predicate Valid() reads this {
      && lastCall <= clock
      && Paced(log)
      && forall i :: 0 <= i < |log| && log[i].Look? ==> log[i].at <= lastCall
    }

    constructor (net: nat -> Answer, clock: real, disk: Cache)
      requires clock >= 0.0
      ensures Valid() && this.net == net && this.disk == disk && log == [] && !availBlocked && saveTimeouts == 0
    {
      this.net := net;
      this.disk := disk;
      this.clock := clock;
      turn, lastCall, availBlocked, saveTimeouts := 0, 0.0, false, 0;
      log := [];
    }

    /** One request, held back until the minimum interval has passed. */
    method Request(service: Service, url: string) returns (reply: Reply, ghost call: Call)
      requires Valid()
      modifies `turn, `clock, `lastCall, `log
      ensures Valid() && log == old(log) + [call] && call == Look(service, url, lastCall, reply)
      ensures lastCall >= old(clock) && lastCall >= old(lastCall) + MIN_INTERVAL
    {
      var gap := MIN_INTERVAL - (clock - lastCall);
      if gap > 0.0 { clock := clock + gap; }
      lastCall := clock;
      reply := net(turn).reply;
      clock := clock + net(turn).took;
      turn := turn + 1;
      call := Look(service, url, lastCall, reply);
      log := log + [call];
    }

    /** One paced GET, retried on silence with ever longer waits. */
    method PacedGet(service: Service, url: string)
        returns (memento: Option<Memento>, unanswered: bool, ghost calls: seq<Call>)
      requires Valid()
      modifies `turn, `clock, `lastCall, `log
      ensures Valid() && clock >= old(clock) && log == old(log) + calls
      ensures Ladder(calls, service, url) && Rising(calls)
      ensures memento == LastMemento(calls) && unanswered == LastSilent(calls)
    {
      calls := [];
      var attempt := 0;
      while true
        invariant Valid() && clock >= old(clock) && log == old(log) + calls
        invariant attempt == |calls| <= 3 && Rising(calls)
        invariant Climbing(calls, service, url)
        invariant calls != [] ==> clock - calls[|calls| - 1].at >= Backoff(|calls| - 1).value
        decreases 4 - attempt
      {
        ghost var call;
        var reply;
        reply, call := Request(service, url);
        ClimbOn(calls, service, url, call);
        calls := calls + [call];
        var backoff := Backoff(attempt);
        match reply {
          case Limited(retryAfter) =>
            if backoff.None? { return None, true, calls; }
            clock := clock + Wait(retryAfter, backoff.value);
          case TimedOut =>
            if backoff.None? { return None, true, calls; }
            clock := clock + backoff.value;
          case Status => return None, false, calls;
          case Unparsable => return None, false, calls;
          case Errored => return None, false, calls;
          case Empty => return None, false, calls;
          case Captured(m) => return Some(m), false, calls;
        }
        attempt := attempt + 1;
      }
    }

    /** CDX first; the availability API after a miss, until it has exhausted its ladder once in this process. */
    method LookUp(url: string) returns (memento: Option<Memento>, unanswered: bool, ghost lookup: Lookup)
      requires Valid()
      modifies `turn, `clock, `lastCall, `log, `availBlocked
      ensures Valid() && clock >= old(clock) && log == old(log) + lookup.Calls()
      ensures lookup.Proper() && lookup.url == url && lookup.fused == old(availBlocked) &&
                availBlocked == lookup.FusedAfter()
      ensures memento == lookup.Found() && unanswered == lookup.Unanswered() && (memento.Some? ==> !unanswered)
    {
      var cdxUnanswered;
      ghost var cdx, fallback;
      memento, cdxUnanswered, cdx := PacedGet(Cdx, url);
      lookup := Lookup(url, availBlocked, cdx, []);
      if memento.Some? { return memento, false, lookup; }
      var availUnanswered := true;
      if !availBlocked {
        memento, availUnanswered, fallback := PacedGet(Availability, url);
        lookup := lookup.(fallback := fallback);
        assert log == old(log) + lookup.Calls();
        if memento.Some? { return memento, false, lookup; }
        if availUnanswered { availBlocked := true; }
      }
      return None, cdxUnanswered && availUnanswered, lookup;
    }

    /** The URL, then its other slash form unless the first question went unanswered. */
    method Snapshot(url: string) returns (memento: Option<Memento>, limited: bool, ghost visit: Visit)
      requires Valid()
      modifies `turn, `clock, `lastCall, `log, `availBlocked
      ensures Valid() && clock >= old(clock) && log == old(log) + visit.Calls()
      ensures visit.Proper() && visit.Url() == url && visit.first.fused == old(availBlocked) &&
                availBlocked == visit.FusedAfter()
      ensures memento == visit.Found() && limited == visit.Unanswered()
    {
      ghost var first, second;
      memento, limited, first := LookUp(url);
      visit := Visit(first, None);
      assert visit.Calls() == first.Calls();
      if memento.Some? { return memento, false, visit; }
      if limited { return None, true, visit; }
      var alt := OtherForm(url);
      if Slashes(alt) < 3 { return None, false, visit; }
      memento, limited, second := LookUp(alt);
      visit := Visit(first, Some(second));
      BothCalls(old(log), first, second);
    }

    /** One capture request, and whether to stop asking for more. */
    method SaveSnapshot(url: string) returns (memento: Option<Memento>, limited: bool, ghost call: Call)
      requires Valid()
      modifies `turn, `clock, `saveTimeouts, `log
      ensures Valid() && clock >= old(clock) && log == old(log) + [call]
      ensures call.Keep? && call.url == url && call.at == old(clock) && memento == Kept(call)
      ensures saveTimeouts == StreakAfter(old(saveTimeouts), call.saving) &&
                limited == StopsAt(old(saveTimeouts), call.saving)
    {
      var saving := net(turn).saving;
      call := Keep(url, clock, saving);
      log := log + [call];
      clock := clock + net(turn).took;
      turn := turn + 1;
      if saving.SaveTimedOut? {
        saveTimeouts := saveTimeouts + 1;
        return None, saveTimeouts >= SAVE_TIMEOUT_FUSE, call;
      }
      if saving.Broken? { return None, false, call; }
      saveTimeouts := 0;
      if saving.SaveLimited? { return None, true, call; }
      if saving.Declined? { return None, false, call; }
      return Some(saving.memento), false, call;
    }

    /** Asks about one URL, and files the answer. */
    method AskOne(p: Pass, now: real, url: string) returns (q: Pass, ghost visit: Visit)
      requires Valid()
      modifies `turn, `clock, `lastCall, `log, `availBlocked
      ensures Valid() && clock >= old(clock) && log == old(log) + visit.Calls()
      ensures visit.Proper() && visit.Url() == url && q == p.Took(visit, now)
      ensures visit.first.fused == old(availBlocked) && availBlocked == visit.FusedAfter()
    {
      var memento, limited;
      memento, limited, visit := Snapshot(url);
      if memento.None? && limited { return p.(limited := true), visit; }
      if memento.Some? {
        q := Pass(p.cache[url := Entry(memento, now)], p.out[url := memento.value], p.misses, true, limited);
      } else {
        q := p.(misses := p.misses + [url], limited := limited);
      }
    }

    /** One URL of the first pass. */
    method LookOne(p: Pass, ghost start: seq<Call>, ghost blown: bool, ghost visits: seq<Visit>, ghost before: Cache,
        ghost seen: seq<string>, now: real, url: string)
      returns (q: Pass, ghost more: seq<Visit>)
      requires Valid() && url !in seen && p.Good(visits, before, now, seen) && log == start + Asked(visits)
      requires Chained(visits, blown) && availBlocked == Fuse(visits, blown)
      modifies `turn, `clock, `lastCall, `log, `availBlocked
      ensures Valid() && clock >= old(clock)
      ensures q.Good(more, before, now, seen + [url]) && log == start + Asked(more)
      ensures Chained(more, blown) && availBlocked == Fuse(more, blown)
    {
      if url in p.cache && p.cache[url].memento.Some? {
        PassOverKeeps(p, visits, before, now, seen, url);
        return p.(out := p.out[url := p.cache[url].memento.value]), visits;
      }
      if (url in p.cache && now - p.cache[url].ts < FAILURE_TTL) || p.limited {
        PassOverKeeps(p, visits, before, now, seen, url);
        return p, visits;
      }
      ghost var visit;
      q, visit := AskOne(p, now, url);
      TakeOnKeeps(p, visits, before, now, seen, visit);
      AskedSnoc(start, visits, visit);
      ChainedSnoc(visits, blown, visit);
      more := visits + [visit];
    }

    /** First pass: look up every URL that is wanted, until a lookup goes unanswered. */
    method LookPass(before: Cache, urls: seq<string>, now: real) returns (p: Pass, ghost visits: seq<Visit>)
      requires Valid() && Unique(urls)
      modifies `turn, `clock, `lastCall, `log, `availBlocked
      ensures Valid() && clock >= old(clock) && log == old(log) + Asked(visits)
      ensures p.Good(visits, before, now, urls)
      ensures Chained(visits, old(availBlocked)) && availBlocked == Fuse(visits, old(availBlocked))
    {
      p, visits := Pass(before, map[], [], false, false), [];
      for k := 0 to |urls|
        invariant Valid() && clock >= old(clock) && log == old(log) + Asked(visits)
        invariant p.Good(visits, before, now, urls[..k])
        invariant Chained(visits, old(availBlocked)) && availBlocked == Fuse(visits, old(availBlocked))
      {
        NextUrl(urls, k);
        p, visits := LookOne(p, old(log), old(availBlocked), visits, before, urls[..k], now, urls[k]);
      }
      assert urls[..|urls|] == urls;
    }

    /** One miss of the second pass. */
    method SaveOne(p: Pass, ghost s: Saver, ghost start: seq<Call>, ghost ks: seq<Call>, ghost done: seq<string>,
        saveNew: bool, outOfBudget: bool, now: real, url: string)
      returns (q: Pass, ghost more: seq<Call>)
      requires Valid() && url in s.urls && url !in done && s.Good(p, ks, done) && s.saveNew == saveNew && s.now == now
      requires MementoAt(s.first.cache, url).None? && log == start + ks && saveTimeouts == Streak(ks) &&
                 outOfBudget == (clock - s.start >= s.budget)
      modifies `turn, `clock, `saveTimeouts, `log
      ensures Valid() && clock >= old(clock) && saveTimeouts == Streak(more)
      ensures log == start + more
      ensures p.limited ==> q.limited
      ensures s.Good(q, more, done + [url]) &&
                (s.Short(more, done + [url]) ==> s.Short(ks, done) || p.limited || outOfBudget)
    {
      var memento: Option<Memento> := None;
      q, more := p, ks;
      if saveNew && !p.limited && !outOfBudget {
        var limited;
        ghost var call;
        memento, limited, call := SaveSnapshot(url);
        SaveSnoc(ks, call);
        assert start + ks + [call] == start + (ks + [call]);
        s.SavedKeeps(p, ks, done, call);
        more := ks + [call];
        q := p.(limited := limited);
      } else if saveNew {
        s.DeferredKeeps(p, ks, done, url);
        return;
      } else {
        s.MissedKeeps(p, ks, done, url);
      }
      q := Pass(p.cache[url := Entry(memento, now)], p.out, p.misses, true, q.limited);
      if memento.Some? { q := q.(out := p.out[url := memento.value]); }
    }

    /** Second pass: capture what the lookups missed, until told to stop or out of time. */
    method SavePass(p: Pass, urls: seq<string>, saveNew: bool, now: real, budget: real)
      returns (q: Pass, ghost s: Saver, ghost ks: seq<Call>)
      requires Valid() && saveTimeouts == 0 && Ready(p, urls)
      modifies `turn, `clock, `saveTimeouts, `log
      ensures Valid() && clock >= old(clock) && log == old(log) + ks
      ensures s == Saver(p, urls, saveNew, now, old(clock), budget) && s.Good(q, ks, p.misses)
      ensures s.Short(ks, p.misses) ==> Stops(ks) || clock - s.start >= budget
    {
      var started := clock;
      s, ks := Saver(p, urls, saveNew, now, started, budget), [];
      q := p.(limited := false);
      for k := 0 to |p.misses|
        invariant Valid() && clock >= started && log == old(log) + ks && saveTimeouts == Streak(ks)
        invariant s.Good(q, ks, p.misses[..k])
        invariant s.Short(ks, p.misses[..k]) ==> q.limited || clock - started >= budget
      {
        NextUrl(p.misses, k);
        assert p.misses[k] in p.misses;
        q, ks := SaveOne(q, s, old(log), ks, p.misses[..k], saveNew, clock - started >= budget, now, p.misses[k]);
      }
      assert p.misses[..|p.misses|] == p.misses;
    }

    /** Both passes over one cache. */
    method RunOver(before: Cache, urls: seq<string>, saveNew: bool, now: real, budget: real)
        returns (q: Pass, ghost run: Run)
      requires Valid() && Unique(urls) && saveTimeouts == 0
      modifies `turn, `clock, `lastCall, `log, `availBlocked, `saveTimeouts
      ensures Valid() && run.urls == urls && run.saveNew == saveNew && run.now == now && run.budget == budget
      ensures Faithful(run, before, q.cache, q.out) && (!q.dirty ==> q.cache == before)
      ensures log == old(log) + Asked(run.visits) + run.saves
      ensures Chained(run.visits, old(availBlocked)) && availBlocked == Fuse(run.visits, old(availBlocked))
    {
      ghost var visits, s, ks;
      var p;
      p, visits := LookPass(before, urls, now);
      MissesReady(p, visits, before, now, urls);
      ghost var start := clock;
      q, s, ks := SavePass(p, urls, saveNew, now, budget);
      run := Run(urls, saveNew, now, budget, visits, ks, start, clock);
      RunIsFaithful(run, before, p, s, q);
      if !q.dirty { CleanRunKeeps(before, p, s, q, visits, ks); }
    }

    /** A whole run: the mementos of the chosen URLs, and the cache as it is now on disk. */
    method ArchiveUrls(urls: seq<string>, maxUrls: nat, saveNew: bool, now: real, budget: real, legible: bool,
        writable: bool)
      returns (out: map<string, Memento>, ghost e: Episode)
      requires Valid()
      modifies this
      ensures Valid() && e.run.urls == Chosen(urls, maxUrls) && e.legible == legible && e.out == out
      ensures e.run.saveNew == saveNew && e.run.now == now && e.run.budget == budget
      ensures Faithful(e.run, Loaded(old(disk), e), e.after, out)
      ensures disk == DiskAfter(old(disk), e) && (e.written ==> writable)
      ensures legible && writable ==> disk == e.after
      ensures log == old(log) + Asked(e.run.visits) + e.run.saves
      ensures Chained(e.run.visits, old(availBlocked)) && availBlocked == Fuse(e.run.visits, old(availBlocked))
    {
      saveTimeouts := 0;
      var before := if legible then disk else map[];
      var chosen := Distinct(urls);
      if |chosen| > maxUrls { chosen := chosen[..maxUrls]; }
      var q;
      ghost var run;
      q, run := RunOver(before, chosen, saveNew, now, budget);
      out := q.out;
      e := Episode(legible, run, q.cache, out, q.dirty && writable);
      if q.dirty && writable { disk := q.cache; }
    }
  }
}
