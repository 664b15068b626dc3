/**
 Exhausted families from prospector/denylist.py: kills clustered greedily around leaders, and
 the clusters that are large and have no survivor reported, most dead first.
 */
module Denylist {
  import Dedup

  /** An index row; `created` stands for the creation stamp, in its order. */
  datatype Row = Row(gate: string, title: string, oneLiner: string, created: int)

  datatype Rules = Rules(lower: string -> string, stop: set<string>, gates: set<string>, minSize: int, threshold: real)

  function Tokens(rules: Rules, r: Row): set<string> {
    Dedup.ContentTokens(rules.stop, rules.lower(r.title + " " + r.oneLiner))
  }

  predicate Near(rules: Rules, a: set<string>, b: set<string>) { Dedup.Jaccard(a, b) >= rules.threshold }

  predicate Eligible(rules: Rules, r: Row) { r.gate in rules.gates && Tokens(rules, r) != {} }

  function EligibleRows(rules: Rules, rows: seq<Row>): (r: seq<Row>)
    ensures forall x :: x in r <==> x in rows && Eligible(rules, x)
  {
    if rows == [] then []
    else if Eligible(rules, rows[0]) then [rows[0]] + EligibleRows(rules, rows[1..])
    else EligibleRows(rules, rows[1..])
  }

  // ---- newest first ------------------------------------------------------------------------

  predicate NewestFirst(rows: seq<Row>) { forall i, j :: 0 <= i < j < |rows| ==> rows[i].created >= rows[j].created }

  /** Equal stamps keep their order. */
  function Insert(x: Row, rows: seq<Row>): seq<Row> {
    if rows == [] || x.created >= rows[0].created then [x] + rows else [rows[0]] + Insert(x, rows[1..])
  }

  function Sort(rows: seq<Row>): seq<Row> {
    if rows == [] then [] else Insert(rows[0], Sort(rows[1..]))
  }

  lemma {:induction false} InsertPermutes(x: Row, rows: seq<Row>)
    ensures multiset(Insert(x, rows)) == multiset(rows) + multiset{x}
    ensures forall r :: r in Insert(x, rows) <==> r == x || r in rows
    decreases |rows|
  {
    if rows == [] || x.created >= rows[0].created {
      assert [x] + rows == Insert(x, rows);
    } else {
      InsertPermutes(x, rows[1..]);
      assert rows == [rows[0]] + rows[1..];
    }
  }

  lemma {:induction false} InsertSorts(x: Row, rows: seq<Row>)
    requires NewestFirst(rows)
    ensures NewestFirst(Insert(x, rows))
    decreases |rows|
  {
    if rows != [] && x.created < rows[0].created {
      InsertSorts(x, rows[1..]);
      InsertPermutes(x, rows[1..]);
      var t := Insert(x, rows[1..]);
      assert forall j :: 0 <= j < |t| ==> t[j] == x || t[j] in rows[1..];
    }
  }

  lemma {:induction false} SortSorts(rows: seq<Row>)
    ensures NewestFirst(Sort(rows)) && multiset(Sort(rows)) == multiset(rows)
    decreases |rows|
  {
    if rows != [] {
      SortSorts(rows[1..]);
      InsertSorts(rows[0], Sort(rows[1..]));
      InsertPermutes(rows[0], Sort(rows[1..]));
      assert rows == [rows[0]] + rows[1..];
    }
  }

  // ---- leader clustering -------------------------------------------------------------------

  datatype Clusters = Clusters(members: seq<seq<Row>>, seeds: seq<set<string>>)

  /** The first seed near enough; the number of seeds when there is none. */
  function Home(rules: Rules, toks: set<string>, seeds: seq<set<string>>): (i: nat)
    ensures i <= |seeds|
    ensures i < |seeds| ==> Near(rules, toks, seeds[i])
    ensures forall j :: 0 <= j < i ==> !Near(rules, toks, seeds[j])
  {
    if seeds == [] || Near(rules, toks, seeds[0]) then 0 else 1 + Home(rules, toks, seeds[1..])
  }

  function Join(rules: Rules, c: Clusters, row: Row): Clusters
    requires |c.members| == |c.seeds|
  {
    var i := Home(rules, Tokens(rules, row), c.seeds);
    if i < |c.seeds| then c.(members := c.members[i := c.members[i] + [row]])
    else Clusters(c.members + [[row]], c.seeds + [Tokens(rules, row)])
  }

  function Clustered(rules: Rules, rows: seq<Row>): (c: Clusters)
    ensures |c.members| == |c.seeds|
  {
    if rows == [] then Clusters([], []) else Join(rules, Clustered(rules, rows[..|rows| - 1]), rows[|rows| - 1])
  }

  /** Where each row goes. */
  function Places(rules: Rules, rows: seq<Row>): (ps: seq<nat>)
    ensures |ps| == |rows|
  {
    if rows == [] then []
    else
      var front := rows[..|rows| - 1];
      Places(rules, front) + [Home(rules, Tokens(rules, rows[|rows| - 1]), Clustered(rules, front).seeds)]
  }

  /** The rows placed at `i`, in order. */
  function PlacedAt(rows: seq<Row>, ps: seq<nat>, i: nat): seq<Row>
    requires |rows| == |ps|
  {
    if rows == [] then []
    else
      var n := |rows| - 1;
      if ps[n] == i then PlacedAt(rows[..n], ps[..n], i) + [rows[n]] else PlacedAt(rows[..n], ps[..n], i)
  }

  /**
   What the clustering promises about each cluster: it is led by its seed, and any later member is
   near it and near no earlier seed.
   */
  ghost predicate Led(rules: Rules, c: Clusters) {
    && |c.members| == |c.seeds|
    && (forall i :: 0 <= i < |c.seeds| ==> c.members[i] != [] && Tokens(rules, c.members[i][0]) == c.seeds[i])
    && (forall i, k :: 0 <= i < |c.seeds| && 0 < k < |c.members[i]| ==>
        Home(rules, Tokens(rules, c.members[i][k]), c.seeds) == i)
  }

  /** No two seeds are near each other, each tested against those before it. */
  predicate SeedsApart(rules: Rules, seeds: seq<set<string>>) {
    forall i, j :: 0 <= j < i < |seeds| ==> !Near(rules, seeds[i], seeds[j])
  }

  lemma {:induction false} HomeStays(rules: Rules, toks: set<string>, seeds: seq<set<string>>, s: set<string>)
    requires Home(rules, toks, seeds) < |seeds|
    ensures Home(rules, toks, seeds + [s]) == Home(rules, toks, seeds)
    decreases |seeds|
  {
    assert (seeds + [s])[0] == seeds[0] && (seeds + [s])[1..] == seeds[1..] + [s];
    if !Near(rules, toks, seeds[0]) { HomeStays(rules, toks, seeds[1..], s); }
  }

  lemma JoinKeepsLed(rules: Rules, c: Clusters, row: Row)
    requires Led(rules, c) && SeedsApart(rules, c.seeds)
    ensures Led(rules, Join(rules, c, row)) && SeedsApart(rules, Join(rules, c, row).seeds)
  {
    var toks := Tokens(rules, row);
    var d := Join(rules, c, row);
    if Home(rules, toks, c.seeds) == |c.seeds| {
      forall i, k | 0 <= i < |d.seeds| && 0 < k < |d.members[i]|
        ensures Home(rules, Tokens(rules, d.members[i][k]), d.seeds) == i
      {
        assert d.members[i] == c.members[i];
        HomeStays(rules, Tokens(rules, c.members[i][k]), c.seeds, toks);
      }
    }
  }

  /**
   Leader clustering: every seed is below the threshold against all before it, and every row sits
   with the first seed at or above it, or is a seed itself.
   */
  lemma {:induction false} ClustersAreLed(rules: Rules, rows: seq<Row>)
    ensures Led(rules, Clustered(rules, rows)) && SeedsApart(rules, Clustered(rules, rows).seeds)
    decreases |rows|
  {
    if rows != [] {
      ClustersAreLed(rules, rows[..|rows| - 1]);
      JoinKeepsLed(rules, Clustered(rules, rows[..|rows| - 1]), rows[|rows| - 1]);
    }
  }

  function Members(ms: seq<seq<Row>>): nat {
    if ms == [] then 0 else Members(ms[..|ms| - 1]) + |ms[|ms| - 1]|
  }

  lemma {:induction false} MembersGrow(ms: seq<seq<Row>>, i: nat, row: Row)
    requires i < |ms|
    ensures Members(ms[i := ms[i] + [row]]) == Members(ms) + 1
    decreases |ms|
  {
    var n := |ms| - 1;
    var ms' := ms[i := ms[i] + [row]];
    if i < n {
      MembersGrow(ms[..n], i, row);
      assert ms'[..n] == ms[..n][i := ms[..n][i] + [row]];
    } else {
      assert ms'[..n] == ms[..n];
    }
  }

  lemma {:induction false} NobodyPlacedBeyond(rows: seq<Row>, ps: seq<nat>, i: nat)
    requires |rows| == |ps| && forall k :: 0 <= k < |ps| ==> ps[k] < i
    ensures PlacedAt(rows, ps, i) == []
    decreases |rows|
  {
    if rows != [] { NobodyPlacedBeyond(rows[..|rows| - 1], ps[..|rows| - 1], i); }
  }

  lemma PlacedSnoc(rows: seq<Row>, ps: seq<nat>, row: Row, h: nat, i: nat)
    requires |rows| == |ps|
    ensures PlacedAt(rows + [row], ps + [h], i) == if h == i then PlacedAt(rows, ps, i) + [row]
              else PlacedAt(rows, ps, i)
  {
    assert (rows + [row])[..|rows|] == rows && (ps + [h])[..|ps|] == ps;
  }

  /** The clusters hold exactly what is placed at their numbers. */
  ghost predicate Holds(ms: seq<seq<Row>>, rows: seq<Row>, ps: seq<nat>) {
    && |rows| == |ps| && Members(ms) == |rows|
    && (forall k :: 0 <= k < |ps| ==> ps[k] < |ms|)
    && forall i :: 0 <= i < |ms| ==> ms[i] == PlacedAt(rows, ps, i)
  }

  lemma OldClusterGrows(ms: seq<seq<Row>>, rows: seq<Row>, ps: seq<nat>, row: Row, h: nat)
    requires Holds(ms, rows, ps) && h < |ms|
    ensures Holds(ms[h := ms[h] + [row]], rows + [row], ps + [h])
  {
    MembersGrow(ms, h, row);
    forall i | 0 <= i < |ms| ensures ms[h := ms[h] + [row]][i] == PlacedAt(rows + [row], ps + [h], i) {
      PlacedSnoc(rows, ps, row, h, i);
    }
  }

  lemma NewClusterOpens(ms: seq<seq<Row>>, rows: seq<Row>, ps: seq<nat>, row: Row)
    requires Holds(ms, rows, ps)
    ensures Holds(ms + [[row]], rows + [row], ps + [|ms|])
  {
    assert (ms + [[row]])[..|ms|] == ms;
    forall i | 0 <= i <= |ms| ensures (ms + [[row]])[i] == PlacedAt(rows + [row], ps + [|ms|], i) {
      PlacedSnoc(rows, ps, row, |ms|, i);
      if i == |ms| { NobodyPlacedBeyond(rows, ps, i); }
    }
  }

  lemma JoinHolds(rules: Rules, c: Clusters, rows: seq<Row>, ps: seq<nat>, row: Row)
    requires |c.members| == |c.seeds| && Holds(c.members, rows, ps)
    ensures Holds(Join(rules, c, row).members, rows + [row], ps + [Home(rules, Tokens(rules, row), c.seeds)])
  {
    var h := Home(rules, Tokens(rules, row), c.seeds);
    if h < |c.seeds| {
      OldClusterGrows(c.members, rows, ps, row, h);
    } else {
      NewClusterOpens(c.members, rows, ps, row);
    }
  }

  /**
   The clusters partition the rows: every row is in the one cluster it was placed in, and each
   cluster keeps their order.
   */
  lemma {:induction false} ClustersPartition(rules: Rules, rows: seq<Row>)
    ensures Holds(Clustered(rules, rows).members, rows, Places(rules, rows))
    decreases |rows|
  {
    if rows != [] {
      var n := |rows| - 1;
      ClustersPartition(rules, rows[..n]);
      JoinHolds(rules, Clustered(rules, rows[..n]), rows[..n], Places(rules, rows[..n]), rows[n]);
      assert rows[..n] + [rows[n]] == rows;
    }
  }

  lemma {:induction false} PlacedAreOlder(rows: seq<Row>, ps: seq<nat>, i: nat, stamp: int)
    requires |rows| == |ps| && forall k :: 0 <= k < |rows| ==> rows[k].created >= stamp
    ensures forall k :: 0 <= k < |PlacedAt(rows, ps, i)| ==> PlacedAt(rows, ps, i)[k].created >= stamp
    decreases |rows|
  {
    if rows != [] { PlacedAreOlder(rows[..|rows| - 1], ps[..|rows| - 1], i, stamp); }
  }

  lemma {:induction false} PlacedNewestFirst(rows: seq<Row>, ps: seq<nat>, i: nat)
    requires |rows| == |ps| && NewestFirst(rows)
    ensures NewestFirst(PlacedAt(rows, ps, i))
    decreases |rows|
  {
    if rows != [] {
      var n := |rows| - 1;
      PlacedNewestFirst(rows[..n], ps[..n], i);
      PlacedAreOlder(rows[..n], ps[..n], i, rows[n].created);
    }
  }

  // ---- families ----------------------------------------------------------------------------

  /** A reported family: its newest member stands for it. */
  datatype Family = Family(example: Row, kills: nat)

  predicate HasSurvivor(rules: Rules, seed: set<string>, passes: seq<Row>) {
    exists i :: 0 <= i < |passes| && Near(rules, Tokens(rules, passes[i]), seed)
  }

  predicate Reported(rules: Rules, cluster: seq<Row>, seed: set<string>, passes: seq<Row>) {
    |cluster| >= rules.minSize && !HasSurvivor(rules, seed, passes)
  }

  /** The clusters reported, in the order they were opened. */
  function Families(rules: Rules, ms: seq<seq<Row>>, seeds: seq<set<string>>, passes: seq<Row>): seq<Family>
    requires |ms| == |seeds| && forall i :: 0 <= i < |ms| ==> ms[i] != []
  {
    if ms == [] then []
    else
      var n := |ms| - 1;
      var rest := Families(rules, ms[..n], seeds[..n], passes);
      if Reported(rules, ms[n], seeds[n], passes) then rest + [Family(ms[n][0], |ms[n]|)] else rest
  }

  predicate MostDeadFirst(fs: seq<Family>) { forall i, j :: 0 <= i < j < |fs| ==> fs[i].kills >= fs[j].kills }

  function InsertFamily(f: Family, fs: seq<Family>): seq<Family> {
    if fs == [] || f.kills >= fs[0].kills then [f] + fs else [fs[0]] + InsertFamily(f, fs[1..])
  }

  function SortFamilies(fs: seq<Family>): seq<Family> {
    if fs == [] then [] else InsertFamily(fs[0], SortFamilies(fs[1..]))
  }

  function Kills(fs: seq<Family>): nat { if fs == [] then 0 else fs[0].kills + Kills(fs[1..]) }

  lemma {:induction false} InsertFamilyPermutes(f: Family, fs: seq<Family>)
    ensures multiset(InsertFamily(f, fs)) == multiset(fs) + multiset{f}
    ensures forall g :: g in InsertFamily(f, fs) <==> g == f || g in fs
    decreases |fs|
  {
    if fs == [] || f.kills >= fs[0].kills {
      assert [f] + fs == InsertFamily(f, fs);
    } else {
      InsertFamilyPermutes(f, fs[1..]);
      assert fs == [fs[0]] + fs[1..];
    }
  }

  lemma {:induction false} InsertFamilyKills(f: Family, fs: seq<Family>)
    ensures Kills(InsertFamily(f, fs)) == f.kills + Kills(fs)
    decreases |fs|
  {
    if fs == [] || f.kills >= fs[0].kills {
      assert ([f] + fs)[1..] == fs;
    } else {
      InsertFamilyKills(f, fs[1..]);
    }
  }

  lemma {:induction false} InsertFamilySorts(f: Family, fs: seq<Family>)
    requires MostDeadFirst(fs)
    ensures MostDeadFirst(InsertFamily(f, fs))
    decreases |fs|
  {
    if fs != [] && f.kills < fs[0].kills {
      InsertFamilySorts(f, fs[1..]);
      InsertFamilyPermutes(f, fs[1..]);
      var t := InsertFamily(f, fs[1..]);
      assert forall j :: 0 <= j < |t| ==> t[j] == f || t[j] in fs[1..];
    }
  }

  lemma {:induction false} SortFamiliesSorts(fs: seq<Family>)
    ensures MostDeadFirst(SortFamilies(fs)) && multiset(SortFamilies(fs)) == multiset(fs) &&
              Kills(SortFamilies(fs)) == Kills(fs)
    decreases |fs|
  {
    if fs != [] {
      SortFamiliesSorts(fs[1..]);
      InsertFamilySorts(fs[0], SortFamilies(fs[1..]));
      InsertFamilyPermutes(fs[0], SortFamilies(fs[1..]));
      InsertFamilyKills(fs[0], SortFamilies(fs[1..]));
      assert fs == [fs[0]] + fs[1..];
    }
  }

  lemma {:induction false} KillsSnoc(fs: seq<Family>, f: Family)
    ensures Kills(fs + [f]) == Kills(fs) + f.kills
    decreases |fs|
  {
    if fs == [] {
      assert fs + [f] == [f] && [f][1..] == [];
    } else {
      assert (fs + [f])[1..] == fs[1..] + [f];
      KillsSnoc(fs[1..], f);
    }
  }

  lemma {:induction false} FamiliesKillNoMore(rules: Rules, ms: seq<seq<Row>>, seeds: seq<set<string>>,
      passes: seq<Row>)
    requires |ms| == |seeds| && forall i :: 0 <= i < |ms| ==> ms[i] != []
    ensures Kills(Families(rules, ms, seeds, passes)) <= Members(ms)
    decreases |ms|
  {
    if ms != [] {
      var n := |ms| - 1;
      FamiliesKillNoMore(rules, ms[..n], seeds[..n], passes);
      KillsSnoc(Families(rules, ms[..n], seeds[..n], passes), Family(ms[n][0], |ms[n]|));
    }
  }

  /** A family is in the list exactly when some reported cluster stands behind it. */
  lemma {:induction false} FamiliesMeaning(rules: Rules, ms: seq<seq<Row>>, seeds: seq<set<string>>,
      passes: seq<Row>, f: Family)
    requires |ms| == |seeds| && forall i :: 0 <= i < |ms| ==> ms[i] != []
    ensures f in Families(rules, ms, seeds, passes) <==>
            exists i :: 0 <= i < |ms| && Reported(rules, ms[i], seeds[i], passes) && f == Family(ms[i][0], |ms[i]|)
    decreases |ms|
  {
    if ms != [] {
      var n := |ms| - 1;
      FamiliesMeaning(rules, ms[..n], seeds[..n], passes, f);
      if i :| 0 <= i < n && Reported(rules, ms[i], seeds[i], passes) && f == Family(ms[i][0], |ms[i]|) {
        assert ms[..n][i] == ms[i] && seeds[..n][i] == seeds[i];
      }
    }
  }

  /** The whole computation. */
  function BuildFamilies(rules: Rules, kills: seq<Row>, passes: seq<Row>): seq<Family> {
    var c := Clustered(rules, Sort(EligibleRows(rules, kills)));
    ClustersAreLed(rules, Sort(EligibleRows(rules, kills)));
    SortFamilies(Families(rules, c.members, c.seeds, passes))
  }

  // ---- main results ------------------------------------------------------------------------

  /**
   Cluster `i` of the eligible kills stands behind a family: large enough, no survivor near its
   leader, led by its newest member.
   */
  ghost predicate StandsBehind(rules: Rules, kills: seq<Row>, passes: seq<Row>, f: Family, i: nat) {
    var rows := Sort(EligibleRows(rules, kills));
    var ms := Clustered(rules, rows).members;
    && i < |ms| && ms[i] == PlacedAt(rows, Places(rules, rows), i) && ms[i] != []
    && f.example == ms[i][0] && f.kills == |ms[i]| >= rules.minSize
    && !HasSurvivor(rules, Tokens(rules, f.example), passes)
    && forall k :: 0 <= k < |ms[i]| ==> ms[i][k].created <= f.example.created
  }

  /**
   A family is reported exactly when a large cluster without a survivor stands behind it, its example
   the newest of the cluster.
   */
  lemma ReportedIffExhausted(rules: Rules, kills: seq<Row>, passes: seq<Row>, f: Family)
    ensures f in BuildFamilies(rules, kills, passes) <==> exists i :: StandsBehind(rules, kills, passes, f, i)
  {
    var rows := Sort(EligibleRows(rules, kills));
    var c := Clustered(rules, rows);
    ClustersAreLed(rules, rows);
    ClustersPartition(rules, rows);
    SortSorts(EligibleRows(rules, kills));
    FamiliesMeaning(rules, c.members, c.seeds, passes, f);
    SameFamilies(Families(rules, c.members, c.seeds, passes), f);
    forall i | 0 <= i < |c.members|
      ensures Reported(rules, c.members[i], c.seeds[i], passes) && f == Family(c.members[i][0], |c.members[i]|)
              <==> StandsBehind(rules, kills, passes, f, i)
    {
      PlacedNewestFirst(rows, Places(rules, rows), i);
    }
  }

  lemma SameFamilies(fs: seq<Family>, f: Family)
    ensures f in SortFamilies(fs) <==> f in fs
  {
    SortFamiliesSorts(fs);
    assert f in multiset(SortFamilies(fs)) <==> f in multiset(fs);
  }

  lemma {:induction false} SizeFromMultiset(a: seq<Row>, b: seq<Row>)
    requires multiset(a) == multiset(b)
    ensures |a| == |b|
  {
    assert |multiset(a)| == |a| && |multiset(b)| == |b|;
  }

  /** The families come most dead first, and together report no more kills than there are eligible rows. */
  lemma FamiliesAreRanked(rules: Rules, kills: seq<Row>, passes: seq<Row>)
    ensures MostDeadFirst(BuildFamilies(rules, kills, passes))
    ensures Kills(BuildFamilies(rules, kills, passes)) <= |EligibleRows(rules, kills)|
  {
    var rows := Sort(EligibleRows(rules, kills));
    var c := Clustered(rules, rows);
    ClustersAreLed(rules, rows);
    ClustersPartition(rules, rows);
    SortSorts(EligibleRows(rules, kills));
    SizeFromMultiset(rows, EligibleRows(rules, kills));
    FamiliesKillNoMore(rules, c.members, c.seeds, passes);
    SortFamiliesSorts(Families(rules, c.members, c.seeds, passes));
  }

  // ---- the code ----------------------------------------------------------------------------

  lemma HomeOn(rules: Rules, toks: set<string>, seeds: seq<set<string>>, i: nat)
    requires i < |seeds|
    ensures Home(rules, toks, seeds[i..]) == if Near(rules, toks, seeds[i]) then 0
              else 1 + Home(rules, toks, seeds[i + 1..])
  {
    assert seeds[i..][1..] == seeds[i + 1..];
  }

  /** The inner loop: the first seed near enough, or -1. */
  method FindSeed(rules: Rules, toks: set<string>, seeds: seq<set<string>>) returns (joined: int)
    ensures joined == if Home(rules, toks, seeds) == |seeds| then -1 else Home(rules, toks, seeds)
  {
    joined := -1;
    for i := 0 to |seeds|
      invariant Home(rules, toks, seeds) == i + Home(rules, toks, seeds[i..])
    {
      HomeOn(rules, toks, seeds, i);
      if Near(rules, toks, seeds[i]) { return i; }
    }
  }

  /** Grows clusters and seeds row by row. */
  method Cluster(rules: Rules, rows: seq<Row>) returns (clusters: seq<seq<Row>>, seeds: seq<set<string>>)
    ensures Clusters(clusters, seeds) == Clustered(rules, rows)
  {
    clusters, seeds := [], [];
    for k := 0 to |rows|
      invariant Clusters(clusters, seeds) == Clustered(rules, rows[..k])
    {
      assert rows[..k + 1][..k] == rows[..k];
      var toks := Tokens(rules, rows[k]);
      var joined := FindSeed(rules, toks, seeds);
      if joined >= 0 {
        clusters := clusters[joined := clusters[joined] + [rows[k]]];
      } else {
        clusters := clusters + [[rows[k]]];
        seeds := seeds + [toks];
      }
    }
    assert rows[..|rows|] == rows;
  }

  lemma FamiliesOn(rules: Rules, ms: seq<seq<Row>>, seeds: seq<set<string>>, passes: seq<Row>, i: nat)
    requires |ms| == |seeds| && i < |ms| && forall k :: 0 <= k < |ms| ==> ms[k] != []
    ensures var rest := Families(rules, ms[..i], seeds[..i], passes);
            Families(rules, ms[..i + 1], seeds[..i + 1], passes)
            == if Reported(rules, ms[i], seeds[i], passes) then rest + [Family(ms[i][0], |ms[i]|)] else rest
  {
    assert ms[..i + 1][..i] == ms[..i] && seeds[..i + 1][..i] == seeds[..i];
  }

  /** The clusters large enough and without a survivor, in the order they were opened. */
  method Report(rules: Rules, clusters: seq<seq<Row>>, seeds: seq<set<string>>, passes: seq<Row>)
      returns (out: seq<Family>)
    requires |clusters| == |seeds| && forall k :: 0 <= k < |clusters| ==> clusters[k] != []
    ensures out == Families(rules, clusters, seeds, passes)
  {
    out := [];
    for i := 0 to |clusters|
      invariant out == Families(rules, clusters[..i], seeds[..i], passes)
    {
      FamiliesOn(rules, clusters, seeds, passes, i);
      if |clusters[i]| < rules.minSize { continue; }
      if HasSurvivor(rules, seeds[i], passes) { continue; }
      out := out + [Family(clusters[i][0], |clusters[i]|)];
    }
    assert clusters[..|clusters|] == clusters && seeds[..|seeds|] == seeds;
  }

  /** Filters, sorts, clusters and reports. */
  method ExhaustedFamilies(rules: Rules, kills: seq<Row>, passes: seq<Row>) returns (out: seq<Family>)
    ensures out == BuildFamilies(rules, kills, passes)
  {
    var rows := Sort(EligibleRows(rules, kills));
    var clusters, seeds := Cluster(rules, rows);
    ClustersAreLed(rules, rows);
    out := Report(rules, clusters, seeds, passes);
    out := SortFamilies(out);
  }
}
