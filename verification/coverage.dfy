/**
 The coverage sampler of prospector/coverage.py: how much of the catalogue each value of an axis
 already has, discounted by quality, which values are most wanting, and the dealing of target
 cells. Shares are exact reals; hash keys and offsets are arbitrary.
 */
module Coverage {
  import opened Common

  /** What the catalogue says about one axis: rows and recent rows per value, and the statistics of the ruled values. */
  datatype Axis = Axis(counts: map<string, nat>, recent: map<string, nat>, stat: map<string, real>)

  const UNKNOWN := "unknown"

  predicate Distinct(vs: seq<string>) { forall i, j :: 0 <= i < j < |vs| ==> vs[i] != vs[j] }

  // ---- illumination ------------------------------------------------------------------------

  function Max(x: real, y: real): real { if x >= y then x else y }

  /** The best statistic among the values that have one. */
  function BestOf(stat: map<string, real>, vs: seq<string>): Option<real> {
    if vs == [] then None
    else
      var v, rest := vs[|vs| - 1], BestOf(stat, vs[..|vs| - 1]);
      if v !in stat then rest else if rest.None? then Some(stat[v]) else Some(Max(rest.value, stat[v]))
  }

  function Best(stat: map<string, real>, vs: seq<string>): real {
    var b := BestOf(stat, vs);
    if b.None? then 0.0 else b.value
  }

  function Clamp(x: real): (y: real)
    ensures 0.0 <= y <= 1.0
  {
    if x < 0.0 then 0.0 else if x > 1.0 then 1.0 else x
  }

  /** How well lit a value is against the best on its axis; a value never ruled gets no discount. */
  function Illumination(stat: map<string, real>, vs: seq<string>, v: string): (y: real)
    ensures 0.0 <= y <= 1.0
  {
    var best := Best(stat, vs);
    if best <= 0.0 || v !in stat then 1.0 else Clamp(stat[v] / best)
  }

  lemma {:induction false} BestIsMax(stat: map<string, real>, vs: seq<string>, v: string)
    requires v in vs && v in stat
    ensures BestOf(stat, vs).Some? && stat[v] <= Best(stat, vs)
    decreases |vs|
  {
    var front := vs[..|vs| - 1];
    if v != vs[|vs| - 1] {
      assert v in front;
      BestIsMax(stat, front, v);
    }
  }

  /** Raising one statistic raises the best to it, or not at all. */
  lemma {:induction false} BestRaised(stat: map<string, real>, vs: seq<string>, v: string, x: real)
    requires v in stat && stat[v] <= x
    ensures var was, now := BestOf(stat, vs), BestOf(stat[v := x], vs);
            now == if v in vs then Some(if was.None? then x else Max(was.value, x)) else was
    decreases |vs|
  {
    if vs != [] {
      var front := vs[..|vs| - 1];
      BestRaised(stat, front, v, x);
      assert forall u :: u in vs <==> u in front || u == vs[|vs| - 1];
      if v in front { BestIsMax(stat, front, v); }
    }
  }

  // ---- shares ------------------------------------------------------------------------------

  function Rows(a: Axis, v: string): nat {
    (if v in a.counts then a.counts[v] else 0) + (if v in a.recent then a.recent[v] else 0)
  }

  /** The rows of a value after its quality discount. */
  function Amount(a: Axis, vs: seq<string>, weight: real, v: string): real {
    Discounted(Rows(a, v) as real, weight, Illumination(a.stat, vs, v))
  }

  function Discounted(rows: real, weight: real, light: real): real {
    if weight > 0.0 then rows * ((1.0 - weight) + weight * light) else rows
  }

  function Total(a: Axis, vs: seq<string>, weight: real, part: seq<string>): real {
    if part == [] then 0.0 else Total(a, vs, weight, part[..|part| - 1]) + Amount(a, vs, weight, part[|part| - 1])
  }

  /** The share of one value among all of its axis. */
  function Share(a: Axis, vs: seq<string>, weight: real, v: string): real {
    var total := Total(a, vs, weight, vs);
    if total <= 0.0 then 0.0 else Amount(a, vs, weight, v) / total
  }

  function Shares(a: Axis, vs: seq<string>, weight: real, part: seq<string>): real {
    if part == [] then 0.0 else Shares(a, vs, weight, part[..|part| - 1]) + Share(a, vs, weight, part[|part| - 1])
  }

  lemma ProductOrder(n: real, x: real, y: real)
    requires 0.0 <= n && x <= y
    ensures n * x <= n * y
  {
  }

  lemma DiscountedOrder(rows: real, weight: real, x: real, y: real)
    requires 0.0 <= rows && 0.0 <= weight && x <= y
    ensures Discounted(rows, weight, x) <= Discounted(rows, weight, y)
  {
    ProductOrder(weight, x, y);
    ProductOrder(rows, (1.0 - weight) + weight * x, (1.0 - weight) + weight * y);
  }

  lemma AmountBounds(a: Axis, vs: seq<string>, weight: real, v: string)
    requires 0.0 <= weight <= 1.0
    ensures 0.0 <= Amount(a, vs, weight, v) <= Rows(a, v) as real
  {
    DiscountedBounds(Rows(a, v) as real, weight, Illumination(a.stat, vs, v));
  }

  lemma DiscountedBounds(rows: real, weight: real, light: real)
    requires 0.0 <= rows && 0.0 <= weight <= 1.0 && 0.0 <= light <= 1.0
    ensures 0.0 <= Discounted(rows, weight, light) <= rows
  {
    var part := weight * light;
    Within(weight, light);
    Within(rows, (1.0 - weight) + part);
  }

  lemma Within(n: real, x: real)
    requires 0.0 <= n && 0.0 <= x <= 1.0
    ensures 0.0 <= n * x <= n
  {
  }

  lemma {:induction false} TotalNotNegative(a: Axis, vs: seq<string>, weight: real, part: seq<string>)
    requires 0.0 <= weight <= 1.0
    ensures Total(a, vs, weight, part) >= 0.0
  {
    if part != [] {
      TotalNotNegative(a, vs, weight, part[..|part| - 1]);
      AmountBounds(a, vs, weight, part[|part| - 1]);
    }
  }

  lemma Quotient(x: real, y: real, z: real)
    requires z > 0.0
    ensures x / z + y / z == (x + y) / z
  {
  }

  lemma WholeOfItself(x: real)
    requires x > 0.0
    ensures x / x == 1.0
  {
  }

  lemma {:induction false} SharesAdd(a: Axis, vs: seq<string>, weight: real, part: seq<string>)
    requires Total(a, vs, weight, vs) > 0.0
    ensures Shares(a, vs, weight, part) == Total(a, vs, weight, part) / Total(a, vs, weight, vs)
  {
    if part != [] {
      SharesAdd(a, vs, weight, part[..|part| - 1]);
      Quotient(Total(a, vs, weight, part[..|part| - 1]), Amount(a, vs, weight, part[|part| - 1]),
          Total(a, vs, weight, vs));
    }
  }

  lemma {:induction false} NoSharesAdd(a: Axis, vs: seq<string>, weight: real, part: seq<string>)
    requires Total(a, vs, weight, vs) <= 0.0
    ensures Shares(a, vs, weight, part) == 0.0
  {
    if part != [] { NoSharesAdd(a, vs, weight, part[..|part| - 1]); }
  }

  /** The shares of an axis sum to 1, or are all 0. */
  lemma SharesSumToOne(a: Axis, vs: seq<string>, weight: real)
    requires 0.0 <= weight <= 1.0
    ensures Shares(a, vs, weight, vs) == 1.0
         || (Shares(a, vs, weight, vs) == 0.0 && forall v :: v in vs ==> Share(a, vs, weight, v) == 0.0)
  {
    if Total(a, vs, weight, vs) > 0.0 {
      SharesAdd(a, vs, weight, vs);
      WholeOfItself(Total(a, vs, weight, vs));
    } else {
      NoSharesAdd(a, vs, weight, vs);
    }
  }

  /** The sum of the rows alone. */
  function RowTotal(a: Axis, part: seq<string>): nat {
    if part == [] then 0 else RowTotal(a, part[..|part| - 1]) + Rows(a, part[|part| - 1])
  }

  lemma {:induction false} UnweightedTotal(a: Axis, vs: seq<string>, part: seq<string>)
    ensures Total(a, vs, 0.0, part) == RowTotal(a, part) as real
  {
    if part != [] { UnweightedTotal(a, vs, part[..|part| - 1]); }
  }

  /** Weight 0 is counting: the statistics play no part at all. */
  lemma WeightZeroCounts(a: Axis, vs: seq<string>, v: string)
    ensures Share(a, vs, 0.0, v) == if RowTotal(a, vs) == 0 then 0.0 else Rows(a, v) as real / RowTotal(a, vs) as real
  {
    UnweightedTotal(a, vs, vs);
  }

  /** A value never ruled is not discounted, whatever the weight. */
  lemma UnruledIsNotDiscounted(a: Axis, vs: seq<string>, weight: real, v: string)
    requires v !in a.stat
    ensures Amount(a, vs, weight, v) == Rows(a, v) as real
  {
    assert weight * 1.0 == weight;
    assert Rows(a, v) as real * 1.0 == Rows(a, v) as real;
  }

  lemma {:induction false} BestIsOneOf(stat: map<string, real>, vs: seq<string>) returns (v: string)
    requires BestOf(stat, vs).Some?
    ensures v in vs && v in stat && stat[v] == Best(stat, vs)
    decreases |vs|
  {
    v := vs[|vs| - 1];
    var front := vs[..|vs| - 1];
    if v !in stat || (BestOf(stat, front).Some? && Best(stat, front) >= stat[v]) { v := BestIsOneOf(stat, front); }
  }

  lemma {:induction false} InertTotal(a: Axis, vs: seq<string>, weight: real, part: seq<string>)
    requires forall v :: v in vs && v in a.stat ==> a.stat[v] <= 0.0
    ensures Total(a, vs, weight, part) == RowTotal(a, part) as real
    decreases |part|
  {
    if part != [] {
      InertTotal(a, vs, weight, part[..|part| - 1]);
      InertAmount(a, vs, weight, part[|part| - 1]);
    }
  }

  lemma InertAmount(a: Axis, vs: seq<string>, weight: real, v: string)
    requires forall u :: u in vs && u in a.stat ==> a.stat[u] <= 0.0
    ensures Amount(a, vs, weight, v) == Rows(a, v) as real
  {
    if BestOf(a.stat, vs).Some? { var u := BestIsOneOf(a.stat, vs); }
    assert Illumination(a.stat, vs, v) == 1.0;
    assert weight * 1.0 == weight;
    assert Rows(a, v) as real * 1.0 == Rows(a, v) as real;
  }

  /** With no positive statistic there is no scale: at any weight the shares are the count shares. */
  lemma QualityIsInertWithoutScale(a: Axis, vs: seq<string>, weight: real, v: string)
    requires forall u :: u in vs && u in a.stat ==> a.stat[u] <= 0.0
    ensures Share(a, vs, weight, v) == Share(a, vs, 0.0, v)
  {
    InertTotal(a, vs, weight, vs);
    UnweightedTotal(a, vs, vs);
    InertAmount(a, vs, weight, v);
  }

  // ---- quality steering is monotone --------------------------------------------------------

  function Raised(a: Axis, v: string, x: real): Axis { a.(stat := a.stat[v := x]) }

  lemma CrossMultiplied(p: real, s: real, q: real, t: real)
    requires s > 0.0 && t > 0.0 && p * t <= q * s
    ensures p / s <= q / t
  {
    var x, y := p / s, q / t;
    assert x * s == p && y * t == q;
    var st := s * t;
    assert p * t == x * s * t == x * st;
    assert q * s == y * t * s == y * st;
    assert st > 0.0;
    if x > y { StrictProduct(x, y, st); }
  }

  lemma StrictProduct(x: real, y: real, z: real)
    requires x > y && z > 0.0
    ensures x * z > y * z
  {
  }

  lemma RatioOrder(s: real, b: real, x: real)
    requires 0.0 < b <= x
    ensures Clamp(s / x) <= Clamp(s / b)
  {
    if s > 0.0 {
      ProductOrder(s, b, x);
      CrossMultiplied(s, x, s, b);
    } else {
      CrossMultiplied(s, x, 0.0, 1.0);
    }
  }

  lemma RatioOfLarger(s: real, t: real, b: real)
    requires 0.0 < b && s <= t
    ensures Clamp(s / b) <= Clamp(t / b)
  {
    ProductOrder(b, s, t);
    CrossMultiplied(s, b, t, b);
  }

  /** Raising the statistic of a ruled value brightens it and dims every other, or leaves them. */
  lemma IlluminationRaised(stat: map<string, real>, vs: seq<string>, v: string, x: real, u: string)
    requires v in vs && v in stat && stat[v] <= x && u in vs
    ensures u == v ==> Illumination(stat, vs, v) <= Illumination(stat[v := x], vs, v)
    ensures u != v ==> Illumination(stat[v := x], vs, u) <= Illumination(stat, vs, u)
  {
    BestRaised(stat, vs, v, x);
    BestIsMax(stat, vs, v);
    var was, now := Best(stat, vs), Best(stat[v := x], vs);
    assert now == Max(was, x);
    if was > 0.0 {
      if u == v {
        if now == x { assert x / x == 1.0; } else { RatioOfLarger(stat[v], x, was); }
      } else if u in stat {
        RatioOrder(stat[u], was, now);
      }
    } else if now > 0.0 && u == v {
      assert x / x == 1.0;
    }
  }

  lemma AmountRaised(a: Axis, vs: seq<string>, weight: real, v: string, x: real, u: string)
    requires 0.0 <= weight <= 1.0 && v in vs && v in a.stat && a.stat[v] <= x && u in vs
    ensures u == v ==> Amount(a, vs, weight, v) <= Amount(Raised(a, v, x), vs, weight, v)
    ensures u != v ==> Amount(Raised(a, v, x), vs, weight, u) <= Amount(a, vs, weight, u)
  {
    var was, now := Illumination(a.stat, vs, u), Illumination(a.stat[v := x], vs, u);
    IlluminationRaised(a.stat, vs, v, x, u);
    if u == v {
      DiscountedOrder(Rows(a, u) as real, weight, was, now);
    } else {
      DiscountedOrder(Rows(a, u) as real, weight, now, was);
    }
  }

  /** Everything but one value. */
  function Others(a: Axis, vs: seq<string>, weight: real, part: seq<string>, v: string): real {
    if part == [] then 0.0
    else
      var u := part[|part| - 1];
      Others(a, vs, weight, part[..|part| - 1], v) + if u == v then 0.0 else Amount(a, vs, weight, u)
  }

  lemma {:induction false} TotalApart(a: Axis, vs: seq<string>, weight: real, part: seq<string>, v: string)
    requires Distinct(part)
    ensures Total(a, vs, weight, part) == Others(a, vs, weight, part, v) +
              (if v in part then Amount(a, vs, weight, v) else 0.0)
    decreases |part|
  {
    if part != [] {
      var front := part[..|part| - 1];
      TotalApart(a, vs, weight, front, v);
      assert forall u :: u in part <==> u in front || u == part[|part| - 1];
    }
  }

  lemma {:induction false} OthersFall(a: Axis, vs: seq<string>, weight: real, part: seq<string>, v: string, x: real)
    requires 0.0 <= weight <= 1.0 && v in vs && v in a.stat && a.stat[v] <= x
    requires forall u :: u in part ==> u in vs
    ensures 0.0 <= Others(Raised(a, v, x), vs, weight, part, v) <= Others(a, vs, weight, part, v)
    decreases |part|
  {
    if part != [] {
      var u := part[|part| - 1];
      OthersFall(a, vs, weight, part[..|part| - 1], v, x);
      AmountRaised(a, vs, weight, v, x, u);
      AmountBounds(Raised(a, v, x), vs, weight, u);
    }
  }

  lemma Spread(x: real, y: real, z: real)
    ensures x * (y + z) == x * y + x * z
  {
  }

  /** A part grows and the rest shrinks: so does the part's share grow. */
  lemma FractionGrows(p: real, r: real, q: real, t: real)
    requires 0.0 <= p <= q && 0.0 <= t <= r && p + r > 0.0 && q + t > 0.0
    ensures p / (p + r) <= q / (q + t)
  {
    Spread(p, q, t);
    Spread(q, p, r);
    ProductOrder(p, t, r);
    ProductOrder(r, p, q);
    CrossMultiplied(p, p + r, q, q + t);
  }

  /**
   Quality steering is monotone: a better statistic for an already ruled value never lowers that
   value's share, even when it becomes the new best and rescales all the others.
   */
  lemma RaisingNeverLowers(a: Axis, vs: seq<string>, weight: real, v: string, x: real)
    requires 0.0 <= weight <= 1.0 && Distinct(vs) && v in vs && v in a.stat && a.stat[v] <= x
    ensures Share(a, vs, weight, v) <= Share(Raised(a, v, x), vs, weight, v)
  {
    var b := Raised(a, v, x);
    var p, r := Amount(a, vs, weight, v), Others(a, vs, weight, vs, v);
    var p', r' := Amount(b, vs, weight, v), Others(b, vs, weight, vs, v);
    TotalApart(a, vs, weight, vs, v);
    TotalApart(b, vs, weight, vs, v);
    OthersFall(a, vs, weight, vs, v, x);
    AmountRaised(a, vs, weight, v, x, v);
    AmountBounds(a, vs, weight, v);
    if p + r > 0.0 && p' + r' > 0.0 {
      FractionGrows(p, r, p', r');
    } else if p + r > 0.0 {
      assert p == 0.0;
    } else if p' + r' > 0.0 {
      CrossMultiplied(0.0, 1.0, p', p' + r');
    }
  }

  lemma TotalSnoc(a: Axis, vs: seq<string>, weight: real, i: nat)
    requires i < |vs|
    ensures Total(a, vs, weight, vs[..i + 1]) == Total(a, vs, weight, vs[..i]) + Amount(a, vs, weight, vs[i])
    ensures vs[..i + 1] == vs[..i] + [vs[i]]
  {
    assert vs[..i + 1][..i] == vs[..i];
  }

  /** The dictionary of discounted rows, filled value by value, and their sum. */
  method Blend(a: Axis, vs: seq<string>, weight: real) returns (blended: map<string, real>, total: real)
    ensures forall v :: v in blended <==> v in vs
    ensures forall v :: v in vs ==> blended[v] == Amount(a, vs, weight, v)
    ensures total == Total(a, vs, weight, vs)
  {
    blended, total := map[], 0.0;
    for i := 0 to |vs|
      invariant forall v :: v in blended <==> v in vs[..i]
      invariant forall v :: v in vs[..i] ==> blended[v] == Amount(a, vs, weight, v)
      invariant total == Total(a, vs, weight, vs[..i])
    {
      var n := Discounted(Rows(a, vs[i]) as real, weight, Illumination(a.stat, vs, vs[i]));
      TotalSnoc(a, vs, weight, i);
      blended := blended[vs[i] := n];
      total := total + n;
    }
    assert vs[..|vs|] == vs;
  }

  /** The share of every value of the domain. */
  method BlendedShare(a: Axis, vs: seq<string>, weight: real) returns (share: map<string, real>)
    ensures forall v :: v in share <==> v in vs
    ensures forall v :: v in vs ==> share[v] == Share(a, vs, weight, v)
  {
    var blended, total := Blend(a, vs, weight);
    if total <= 0.0 {
      share := map v | v in blended :: 0.0;
    } else {
      share := map v | v in blended :: blended[v] / total;
    }
  }

  // ---- ranking -----------------------------------------------------------------------------

  datatype Scored = Scored(value: string, deficit: real)

  /** The order of the ranking: larger deficit first, ties by key. */
  predicate Ahead(key: string -> int, x: Scored, y: Scored) {
    x.deficit > y.deficit || (x.deficit == y.deficit && key(x.value) <= key(y.value))
  }

  predicate Ranked(key: string -> int, s: seq<Scored>) {
    forall i, j :: 0 <= i < j < |s| ==> Ahead(key, s[i], s[j])
  }

  function Insert(key: string -> int, x: Scored, s: seq<Scored>): (r: seq<Scored>)
    ensures |r| == |s| + 1
  {
    if s == [] || Ahead(key, x, s[0]) then [x] + s else [s[0]] + Insert(key, x, s[1..])
  }

  function Sort(key: string -> int, s: seq<Scored>): (r: seq<Scored>)
    ensures |r| == |s|
  {
    if s == [] then [] else Insert(key, s[0], Sort(key, s[1..]))
  }

  lemma {:induction false} InsertKeepsRanked(key: string -> int, x: Scored, s: seq<Scored>)
    requires Ranked(key, s)
    ensures Ranked(key, Insert(key, x, s)) && multiset(Insert(key, x, s)) == multiset(s) + multiset{x}
  {
    if s != [] && !Ahead(key, x, s[0]) {
      InsertKeepsRanked(key, x, s[1..]);
      var t := Insert(key, x, s[1..]);
      assert s == [s[0]] + s[1..];
      forall j | 0 <= j < |t| ensures Ahead(key, s[0], t[j]) {
        assert t[j] in multiset(t);
        assert t[j] == x || t[j] in s[1..];
      }
    } else {
      assert [x] + s == Insert(key, x, s);
    }
  }

  /** Sorting gives a ranked permutation. */
  lemma {:induction false} SortRanks(key: string -> int, s: seq<Scored>)
    ensures Ranked(key, Sort(key, s)) && multiset(Sort(key, s)) == multiset(s)
  {
    if s != [] {
      SortRanks(key, s[1..]);
      InsertKeepsRanked(key, s[0], Sort(key, s[1..]));
      assert s == [s[0]] + s[1..];
    }
  }

  /** No value twice. */
  predicate NoRepeat(s: seq<Scored>) { forall i, j :: 0 <= i < j < |s| ==> s[i].value != s[j].value }

  lemma {:induction false} InsertNoRepeat(key: string -> int, x: Scored, s: seq<Scored>)
    requires Ranked(key, s) && NoRepeat(s) && forall i :: 0 <= i < |s| ==> s[i].value != x.value
    ensures NoRepeat(Insert(key, x, s))
  {
    if s != [] && !Ahead(key, x, s[0]) {
      InsertNoRepeat(key, x, s[1..]);
      InsertKeepsRanked(key, x, s[1..]);
      var t := Insert(key, x, s[1..]);
      forall j | 0 <= j < |t| ensures t[j].value != s[0].value {
        assert t[j] in multiset(t);
        assert t[j] == x || t[j] in s[1..];
      }
    }
  }

  lemma {:induction false} SortNoRepeat(key: string -> int, s: seq<Scored>)
    requires NoRepeat(s)
    ensures NoRepeat(Sort(key, s))
  {
    if s != [] {
      var r := Sort(key, s[1..]);
      SortNoRepeat(key, s[1..]);
      SortRanks(key, s[1..]);
      forall i | 0 <= i < |r| ensures r[i].value != s[0].value {
        assert r[i] in multiset(r);
        assert r[i] in s[1..];
      }
      InsertNoRepeat(key, s[0], r);
    }
  }

  /** The deficit of every value against an even split. */
  function Deficits(a: Axis, vs: seq<string>, weight: real): (r: seq<Scored>)
    requires vs != []
  {
    seq(|vs|, i requires 0 <= i < |vs| => Scored(vs[i], 1.0 / |vs| as real - Share(a, vs, weight, vs[i])))
  }

  function Values(s: seq<Scored>): seq<string> { seq(|s|, i requires 0 <= i < |s| => s[i].value) }

  /** The values of an axis, most wanting first. */
  function RankByDeficit(a: Axis, vs: seq<string>, weight: real, key: string -> int): seq<Scored>
    requires vs != []
  {
    Sort(key, Deficits(a, vs, weight))
  }

  lemma SamePlaces(d: seq<Scored>, r: seq<Scored>, i: nat) returns (k: nat)
    requires multiset(d) == multiset(r) && i < |r|
    ensures k < |d| && d[k] == r[i]
  {
    assert r[i] in multiset(d);
    k :| 0 <= k < |d| && d[k] == r[i];
  }

  /**
   The ranking lists every value of the domain once, most wanting first: an earlier value never has
   the larger share.
   */
  lemma RankingIsSortedPermutation(a: Axis, vs: seq<string>, weight: real, key: string -> int)
    requires vs != [] && Distinct(vs)
    ensures var r := RankByDeficit(a, vs, weight, key);
            && |r| == |vs| && Ranked(key, r) && NoRepeat(r)
            && (forall v :: v in vs <==> exists i :: 0 <= i < |r| && r[i].value == v)
            && forall i, j :: 0 <= i < j < |r| ==> Share(a, vs, weight, r[i].value) <= Share(a, vs, weight, r[j].value)
  {
    var d := Deficits(a, vs, weight);
    var r := Sort(key, d);
    SortRanks(key, d);
    SortNoRepeat(key, d);
    forall i | 0 <= i < |r|
      ensures r[i].value in vs && r[i].deficit == 1.0 / |vs| as real - Share(a, vs, weight, r[i].value)
    {
      var k := SamePlaces(d, r, i);
    }
    forall v | v in vs ensures exists i :: 0 <= i < |r| && r[i].value == v {
      var k :| 0 <= k < |vs| && vs[k] == v;
      var i := SamePlaces(r, d, k);
    }
  }

  // ---- dealing -----------------------------------------------------------------------------

  lemma QuotientIsUnique(x: int, m: nat, q: int, r: nat)
    requires m > 0 && x == q * m + r && r < m
    ensures x / m == q && x % m == r
  {
    var q', r' := x / m, x % m;
    assert x == q' * m + r';
    assert (q - q') * m == r' - r;
    if q > q' { AtLeastOne(q - q', m); } else if q < q' { AtLeastOne(q' - q, m); }
  }

  lemma AtLeastOne(k: int, m: nat)
    requires k >= 1
    ensures k * m >= m
  {
  }

  lemma OneRound(n: nat, m: nat)
    requires n >= m > 0
    ensures n / m >= 1
  {
  }

  lemma NextDivision(n: nat, m: nat)
    requires m > 0
    ensures if n % m + 1 < m
            then (n + 1) / m == n / m && (n + 1) % m == n % m + 1
            else (n + 1) / m == n / m + 1 && (n + 1) % m == 0
  {
    if n % m + 1 < m {
      QuotientIsUnique(n + 1, m, n / m, n % m + 1);
    } else {
      QuotientIsUnique(n + 1, m, n / m + 1, 0);
    }
  }

  lemma ShiftedMod(offset: nat, n: nat, m: nat)
    requires offset < m
    ensures (offset + n) % m == if offset + n % m < m then offset + n % m else offset + n % m - m
  {
    var r := offset + n % m;
    if r < m { QuotientIsUnique(offset + n, m, n / m, r); } else { QuotientIsUnique(offset + n, m, n / m + 1, r - m); }
  }

  /** How many of the first n cells get `v`, dealing from `offset` round and round. */
  function Uses(ranked: seq<string>, offset: nat, n: nat, v: string): nat
    requires ranked != []
  {
    if n == 0 then 0
    else Uses(ranked, offset, n - 1, v) + if ranked[(offset + (n - 1)) % |ranked|] == v then 1 else 0
  }

  /** How many deals before rank `j` has its first turn. */
  function Turn(m: nat, offset: nat, j: nat): int { if j >= offset then j - offset else j - offset + m }

  /** Exactly how often each rank is dealt. */
  lemma {:induction false} DealtExactly(ranked: seq<string>, offset: nat, n: nat, j: nat)
    requires Distinct(ranked) && offset < |ranked| && j < |ranked|
    ensures Uses(ranked, offset, n, ranked[j]) == n / |ranked| +
              (if Turn(|ranked|, offset, j) < n % |ranked| then 1 else 0)
    decreases n
  {
    var m := |ranked|;
    if n == 0 {
      QuotientIsUnique(0, m, 0, 0);
    } else {
      DealtExactly(ranked, offset, n - 1, j);
      NextDivision(n - 1, m);
      ShiftedMod(offset, n - 1, m);
      var k := (offset + (n - 1)) % m;
      assert ranked[k] == ranked[j] <==> k == j;
    }
  }

  type Cell = map<string, string>

  /** How many cells carry `v` on `axis`. */
  function CellUses(cells: seq<Cell>, axis: string, v: string): nat {
    if cells == [] then 0
    else CellUses(cells[..|cells| - 1], axis, v)
         + if axis in cells[|cells| - 1] && cells[|cells| - 1][axis] == v then 1 else 0
  }

  /** The cells carry on `axis` the ranked values, dealt from `offset`. */
  predicate Dealt(cells: seq<Cell>, axis: string, ranked: seq<string>, offset: nat)
    requires ranked != []
  {
    forall i :: 0 <= i < |cells| ==> axis in cells[i] && cells[i][axis] == ranked[(offset + i) % |ranked|]
  }

  lemma {:induction false} CellsUse(cells: seq<Cell>, axis: string, ranked: seq<string>, offset: nat, v: string)
    requires ranked != [] && Dealt(cells, axis, ranked, offset)
    ensures CellUses(cells, axis, v) == Uses(ranked, offset, |cells|, v)
    decreases |cells|
  {
    if cells != [] {
      var front := cells[..|cells| - 1];
      assert forall i :: 0 <= i < |front| ==> front[i] == cells[i];
      CellsUse(front, axis, ranked, offset, v);
    }
  }

  /**
   Quota fairness: n cells over m values use each value floor(n/m) or ceil(n/m) times, so n >= m
   leaves no value out.
   */
  lemma QuotaIsFair(cells: seq<Cell>, axis: string, ranked: seq<string>, offset: nat, v: string)
    requires Distinct(ranked) && v in ranked && offset < |ranked| && Dealt(cells, axis, ranked, offset)
    ensures var n, m := |cells|, |ranked|;
            && n / m <= CellUses(cells, axis, v) <= n / m + (if n % m == 0 then 0 else 1)
            && (n >= m ==> CellUses(cells, axis, v) >= 1)
  {
    var j :| 0 <= j < |ranked| && ranked[j] == v;
    CellsUse(cells, axis, ranked, offset, v);
    DealtExactly(ranked, offset, |cells|, j);
    if |cells| >= |ranked| { OneRound(|cells|, |ranked|); }
  }

  /** An axis fixed by the context is not spread at all: every cell carries the context's value. */
  lemma {:induction false} ContextIsNotSpread(cells: seq<Cell>, axis: string, fixed: string, v: string)
    requires forall i :: 0 <= i < |cells| ==> axis in cells[i] && cells[i][axis] == fixed
    ensures CellUses(cells, axis, v) == if v == fixed then |cells| else 0
  {
    if cells != [] { ContextIsNotSpread(cells[..|cells| - 1], axis, fixed, v); }
  }

  predicate Known(v: string) { v != UNKNOWN }

  /** The selectable values of an axis: the supplied ones if any, else those observed; each once, never "unknown". */
  function Domain(supplied: seq<string>, observed: seq<string>): (vs: seq<string>)
    ensures Distinct(vs) && forall v :: v in vs <==>
              v != UNKNOWN && v in (if supplied != [] then supplied else observed)
  {
    Once(if supplied != [] then supplied else observed, Known)
  }

  /** The selectable values stand in the order in which they were first supplied, or first observed. */
  lemma DomainInOrder(supplied: seq<string>, observed: seq<string>)
    ensures InOrder(if supplied != [] then supplied else observed, Domain(supplied, observed))
  {
    OnceInOrder(if supplied != [] then supplied else observed, Known);
  }

  /** One axis of a plan: its coverage, its domain and its dice. */
  datatype Plan = Plan(axis: string, cov: Axis, vs: seq<string>, key: string -> int, offset: nat) {
    predicate Good() { vs != [] && Distinct(vs) && offset < |vs| }

    function Ranking(weight: real): (r: seq<string>)
      requires Good()
      ensures |r| == |vs|
    {
      Values(RankByDeficit(cov, vs, weight, key))
    }
  }

  lemma RankingCovers(p: Plan, weight: real)
    requires p.Good()
    ensures var r := p.Ranking(weight); Distinct(r) && forall v :: v in r <==> v in p.vs
  {
    RankingIsSortedPermutation(p.cov, p.vs, weight, p.key);
    var s := RankByDeficit(p.cov, p.vs, weight, p.key);
    forall v | v in p.vs ensures v in p.Ranking(weight) {
      var i :| 0 <= i < |s| && s[i].value == v;
      assert p.Ranking(weight)[i] == v;
    }
  }

  /** Deals one axis over the cells, in place. */
  method DealAxis(cells: array<Cell>, p: Plan, weight: real)
    requires p.Good()
    modifies cells
    ensures Dealt(cells[..], p.axis, p.Ranking(weight), p.offset)
    ensures forall i, a :: 0 <= i < cells.Length && a != p.axis ==>
              (a in cells[i] <==> a in old(cells[i])) && (a in cells[i] ==> cells[i][a] == old(cells[i])[a])
  {
    RankingCovers(p, weight);
    var ranked := p.Ranking(weight);
    for i := 0 to cells.Length
      invariant forall k :: 0 <= k < i ==> cells[k] == old(cells[k])[p.axis := ranked[(p.offset + k) % |ranked|]]
      invariant forall k :: i <= k < cells.Length ==> cells[k] == old(cells[k])
    {
      cells[i] := cells[i][p.axis := ranked[(p.offset + i) % |ranked|]];
    }
  }

  /** The plans are for different axes, each with something to choose from. */
  predicate Plans(ps: seq<Plan>) {
    && (forall i :: 0 <= i < |ps| ==> ps[i].Good())
    && (forall i, j :: 0 <= i < j < |ps| ==> ps[i].axis != ps[j].axis)
  }

  /** Every one of these axes has been dealt, unless the context fixes it. */
  predicate AllDealt(cells: seq<Cell>, ps: seq<Plan>, weight: real, context: Cell)
    requires forall k :: 0 <= k < |ps| ==> ps[k].Good()
  {
    forall k :: 0 <= k < |ps| && ps[k].axis !in context ==>
        Dealt(cells, ps[k].axis, ps[k].Ranking(weight), ps[k].offset)
  }

  /** Lays the context over every cell, in place. */
  method Overlay(cells: array<Cell>, context: Cell)
    modifies cells
    ensures forall i :: 0 <= i < cells.Length ==> cells[i] == old(cells[i]) + context
  {
    for i := 0 to cells.Length
      invariant forall k :: 0 <= k < i ==> cells[k] == old(cells[k]) + context
      invariant forall k :: i <= k < cells.Length ==> cells[k] == old(cells[k])
    {
      cells[i] := cells[i] + context;
    }
  }

  lemma DealtStays(before: seq<Cell>, after: seq<Cell>, other: string, axis: string, ranked: seq<string>, offset: nat)
    requires ranked != [] && Dealt(before, axis, ranked, offset) && axis != other && |before| == |after|
    requires forall i, a :: 0 <= i < |after| && a != other ==>
               (a in after[i] <==> a in before[i]) && (a in after[i] ==> after[i][a] == before[i][a])
    ensures Dealt(after, axis, ranked, offset)
  {
  }

  /** One more axis has been dealt, and the ones before it still are. */
  lemma OneMoreDealt(before: seq<Cell>, after: seq<Cell>, ps: seq<Plan>, k: nat, weight: real)
    requires Plans(ps) && k < |ps| && |before| == |after| && AllDealt(before, ps[..k], weight, map[])
    requires Dealt(after, ps[k].axis, ps[k].Ranking(weight), ps[k].offset)
    requires forall i, a :: 0 <= i < |after| && a != ps[k].axis ==>
               (a in after[i] <==> a in before[i]) && (a in after[i] ==> after[i][a] == before[i][a])
    ensures AllDealt(after, ps[..k + 1], weight, map[])
  {
    forall j | 0 <= j < k ensures Dealt(after, ps[j].axis, ps[j].Ranking(weight), ps[j].offset) {
      assert ps[..k][j] == ps[j];
      DealtStays(before, after, ps[k].axis, ps[j].axis, ps[j].Ranking(weight), ps[j].offset);
    }
  }

  /** Laying the context over the cells leaves every axis dealt that it does not fix. */
  lemma DealtUnderContext(dealt: seq<Cell>, cells: seq<Cell>, ps: seq<Plan>, weight: real, context: Cell)
    requires Plans(ps) && |cells| == |dealt| && AllDealt(dealt, ps, weight, map[])
    requires forall i :: 0 <= i < |cells| ==> cells[i] == dealt[i] + context
    ensures AllDealt(cells, ps, weight, context)
  {
    forall k | 0 <= k < |ps| && ps[k].axis !in context
      ensures Dealt(cells, ps[k].axis, ps[k].Ranking(weight), ps[k].offset)
    {
      assert Dealt(dealt, ps[k].axis, ps[k].Ranking(weight), ps[k].offset);
    }
  }

  /** Picks n target cells: each axis dealt round-robin over all of them, then the context laid over each. */
  method SelectCells(ps: seq<Plan>, n: int, weight: real, context: Cell) returns (cells: seq<Cell>)
    requires Plans(ps)
    ensures |cells| == if n <= 0 || ps == [] then 0 else n
    ensures AllDealt(cells, ps, weight, context)
    ensures forall i, a :: 0 <= i < |cells| && a in context ==> a in cells[i] && cells[i][a] == context[a]
  {
    if n <= 0 || ps == [] { return []; }
    var grid := new Cell[n](_ => map[]);
    for k := 0 to |ps|
      invariant AllDealt(grid[..], ps[..k], weight, map[])
    {
      ghost var before := grid[..];
      DealAxis(grid, ps[k], weight);
      OneMoreDealt(before, grid[..], ps, k, weight);
    }
    assert ps[..|ps|] == ps;
    ghost var dealt := grid[..];
    Overlay(grid, context);
    cells := grid[..];
    DealtUnderContext(dealt, cells, ps, weight, context);
  }

  /** What a plan's axis looks like on the cells picked: spread over its whole domain as evenly as can be. */
  lemma PickedCellsCoverEvenly(cells: seq<Cell>, ps: seq<Plan>, k: nat, weight: real, context: Cell, v: string)
    requires Plans(ps) && AllDealt(cells, ps, weight, context) && k < |ps| && ps[k].axis !in context && v in ps[k].vs
    ensures var n, m := |cells|, |ps[k].vs|;
            && n / m <= CellUses(cells, ps[k].axis, v) <= n / m + (if n % m == 0 then 0 else 1)
            && (n >= m ==> CellUses(cells, ps[k].axis, v) >= 1)
  {
    RankingCovers(ps[k], weight);
    QuotaIsFair(cells, ps[k].axis, ps[k].Ranking(weight), ps[k].offset, v);
  }
}
