/**
 The publish money rail of prospector/bridge.py: one pack, published any number of times, against a
 payment provider, an object store and a catalogue row.
 */
module Bridge {
  import opened Common

  /** A provider price: what it belongs to and what it charges. Never changed once made. */
  datatype Price = Price(product: string, pence: int, usd: Option<int>)

  /** The catalogue row, which is the last payload the Store accepted. */
  datatype Row = Row(product: string, price: string, pence: int, usd: Option<int>, listed: bool,
      content: Option<string>)

  datatype World = World(prices: map<string, Price>, products: set<string>, storage: set<string>, row: Option<Row>)

  /**
   Everything one publish meets: the gates' verdicts, the ladder's decision and the answers of the
   services. `None` for an id means the call raised.
   */
  datatype Attempt = Attempt(
    admitted: bool, bundled: bool, dryRun: bool,
    packComplete: bool, bundleComplete: bool, lintOk: bool, claimsOk: bool, figuresOk: bool,
    decidedPence: int, decidedUsd: Option<int>,
    readOk: bool, hasProvisioner: bool, describeOk: bool,
    newProduct: Option<string>, newPrice: Option<string>,
    uploads: bool, bundleKey: string, keySet: bool, accepted: bool)

  /** `sent` is the payload posted, whether or not the Store accepted it. */
  datatype Outcome = Outcome(world: World, ok: bool, sent: Option<Row>, minted: Option<string>)

  const PROV_STUB: string := "prov_stub_"
  const PRICE_STUB: string := "price_stub_"

  predicate StartsWith(s: string, p: string) { |p| <= |s| && s[..|p|] == p }

  // ---- the listing gate --------------------------------------------------------------------

  const LISTING_FENCES: seq<string> :=
      ["uploaded", "pack_complete", "priced", "bundle_complete", "lint_ok", "figures_verified"]

  datatype Verdicts = Verdicts(uploaded: bool, packComplete: bool, priced: bool, bundleComplete: bool, lintOk: bool,
      figuresOk: bool)

  /** In fence order. */
  function AsList(v: Verdicts): seq<bool> {
    [v.uploaded, v.packComplete, v.priced, v.bundleComplete, v.lintOk, v.figuresOk]
  }

  /** The names of the fences whose verdict is false, in fence order. */
  function Refusals(names: seq<string>, verdicts: seq<bool>): seq<string>
    requires |names| == |verdicts|
    decreases verdicts
  {
    if names == [] then []
    else (if verdicts[0] then [] else [names[0]]) + Refusals(names[1..], verdicts[1..])
  }

  lemma {:induction false} RefusalsNameTheFailures(names: seq<string>, verdicts: seq<bool>)
    requires |names| == |verdicts|
    ensures Refusals(names, verdicts) == [] <==> forall i :: 0 <= i < |verdicts| ==> verdicts[i]
    ensures forall n :: n in Refusals(names, verdicts) <==>
              exists i :: 0 <= i < |names| && names[i] == n && !verdicts[i]
  {
    if names != [] {
      RefusalsNameTheFailures(names[1..], verdicts[1..]);
      forall n | n in Refusals(names, verdicts)
        ensures exists i :: 0 <= i < |names| && names[i] == n && !verdicts[i]
      {
        if n in Refusals(names[1..], verdicts[1..]) {
          var i :| 0 <= i < |names[1..]| && names[1..][i] == n && !verdicts[1..][i];
          assert names[i + 1] == n && !verdicts[i + 1];
        }
      }
      forall i | 0 <= i < |names| && !verdicts[i] ensures names[i] in Refusals(names, verdicts) {
        if i > 0 { assert names[1..][i - 1] == names[i] && !verdicts[1..][i - 1]; }
      }
      if forall i :: 0 <= i < |verdicts[1..]| ==> verdicts[1..][i] {
        assert forall i :: 1 <= i < |verdicts| ==> verdicts[i] == verdicts[1..][i - 1];
      }
      assert forall i :: 0 <= i < |verdicts[1..]| ==> verdicts[1..][i] == verdicts[i + 1];
    }
  }

  function ListingBlockers(v: Verdicts): seq<string> {
    Refusals(LISTING_FENCES, AsList(v))
  }

  predicate ListingGate(v: Verdicts) {
    ListingBlockers(v) == []
  }

  /** The gate opens exactly when all six verdicts are true, and the blockers name exactly the false ones. */
  lemma GateIsTheConjunction(v: Verdicts)
    ensures ListingGate(v) <==> v == Verdicts(true, true, true, true, true, true)
    ensures forall i :: 0 <= i < 6 ==> (LISTING_FENCES[i] in ListingBlockers(v) <==> !AsList(v)[i])
  {
    var l := AsList(v);
    RefusalsNameTheFailures(LISTING_FENCES, l);
    assert (forall i :: 0 <= i < |l| ==> l[i]) <==> l[0] && l[1] && l[2] && l[3] && l[4] && l[5];
    FencesDiffer();
  }

  lemma FencesDiffer()
    ensures forall i, j :: 0 <= i < j < |LISTING_FENCES| ==> LISTING_FENCES[i] != LISTING_FENCES[j]
  {
    assert forall i, j :: 0 <= i < j < |LISTING_FENCES| && |LISTING_FENCES[i]| == |LISTING_FENCES[j]| ==>
             LISTING_FENCES[i][0] != LISTING_FENCES[j][0];
  }

  // ---- the publish -------------------------------------------------------------------------

  predicate ContentOk(a: Attempt) { a.packComplete && a.bundleComplete && a.lintOk && a.claimsOk }

  /** `_resolve_money_rail`'s test for a billable price id already on the row. */
  predicate LiveId(price: string) {
    price != "" && !StartsWith(price, PROV_STUB) && !StartsWith(price, PRICE_STUB)
  }

  /** The row as this publish saw it: a failed read looks like no row. */
  function SeenRow(w: World, a: Attempt): Option<Row> { if a.readOk then w.row else None }

  predicate SeesLive(w: World, a: Attempt) { SeenRow(w, a).Some? && LiveId(SeenRow(w, a).value.price) }

  datatype Rail = Rail(product: string, price: string, pence: int, usd: Option<int>)

  /** How the rail is settled: refuse to publish, or go on with a rail in a possibly larger provider. */
  datatype Settled = Refuse(world: World) | Go(world: World, rail: Rail, minted: Option<string>)

  function Prefix8(id: string): string { if |id| <= 8 then id else id[..8] }

  function SettleRail(w: World, id: string, a: Attempt): Settled {
    if SeesLive(w, a) then
      var price := SeenRow(w, a).value.price;
      if !a.hasProvisioner || !a.describeOk || price !in w.prices then Refuse(w)
      else Go(w, Rail(w.prices[price].product, price, w.prices[price].pence, None), None)
    else if !ContentOk(a) || !a.hasProvisioner then
      Go(w, Rail(PROV_STUB + Prefix8(id), PRICE_STUB + Prefix8(id), a.decidedPence, None), None)
    else if a.newProduct.None? then Refuse(w)
    else
      var w1 := w.(products := w.products + {a.newProduct.value});
      if a.newPrice.None? then Refuse(w1)
      else Go(w1.(prices := w1.prices[a.newPrice.value := Price(a.newProduct.value, a.decidedPence, a.decidedUsd)]),
              Rail(a.newProduct.value, a.newPrice.value, a.decidedPence, a.decidedUsd), a.newPrice)
  }

  predicate Priced(price: string) { price != "" && !StartsWith(price, PRICE_STUB) }

  predicate Uploaded(a: Attempt) { ContentOk(a) && a.uploads }

  function Payload(rail: Rail, a: Attempt): Row {
    var listed := ListingGate(Verdicts(Uploaded(a), a.packComplete, Priced(rail.price), a.bundleComplete, a.lintOk,
        a.figuresOk));
    Row(rail.product, rail.price, rail.pence, rail.usd, listed, if listed then Some(a.bundleKey) else None)
  }

  /** Upload, gate and write, once the rail is settled. */
  function Finish(w1: World, rail: Rail, minted: Option<string>, a: Attempt): Outcome {
    var w2 := if Uploaded(a) then w1.(storage := w1.storage + {a.bundleKey}) else w1;
    if !a.keySet then Outcome(w2, false, None, minted)
    else
      var row := Payload(rail, a);
      Outcome(if a.accepted then w2.(row := Some(row)) else w2, a.accepted, Some(row), minted)
  }

  /** `publish_pass`, as a function of the world it starts from. */
  function Publish(w: World, id: string, a: Attempt): Outcome {
    if !a.admitted || !a.bundled then Outcome(w, false, None, None)
    else if a.dryRun then Outcome(w, ContentOk(a), None, None)
    else
      match SettleRail(w, id, a)
      case Refuse(w1) => Outcome(w1, false, None, None)
      case Go(w1, rail, minted) => Finish(w1, rail, minted, a)
  }

  function RunAll(w: World, id: string, as_: seq<Attempt>): World
    decreases as_
  {
    if as_ == [] then w else RunAll(Publish(w, id, as_[0]).world, id, as_[1..])
  }

  // ---- listing safety ----------------------------------------------------------------------

  /** A settled rail with a real price id names a provider price that charges exactly what the rail says. */
  lemma PricedRailIsReal(w: World, id: string, a: Attempt)
    requires SettleRail(w, id, a).Go? && Priced(SettleRail(w, id, a).rail.price)
    ensures var g := SettleRail(w, id, a);
            && g.rail.price in g.world.prices
            && g.world.prices[g.rail.price].product == g.rail.product
            && g.world.prices[g.rail.price].pence == g.rail.pence
            && (g.rail.usd.Some? ==> g.minted == Some(g.rail.price) && g.world.prices[g.rail.price].usd == g.rail.usd)
  {
    assert StartsWith(PRICE_STUB + Prefix8(id), PRICE_STUB);
  }

  /** A listed payload was let through by every fence. */
  lemma ListedMeansGated(rail: Rail, a: Attempt)
    requires Payload(rail, a).listed
    ensures a.packComplete && a.bundleComplete && a.lintOk && a.claimsOk && a.figuresOk && a.uploads &&
              Priced(rail.price)
    ensures Payload(rail, a).content == Some(a.bundleKey)
  {
    GateIsTheConjunction(Verdicts(Uploaded(a), a.packComplete, Priced(rail.price), a.bundleComplete, a.lintOk,
        a.figuresOk));
  }

  /**
   Every listed payload has its bundle in storage, every gate behind it, and a real price that
   charges exactly what the payload says.
   */
  lemma ListedMeansSellable(w: World, id: string, a: Attempt)
    requires Publish(w, id, a).sent.Some? && Publish(w, id, a).sent.value.listed
    ensures var o := Publish(w, id, a); var row := o.sent.value;
            && a.packComplete && a.bundleComplete && a.lintOk && a.claimsOk && a.figuresOk
            && !a.dryRun && a.uploads
            && row.content == Some(a.bundleKey) && a.bundleKey in o.world.storage
            && Priced(row.price) && row.price in o.world.prices
            && o.world.prices[row.price].product == row.product
            && o.world.prices[row.price].pence == row.pence
            && (row.usd.Some? ==> o.minted == Some(row.price) && o.world.prices[row.price].usd == row.usd)
  {
    var rail := SettleRail(w, id, a).rail;
    assert Publish(w, id, a).sent == Some(Payload(rail, a));
    ListedMeansGated(rail, a);
    PricedRailIsReal(w, id, a);
  }

  /**
   Nothing is minted for a pack that cannot list, a dry run touches nothing, and old prices, products
   and bundles are never changed or removed.
   */
  lemma PublishOnlyAdds(w: World, id: string, a: Attempt)
    requires HonestIds(w, a)
    ensures var w' := Publish(w, id, a).world;
            && (!ContentOk(a) ==> w'.prices == w.prices && w'.products == w.products && w'.storage == w.storage)
            && (a.dryRun ==> w' == w && Publish(w, id, a).sent.None?)
            && (forall p :: p in w.prices ==> p in w'.prices && w'.prices[p] == w.prices[p])
            && w.products <= w'.products && w.storage <= w'.storage
            && (Publish(w, id, a).minted.None? ==> w'.prices == w.prices)
  {
  }

  // ---- rail stability ----------------------------------------------------------------------

  /** A live row names a price that exists and charges what the row says. */
  predicate RailOk(w: World) {
    w.row.Some? && LiveId(w.row.value.price) ==>
      && w.row.value.price in w.prices
      && w.prices[w.row.value.price].product == w.row.value.product
      && w.prices[w.row.value.price].pence == w.row.value.pence
  }

  /**
   The provider answers a creation with a billable id that is new, or, when it replays an identical
   request under its idempotency key, with the very price made before.
   */
  predicate HonestIds(w: World, a: Attempt) {
    a.newPrice.Some? ==>
      && LiveId(a.newPrice.value)
      && (a.newPrice.value in w.prices ==>
            a.newProduct.Some? && w.prices[a.newPrice.value] == Price(a.newProduct.value, a.decidedPence, a.decidedUsd))
  }

  predicate OnSale(w: World) { w.row.Some? && LiveId(w.row.value.price) }

  predicate SameRail(w: World, w': World) {
    && w.row.Some? && w'.row.Some?
    && w'.row.value.product == w.row.value.product
    && w'.row.value.price == w.row.value.price
    && w'.row.value.pence == w.row.value.pence
  }

  /** A payload, accepted or not, with the product, price and amount the pack is already sold with. */
  predicate Resends(w: World, sent: Row) {
    && w.row.Some?
    && sent.product == w.row.value.product
    && sent.price == w.row.value.price
    && sent.pence == w.row.value.pence
  }

  lemma StubIsNotLive(id: string)
    ensures !LiveId(PRICE_STUB + Prefix8(id))
  {
    assert (PRICE_STUB + Prefix8(id))[..|PRICE_STUB|] == PRICE_STUB;
  }

  /**
   One publish keeps a real rail real; on a pack on sale whatever is sent, accepted or not, carries
   the same rail, and nothing is created.
   */
  lemma PublishKeepsRail(w: World, id: string, a: Attempt)
    requires RailOk(w) && HonestIds(w, a) && a.readOk
    ensures RailOk(Publish(w, id, a).world)
    ensures OnSale(w) ==> SameRail(w, Publish(w, id, a).world) && Publish(w, id, a).minted.None?
    ensures OnSale(w) && Publish(w, id, a).sent.Some? ==> Resends(w, Publish(w, id, a).sent.value)
  {
    StubIsNotLive(id);
  }

  ghost predicate GoodRun(w: World, id: string, as_: seq<Attempt>)
    decreases as_
  {
    as_ == [] || (as_[0].readOk && HonestIds(w, as_[0]) && GoodRun(Publish(w, id, as_[0]).world, id, as_[1..]))
  }

  /**
   Rail stability: once a pack is on sale, no later publish moves its product, price or amount, and
   none mints, whatever the ladder, the gates and the services do.
   */
  lemma {:induction false} RailNeverMoves(w: World, id: string, as_: seq<Attempt>)
    requires RailOk(w) && OnSale(w) && GoodRun(w, id, as_)
    ensures SameRail(w, RunAll(w, id, as_)) && RailOk(RunAll(w, id, as_))
    ensures RunAll(w, id, as_).prices == w.prices
    decreases as_
  {
    if as_ != [] {
      PublishKeepsRail(w, id, as_[0]);
      PublishOnlyAdds(w, id, as_[0]);
      RailNeverMoves(Publish(w, id, as_[0]).world, id, as_[1..]);
    }
  }

  lemma {:induction false} RailStaysOk(w: World, id: string, as_: seq<Attempt>)
    requires RailOk(w) && GoodRun(w, id, as_)
    ensures RailOk(RunAll(w, id, as_))
    decreases as_
  {
    if as_ != [] {
      PublishKeepsRail(w, id, as_[0]);
      RailStaysOk(Publish(w, id, as_[0]).world, id, as_[1..]);
    }
  }

  // ---- how many prices one pack can cost ---------------------------------------------------

  /** Publishes that asked for a price and got one, new or replayed. */
  function Mints(w: World, id: string, as_: seq<Attempt>): nat
    decreases as_
  {
    if as_ == [] then 0
    else (if Publish(w, id, as_[0]).minted.Some? then 1 else 0) + Mints(Publish(w, id, as_[0]).world, id, as_[1..])
  }

  predicate MintsNew(w: World, id: string, a: Attempt) {
    var minted := Publish(w, id, a).minted;
    minted.Some? && minted.value !in w.prices
  }

  /** Publishes that made the provider create a price it did not have. */
  function NewPrices(w: World, id: string, as_: seq<Attempt>): nat
    decreases as_
  {
    if as_ == [] then 0
    else (if MintsNew(w, id, as_[0]) then 1 else 0) + NewPrices(Publish(w, id, as_[0]).world, id, as_[1..])
  }

  /** Publishes that got a price and then failed to put it on the row. */
  function Orphans(w: World, id: string, as_: seq<Attempt>): nat
    decreases as_
  {
    if as_ == [] then 0
    else
      var o := Publish(w, id, as_[0]);
      (if o.minted.Some? && !o.ok then 1 else 0) + Orphans(o.world, id, as_[1..])
  }

  /**
   Over any run a pack costs at most one price more than the catalogue writes it lost, replays
   costing none; a pack on sale costs none at all.
   */
  lemma {:induction false} OnePriceBarLostWrites(w: World, id: string, as_: seq<Attempt>)
    requires RailOk(w) && GoodRun(w, id, as_)
    ensures |RunAll(w, id, as_).prices| == |w.prices| + NewPrices(w, id, as_)
    ensures NewPrices(w, id, as_) <= Mints(w, id, as_) <= Orphans(w, id, as_) + if OnSale(w) then 0 else 1
    decreases as_
  {
    if as_ != [] {
      var o := Publish(w, id, as_[0]);
      PublishKeepsRail(w, id, as_[0]);
      MintAddsOne(w, id, as_[0]);
      OnePriceBarLostWrites(o.world, id, as_[1..]);
    }
  }

  lemma MintAddsOne(w: World, id: string, a: Attempt)
    requires HonestIds(w, a)
    ensures var o := Publish(w, id, a);
            && |o.world.prices| == |w.prices| + (if MintsNew(w, id, a) then 1 else 0)
            && (o.minted.Some? && o.ok ==> OnSale(o.world))
  {
    var o := Publish(w, id, a);
    if o.minted.Some? {
      assert o.world.prices == w.prices[a.newPrice.value := Price(a.newProduct.value, a.decidedPence, a.decidedUsd)];
      assert o.world.prices.Keys == w.prices.Keys + {a.newPrice.value};
    }
  }

  // ---- a failed read -----------------------------------------------------------------------

  /** Whether this publish, not seeing the row, gets as far as a write the Store accepts. */
  predicate WritesBlind(a: Attempt) {
    && a.admitted && a.bundled && !a.dryRun && a.keySet && a.accepted
    && (ContentOk(a) && a.hasProvisioner ==> a.newProduct.Some? && a.newPrice.Some?)
  }

  /** The creation this publish falls back on is answered with the very price the row already carries. */
  predicate ReplaysRow(w: World, a: Attempt) {
    ContentOk(a) && a.hasProvisioner && w.row.Some? && a.newPrice == Some(w.row.value.price)
  }

  /**
   With an unreadable row the rail of a pack on sale survives exactly when the publish never reaches
   an accepted write, or the provider replays the row's own price.
   */
  lemma BlindPublishLosesRailIff(w: World, id: string, a: Attempt)
    requires RailOk(w) && OnSale(w) && HonestIds(w, a) && !a.readOk
    ensures SameRail(w, Publish(w, id, a).world) <==> !WritesBlind(a) || ReplaysRow(w, a)
  {
    StubIsNotLive(id);
  }

  // ---- the class ---------------------------------------------------------------------------

  class EngineBridge {
    const id: string
    var prices: map<string, Price>
    var products: set<string>
    var storage: set<string>
    var row: Option<Row>

    ghost function View(): World
      reads this
    {
      World(prices, products, storage, row)
    }

    constructor (id: string, w: World)
      ensures View() == w && this.id == id
    {
      this.id := id;
      prices, products, storage, row := w.prices, w.products, w.storage, w.row;
    }

    /** `_resolve_money_rail`: the rail the pack is already sold with, `None` to mint one, or a refusal. */
    method ResolveMoneyRail(existing: Option<Row>, a: Attempt) returns (refused: bool, reused: Option<Rail>)
      ensures reused.Some? ==> !refused
      ensures (existing.Some? && LiveId(existing.value.price)) <==> refused || reused.Some?
      ensures refused <==> existing.Some? && LiveId(existing.value.price)
                           && !(a.hasProvisioner && a.describeOk && existing.value.price in prices)
      ensures reused.Some? ==>
                && existing.value.price in prices
                && reused.value == Rail(prices[existing.value.price].product, existing.value.price,
                    prices[existing.value.price].pence, None)
    {
      refused, reused := false, None;
      if existing.None? || !LiveId(existing.value.price) { return; }
      var price := existing.value.price;
      if !a.hasProvisioner { return true, None; }
      if !a.describeOk || price !in prices { return true, None; }
      reused := Some(Rail(prices[price].product, price, prices[price].pence, None));
    }

    /** `_update_catalog`. */
    method UpdateCatalog(payload: Row, a: Attempt) returns (ok: bool, ghost sent: Option<Row>)
      modifies this`row
      ensures sent == (if a.keySet then Some(payload) else None) && ok == (a.keySet && a.accepted)
      ensures row == if ok then Some(payload) else old(row)
    {
      if !a.keySet { return false, None; }
      ok, sent := a.accepted, Some(payload);
      if ok { row := Some(payload); }
    }

    /** The rail this publish will sell with: the live one, a freshly minted one, or a stub. */
    method Provision(a: Attempt) returns (refused: bool, rail: Rail, ghost minted: Option<string>)
      modifies this`prices, this`products
      ensures refused ==> SettleRail(old(View()), id, a) == Refuse(View())
      ensures !refused ==> SettleRail(old(View()), id, a) == Go(View(), rail, minted)
    {
      minted := None;
      rail := Rail(PROV_STUB + Prefix8(id), PRICE_STUB + Prefix8(id), a.decidedPence, None);
      var reused;
      refused, reused := ResolveMoneyRail(if a.readOk then row else None, a);
      if refused { return; }
      if reused.Some? {
        rail := reused.value;
      } else if a.packComplete && a.bundleComplete && a.lintOk && a.claimsOk && a.hasProvisioner {
        if a.newProduct.None? { return true, rail, None; }
        products := products + {a.newProduct.value};
        if a.newPrice.None? { return true, rail, None; }
        prices := prices[a.newPrice.value := Price(a.newProduct.value, a.decidedPence, a.decidedUsd)];
        rail := Rail(a.newProduct.value, a.newPrice.value, a.decidedPence, a.decidedUsd);
        minted := a.newPrice;
      }
    }

    /** The upload, skipped for a pack that failed a content gate. */
    method Upload(contentOk: bool, a: Attempt) returns (uploaded: bool)
      requires contentOk == ContentOk(a)
      modifies this`storage
      ensures uploaded == Uploaded(a)
      ensures storage == if uploaded then old(storage) + {a.bundleKey} else old(storage)
    {
      uploaded := false;
      if contentOk {
        uploaded := a.uploads;
        if uploaded { storage := storage + {a.bundleKey}; }
      }
    }

    /** The listing decision and the payload that carries it. */
    method BuildPayload(rail: Rail, uploaded: bool, a: Attempt) returns (payload: Row)
      requires uploaded == Uploaded(a)
      ensures payload == Payload(rail, a)
    {
      var priced := rail.price != "" && !StartsWith(rail.price, PRICE_STUB);
      var listed := ListingGate(Verdicts(uploaded, a.packComplete, priced, a.bundleComplete, a.lintOk, a.figuresOk));
      payload := Row(rail.product, rail.price, rail.pence, rail.usd, listed,
          if listed then Some(a.bundleKey) else None);
    }

    /** The second half of `publish_pass`: upload, decide the listing, write the row. */
    method Ship(contentOk: bool, rail: Rail, ghost minted: Option<string>, a: Attempt)
        returns (ok: bool, ghost sent: Option<Row>)
      requires contentOk == ContentOk(a)
      modifies this`storage, this`row
      ensures Outcome(View(), ok, sent, minted) == Finish(old(View()), rail, minted, a)
    {
      var uploaded := Upload(contentOk, a);
      var payload := BuildPayload(rail, uploaded, a);
      ok, sent := UpdateCatalog(payload, a);
    }

    /** `publish_pass` from the content gates on: a pack on sale keeps its rail. */
    method PublishPass(a: Attempt) returns (ok: bool, ghost sent: Option<Row>, ghost minted: Option<string>)
      modifies this
      ensures Outcome(View(), ok, sent, minted) == Publish(old(View()), id, a)
      ensures RailOk(old(View())) && HonestIds(old(View()), a) && a.readOk && OnSale(old(View())) ==>
                SameRail(old(View()), View())
    {
      ghost var before := View();
      if RailOk(before) && HonestIds(before, a) && a.readOk { PublishKeepsRail(before, id, a); }
      if !a.admitted || !a.bundled { return false, None, None; }
      var contentOk := a.packComplete && a.bundleComplete && a.lintOk && a.claimsOk;
      if a.dryRun { return contentOk, None, None; }
      var refused, rail;
      refused, rail, minted := Provision(a);
      if refused { return false, None, None; }
      ok, sent := Ship(contentOk, rail, minted, a);
    }
  }
}
