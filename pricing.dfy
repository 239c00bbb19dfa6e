/**
 * views/merchandiser_pricing.py: the price compliance page. One entry per
 * SKU whose price is above 0; the submit button needs only a GPS fix.
 */
module Pricing {
  import opened Wrappers
  import opened Forms
  import opened DbUtils

  /** An entry of price_data. */
  datatype PriceEntry = PriceEntry(skuId: nat, price: nat)

  /** The record add_pricing_track inserts; outletInfo is the selected label. */
  datatype PriceTrack = PriceTrack(outletId: nat, userId: nat, prices: seq<PriceEntry>, gps: Fix, outletInfo: string)

  /** The entries the loop appends for the SKUs it visits, the price of a
      SKU being what was typed under the widget key qty_<id>. */
  function Prices(skus: seq<Sku>, priceOf: nat -> nat): seq<PriceEntry> {
    if skus == [] then []
    else
      var s := skus[|skus| - 1];
      Prices(skus[..|skus| - 1], priceOf) + (if priceOf(s.id) > 0 then [PriceEntry(s.id, priceOf(s.id))] else [])
  }

  lemma PricesStep(prefix: seq<Sku>, skus: seq<Sku>, j: nat, priceOf: nat -> nat)
    requires j < |skus|
    ensures var s := skus[j];
      Prices(prefix + skus[..j + 1], priceOf)
      == Prices(prefix + skus[..j], priceOf) + (if priceOf(s.id) > 0 then [PriceEntry(s.id, priceOf(s.id))] else [])
  {
    assert (prefix + skus[..j + 1])[..|prefix + skus[..j + 1]| - 1] == prefix + skus[..j];
  }

  /** The nested loop of views/merchandiser_pricing.py:29-35. */
  method CollectPrices(groups: SkuGroups, priceOf: nat -> nat) returns (prices: seq<PriceEntry>)
    requires forall c | c in groups.categories :: c in groups.byCategory
    ensures prices == Prices(Visited(groups), priceOf)
  {
    prices := [];
    var cats := groups.categories;
    for i := 0 to |cats|
      invariant forall c | c in cats[..i] :: c in groups.byCategory
      invariant prices == Prices(Flatten(cats[..i], groups.byCategory), priceOf)
    {
      VisitedStep(groups, i);
      ghost var prefix := Flatten(cats[..i], groups.byCategory);
      var skus := groups.byCategory[cats[i]];
      assert prefix + skus[..0] == prefix;
      for j := 0 to |skus|
        invariant prices == Prices(prefix + skus[..j], priceOf)
      {
        PricesStep(prefix, skus, j, priceOf);
        var price := priceOf(skus[j].id);
        if price > 0 {
          prices := prices + [PriceEntry(skus[j].id, price)];
        }
      }
      assert skus[..|skus|] == skus;
    }
    assert cats[..|cats|] == cats;
  }

  /** The entries of two runs of SKUs one after the other are those of the
      first followed by those of the second: entries keep the form's order. */
  lemma {:induction false} PricesAppend(a: seq<Sku>, b: seq<Sku>, priceOf: nat -> nat)
    ensures Prices(a + b, priceOf) == Prices(a, priceOf) + Prices(b, priceOf)
    decreases |b|
  {
    if b == [] {
      assert a + b == a;
    } else {
      assert (a + b)[..|a + b| - 1] == a + b[..|b| - 1];
      PricesAppend(a, b[..|b| - 1], priceOf);
    }
  }

  /** An entry is present exactly for a visited SKU whose price is above 0,
      and it carries that price (views/merchandiser_pricing.py:34-35). */
  lemma {:induction false} PricesMembers(skus: seq<Sku>, priceOf: nat -> nat, e: PriceEntry)
    ensures e in Prices(skus, priceOf) <==>
      e.price > 0 && e.price == priceOf(e.skuId) && exists i | 0 <= i < |skus| :: skus[i].id == e.skuId
    decreases |skus|
  {
    if skus != [] {
      var init := skus[..|skus| - 1];
      PricesMembers(init, priceOf, e);
      if exists i | 0 <= i < |init| :: init[i].id == e.skuId {
        var i :| 0 <= i < |init| && init[i].id == e.skuId;
        assert skus[i] == init[i];
      }
      if exists i | 0 <= i < |skus| :: skus[i].id == e.skuId {
        var i :| 0 <= i < |skus| && skus[i].id == e.skuId;
        if i < |init| {
          assert init[i] == skus[i];
        }
      }
    }
  }

  const NoOutlets := "No outlets found. Please onboard an outlet first."

  /** What the page shows and does, from the outlet query on
      (views/merchandiser_pricing.py:10-48). */
  function PricingEffects(outlets: seq<OutletRow>, choice: string, groups: SkuGroups, priceOf: nat -> nat,
                          button: bool, gps: Option<Fix>, userId: nat): seq<Effect<PriceTrack>>
    requires outlets != [] ==> choice in OutletIds(outlets)
    requires forall c | c in groups.categories :: c in groups.byCategory
  {
    if outlets == [] then
      [Show(WarningBox, NoOutlets)]
    else
      GpsNotice(gps)
      + if button && gps.Some? then
          [Insert(PriceTrack(OutletIds(outlets)[choice], userId, Prices(Visited(groups), priceOf), gps.value, choice)),
           Show(SuccessBox, "Price Compliance Submitted")]
        else
          []
  }

  /** The pricing page script (views/merchandiser_pricing.py:10-48). */
  method PricingPage(screen: Screen<PriceTrack>, outlets: seq<OutletRow>, choice: string, groups: SkuGroups,
                     priceOf: nat -> nat, button: bool, gps: Option<Fix>, userId: nat)
    requires outlets != [] ==> choice in OutletIds(outlets)
    requires forall c | c in groups.categories :: c in groups.byCategory
    modifies screen
    ensures screen.shown == old(screen.shown) + PricingEffects(outlets, choice, groups, priceOf, button, gps, userId)
  {
    if outlets == [] {
      screen.Show(WarningBox, NoOutlets);
      return;
    }
    var outletId := OutletIds(outlets)[choice];
    var prices := CollectPrices(groups, priceOf);
    if gps.None? {
      screen.Show(WarningBox, WaitingForGps);
    }
    if button && gps.Some? {
      screen.Insert(PriceTrack(outletId, userId, prices, gps.value, choice));
      screen.Show(SuccessBox, "Price Compliance Submitted");
    }
  }

  /** The check is written exactly when there are outlets and the button
      was pressed with a GPS fix, even when no SKU has a price; it carries
      the chosen outlet's id and its label (views/merchandiser_pricing.py:23-27, 46-47). */
  lemma PricingCommitsIff(outlets: seq<OutletRow>, choice: string, groups: SkuGroups, priceOf: nat -> nat,
                          button: bool, gps: Option<Fix>, userId: nat)
    requires outlets != [] ==> choice in OutletIds(outlets)
    requires forall c | c in groups.categories :: c in groups.byCategory
    ensures var fx := PricingEffects(outlets, choice, groups, priceOf, button, gps, userId);
      && (Inserts(fx) <==> outlets != [] && button && gps.Some?)
      && (forall i | 0 <= i < |fx| && fx[i].Insert? ::
            fx[i].record == PriceTrack(OutletIds(outlets)[choice], userId, Prices(Visited(groups), priceOf), gps.value, choice))
  {
    var fx := PricingEffects(outlets, choice, groups, priceOf, button, gps, userId);
    if Inserts(fx) {
      var i :| 0 <= i < |fx| && fx[i].Insert?;
    }
    if outlets != [] && button && gps.Some? {
      assert fx[0].Insert?;
    }
  }

  /** No price typed in: every number_input keeps its default 0. */
  function Unpriced(id: nat): nat {
    0
  }

  /** With every price left at 0 the page still writes a check, with no
      entries. */
  lemma {:induction false} EmptyPricesAreSubmitted(outlets: seq<OutletRow>, choice: string, groups: SkuGroups,
                                                   gps: Fix, userId: nat)
    requires outlets != [] && choice in OutletIds(outlets)
    requires forall c | c in groups.categories :: c in groups.byCategory
    ensures PricingEffects(outlets, choice, groups, Unpriced, true, Some(gps), userId)[0]
         == Insert(PriceTrack(OutletIds(outlets)[choice], userId, [], gps, choice))
  {
    var skus := Visited(groups);
    var prices := Prices(skus, Unpriced);
    if prices != [] {
      PricesMembers(skus, Unpriced, prices[0]);
    }
  }
}
