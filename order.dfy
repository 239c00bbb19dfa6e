/**
 * views/merchandiser_order.py: the order page. One order line per SKU
 * whose quantity is above 0; the submit guard also tests `quantity`, the
 * loop variable left over from the last SKU of the form.
 */
module Order {
  import opened Wrappers
  import opened Forms
  import opened DbUtils

  /** An entry of order_data. */
  datatype OrderLine = OrderLine(skuId: nat, quantity: nat)

  /** The record add_order_track inserts; outletInfo is the selected label. */
  datatype OrderTrack = OrderTrack(outletId: nat, userId: nat, lines: seq<OrderLine>, gps: Fix, outletInfo: string)

  /** The lines the loop appends for the SKUs it visits, the quantity of a
      SKU being what was typed under the widget key qty_<id>. */
  function Lines(skus: seq<Sku>, quantityOf: nat -> nat): seq<OrderLine> {
    if skus == [] then []
    else
      var s := skus[|skus| - 1];
      Lines(skus[..|skus| - 1], quantityOf) + (if quantityOf(s.id) > 0 then [OrderLine(s.id, quantityOf(s.id))] else [])
  }

  /** The value `quantity` holds after the loop: that of the last SKU
      visited, or no value at all when there was none. */
  function LastQuantity(skus: seq<Sku>, quantityOf: nat -> nat): Option<nat> {
    if skus == [] then None else Some(quantityOf(skus[|skus| - 1].id))
  }

  lemma LinesStep(prefix: seq<Sku>, skus: seq<Sku>, j: nat, quantityOf: nat -> nat)
    requires j < |skus|
    ensures var s := skus[j];
      Lines(prefix + skus[..j + 1], quantityOf)
      == Lines(prefix + skus[..j], quantityOf) + (if quantityOf(s.id) > 0 then [OrderLine(s.id, quantityOf(s.id))] else [])
    ensures LastQuantity(prefix + skus[..j + 1], quantityOf) == Some(quantityOf(skus[j].id))
  {
    assert (prefix + skus[..j + 1])[..|prefix + skus[..j + 1]| - 1] == prefix + skus[..j];
  }

  /** The nested loop of views/merchandiser_order.py:37-43. */
  method CollectOrder(groups: SkuGroups, quantityOf: nat -> nat) returns (lines: seq<OrderLine>, quantity: Option<nat>)
    requires forall c | c in groups.categories :: c in groups.byCategory
    ensures lines == Lines(Visited(groups), quantityOf)
    ensures quantity == LastQuantity(Visited(groups), quantityOf)
  {
    lines := [];
    quantity := None;
    var cats := groups.categories;
    for i := 0 to |cats|
      invariant forall c | c in cats[..i] :: c in groups.byCategory
      invariant lines == Lines(Flatten(cats[..i], groups.byCategory), quantityOf)
      invariant quantity == LastQuantity(Flatten(cats[..i], groups.byCategory), quantityOf)
    {
      VisitedStep(groups, i);
      ghost var prefix := Flatten(cats[..i], groups.byCategory);
      var skus := groups.byCategory[cats[i]];
      assert prefix + skus[..0] == prefix;
      for j := 0 to |skus|
        invariant lines == Lines(prefix + skus[..j], quantityOf)
        invariant quantity == LastQuantity(prefix + skus[..j], quantityOf)
      {
        LinesStep(prefix, skus, j, quantityOf);
        var q := quantityOf(skus[j].id);
        quantity := Some(q);
        if q > 0 {
          lines := lines + [OrderLine(skus[j].id, q)];
        }
      }
      assert skus[..|skus|] == skus;
    }
    assert cats[..|cats|] == cats;
  }

  /** The lines of two runs of SKUs one after the other are those of the
      first followed by those of the second: lines keep the form's order. */
  lemma {:induction false} LinesAppend(a: seq<Sku>, b: seq<Sku>, quantityOf: nat -> nat)
    ensures Lines(a + b, quantityOf) == Lines(a, quantityOf) + Lines(b, quantityOf)
    decreases |b|
  {
    if b == [] {
      assert a + b == a;
    } else {
      assert (a + b)[..|a + b| - 1] == a + b[..|b| - 1];
      LinesAppend(a, b[..|b| - 1], quantityOf);
    }
  }

  /** A line is present exactly for a visited SKU whose quantity is above
      0, and it carries that quantity (views/merchandiser_order.py:42-43). */
  lemma {:induction false} LinesMembers(skus: seq<Sku>, quantityOf: nat -> nat, l: OrderLine)
    ensures l in Lines(skus, quantityOf) <==>
      l.quantity > 0 && l.quantity == quantityOf(l.skuId) && exists i | 0 <= i < |skus| :: skus[i].id == l.skuId
    decreases |skus|
  {
    if skus != [] {
      var init := skus[..|skus| - 1];
      LinesMembers(init, quantityOf, l);
      if exists i | 0 <= i < |init| :: init[i].id == l.skuId {
        var i :| 0 <= i < |init| && init[i].id == l.skuId;
        assert skus[i] == init[i];
      }
      if exists i | 0 <= i < |skus| :: skus[i].id == l.skuId {
        var i :| 0 <= i < |skus| && skus[i].id == l.skuId;
        if i < |init| {
          assert init[i] == skus[i];
        }
      }
    }
  }

  /** Some SKU was visited whenever there is a line, so the leftover
      `quantity` is never read undefined: with no lines the guard stops at
      `order_data`. */
  lemma {:induction false} LinesNeedAQuantity(skus: seq<Sku>, quantityOf: nat -> nat)
    ensures Lines(skus, quantityOf) != [] ==> LastQuantity(skus, quantityOf).Some?
  {
  }

  /** A last SKU with quantity 0 blocks the order, whatever the others. */
  lemma TrailingZeroBlocks(outlets: seq<OutletRow>, choice: string, groups: SkuGroups, quantityOf: nat -> nat,
                           button: bool, gps: Option<Fix>, userId: nat)
    requires outlets != [] ==> choice in OutletIds(outlets)
    requires forall c | c in groups.categories :: c in groups.byCategory
    requires Visited(groups) != [] && quantityOf(Visited(groups)[|Visited(groups)| - 1].id) == 0
    ensures !Inserts(OrderEffects(outlets, choice, groups, quantityOf, button, gps, userId))
  {
  }

  /** The submit guard as written (views/merchandiser_order.py:54). */
  predicate SubmitGuard(button: bool, gps: Option<Fix>, lines: seq<OrderLine>, quantity: Option<nat>) {
    button && gps.Some? && lines != [] && quantity.Some? && quantity.value > 0
  }

  const NoOutlets := "No outlets found. Please onboard an outlet first."

  /** What the page shows and does, from the GPS widget on
      (views/merchandiser_order.py:9-56). */
  function OrderEffects(outlets: seq<OutletRow>, choice: string, groups: SkuGroups, quantityOf: nat -> nat,
                        button: bool, gps: Option<Fix>, userId: nat): seq<Effect<OrderTrack>>
    requires outlets != [] ==> choice in OutletIds(outlets)
    requires forall c | c in groups.categories :: c in groups.byCategory
  {
    GpsNotice(gps)
    + if outlets == [] then
        [Show(WarningBox, NoOutlets)]
      else
        var lines := Lines(Visited(groups), quantityOf);
        if SubmitGuard(button, gps, lines, LastQuantity(Visited(groups), quantityOf)) then
          [Insert(OrderTrack(OutletIds(outlets)[choice], userId, lines, gps.value, choice)),
           Show(SuccessBox, "Order Generated!")]
        else
          []
  }

  /** The order page script (views/merchandiser_order.py:9-56); `choice`
      is the label picked in the outlet selectbox. */
  method OrderPage(screen: Screen<OrderTrack>, outlets: seq<OutletRow>, choice: string, groups: SkuGroups,
                   quantityOf: nat -> nat, button: bool, gps: Option<Fix>, userId: nat)
    requires outlets != [] ==> choice in OutletIds(outlets)
    requires forall c | c in groups.categories :: c in groups.byCategory
    modifies screen
    ensures screen.shown == old(screen.shown) + OrderEffects(outlets, choice, groups, quantityOf, button, gps, userId)
  {
    if gps.None? {
      screen.Show(WarningBox, WaitingForGps);
    }
    if outlets == [] {
      screen.Show(WarningBox, NoOutlets);
      return;
    }
    var outletId := OutletIds(outlets)[choice];
    var lines, quantity := CollectOrder(groups, quantityOf);
    if button && gps.Some? && lines != [] && quantity.Some? && quantity.value > 0 {
      screen.Insert(OrderTrack(outletId, userId, lines, gps.value, choice));
      screen.Show(SuccessBox, "Order Generated!");
    }
  }

  /** With no outlets the page only warns and stops: nothing is written. */
  lemma NoOutletsNoOrder(choice: string, groups: SkuGroups, quantityOf: nat -> nat, button: bool, gps: Option<Fix>, userId: nat)
    requires forall c | c in groups.categories :: c in groups.byCategory
    ensures !Inserts(OrderEffects([], choice, groups, quantityOf, button, gps, userId))
  {
  }

  /** The order is written exactly when the guard holds, and it carries the
      lines, the id of the chosen outlet and the chosen label itself
      (views/merchandiser_order.py:54-55). */
  lemma OrderCommitsIff(outlets: seq<OutletRow>, choice: string, groups: SkuGroups, quantityOf: nat -> nat,
                        button: bool, gps: Option<Fix>, userId: nat)
    requires outlets != [] ==> choice in OutletIds(outlets)
    requires forall c | c in groups.categories :: c in groups.byCategory
    ensures var fx := OrderEffects(outlets, choice, groups, quantityOf, button, gps, userId);
      var lines := Lines(Visited(groups), quantityOf);
      && (Inserts(fx) <==> outlets != [] && SubmitGuard(button, gps, lines, LastQuantity(Visited(groups), quantityOf)))
      && (forall i | 0 <= i < |fx| && fx[i].Insert? ::
            fx[i].record == OrderTrack(OutletIds(outlets)[choice], userId, lines, gps.value, choice))
  {
    var fx := OrderEffects(outlets, choice, groups, quantityOf, button, gps, userId);
    if Inserts(fx) {
      var i :| 0 <= i < |fx| && fx[i].Insert?;
    }
    if outlets != [] && SubmitGuard(button, gps, Lines(Visited(groups), quantityOf), LastQuantity(Visited(groups), quantityOf)) {
      assert fx[0].Insert?;
    }
  }

  // ----- The leftover loop variable -----

  /** Two SKUs of one category, the first ordered 3 times, the second not
      at all. */
  const Rice := Sku(1, "Seasoning", "Rice")
  const Salt := Sku(2, "Seasoning", "Salt")
  const TwoSkus := SkuGroups(["Seasoning"], map["Seasoning" := [Rice, Salt]])

  function ThreeThenZero(id: nat): nat {
    if id == 1 then 3 else 0
  }

  /** An order of 3 for the first SKU, 0 for the last one: order_data is
      not empty, but the leftover `quantity` is 0, so pressing the button
      with a GPS fix writes nothing and says nothing. */
  lemma TrailingZeroBlocksOrder(outlets: seq<OutletRow>, choice: string, gps: Fix, userId: nat)
    requires outlets != [] && choice in OutletIds(outlets)
    ensures Lines(Visited(TwoSkus), ThreeThenZero) == [OrderLine(1, 3)]
    ensures OrderEffects(outlets, choice, TwoSkus, ThreeThenZero, true, Some(gps), userId) == []
  {
    var m := TwoSkus.byCategory;
    assert m["Seasoning"] == [Rice, Salt];
    var cats := ["Seasoning"];
    assert cats[..|cats| - 1] == [];
    assert Flatten(cats, m) == Flatten([], m) + [Rice, Salt];
    assert Visited(TwoSkus) == [Rice, Salt];
    assert [Rice, Salt][..1] == [Rice];
    assert [Rice][..0] == [];
    assert Lines([Rice], ThreeThenZero) == [OrderLine(1, 3)];
  }

  /** The guard meant: a button press with a GPS fix and at least one line. */
  function IntendedOrderEffects(outlets: seq<OutletRow>, choice: string, groups: SkuGroups, quantityOf: nat -> nat,
                                button: bool, gps: Option<Fix>, userId: nat): seq<Effect<OrderTrack>>
    requires outlets != [] ==> choice in OutletIds(outlets)
    requires forall c | c in groups.categories :: c in groups.byCategory
  {
    GpsNotice(gps)
    + if outlets == [] then
        [Show(WarningBox, NoOutlets)]
      else
        var lines := Lines(Visited(groups), quantityOf);
        if button && gps.Some? && lines != [] then
          [Insert(OrderTrack(OutletIds(outlets)[choice], userId, lines, gps.value, choice)),
           Show(SuccessBox, "Order Generated!")]
        else
          []
  }

  /** With the intended guard an order is written exactly when some SKU has
      a quantity above 0, whatever the quantity of the last one. */
  lemma IntendedOrderCommitsIff(outlets: seq<OutletRow>, choice: string, groups: SkuGroups, quantityOf: nat -> nat,
                                button: bool, gps: Option<Fix>, userId: nat)
    requires outlets != [] ==> choice in OutletIds(outlets)
    requires forall c | c in groups.categories :: c in groups.byCategory
    ensures Inserts(IntendedOrderEffects(outlets, choice, groups, quantityOf, button, gps, userId)) <==>
      && outlets != [] && button && gps.Some?
      && exists i | 0 <= i < |Visited(groups)| :: quantityOf(Visited(groups)[i].id) > 0
  {
    var skus := Visited(groups);
    var fx := IntendedOrderEffects(outlets, choice, groups, quantityOf, button, gps, userId);
    var lines := Lines(skus, quantityOf);
    if exists i | 0 <= i < |skus| :: quantityOf(skus[i].id) > 0 {
      var i :| 0 <= i < |skus| && quantityOf(skus[i].id) > 0;
      LinesMembers(skus, quantityOf, OrderLine(skus[i].id, quantityOf(skus[i].id)));
    }
    if lines != [] {
      LinesMembers(skus, quantityOf, lines[0]);
    }
    if Inserts(fx) {
      var i :| 0 <= i < |fx| && fx[i].Insert?;
    }
    if outlets != [] && button && gps.Some? && lines != [] {
      assert fx[0].Insert?;
    }
  }
}
