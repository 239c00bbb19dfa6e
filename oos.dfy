/**
 * views/merchandiser_oos.py: the out-of-stock page. One entry per SKU
 * ticked out of stock, which records the SKU's name in its sku_id field
 * and no reason; the submit button needs only a GPS fix.
 */
module Oos {
  import opened Wrappers
  import opened Forms
  import opened DbUtils

  /** An entry of oos_data: `skuId` holds what the page put there, the
      SKU's name; `reason` is always None. */
  datatype OosEntry = OosEntry(skuId: string, reason: Option<string>)

  /** The record add_oos_track is given. */
  datatype OosTrack = OosTrack(outletId: nat, userId: nat, entries: seq<OosEntry>, gps: Fix)

  /** The entries the loop appends for the SKUs it visits, `checked(id)`
      being the checkbox under the widget key oos_<id>. */
  function Entries(skus: seq<Sku>, checked: nat -> bool): seq<OosEntry> {
    if skus == [] then []
    else
      var s := skus[|skus| - 1];
      Entries(skus[..|skus| - 1], checked) + (if checked(s.id) then [OosEntry(s.name, None)] else [])
  }

  lemma EntriesStep(prefix: seq<Sku>, skus: seq<Sku>, j: nat, checked: nat -> bool)
    requires j < |skus|
    ensures Entries(prefix + skus[..j + 1], checked)
         == Entries(prefix + skus[..j], checked) + (if checked(skus[j].id) then [OosEntry(skus[j].name, None)] else [])
  {
    assert (prefix + skus[..j + 1])[..|prefix + skus[..j + 1]| - 1] == prefix + skus[..j];
  }

  /** The nested loop of views/merchandiser_oos.py:29-35. */
  method CollectOos(groups: SkuGroups, checked: nat -> bool) returns (entries: seq<OosEntry>)
    requires forall c | c in groups.categories :: c in groups.byCategory
    ensures entries == Entries(Visited(groups), checked)
  {
    entries := [];
    var cats := groups.categories;
    for i := 0 to |cats|
      invariant forall c | c in cats[..i] :: c in groups.byCategory
      invariant entries == Entries(Flatten(cats[..i], groups.byCategory), checked)
    {
      VisitedStep(groups, i);
      ghost var prefix := Flatten(cats[..i], groups.byCategory);
      var skus := groups.byCategory[cats[i]];
      assert prefix + skus[..0] == prefix;
      for j := 0 to |skus|
        invariant entries == Entries(prefix + skus[..j], checked)
      {
        EntriesStep(prefix, skus, j, checked);
        if checked(skus[j].id) {
          entries := entries + [OosEntry(skus[j].name, None)];
        }
      }
      assert skus[..|skus|] == skus;
    }
    assert cats[..|cats|] == cats;
  }

  /** The entries of two runs of SKUs one after the other are those of the
      first followed by those of the second: entries keep the form's order. */
  lemma {:induction false} EntriesAppend(a: seq<Sku>, b: seq<Sku>, checked: nat -> bool)
    ensures Entries(a + b, checked) == Entries(a, checked) + Entries(b, checked)
    decreases |b|
  {
    if b == [] {
      assert a + b == a;
    } else {
      assert (a + b)[..|a + b| - 1] == a + b[..|b| - 1];
      EntriesAppend(a, b[..|b| - 1], checked);
    }
  }

  /** There is one entry per ticked SKU, each holding that SKU's name as
      its id and no reason (views/merchandiser_oos.py:29-35). */
  lemma {:induction false} EntriesOnePerTicked(skus: seq<Sku>, checked: nat -> bool)
    ensures |Entries(skus, checked)| == |Ticked(skus, checked)|
    ensures forall k | 0 <= k < |Entries(skus, checked)| ::
      Entries(skus, checked)[k] == OosEntry(Ticked(skus, checked)[k].name, None)
    decreases |skus|
  {
    if skus != [] {
      EntriesOnePerTicked(skus[..|skus| - 1], checked);
    }
  }

  /** The SKUs that were ticked, in the order they were visited. */
  function Ticked(skus: seq<Sku>, checked: nat -> bool): seq<Sku> {
    if skus == [] then []
    else
      var s := skus[|skus| - 1];
      Ticked(skus[..|skus| - 1], checked) + (if checked(s.id) then [s] else [])
  }

  /** An entry names a SKU exactly when a ticked SKU has that name; its
      numeric id is not recorded anywhere. */
  lemma {:induction false} EntriesMembers(skus: seq<Sku>, checked: nat -> bool, name: string)
    ensures OosEntry(name, None) in Entries(skus, checked) <==>
      exists i | 0 <= i < |skus| :: skus[i].name == name && checked(skus[i].id)
    ensures forall k | 0 <= k < |Entries(skus, checked)| :: Entries(skus, checked)[k].reason == None
    decreases |skus|
  {
    if skus != [] {
      var init := skus[..|skus| - 1];
      EntriesMembers(init, checked, name);
      if exists i | 0 <= i < |init| :: init[i].name == name && checked(init[i].id) {
        var i :| 0 <= i < |init| && init[i].name == name && checked(init[i].id);
        assert skus[i] == init[i];
      }
      if exists i | 0 <= i < |skus| :: skus[i].name == name && checked(skus[i].id) {
        var i :| 0 <= i < |skus| && skus[i].name == name && checked(skus[i].id);
        if i < |init| {
          assert init[i] == skus[i];
        }
      }
    }
  }

  const NoOutlets := "No outlets found. Please onboard an outlet first."

  /** What the page shows and does, from the outlet query on
      (views/merchandiser_oos.py:9-47). */
  function OosEffects(outlets: seq<OutletRow>, choice: string, groups: SkuGroups, checked: nat -> bool,
                      button: bool, gps: Option<Fix>, userId: nat): seq<Effect<OosTrack>>
    requires outlets != [] ==> choice in OutletIds(outlets)
    requires forall c | c in groups.categories :: c in groups.byCategory
  {
    if outlets == [] then
      [Show(WarningBox, NoOutlets)]
    else
      GpsNotice(gps)
      + if button && gps.Some? then
          [Insert(OosTrack(OutletIds(outlets)[choice], userId, Entries(Visited(groups), checked), gps.value)),
           Show(SuccessBox, "OOS Tracked!")]
        else
          []
  }

  /** The out-of-stock page script (views/merchandiser_oos.py:9-47). */
  method OosPage(screen: Screen<OosTrack>, outlets: seq<OutletRow>, choice: string, groups: SkuGroups,
                 checked: nat -> bool, button: bool, gps: Option<Fix>, userId: nat)
    requires outlets != [] ==> choice in OutletIds(outlets)
    requires forall c | c in groups.categories :: c in groups.byCategory
    modifies screen
    ensures screen.shown == old(screen.shown) + OosEffects(outlets, choice, groups, checked, button, gps, userId)
  {
    if outlets == [] {
      screen.Show(WarningBox, NoOutlets);
      return;
    }
    var outletId := OutletIds(outlets)[choice];
    var entries := CollectOos(groups, checked);
    if gps.None? {
      screen.Show(WarningBox, WaitingForGps);
    }
    if button && gps.Some? {
      screen.Insert(OosTrack(outletId, userId, entries, gps.value));
      screen.Show(SuccessBox, "OOS Tracked!");
    }
  }

  /** The track is written exactly when there are outlets and the button
      was pressed with a GPS fix, even when nothing was ticked
      (views/merchandiser_oos.py:22-26, 45-46). */
  lemma OosCommitsIff(outlets: seq<OutletRow>, choice: string, groups: SkuGroups, checked: nat -> bool,
                      button: bool, gps: Option<Fix>, userId: nat)
    requires outlets != [] ==> choice in OutletIds(outlets)
    requires forall c | c in groups.categories :: c in groups.byCategory
    ensures var fx := OosEffects(outlets, choice, groups, checked, button, gps, userId);
      && (Inserts(fx) <==> outlets != [] && button && gps.Some?)
      && (forall i | 0 <= i < |fx| && fx[i].Insert? ::
            fx[i].record == OosTrack(OutletIds(outlets)[choice], userId, Entries(Visited(groups), checked), gps.value))
  {
    var fx := OosEffects(outlets, choice, groups, checked, button, gps, userId);
    if Inserts(fx) {
      var i :| 0 <= i < |fx| && fx[i].Insert?;
    }
    if outlets != [] && button && gps.Some? {
      assert fx[0].Insert?;
    }
  }
}
