/**
 * views/merchandiser_msl_sos.py: the MSL / share-of-shelf page. sos_data is
 * a dict of two dicts, facings of the company's SKUs by str(id) and
 * competitor facings by category; msl_count is the number of its keys.
 */
module MslSos {
  import opened Wrappers
  import opened Forms
  import opened Seqs
  import opened DbUtils

  const YourSkusKey := "your_skus"
  const CompetitorKey := "competitor_facings"

  /** The JSON document stored as sos_data. */
  type SosDoc = map<string, map<string, nat>>

  /** The record add_msl_sos_track is given. */
  datatype MslSosTrack = MslSosTrack(outletId: nat, userId: nat, sos: SosDoc, mslCount: nat, imageKey: string, gps: Fix)

  /** sos_data["your_skus"] after the visited SKUs: str(id) to facings, for
      the SKUs whose facings (widget key facing_<id>) are above 0. */
  function YourSkus(skus: seq<Sku>, facingsOf: nat -> nat): map<string, nat> {
    if skus == [] then map[]
    else
      var s := skus[|skus| - 1];
      var m := YourSkus(skus[..|skus| - 1], facingsOf);
      if facingsOf(s.id) > 0 then m[NatToString(s.id) := facingsOf(s.id)] else m
  }

  /** sos_data["competitor_facings"] after the visited categories: category
      to competitor facings (widget key comp_facing_<category>), for those
      above 0. */
  function Competitor(categories: seq<string>, competitorOf: string -> nat): map<string, nat> {
    if categories == [] then map[]
    else
      var c := categories[|categories| - 1];
      var m := Competitor(categories[..|categories| - 1], competitorOf);
      if competitorOf(c) > 0 then m[c := competitorOf(c)] else m
  }

  /** sos_data once the form has been read. */
  function SosData(groups: SkuGroups, facingsOf: nat -> nat, competitorOf: string -> nat): SosDoc
    requires forall c | c in groups.categories :: c in groups.byCategory
  {
    map[YourSkusKey := YourSkus(Visited(groups), facingsOf),
        CompetitorKey := Competitor(groups.categories, competitorOf)]
  }

  lemma YourSkusStep(prefix: seq<Sku>, skus: seq<Sku>, j: nat, facingsOf: nat -> nat)
    requires j < |skus|
    ensures var s := skus[j];
      var m := YourSkus(prefix + skus[..j], facingsOf);
      YourSkus(prefix + skus[..j + 1], facingsOf) == if facingsOf(s.id) > 0 then m[NatToString(s.id) := facingsOf(s.id)] else m
  {
    assert (prefix + skus[..j + 1])[..|prefix + skus[..j + 1]| - 1] == prefix + skus[..j];
  }

  lemma CompetitorStep(categories: seq<string>, i: nat, competitorOf: string -> nat)
    requires i < |categories|
    ensures var c := categories[i];
      var m := Competitor(categories[..i], competitorOf);
      Competitor(categories[..i + 1], competitorOf) == if competitorOf(c) > 0 then m[c := competitorOf(c)] else m
  {
    assert categories[..i + 1][..i] == categories[..i];
  }

  lemma KeysDiffer()
    ensures YourSkusKey != CompetitorKey
  {
    assert YourSkusKey[0] != CompetitorKey[0];
  }

  /** The nested loop of views/merchandiser_msl_sos.py:31-45. */
  method CollectSos(groups: SkuGroups, facingsOf: nat -> nat, competitorOf: string -> nat)
    returns (sos: SosDoc, mslCount: nat)
    requires forall c | c in groups.categories :: c in groups.byCategory
    ensures sos == SosData(groups, facingsOf, competitorOf)
    ensures mslCount == |sos.Keys|
  {
    KeysDiffer();
    sos := map[YourSkusKey := map[], CompetitorKey := map[]];
    var competitorFacings: map<string, nat> := map[];
    var cats := groups.categories;
    for i := 0 to |cats|
      invariant forall c | c in cats[..i] :: c in groups.byCategory
      invariant sos.Keys == {YourSkusKey, CompetitorKey}
      invariant sos[YourSkusKey] == YourSkus(Flatten(cats[..i], groups.byCategory), facingsOf)
      invariant sos[CompetitorKey] == Competitor(cats[..i], competitorOf)
    {
      VisitedStep(groups, i);
      CompetitorStep(cats, i, competitorOf);
      ghost var prefix := Flatten(cats[..i], groups.byCategory);
      var category := cats[i];
      var skus := groups.byCategory[category];
      assert prefix + skus[..0] == prefix;
      for j := 0 to |skus|
        invariant sos.Keys == {YourSkusKey, CompetitorKey}
        invariant sos[YourSkusKey] == YourSkus(prefix + skus[..j], facingsOf)
        invariant sos[CompetitorKey] == Competitor(cats[..i], competitorOf)
      {
        YourSkusStep(prefix, skus, j, facingsOf);
        var facings := facingsOf(skus[j].id);
        if facings > 0 {
          sos := sos[YourSkusKey := sos[YourSkusKey][NatToString(skus[j].id) := facings]];
        }
      }
      assert skus[..|skus|] == skus;
      competitorFacings := competitorFacings[category := competitorOf(category)];
      if competitorFacings[category] > 0 {
        sos := sos[CompetitorKey := sos[CompetitorKey][category := competitorFacings[category]]];
      }
    }
    assert cats[..|cats|] == cats;
    assert sos == SosData(groups, facingsOf, competitorOf);
    mslCount := |sos.Keys|;
  }

  /** msl_count = len(sos_data) is 2 whatever was typed in: it counts the
      two top-level keys, not SKUs (views/merchandiser_msl_sos.py:31, 45). */
  lemma MslCountIsTwo(groups: SkuGroups, facingsOf: nat -> nat, competitorOf: string -> nat)
    requires forall c | c in groups.categories :: c in groups.byCategory
    ensures SosData(groups, facingsOf, competitorOf).Keys == {YourSkusKey, CompetitorKey}
    ensures |SosData(groups, facingsOf, competitorOf).Keys| == 2
  {
    KeysDiffer();
  }

  /** A SKU appears under your_skus, at str(id), exactly when its facings
      are above 0, and then with those facings; no other key appears
      (views/merchandiser_msl_sos.py:36-39). */
  lemma {:induction false} YourSkusMeans(skus: seq<Sku>, facingsOf: nat -> nat, id: nat)
    ensures NatToString(id) in YourSkus(skus, facingsOf) <==>
      facingsOf(id) > 0 && exists i | 0 <= i < |skus| :: skus[i].id == id
    ensures NatToString(id) in YourSkus(skus, facingsOf) ==> YourSkus(skus, facingsOf)[NatToString(id)] == facingsOf(id)
    ensures forall k | k in YourSkus(skus, facingsOf) :: exists i | 0 <= i < |skus| :: k == NatToString(skus[i].id)
    decreases |skus|
  {
    if skus != [] {
      var init := skus[..|skus| - 1];
      var s := skus[|skus| - 1];
      YourSkusMeans(init, facingsOf, id);
      if NatToString(s.id) == NatToString(id) {
        NatToStringInjective(s.id, id);
      }
      if exists i | 0 <= i < |init| :: init[i].id == id {
        var i :| 0 <= i < |init| && init[i].id == id;
        assert skus[i] == init[i];
      }
      if exists i | 0 <= i < |skus| :: skus[i].id == id {
        var i :| 0 <= i < |skus| && skus[i].id == id;
        if i < |init| {
          assert init[i] == skus[i];
        }
      }
      forall k | k in YourSkus(skus, facingsOf)
        ensures exists i | 0 <= i < |skus| :: k == NatToString(skus[i].id)
      {
        if k in YourSkus(init, facingsOf) {
          var i :| 0 <= i < |init| && k == NatToString(init[i].id);
          assert skus[i] == init[i];
        } else {
          assert k == NatToString(skus[|skus| - 1].id);
        }
      }
    }
  }

  /** A category appears under competitor_facings exactly when it was
      visited and its competitor facings are above 0, and then with those
      facings (views/merchandiser_msl_sos.py:41-43). */
  lemma {:induction false} CompetitorMeans(categories: seq<string>, competitorOf: string -> nat, c: string)
    ensures c in Competitor(categories, competitorOf) <==> c in categories && competitorOf(c) > 0
    ensures c in Competitor(categories, competitorOf) ==> Competitor(categories, competitorOf)[c] == competitorOf(c)
    decreases |categories|
  {
    if categories != [] {
      var init := categories[..|categories| - 1];
      CompetitorMeans(init, competitorOf, c);
      assert categories == init + [categories[|categories| - 1]];
    }
  }

  const NoOutlets := "No outlets found. Please onboard an outlet first."

  /** What the page shows and does, from the outlet query on
      (views/merchandiser_msl_sos.py:11-63). */
  function MslSosEffects(outlets: seq<OutletRow>, choice: string, groups: SkuGroups,
                         facingsOf: nat -> nat, competitorOf: string -> nat,
                         image: Option<Photo>, button: bool, gps: Option<Fix>, userId: nat, store: Storage)
    : seq<Effect<MslSosTrack>>
    requires outlets != [] ==> choice in OutletIds(outlets)
    requires forall c | c in groups.categories :: c in groups.byCategory
  {
    if outlets == [] then
      [Show(WarningBox, NoOutlets)]
    else
      var sos := SosData(groups, facingsOf, competitorOf);
      GpsNotice(gps) + ButtonEffects(OutletIds(outlets)[choice], sos, |sos.Keys|, image, button, gps, userId, store)
  }

  /** What the track button does (views/merchandiser_msl_sos.py:53-63). */
  function ButtonEffects(outletId: nat, sos: SosDoc, mslCount: nat,
                         image: Option<Photo>, button: bool, gps: Option<Fix>, userId: nat, store: Storage)
    : seq<Effect<MslSosTrack>>
  {
    if button && gps.Some? && image.Some? then
      var key := store(image.value, "shelves");
      [Upload("shelves")]
      + if key.Some? then
          [Insert(MslSosTrack(outletId, userId, sos, mslCount, key.value, gps.value)),
           Show(SuccessBox, "MSL/SOS Tracked!")]
        else
          [Show(ErrorBox, "Image Not Uploaded")]
    else
      []
  }

  /** The MSL/SOS page script (views/merchandiser_msl_sos.py:11-63). */
  method MslSosPage(screen: Screen<MslSosTrack>, outlets: seq<OutletRow>, choice: string, groups: SkuGroups,
                    facingsOf: nat -> nat, competitorOf: string -> nat,
                    image: Option<Photo>, button: bool, gps: Option<Fix>, userId: nat, store: Storage)
    requires outlets != [] ==> choice in OutletIds(outlets)
    requires forall c | c in groups.categories :: c in groups.byCategory
    modifies screen
    ensures screen.shown == old(screen.shown)
      + MslSosEffects(outlets, choice, groups, facingsOf, competitorOf, image, button, gps, userId, store)
  {
    if outlets == [] {
      screen.Show(WarningBox, NoOutlets);
      return;
    }
    var outletId := OutletIds(outlets)[choice];
    var sos, mslCount := CollectSos(groups, facingsOf, competitorOf);
    ghost var shown0 := screen.shown;
    if gps.None? {
      screen.Show(WarningBox, WaitingForGps);
    }
    PressButton(screen, outletId, sos, mslCount, image, button, gps, userId, store);
    AppendAssoc(shown0, GpsNotice(gps), ButtonEffects(outletId, sos, mslCount, image, button, gps, userId, store));
  }

  /** The track button (views/merchandiser_msl_sos.py:53-63). */
  method PressButton(screen: Screen<MslSosTrack>, outletId: nat, sos: SosDoc, mslCount: nat,
                     image: Option<Photo>, button: bool, gps: Option<Fix>, userId: nat, store: Storage)
    modifies screen
    ensures screen.shown == old(screen.shown) + ButtonEffects(outletId, sos, mslCount, image, button, gps, userId, store)
  {
    if button && gps.Some? && image.Some? {
      var key := screen.Upload(image.value, "shelves", store);
      if key.Some? {
        screen.Insert(MslSosTrack(outletId, userId, sos, mslCount, key.value, gps.value));
        screen.Show(SuccessBox, "MSL/SOS Tracked!");
      } else {
        screen.Show(ErrorBox, "Image Not Uploaded");
      }
    }
  }

  /** The track is written exactly when there are outlets, the button was
      pressed with a GPS fix and an image, and the upload returned a key;
      the record has that key and an msl_count of 2. Without a key the
      user is told the image was not uploaded (views/merchandiser_msl_sos.py:24-28, 57-63). */
  lemma MslSosCommitsIff(outlets: seq<OutletRow>, choice: string, groups: SkuGroups,
                         facingsOf: nat -> nat, competitorOf: string -> nat,
                         image: Option<Photo>, button: bool, gps: Option<Fix>, userId: nat, store: Storage)
    requires outlets != [] ==> choice in OutletIds(outlets)
    requires forall c | c in groups.categories :: c in groups.byCategory
    ensures var fx := MslSosEffects(outlets, choice, groups, facingsOf, competitorOf, image, button, gps, userId, store);
      && (Inserts(fx) <==> outlets != [] && button && gps.Some? && image.Some? && store(image.value, "shelves").Some?)
      && (forall i | 0 <= i < |fx| && fx[i].Insert? ::
            && fx[i].record.mslCount == 2 && fx[i].record.imageKey == store(image.value, "shelves").value
            && fx[i].record.sos == SosData(groups, facingsOf, competitorOf))
      && (Show(ErrorBox, "Image Not Uploaded") in fx <==>
            outlets != [] && button && gps.Some? && image.Some? && store(image.value, "shelves").None?)
  {
    MslCountIsTwo(groups, facingsOf, competitorOf);
    var fx := MslSosEffects(outlets, choice, groups, facingsOf, competitorOf, image, button, gps, userId, store);
    if outlets != [] && button && gps.Some? && image.Some? {
      var sos := SosData(groups, facingsOf, competitorOf);
      var key := store(image.value, "shelves");
      if key.Some? {
        var record := MslSosTrack(OutletIds(outlets)[choice], userId, sos, 2, key.value, gps.value);
        assert fx == [Upload("shelves"), Insert(record), Show(SuccessBox, "MSL/SOS Tracked!")];
        assert fx[1].Insert?;
      } else {
        assert fx == [Upload("shelves"), Show(ErrorBox, "Image Not Uploaded")];
      }
    } else if outlets != [] {
      assert fx == GpsNotice(gps);
    }
  }
}
