/**
 * views/builders_deploy.py: the builder's POSM deployment page. Only a
 * POSM deployed exactly once is recorded; a larger quantity only earns a
 * warning. The deploy button needs a GPS fix and both images but not a
 * recorded POSM, and both images are uploaded before either key is
 * looked at.
 */
module BuildersDeploy {
  import opened Wrappers
  import opened Forms
  import opened Seqs

  /** The warning shown for a POSM whose quantity is above 1
      (views/builders_deploy.py:93-94). */
  function OnePerOutlet(name: string): string {
    name + " must be 1 per outlet"
  }

  /** The entries the loop appends for the selected POSM names: those whose
      quantity (widget key qty_<name>) is exactly 1, looked up in posm_dict. */
  function Kept(selected: seq<string>, posmIds: map<string, nat>, quantityOf: string -> nat): seq<DeployedPosm>
    requires forall n | n in selected :: n in posmIds
  {
    if selected == [] then []
    else
      var name := selected[|selected| - 1];
      Kept(selected[..|selected| - 1], posmIds, quantityOf)
        + (if quantityOf(name) == 1 then [DeployedPosm(posmIds[name], 1)] else [])
  }

  /** The warnings the loop shows, one per selected POSM whose quantity is
      above 1, in selection order. */
  function OverWarnings<R>(selected: seq<string>, quantityOf: string -> nat): seq<Effect<R>> {
    if selected == [] then []
    else
      var name := selected[|selected| - 1];
      OverWarnings(selected[..|selected| - 1], quantityOf)
        + (if quantityOf(name) > 1 then [Show(WarningBox, OnePerOutlet(name))] else [])
  }

  /** The loop of views/builders_deploy.py:82-96: the warnings go to the
      screen as the quantities are read. */
  method CollectDeployed<R>(screen: Screen<R>, selected: seq<string>, posmIds: map<string, nat>, quantityOf: string -> nat)
    returns (deployed: seq<DeployedPosm>)
    requires forall n | n in selected :: n in posmIds
    modifies screen
    ensures deployed == Kept(selected, posmIds, quantityOf)
    ensures screen.shown == old(screen.shown) + OverWarnings(selected, quantityOf)
  {
    deployed := [];
    for i := 0 to |selected|
      invariant deployed == Kept(selected[..i], posmIds, quantityOf)
      invariant screen.shown == old(screen.shown) + OverWarnings(selected[..i], quantityOf)
    {
      assert selected[..i + 1][..i] == selected[..i];
      var name := selected[i];
      var quantity := quantityOf(name);
      if quantity > 1 {
        screen.Show(WarningBox, OnePerOutlet(name));
      } else if quantity == 1 {
        deployed := deployed + [DeployedPosm(posmIds[name], quantity)];
      }
    }
    assert selected[..|selected|] == selected;
  }

  /** The entries of two selections one after the other are the entries of
      the first followed by those of the second; so are the warnings. */
  lemma {:induction false} KeptAppend(a: seq<string>, b: seq<string>, posmIds: map<string, nat>, quantityOf: string -> nat)
    requires forall n | n in a + b :: n in posmIds
    ensures Kept(a + b, posmIds, quantityOf) == Kept(a, posmIds, quantityOf) + Kept(b, posmIds, quantityOf)
    ensures OverWarnings<Deployment>(a + b, quantityOf)
         == OverWarnings<Deployment>(a, quantityOf) + OverWarnings<Deployment>(b, quantityOf)
    decreases |b|
  {
    if b == [] {
      assert a + b == a;
    } else {
      var b' := b[..|b| - 1];
      assert (a + b)[..|a + b| - 1] == a + b';
      assert forall n | n in a + b' :: n in a + b;
      KeptAppend(a, b', posmIds, quantityOf);
    }
  }

  /** Each selected POSM contributes exactly one of: an entry with quantity
      1 (its quantity is 1), a warning naming it (its quantity is above 1),
      or nothing (its quantity is 0), at its place in the selection
      (views/builders_deploy.py:93-96). */
  lemma KeptSplit(selected: seq<string>, posmIds: map<string, nat>, quantityOf: string -> nat, i: nat)
    requires forall n | n in selected :: n in posmIds
    requires i < |selected|
    ensures var name := selected[i];
      Kept(selected, posmIds, quantityOf)
      == Kept(selected[..i], posmIds, quantityOf)
         + (if quantityOf(name) == 1 then [DeployedPosm(posmIds[name], 1)] else [])
         + Kept(selected[i + 1..], posmIds, quantityOf)
    ensures var name := selected[i];
      OverWarnings<Deployment>(selected, quantityOf)
      == OverWarnings<Deployment>(selected[..i], quantityOf)
         + (if quantityOf(name) > 1 then [Show(WarningBox, OnePerOutlet(name))] else [])
         + OverWarnings<Deployment>(selected[i + 1..], quantityOf)
  {
    var name := selected[i];
    assert selected == selected[..i] + [name] + selected[i + 1..];
    assert selected[..i] + [name] == selected[..i + 1];
    assert selected[..i + 1][..i] == selected[..i];
    KeptAppend(selected[..i + 1], selected[i + 1..], posmIds, quantityOf);
  }

  /** Every recorded entry has quantity 1 and is the POSM of a selected
      name whose quantity is 1. */
  lemma {:induction false} KeptAreSingles(selected: seq<string>, posmIds: map<string, nat>, quantityOf: string -> nat)
    requires forall n | n in selected :: n in posmIds
    ensures forall k | 0 <= k < |Kept(selected, posmIds, quantityOf)| ::
      && Kept(selected, posmIds, quantityOf)[k].quantity == 1
      && exists i | 0 <= i < |selected| ::
           quantityOf(selected[i]) == 1 && posmIds[selected[i]] == Kept(selected, posmIds, quantityOf)[k].posmId
    decreases |selected|
  {
    if selected != [] {
      var init := selected[..|selected| - 1];
      assert forall n | n in init :: n in selected;
      KeptAreSingles(init, posmIds, quantityOf);
      var kept := Kept(selected, posmIds, quantityOf);
      var before := Kept(init, posmIds, quantityOf);
      forall k | 0 <= k < |kept|
        ensures kept[k].quantity == 1
        ensures exists i | 0 <= i < |selected| :: quantityOf(selected[i]) == 1 && posmIds[selected[i]] == kept[k].posmId
      {
        if k < |before| {
          assert kept[k] == before[k];
          assert exists i | 0 <= i < |init| :: quantityOf(init[i]) == 1 && posmIds[init[i]] == Kept(init, posmIds, quantityOf)[k].posmId;
          var i :| 0 <= i < |init| && quantityOf(init[i]) == 1 && posmIds[init[i]] == before[k].posmId;
          assert selected[i] == init[i];
        } else {
          var last := |selected| - 1;
          assert quantityOf(selected[last]) == 1 && posmIds[selected[last]] == kept[k].posmId;
        }
      }
    }
  }

  /** What the page shows and does once deployed_posms is built
      (views/builders_deploy.py:101-120). */
  function DeployEffects(button: bool, gps: Option<Fix>, before: Option<Photo>, after: Option<Photo>,
                         deployed: seq<DeployedPosm>, selected: seq<string>,
                         outletId: nat, userId: nat, store: Storage): seq<Effect<Deployment>>
  {
    GpsNotice(gps) + ButtonEffects(button, gps, before, after, deployed, selected, outletId, userId, store)
  }

  /** What the deploy button does (views/builders_deploy.py:110-120). */
  function ButtonEffects(button: bool, gps: Option<Fix>, before: Option<Photo>, after: Option<Photo>,
                         deployed: seq<DeployedPosm>, selected: seq<string>,
                         outletId: nat, userId: nat, store: Storage): seq<Effect<Deployment>>
  {
    if button && gps.Some? && before.Some? && after.Some? then
      var beforeKey := store(before.value, "posm_before");
      var afterKey := store(after.value, "posm_after");
      [Upload("posm_before"), Upload("posm_after")]
      + if beforeKey.Some? && afterKey.Some? then
          [Insert(Deployment(outletId, userId, deployed, beforeKey.value, afterKey.value, gps.value)),
           Show(SuccessBox, "POSM Deployed!")]
        else
          [Show(ErrorBox, "Image upload failed. Please try again.")]
    else if deployed == [] && selected != [] then
      [Show(WarningBox, "Please specify quantities for selected POSMs.")]
    else
      []
  }

  /** The whole page from the outlet query on (views/builders_deploy.py:43-120).
      `choice` is what the outlet selectbox returns: None exactly when it
      has no options, and then `outlet_dict[None]` raises KeyError. */
  function DeployPageEffects(outlets: seq<OutletRow>, choice: Option<string>,
                             posmIds: map<string, nat>, selected: seq<string>, quantityOf: string -> nat,
                             button: bool, gps: Option<Fix>, before: Option<Photo>, after: Option<Photo>,
                             userId: nat, store: Storage): seq<Effect<Deployment>>
    requires choice.None? <==> outlets == []
    requires choice.Some? ==> choice.value in OutletIds(outlets)
    requires forall n | n in selected :: n in posmIds
  {
    if choice.None? then
      [Crash("KeyError")]
    else
      var deployed := Kept(selected, posmIds, quantityOf);
      OverWarnings(selected, quantityOf)
      + DeployEffects(button, gps, before, after, deployed, selected, OutletIds(outlets)[choice.value], userId, store)
  }

  /** The builder's deploy page script (views/builders_deploy.py:43-120). */
  method DeployPage(screen: Screen<Deployment>, outlets: seq<OutletRow>, choice: Option<string>,
                    posmIds: map<string, nat>, selected: seq<string>, quantityOf: string -> nat,
                    button: bool, gps: Option<Fix>, before: Option<Photo>, after: Option<Photo>,
                    userId: nat, store: Storage)
    requires choice.None? <==> outlets == []
    requires choice.Some? ==> choice.value in OutletIds(outlets)
    requires forall n | n in selected :: n in posmIds
    modifies screen
    ensures screen.shown == old(screen.shown)
      + DeployPageEffects(outlets, choice, posmIds, selected, quantityOf, button, gps, before, after, userId, store)
  {
    if choice.None? {
      screen.Crash("KeyError");
      return;
    }
    ghost var shown0 := screen.shown;
    var outletId := OutletIds(outlets)[choice.value];
    var deployed := CollectDeployed(screen, selected, posmIds, quantityOf);
    Deploy(screen, button, gps, before, after, deployed, selected, outletId, userId, store);
    DeployPageUnfolds(outlets, choice, posmIds, selected, quantityOf, button, gps, before, after, userId, store);
    AppendAssoc(shown0, OverWarnings(selected, quantityOf),
                DeployEffects(button, gps, before, after, deployed, selected, outletId, userId, store));
  }

  /** The page with an outlet chosen: the loop's warnings, then the deploy part. */
  lemma DeployPageUnfolds(outlets: seq<OutletRow>, choice: Option<string>,
                          posmIds: map<string, nat>, selected: seq<string>, quantityOf: string -> nat,
                          button: bool, gps: Option<Fix>, before: Option<Photo>, after: Option<Photo>,
                          userId: nat, store: Storage)
    requires choice.Some? && choice.value in OutletIds(outlets)
    requires forall n | n in selected :: n in posmIds
    ensures DeployPageEffects(outlets, choice, posmIds, selected, quantityOf, button, gps, before, after, userId, store)
      == OverWarnings(selected, quantityOf)
         + DeployEffects(button, gps, before, after, Kept(selected, posmIds, quantityOf), selected,
                         OutletIds(outlets)[choice.value], userId, store)
  {
  }

  /** The GPS notice and the deploy button (views/builders_deploy.py:101-120). */
  method Deploy(screen: Screen<Deployment>, button: bool, gps: Option<Fix>, before: Option<Photo>, after: Option<Photo>,
                deployed: seq<DeployedPosm>, selected: seq<string>, outletId: nat, userId: nat, store: Storage)
    modifies screen
    ensures screen.shown == old(screen.shown)
      + DeployEffects(button, gps, before, after, deployed, selected, outletId, userId, store)
  {
    ghost var shown0 := screen.shown;
    if gps.None? {
      screen.Show(WarningBox, WaitingForGps);
    }
    PressButton(screen, button, gps, before, after, deployed, selected, outletId, userId, store);
    AppendAssoc(shown0, GpsNotice(gps), ButtonEffects(button, gps, before, after, deployed, selected, outletId, userId, store));
  }

  /** The deploy button (views/builders_deploy.py:110-120). */
  method PressButton(screen: Screen<Deployment>, button: bool, gps: Option<Fix>, before: Option<Photo>, after: Option<Photo>,
                     deployed: seq<DeployedPosm>, selected: seq<string>, outletId: nat, userId: nat, store: Storage)
    modifies screen
    ensures screen.shown == old(screen.shown)
      + ButtonEffects(button, gps, before, after, deployed, selected, outletId, userId, store)
  {
    if button && gps.Some? && before.Some? && after.Some? {
      var beforeKey := screen.Upload(before.value, "posm_before", store);
      var afterKey := screen.Upload(after.value, "posm_after", store);
      if beforeKey.Some? && afterKey.Some? {
        screen.Insert(Deployment(outletId, userId, deployed, beforeKey.value, afterKey.value, gps.value));
        screen.Show(SuccessBox, "POSM Deployed!");
      } else {
        screen.Show(ErrorBox, "Image upload failed. Please try again.");
      }
    } else if deployed == [] && selected != [] {
      screen.Show(WarningBox, "Please specify quantities for selected POSMs.");
    }
  }

  /** With no outlets the page ends in KeyError before anything else. */
  lemma NoOutletsCrash(choice: Option<string>, posmIds: map<string, nat>, selected: seq<string>, quantityOf: string -> nat,
                       button: bool, gps: Option<Fix>, before: Option<Photo>, after: Option<Photo>,
                       userId: nat, store: Storage)
    requires choice.None?
    requires forall n | n in selected :: n in posmIds
    ensures var fx := DeployPageEffects([], choice, posmIds, selected, quantityOf, button, gps, before, after, userId, store);
      !Inserts(fx) && !Uploads(fx) && Crash("KeyError") in fx
  {
    var fx := DeployPageEffects([], choice, posmIds, selected, quantityOf, button, gps, before, after, userId, store);
    assert fx == [Crash("KeyError")];
  }

  /** Both images are uploaded exactly when the button was pressed with a
      GPS fix and both images, whether or not any POSM was recorded; the
      deployment is inserted exactly when, in addition, both uploads
      returned a key, and it carries deployed_posms as built, possibly
      empty. The quantities warning appears exactly when the button guard
      fails, nothing was recorded and something was selected
      (views/builders_deploy.py:110-120). */
  lemma DeployCommitsIff(button: bool, gps: Option<Fix>, before: Option<Photo>, after: Option<Photo>,
                         deployed: seq<DeployedPosm>, selected: seq<string>,
                         outletId: nat, userId: nat, store: Storage)
    ensures var fx := DeployEffects(button, gps, before, after, deployed, selected, outletId, userId, store);
      var guard := button && gps.Some? && before.Some? && after.Some?;
      && (Uploads(fx) <==> guard)
      && (guard ==> fx[..2] == [Upload("posm_before"), Upload("posm_after")])
      && (Inserts(fx) <==>
           guard && store(before.value, "posm_before").Some? && store(after.value, "posm_after").Some?)
      && (forall i | 0 <= i < |fx| && fx[i].Insert? ::
           fx[i].record == Deployment(outletId, userId, deployed, store(before.value, "posm_before").value,
                                      store(after.value, "posm_after").value, gps.value))
      && (Show(WarningBox, "Please specify quantities for selected POSMs.") in fx <==>
           !guard && deployed == [] && selected != [])
  {
    DeployUploadsIff(button, gps, before, after, deployed, selected, outletId, userId, store);
    DeployInsertsIff(button, gps, before, after, deployed, selected, outletId, userId, store);
    DeployWarnsIff(button, gps, before, after, deployed, selected, outletId, userId, store);
  }

  lemma DeployUploadsIff(button: bool, gps: Option<Fix>, before: Option<Photo>, after: Option<Photo>,
                         deployed: seq<DeployedPosm>, selected: seq<string>,
                         outletId: nat, userId: nat, store: Storage)
    ensures var fx := DeployEffects(button, gps, before, after, deployed, selected, outletId, userId, store);
      var guard := button && gps.Some? && before.Some? && after.Some?;
      && (Uploads(fx) <==> guard)
      && (guard ==> fx[..2] == [Upload("posm_before"), Upload("posm_after")])
  {
    var fx := DeployEffects(button, gps, before, after, deployed, selected, outletId, userId, store);
    if button && gps.Some? && before.Some? && after.Some? {
      PressedShape(button, gps, before, after, deployed, selected, outletId, userId, store);
      assert fx[0].Upload?;
    } else {
      NotPressedShape(button, gps, before, after, deployed, selected, outletId, userId, store);
    }
  }

  lemma DeployInsertsIff(button: bool, gps: Option<Fix>, before: Option<Photo>, after: Option<Photo>,
                         deployed: seq<DeployedPosm>, selected: seq<string>,
                         outletId: nat, userId: nat, store: Storage)
    ensures var fx := DeployEffects(button, gps, before, after, deployed, selected, outletId, userId, store);
      && (Inserts(fx) <==>
           && button && gps.Some? && before.Some? && after.Some?
           && store(before.value, "posm_before").Some? && store(after.value, "posm_after").Some?)
      && (forall i | 0 <= i < |fx| && fx[i].Insert? ::
           fx[i].record == Deployment(outletId, userId, deployed, store(before.value, "posm_before").value,
                                      store(after.value, "posm_after").value, gps.value))
  {
    if button && gps.Some? && before.Some? && after.Some? {
      if store(before.value, "posm_before").Some? && store(after.value, "posm_after").Some? {
        UploadedInserts(button, gps, before, after, deployed, selected, outletId, userId, store);
      } else {
        UploadFailedNoInsert(button, gps, before, after, deployed, selected, outletId, userId, store);
      }
    } else {
      NotPressedShape(button, gps, before, after, deployed, selected, outletId, userId, store);
    }
  }

  /** Both uploads returned a key: the third effect is the one insert, of
      the record carrying both keys. */
  lemma UploadedInserts(button: bool, gps: Option<Fix>, before: Option<Photo>, after: Option<Photo>,
                        deployed: seq<DeployedPosm>, selected: seq<string>,
                        outletId: nat, userId: nat, store: Storage)
    requires button && gps.Some? && before.Some? && after.Some?
    requires store(before.value, "posm_before").Some? && store(after.value, "posm_after").Some?
    ensures var fx := DeployEffects(button, gps, before, after, deployed, selected, outletId, userId, store);
      && Inserts(fx)
      && (forall i | 0 <= i < |fx| && fx[i].Insert? ::
           fx[i].record == Deployment(outletId, userId, deployed, store(before.value, "posm_before").value,
                                      store(after.value, "posm_after").value, gps.value))
  {
    var fx := DeployEffects(button, gps, before, after, deployed, selected, outletId, userId, store);
    PressedShape(button, gps, before, after, deployed, selected, outletId, userId, store);
    assert fx[2].Insert?;
  }

  /** An upload returned no key: nothing is inserted. */
  lemma UploadFailedNoInsert(button: bool, gps: Option<Fix>, before: Option<Photo>, after: Option<Photo>,
                             deployed: seq<DeployedPosm>, selected: seq<string>,
                             outletId: nat, userId: nat, store: Storage)
    requires button && gps.Some? && before.Some? && after.Some?
    requires !(store(before.value, "posm_before").Some? && store(after.value, "posm_after").Some?)
    ensures var fx := DeployEffects(button, gps, before, after, deployed, selected, outletId, userId, store);
      forall i | 0 <= i < |fx| :: !fx[i].Insert?
  {
    PressedShape(button, gps, before, after, deployed, selected, outletId, userId, store);
  }

  lemma DeployWarnsIff(button: bool, gps: Option<Fix>, before: Option<Photo>, after: Option<Photo>,
                         deployed: seq<DeployedPosm>, selected: seq<string>,
                         outletId: nat, userId: nat, store: Storage)
    ensures var fx := DeployEffects(button, gps, before, after, deployed, selected, outletId, userId, store);
      Show(WarningBox, "Please specify quantities for selected POSMs.") in fx <==>
        !(button && gps.Some? && before.Some? && after.Some?) && deployed == [] && selected != []
  {
    var fx := DeployEffects(button, gps, before, after, deployed, selected, outletId, userId, store);
    if button && gps.Some? && before.Some? && after.Some? {
      PressedShape(button, gps, before, after, deployed, selected, outletId, userId, store);
    } else {
      NotPressedShape(button, gps, before, after, deployed, selected, outletId, userId, store);
      if deployed == [] && selected != [] {
        assert fx[|fx| - 1] == Show(WarningBox, "Please specify quantities for selected POSMs.");
      }
    }
  }

  /** With the button guard met, the effects are the two uploads and then
      the insert and success, or the upload error. */
  lemma PressedShape(button: bool, gps: Option<Fix>, before: Option<Photo>, after: Option<Photo>,
                     deployed: seq<DeployedPosm>, selected: seq<string>,
                     outletId: nat, userId: nat, store: Storage)
    requires button && gps.Some? && before.Some? && after.Some?
    ensures var beforeKey := store(before.value, "posm_before");
      var afterKey := store(after.value, "posm_after");
      DeployEffects(button, gps, before, after, deployed, selected, outletId, userId, store)
      == [Upload("posm_before"), Upload("posm_after")]
         + if beforeKey.Some? && afterKey.Some? then
             [Insert(Deployment(outletId, userId, deployed, beforeKey.value, afterKey.value, gps.value)),
              Show(SuccessBox, "POSM Deployed!")]
           else
             [Show(ErrorBox, "Image upload failed. Please try again.")]
  {
  }

  /** Without it, the GPS notice and at most the quantities warning. */
  lemma NotPressedShape(button: bool, gps: Option<Fix>, before: Option<Photo>, after: Option<Photo>,
                        deployed: seq<DeployedPosm>, selected: seq<string>,
                        outletId: nat, userId: nat, store: Storage)
    requires !(button && gps.Some? && before.Some? && after.Some?)
    ensures DeployEffects(button, gps, before, after, deployed, selected, outletId, userId, store)
      == GpsNotice(gps)
         + if deployed == [] && selected != [] then [Show(WarningBox, "Please specify quantities for selected POSMs.")]
           else []
    ensures var fx := DeployEffects(button, gps, before, after, deployed, selected, outletId, userId, store);
      forall i | 0 <= i < |fx| :: fx[i].Show?
  {
  }
}
