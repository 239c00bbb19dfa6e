/**
 * views/merchandiser_onboard.py: the outlet onboarding form. The image is
 * uploaded before anything is written; a phone number that is already on
 * file only earns a warning, and the outlet is added all the same.
 */
module Onboard {
  import opened Wrappers
  import opened Forms

  /** A row of the locations query: the location and its state's name. */
  datatype LocationRow = LocationRow(id: nat, name: string, state: string)

  /** The selectbox label of a location (views/merchandiser_onboard.py:32). */
  function LocationLabel(l: LocationRow): string {
    l.state + " - " + l.name
  }

  function LocationPairs(locations: seq<LocationRow>): (pairs: seq<(string, nat)>)
    ensures |pairs| == |locations|
    ensures forall i | 0 <= i < |locations| :: pairs[i] == (LocationLabel(locations[i]), locations[i].id)
  {
    seq(|locations|, i requires 0 <= i < |locations| => (LocationLabel(locations[i]), locations[i].id))
  }

  /** loc_dict: label to location id. */
  function LocationIds(locations: seq<LocationRow>): map<string, nat> {
    LabelMap(LocationPairs(locations))
  }

  /** Every location's label is offered, and it selects the id of the last
      location with that label (views/merchandiser_onboard.py:31-34). */
  lemma LocationIdsKeepLast(locations: seq<LocationRow>, i: nat)
    requires i < |locations|
    ensures LocationLabel(locations[i]) in LocationIds(locations)
    ensures (forall j | i < j < |locations| :: LocationLabel(locations[j]) != LocationLabel(locations[i]))
      ==> LocationIds(locations)[LocationLabel(locations[i])] == locations[i].id
  {
    var pairs := LocationPairs(locations);
    var k := LocationLabel(locations[i]);
    LabelMapLastWins(pairs, k);
    assert pairs[i].0 == k;
    if forall j | i < j < |locations| :: LocationLabel(locations[j]) != k {
      assert forall j | i < j < |pairs| :: pairs[j].0 != k;
    }
  }

  /** Every label on offer is the label of some location. */
  lemma LocationIdsOffered(locations: seq<LocationRow>, text: string)
    requires text in LocationIds(locations)
    ensures exists i | 0 <= i < |locations| :: LocationLabel(locations[i]) == text
  {
    LabelMapLastWins(LocationPairs(locations), text);
  }

  /** The label does not tell a state containing " - " from a location name
      containing it: these two locations render alike, so only the second
      can be picked. */
  lemma LocationLabelsCollide()
    ensures LocationLabel(LocationRow(1, "B - C", "A")) == LocationLabel(LocationRow(2, "C", "A - B"))
    ensures LocationIds([LocationRow(1, "B - C", "A"), LocationRow(2, "C", "A - B")]) == map["A - B - C" := 2]
  {
    var locations := [LocationRow(1, "B - C", "A"), LocationRow(2, "C", "A - B")];
    assert LocationLabel(locations[0]) == "A - B - C";
    assert LocationLabel(locations[1]) == "A - B - C";
    assert LocationPairs(locations) == [("A - B - C", 1), ("A - B - C", 2)];
    DuplicateLabelKeepsLast<string, nat>("A - B - C", 1, 2);
  }

  /** The text fields and select boxes of the form. */
  datatype OutletForm = OutletForm(name: string, phone: string, outletNumber: string, address: string,
                                   landmark: string, contactPerson: string, classification: string, outletType: string)

  /** The values the page passes to add_outlet, in its order. */
  datatype NewOutlet = NewOutlet(name: string, locationId: nat, classification: string, outletType: string,
                                 userId: nat, gps: Fix, imageKey: string, phone: string, outletNumber: string,
                                 address: string, landmark: string, contactPerson: string)

  const PhoneExists := "An outlet with this contact phone already exists."

  /** What the submit button does (views/merchandiser_onboard.py:47-57);
      `phoneTaken` says whether get_outlet_by_phone_contact finds a row. */
  function SubmitEffects(form: OutletForm, locationId: nat, image: Option<Photo>, submit: bool, gps: Option<Fix>,
                         userId: nat, store: Storage, phoneTaken: string -> bool): seq<Effect<NewOutlet>>
  {
    if submit && gps.Some? && image.Some? then
      var key := store(image.value, "outlets");
      [Upload("outlets")]
      + if key.Some? then
          (if phoneTaken(form.phone) then [Show(WarningBox, PhoneExists)] else [])
          + [Insert(NewOutlet(form.name, locationId, form.classification, form.outletType, userId, gps.value,
                              key.value, form.phone, form.outletNumber, form.address, form.landmark, form.contactPerson)),
             Show(SuccessBox, "Outlet Onboarded Successfully!")]
        else
          [Show(ErrorBox, "Image upload failed. Please try again.")]
    else
      []
  }

  /** The form from the location selectbox on
      (views/merchandiser_onboard.py:30-57). `choice` is what the selectbox
      returns: None exactly when there are no locations, and then
      `loc_dict[None]` raises KeyError. */
  function OnboardEffects(locations: seq<LocationRow>, choice: Option<string>, form: OutletForm,
                          image: Option<Photo>, submit: bool, gps: Option<Fix>,
                          userId: nat, store: Storage, phoneTaken: string -> bool): seq<Effect<NewOutlet>>
    requires choice.None? <==> locations == []
    requires choice.Some? ==> choice.value in LocationIds(locations)
  {
    if choice.None? then
      [Crash("KeyError")]
    else
      GpsNotice(gps)
      + SubmitEffects(form, LocationIds(locations)[choice.value], image, submit, gps, userId, store, phoneTaken)
  }

  /** The onboarding form script (views/merchandiser_onboard.py:30-57). */
  method OnboardPage(screen: Screen<NewOutlet>, locations: seq<LocationRow>, choice: Option<string>, form: OutletForm,
                     image: Option<Photo>, submit: bool, gps: Option<Fix>,
                     userId: nat, store: Storage, phoneTaken: string -> bool)
    requires choice.None? <==> locations == []
    requires choice.Some? ==> choice.value in LocationIds(locations)
    modifies screen
    ensures screen.shown == old(screen.shown)
      + OnboardEffects(locations, choice, form, image, submit, gps, userId, store, phoneTaken)
  {
    if choice.None? {
      screen.Crash("KeyError");
      return;
    }
    var locationId := LocationIds(locations)[choice.value];
    if gps.None? {
      screen.Show(WarningBox, WaitingForGps);
    }
    if submit && gps.Some? && image.Some? {
      var key := screen.Upload(image.value, "outlets", store);
      if key.Some? {
        if phoneTaken(form.phone) {
          screen.Show(WarningBox, PhoneExists);
        }
        screen.Insert(NewOutlet(form.name, locationId, form.classification, form.outletType, userId, gps.value,
                                key.value, form.phone, form.outletNumber, form.address, form.landmark, form.contactPerson));
        screen.Show(SuccessBox, "Outlet Onboarded Successfully!");
      } else {
        screen.Show(ErrorBox, "Image upload failed. Please try again.");
      }
    }
  }

  /** The outlet is added exactly when the form was submitted with a GPS fix
      and an image and the upload returned a key, whether or not the phone
      is already on file; the upload comes first, the record carries its
      key, and success is reported right after the insert. The duplicate
      warning appears exactly when the phone is on file and the outlet is
      added, and it comes before the insert (views/merchandiser_onboard.py:47-57). */
  lemma SubmitCommitsIff(form: OutletForm, locationId: nat, image: Option<Photo>, submit: bool, gps: Option<Fix>,
                         userId: nat, store: Storage, phoneTaken: string -> bool)
    ensures var fx := SubmitEffects(form, locationId, image, submit, gps, userId, store, phoneTaken);
      var guard := submit && gps.Some? && image.Some?;
      && (Uploads(fx) <==> guard)
      && (Inserts(fx) <==> guard && store(image.value, "outlets").Some?)
      && (forall i | 0 <= i < |fx| && fx[i].Insert? ::
            && fx[0] == Upload("outlets")
            && fx[i].record.imageKey == store(image.value, "outlets").value
            && fx[i].record.phone == form.phone && fx[i].record.locationId == locationId
            && i + 1 < |fx| && fx[i + 1] == Show(SuccessBox, "Outlet Onboarded Successfully!"))
      && (Show(WarningBox, PhoneExists) in fx <==> Inserts(fx) && phoneTaken(form.phone))
      && (forall i, j | 0 <= i < |fx| && 0 <= j < |fx| && fx[i] == Show(WarningBox, PhoneExists) && fx[j].Insert? :: i < j)
  {
    var fx := SubmitEffects(form, locationId, image, submit, gps, userId, store, phoneTaken);
    if Inserts(fx) {
      var i :| 0 <= i < |fx| && fx[i].Insert?;
    }
    if Uploads(fx) {
      var i :| 0 <= i < |fx| && fx[i].Upload?;
    }
    if submit && gps.Some? && image.Some? {
      assert fx[0].Upload?;
      if store(image.value, "outlets").Some? {
        if phoneTaken(form.phone) {
          assert fx[1] == Show(WarningBox, PhoneExists);
          assert fx[2].Insert?;
        } else {
          assert fx[1].Insert?;
        }
      }
    }
  }
}
