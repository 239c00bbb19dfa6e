/**
 * What the field-agent pages share: the browser's GPS fix and camera
 * images, the object store that keeps the images, the dict comprehensions
 * that map display labels to ids, Python's str() of a number and
 * str.join, and the screen on which a page's effects happen in order.
 */
module Forms {
  import opened Wrappers

  /** A browser GPS fix that has a latitude (streamlit_geolocation). */
  datatype Fix = Fix(latitude: real, longitude: real)

  /** The bytes of an st.camera_input capture. */
  datatype Photo = Photo(content: seq<bv8>)

  /** upload_image(bytes, folder) (utils/spaces.py:22-46): the storage key
      of the stored image, or None when anything in the upload failed. */
  type Storage = (Photo, string) -> Option<string>

  /** The Streamlit message boxes the pages use. */
  datatype Level = SuccessBox | ErrorBox | WarningBox

  /** What a page does that matters beyond its widgets, in order. */
  datatype Effect<R> =
    | Upload(folder: string)            // a call of upload_image
    | Insert(record: R)                 // the add_* call that writes the submission
    | Show(level: Level, text: string)  // st.success / st.error / st.warning
    | Crash(exception: string)          // an uncaught exception ends the script

  /** Whether any effect is a database write. */
  predicate Inserts<R>(fx: seq<Effect<R>>) {
    exists i | 0 <= i < |fx| :: fx[i].Insert?
  }

  /** Whether any effect is an upload. */
  predicate Uploads<R>(fx: seq<Effect<R>>) {
    exists i | 0 <= i < |fx| :: fx[i].Upload?
  }

  const WaitingForGps := "Waiting for GPS location..."

  /** The warning every field page shows when the browser has not given a
      latitude yet. */
  function GpsNotice<R>(gps: Option<Fix>): (fx: seq<Effect<R>>)
    ensures !Inserts(fx) && !Uploads(fx)
    ensures fx == [] <==> gps.Some?
  {
    if gps.Some? then [] else [Show(WarningBox, WaitingForGps)]
  }

  /** What has happened on a page so far. */
  class Screen<R> {
    var shown: seq<Effect<R>>

    constructor ()
      ensures shown == []
    {
      shown := [];
    }

    method Upload(photo: Photo, folder: string, store: Storage) returns (key: Option<string>)
      modifies this
      ensures key == store(photo, folder)
      ensures shown == old(shown) + [Effect.Upload(folder)]
    {
      key := store(photo, folder);
      shown := shown + [Effect.Upload(folder)];
    }

    method Insert(record: R)
      modifies this
      ensures shown == old(shown) + [Effect.Insert(record)]
    {
      shown := shown + [Effect.Insert(record)];
    }

    method Show(level: Level, text: string)
      modifies this
      ensures shown == old(shown) + [Effect.Show(level, text)]
    {
      shown := shown + [Effect.Show(level, text)];
    }

    method Crash(exception: string)
      modifies this
      ensures shown == old(shown) + [Effect.Crash(exception)]
    {
      shown := shown + [Effect.Crash(exception)];
    }
  }

  /** An entry of deployed_posms. */
  datatype DeployedPosm = DeployedPosm(posmId: nat, quantity: nat)

  /** The record add_posm_deployment inserts (db/db_utils.py:146-151). */
  datatype Deployment = Deployment(outletId: nat, userId: nat, posms: seq<DeployedPosm>,
                                   beforeKey: string, afterKey: string, gps: Fix)

  // ----- Dict comprehensions -----

  /** `{k: v for (k, v) in pairs}`: a later pair overwrites an earlier one
      with the same key. */
  function LabelMap<K, V>(pairs: seq<(K, V)>): map<K, V> {
    if pairs == [] then map[]
    else
      var last := pairs[|pairs| - 1];
      LabelMap(pairs[..|pairs| - 1])[last.0 := last.1]
  }

  /** The keys of the dict are the keys of the pairs, and each maps to the
      value of the last pair that has it. */
  lemma {:induction false} LabelMapLastWins<K, V>(pairs: seq<(K, V)>, k: K)
    ensures k in LabelMap(pairs) <==> exists i | 0 <= i < |pairs| :: pairs[i].0 == k
    ensures forall i | 0 <= i < |pairs| && pairs[i].0 == k ::
      (forall j | i < j < |pairs| :: pairs[j].0 != k) ==> LabelMap(pairs)[k] == pairs[i].1
    decreases |pairs|
  {
    if pairs != [] {
      var init := pairs[..|pairs| - 1];
      LabelMapLastWins(init, k);
      if exists i | 0 <= i < |init| :: init[i].0 == k {
        var i :| 0 <= i < |init| && init[i].0 == k;
        assert pairs[i] == init[i];
      }
      forall i | 0 <= i < |pairs| && pairs[i].0 == k
        ensures (forall j | i < j < |pairs| :: pairs[j].0 != k) ==> LabelMap(pairs)[k] == pairs[i].1
      {
        if i < |init| {
          assert pairs[i] == init[i];
          if forall j | i < j < |pairs| :: pairs[j].0 != k {
            assert pairs[|pairs| - 1].0 != k;
            forall j | i < j < |init| ensures init[j].0 != k {
              assert init[j] == pairs[j];
            }
          }
        }
      }
    }
  }

  /** Two pairs with the same key and different values: the dict keeps the
      value of the later one. */
  lemma DuplicateLabelKeepsLast<K, V>(k: K, first: V, second: V)
    ensures LabelMap([(k, first), (k, second)]) == map[k := second]
  {
    assert [(k, first), (k, second)][..1] == [(k, first)];
    assert [(k, first)][..0] == [];
    assert LabelMap([(k, first)]) == map[k := first];
  }

  /** A row of the outlets query the merchandiser pages run: `area` is the
      region name (the state name on the out-of-stock page). */
  datatype OutletRow = OutletRow(id: nat, name: string, area: string, locationName: string, address: string,
                                 contactPerson: string, phone: string, outletType: string, classification: string)

  /** The selectbox label of an outlet on the merchandiser pages
      (views/builders_deploy.py:51-54). */
  function OutletLabel(o: OutletRow): string {
    o.name + " (" + o.area + " - " + o.locationName + " | " + o.address + " | " + o.contactPerson
      + " | " + o.phone + " | " + o.outletType + " | " + o.classification + ")"
  }

  function OutletPairs(outlets: seq<OutletRow>): (pairs: seq<(string, nat)>)
    ensures |pairs| == |outlets|
    ensures forall i | 0 <= i < |outlets| :: pairs[i] == (OutletLabel(outlets[i]), outlets[i].id)
  {
    seq(|outlets|, i requires 0 <= i < |outlets| => (OutletLabel(outlets[i]), outlets[i].id))
  }

  /** outlet_dict: label to outlet id. */
  function OutletIds(outlets: seq<OutletRow>): map<string, nat> {
    LabelMap(OutletPairs(outlets))
  }

  /** Every outlet's label is offered, and it selects the id of the last
      outlet with that label: two outlets that render alike cannot both be
      chosen (views/builders_deploy.py:51-54). */
  lemma OutletIdsKeepLast(outlets: seq<OutletRow>, i: nat)
    requires i < |outlets|
    ensures OutletLabel(outlets[i]) in OutletIds(outlets)
    ensures (forall j | i < j < |outlets| :: OutletLabel(outlets[j]) != OutletLabel(outlets[i]))
      ==> OutletIds(outlets)[OutletLabel(outlets[i])] == outlets[i].id
  {
    var pairs := OutletPairs(outlets);
    var k := OutletLabel(outlets[i]);
    LabelMapLastWins(pairs, k);
    assert pairs[i].0 == k;
    if forall j | i < j < |outlets| :: OutletLabel(outlets[j]) != k {
      assert forall j | i < j < |pairs| :: pairs[j].0 != k;
    }
  }

  // ----- str() and str.join -----

  function Digit(d: nat): char
    requires d < 10
  {
    "0123456789"[d]
  }

  /** Python's str() of a non-negative int. */
  function NatToString(n: nat): (s: string)
    ensures |s| >= 1
    ensures forall i | 0 <= i < |s| :: '0' <= s[i] <= '9'
    ensures n < 10 <==> |s| == 1
    decreases n
  {
    if n < 10 then [Digit(n)] else NatToString(n / 10) + [Digit(n % 10)]
  }

  /** Different numbers print differently, so str(id) keys never collide. */
  lemma {:induction false} NatToStringInjective(a: nat, b: nat)
    requires NatToString(a) == NatToString(b)
    ensures a == b
    decreases a
  {
    var s := NatToString(a);
    if a >= 10 {
      assert b >= 10;
      assert NatToString(a / 10) == s[..|s| - 1] == NatToString(b / 10);
      NatToStringInjective(a / 10, b / 10);
      assert Digit(a % 10) == s[|s| - 1] == Digit(b % 10);
      DigitInjective(a % 10, b % 10);
      assert a == a / 10 * 10 + a % 10 && b == b / 10 * 10 + b % 10;
    } else {
      DigitInjective(a, b);
    }
  }

  lemma DigitInjective(d: nat, e: nat)
    requires d < 10 && e < 10 && Digit(d) == Digit(e)
    ensures d == e
  {
  }

  /** `sep.join(parts)`. */
  function Join(parts: seq<string>, sep: string): string {
    if parts == [] then ""
    else if |parts| == 1 then parts[0]
    else Join(parts[..|parts| - 1], sep) + sep + parts[|parts| - 1]
  }

  /** The joined string is as long as all the parts together plus one
      separator between each two consecutive parts. */
  lemma {:induction false} JoinLength(parts: seq<string>, sep: string)
    requires parts != []
    ensures |Join(parts, sep)| == TotalLength(parts) + (|parts| - 1) * |sep|
    decreases |parts|
  {
    if |parts| > 1 {
      JoinLength(parts[..|parts| - 1], sep);
    }
  }

  function TotalLength(parts: seq<string>): nat {
    if parts == [] then 0 else TotalLength(parts[..|parts| - 1]) + |parts[|parts| - 1]|
  }

  /** Joining a list with one more part appends the separator and that part. */
  lemma JoinSnoc(parts: seq<string>, x: string, sep: string)
    requires parts != []
    ensures Join(parts + [x], sep) == Join(parts, sep) + sep + x
  {
    assert (parts + [x])[..|parts + [x]| - 1] == parts;
  }
}
