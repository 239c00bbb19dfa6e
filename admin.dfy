/**
 * views/admin.py: the admin back end. What it decides, as opposed to what
 * it draws: which setup section a sidebar choice opens, the state
 * name-to-id lookup, and the one-line summary of each POSM deployment.
 */
module Admin {
  import opened Wrappers
  import opened Forms
  import opened Seqs

  // ----- Section dispatch -----

  datatype Section = Regions | States | Locations | LocationByRegion | Skus | Posms | Users

  /** The options of the "Select Setup Section" selectbox, in order
      (views/admin.py:16-17). */
  const Options: seq<string> := ["Regions", "States", "Locations", "SKUs", "POSMs", "Users", "Location By Region"]

  /** The page's `if selection == ...` tests in order, with the section
      each one opens (views/admin.py:18, 35, 60, 85, 114, 142, 183). */
  const Branches: seq<(string, Section)> :=
    [("Regions", Regions), ("States", States), ("Locations", Locations), ("Location By Reion", LocationByRegion),
     ("SKUs", Skus), ("POSMs", Posms), ("Users", Users)]

  /** The sections a selection opens: every branch whose test matches, in
      the order of the tests (they are separate `if`s, not `elif`s). */
  function Opened(branches: seq<(string, Section)>, selection: string): seq<Section> {
    if branches == [] then []
    else
      var b := branches[|branches| - 1];
      Opened(branches[..|branches| - 1], selection) + (if b.0 == selection then [b.1] else [])
  }

  /** A section is opened exactly when one of its branches tests the
      selection. */
  lemma {:induction false} OpenedMeans(branches: seq<(string, Section)>, selection: string, s: Section)
    ensures s in Opened(branches, selection) <==> (selection, s) in branches
    decreases |branches|
  {
    if branches != [] {
      var init := branches[..|branches| - 1];
      OpenedMeans(init, selection, s);
      assert branches == init + [branches[|branches| - 1]];
    }
  }

  /** No branch tests the selection: nothing is opened. */
  lemma {:induction false} OpenedNone(branches: seq<(string, Section)>, selection: string)
    requires forall i | 0 <= i < |branches| :: branches[i].0 != selection
    ensures Opened(branches, selection) == []
    decreases |branches|
  {
    if branches != [] {
      OpenedNone(branches[..|branches| - 1], selection);
    }
  }

  /** Exactly one branch tests the selection: exactly its section is opened. */
  lemma {:induction false} OpenedUnique(branches: seq<(string, Section)>, selection: string, i: nat)
    requires i < |branches| && branches[i].0 == selection
    requires forall j | 0 <= j < |branches| && j != i :: branches[j].0 != selection
    ensures Opened(branches, selection) == [branches[i].1]
    decreases |branches|
  {
    var init := branches[..|branches| - 1];
    if i == |branches| - 1 {
      OpenedNone(init, selection);
    } else {
      OpenedUnique(init, selection, i);
    }
  }

  /** Choosing "Location By Region" opens nothing: its branch tests
      "Location By Reion", which is not an option, so the location-by-region
      section can never be opened (views/admin.py:17, 85). */
  lemma LocationByRegionUnreachable(selection: string)
    requires selection in Options
    ensures LocationByRegion !in Opened(Branches, selection)
    ensures Opened(Branches, "Location By Region") == []
  {
    assert "Location By Region"[16] != "Location By Reion"[16];
    OpenedMeans(Branches, selection, LocationByRegion);
    OpenedNone(Branches, "Location By Region");
  }

  /** The tests with the option's own spelling. */
  const IntendedBranches: seq<(string, Section)> :=
    [("Regions", Regions), ("States", States), ("Locations", Locations), ("Location By Region", LocationByRegion),
     ("SKUs", Skus), ("POSMs", Posms), ("Users", Users)]

  /** The section each option is meant to open, in the order of Options. */
  const Intended: seq<Section> := [Regions, States, Locations, Skus, Posms, Users, LocationByRegion]

  /** With the intended spelling every option opens exactly its own
      section, and a selection that is not an option opens nothing. */
  lemma IntendedDispatchOpensEach(i: nat, selection: string)
    requires i < |Options|
    ensures Opened(IntendedBranches, Options[i]) == [Intended[i]]
    ensures selection !in Options ==> Opened(IntendedBranches, selection) == []
  {
    var b := IntendedBranches;
    var at := [0, 1, 2, 4, 5, 6, 3];
    assert "POSMs"[0] != "Users"[0];
    assert forall j | 0 <= j < |b| && j != at[i] :: b[j].0 != Options[i];
    assert b[at[i]] == (Options[i], Intended[i]);
    OpenedUnique(b, Options[i], at[i]);
    if selection !in Options {
      OpenedNone(b, selection);
    }
  }

  // ----- The state lookup -----

  /** A row of `SELECT * FROM states`. */
  datatype StateRow = StateRow(id: nat, name: string)

  function StatePairs(states: seq<StateRow>): (pairs: seq<(string, nat)>)
    ensures |pairs| == |states|
    ensures forall i | 0 <= i < |states| :: pairs[i] == (states[i].name, states[i].id)
  {
    seq(|states|, i requires 0 <= i < |states| => (states[i].name, states[i].id))
  }

  /** state_dict: name to id (views/admin.py:66, 91). */
  function StateIds(states: seq<StateRow>): map<string, nat> {
    LabelMap(StatePairs(states))
  }

  /** Every state's name is offered, and it selects the id of the last
      state with that name: of two states named alike, locations can only
      be added to the later one (views/admin.py:65-68). */
  lemma StateIdsKeepLast(states: seq<StateRow>, i: nat)
    requires i < |states|
    ensures states[i].name in StateIds(states)
    ensures (forall j | i < j < |states| :: states[j].name != states[i].name)
      ==> StateIds(states)[states[i].name] == states[i].id
  {
    var pairs := StatePairs(states);
    var k := states[i].name;
    LabelMapLastWins(pairs, k);
    assert pairs[i].0 == k;
    if forall j | i < j < |states| :: states[j].name != k {
      assert forall j | i < j < |pairs| :: pairs[j].0 != k;
    }
  }

  // ----- The deployment summary -----

  /** A row of the deployments query (views/admin.py:167-172); deployedAt
      is the timestamp as str() renders it. */
  datatype DeploymentRow = DeploymentRow(id: nat, outletName: string, userEmail: string,
                                         posms: seq<DeployedPosm>, deployedAt: string)

  /** A row of `SELECT * FROM posms`. */
  datatype PosmRow = PosmRow(id: nat, name: string)

  function PosmPairs(posms: seq<PosmRow>): (pairs: seq<(nat, string)>)
    ensures |pairs| == |posms|
    ensures forall i | 0 <= i < |posms| :: pairs[i] == (posms[i].id, posms[i].name)
  {
    seq(|posms|, i requires 0 <= i < |posms| => (posms[i].id, posms[i].name))
  }

  /** posm_dict: id to name (views/admin.py:173). */
  function PosmNames(posms: seq<PosmRow>): map<nat, string> {
    LabelMap(PosmPairs(posms))
  }

  /** `posm_dict.get(id, "Unknown")` (views/admin.py:177). */
  function NameOf(names: map<nat, string>, id: nat): (name: string)
    ensures id in names ==> name == names[id]
    ensures id !in names ==> name == "Unknown"
  {
    if id in names then names[id] else "Unknown"
  }

  /** Looked up in posm_dict, an id gives "Unknown" exactly when no POSM row
      has it, and otherwise the name of the last row with that id
      (views/admin.py:173, 177). */
  lemma NameOfPosms(posms: seq<PosmRow>, id: nat, i: nat)
    requires i < |posms| && posms[i].id == id
    requires forall j | i < j < |posms| :: posms[j].id != id
    ensures NameOf(PosmNames(posms), id) == posms[i].name
  {
    var pairs := PosmPairs(posms);
    LabelMapLastWins(pairs, id);
    assert pairs[i].0 == id;
    assert forall j | i < j < |pairs| :: pairs[j].0 != id;
  }

  /** An id no POSM row has is shown as "Unknown". */
  lemma NameOfUnknown(posms: seq<PosmRow>, id: nat)
    requires forall j | 0 <= j < |posms| :: posms[j].id != id
    ensures NameOf(PosmNames(posms), id) == "Unknown"
  {
    var pairs := PosmPairs(posms);
    LabelMapLastWins(pairs, id);
    assert forall j | 0 <= j < |pairs| :: pairs[j].0 != id;
  }

  /** One entry of posm_details (views/admin.py:177-179). */
  function Detail(names: map<nat, string>, p: DeployedPosm): string {
    NameOf(names, p.posmId) + ": " + NatToString(p.quantity)
  }

  function DetailOf(names: map<nat, string>): DeployedPosm -> string {
    p => Detail(names, p)
  }

  /** posm_details for the POSMs of one deployment. */
  function Details(names: map<nat, string>, posms: seq<DeployedPosm>): seq<string> {
    Mapped(DetailOf(names), posms)
  }

  /** The line written for one deployment (views/admin.py:180-181). */
  function Summary(names: map<nat, string>, dep: DeploymentRow): string {
    "Deployment ID: " + NatToString(dep.id) + ", Outlet: " + dep.outletName + ", User: " + dep.userEmail
    + ", POSMs: " + Join(Details(names, dep.posms), ", ") + ", Time: " + dep.deployedAt
  }

  function SummaryOf(names: map<nat, string>): DeploymentRow -> string {
    dep => Summary(names, dep)
  }

  /** The lines written for the deployments, in query order. */
  function Summaries(names: map<nat, string>, deployments: seq<DeploymentRow>): seq<string> {
    Mapped(SummaryOf(names), deployments)
  }

  /** The nested loop of views/admin.py:173-181. */
  method RenderDeployments(posms: seq<PosmRow>, deployments: seq<DeploymentRow>) returns (lines: seq<string>)
    ensures lines == Summaries(PosmNames(posms), deployments)
    ensures |lines| == |deployments|
  {
    var names := PosmNames(posms);
    lines := [];
    for i := 0 to |deployments|
      invariant lines == Summaries(names, deployments[..i])
      invariant |lines| == i
    {
      var dep := deployments[i];
      var details := RenderDetails(names, dep.posms);
      var line := "Deployment ID: " + NatToString(dep.id) + ", Outlet: " + dep.outletName + ", User: " + dep.userEmail
                  + ", POSMs: " + Join(details, ", ") + ", Time: " + dep.deployedAt;
      assert deployments[..i + 1] == deployments[..i] + [dep];
      MappedSnoc(SummaryOf(names), deployments[..i], dep);
      lines := lines + [line];
    }
    assert deployments[..|deployments|] == deployments;
  }

  /** The inner loop of views/admin.py:176-179: posm_details for one deployment. */
  method RenderDetails(names: map<nat, string>, posms: seq<DeployedPosm>) returns (details: seq<string>)
    ensures details == Details(names, posms)
  {
    details := [];
    for j := 0 to |posms|
      invariant details == Details(names, posms[..j])
    {
      var p := posms[j];
      assert posms[..j + 1] == posms[..j] + [p];
      MappedSnoc(DetailOf(names), posms[..j], p);
      details := details + [NameOf(names, p.posmId) + ": " + NatToString(p.quantity)];
    }
    assert posms[..|posms|] == posms;
  }

  /** There is one detail per deployed POSM, in stored order, each naming
      the POSM (or "Unknown" when its id is not in posm_dict) and its
      quantity (views/admin.py:176-179). */
  lemma DetailsOnePerPosm(names: map<nat, string>, posms: seq<DeployedPosm>)
    ensures |Details(names, posms)| == |posms|
    ensures forall k | 0 <= k < |posms| :: Details(names, posms)[k] == Detail(names, posms[k])
  {
    MappedAt(DetailOf(names), posms);
  }

  /** A detail starts with the POSM's name when the id is known and with
      "Unknown" otherwise; the text after ": " is the quantity. */
  lemma DetailNamesThePosm(names: map<nat, string>, p: DeployedPosm)
    ensures var d := Detail(names, p);
      var n := NameOf(names, p.posmId);
      && d[..|n|] == n && d[|n|..|n| + 2] == ": " && d[|n| + 2..] == NatToString(p.quantity)
      && (p.posmId !in names ==> d[..7] == "Unknown")
  {
  }

  /** The POSMs part of a line is as long as its details plus one ", "
      between each two, so each detail appears in full. */
  lemma SummaryPosmsLength(names: map<nat, string>, dep: DeploymentRow)
    requires dep.posms != []
    ensures |Join(Details(names, dep.posms), ", ")| == TotalLength(Details(names, dep.posms)) + (|dep.posms| - 1) * 2
  {
    DetailsOnePerPosm(names, dep.posms);
    JoinLength(Details(names, dep.posms), ", ");
  }

  /** A deployment with one POSM more has the line of the old deployment
      with ", " and the new detail added to its POSMs part. */
  lemma SummaryAddsDetail(names: map<nat, string>, dep: DeploymentRow, p: DeployedPosm)
    requires dep.posms != []
    ensures var more := dep.(posms := dep.posms + [p]);
      Join(Details(names, more.posms), ", ") == Join(Details(names, dep.posms), ", ") + ", " + Detail(names, p)
  {
    MappedSnoc(DetailOf(names), dep.posms, p);
    DetailsOnePerPosm(names, dep.posms);
    JoinSnoc(Details(names, dep.posms), Detail(names, p), ", ");
  }

  /** Line i is the summary of deployment i. */
  lemma SummariesInOrder(names: map<nat, string>, deployments: seq<DeploymentRow>)
    ensures |Summaries(names, deployments)| == |deployments|
    ensures forall k | 0 <= k < |deployments| :: Summaries(names, deployments)[k] == Summary(names, deployments[k])
  {
    MappedAt(SummaryOf(names), deployments);
  }
}
