/**
 * Monthly planning baseline of components/PlanningModule.tsx: planned quantities
 * per contract index, the fleet roster with its operator-entered targets, the
 * totals panel and the plan record built on save.
 */
module Planning {
  import opened Types
  import opened Seqs
  import opened DataService

  // ---------------------------------------------------------------------------
  // Planned quantities
  // ---------------------------------------------------------------------------

  /** The first plan item for the given index, or None when there is none. */
  function FindPlanItem(items: seq<PlanItem>, id: string): (r: Option<PlanItem>)
    ensures r.Some? ==> r.value in items && r.value.indexId == id
    ensures r.Some? ==> exists k :: 0 <= k < |items| && items[k] == r.value &&
                          forall j :: 0 <= j < k ==> items[j].indexId != id
    ensures r.None? <==> forall it :: it in items ==> it.indexId != id
  {
    if items == [] then None
    else if items[0].indexId == id then Some(items[0])
    else FindPlanItem(items[1..], id)
  }

  /** The saved quantity for an index, or 0 when there is no plan or no item for it. */
  function SavedQuantity(existing: Option<MonthlyPlan>, id: string): int
  {
    match existing
    case None => 0
    case Some(plan) =>
      match FindPlanItem(plan.items, id)
      case None => 0
      case Some(it) => it.plannedQuantity
  }

  /** The quantity initialisation of `loadPlanningData`: one entry per project index. */
  method InitialQuantities(projectIndices: seq<ContractIndex>, existing: Option<MonthlyPlan>)
    returns (initialValues: map<string, int>)
    ensures initialValues.Keys == set x | x in projectIndices :: x.id
    ensures forall id :: id in initialValues ==> initialValues[id] == SavedQuantity(existing, id)
  {
    initialValues := map[];
    var i := 0;
    while i < |projectIndices|
      invariant 0 <= i <= |projectIndices|
      invariant initialValues.Keys == set x | x in projectIndices[..i] :: x.id
      invariant forall id :: id in initialValues ==> initialValues[id] == SavedQuantity(existing, id)
    {
      var idx := projectIndices[i];
      var saved := if existing.Some? then FindPlanItem(existing.value.items, idx.id) else None;
      initialValues := initialValues[idx.id := if saved.Some? then saved.value.plannedQuantity else 0];
      assert projectIndices[..i + 1] == projectIndices[..i] + [idx];
      i := i + 1;
    }
    assert projectIndices[..i] == projectIndices;
  }

  // ---------------------------------------------------------------------------
  // Totals
  // ---------------------------------------------------------------------------

  /** Planned value of one index: its planned quantity (0 when unset) times its current price. */
  function IndexValue(x: ContractIndex, planItems: map<string, int>): int
  {
    Lookup(planItems, x.id) * x.currentPrice
  }

  /** Planned value of the rental (rental == true) or the construction indices. */
  function BucketTotal(indices: seq<ContractIndex>, planItems: map<string, int>, rental: bool): int
    decreases |indices|
  {
    if indices == [] then 0
    else
      var x := indices[|indices| - 1];
      BucketTotal(indices[..|indices| - 1], planItems, rental) + (if (x.indexType == Rental) == rental then IndexValue(x, planItems) else 0)
  }

  /** Planned value of every index, whatever its type. */
  function ContractValue(indices: seq<ContractIndex>, planItems: map<string, int>): int
    decreases |indices|
  {
    if indices == [] then 0
    else ContractValue(indices[..|indices| - 1], planItems) + IndexValue(indices[|indices| - 1], planItems)
  }

  /** Each index lands in exactly one bucket: the two buckets add up to the contract value. */
  lemma {:induction false} ContractValueSplit(indices: seq<ContractIndex>, planItems: map<string, int>)
    ensures BucketTotal(indices, planItems, true) + BucketTotal(indices, planItems, false) == ContractValue(indices, planItems)
    decreases |indices|
  {
    if indices != [] {
      ContractValueSplit(indices[..|indices| - 1], planItems);
    }
  }

  function Productive(f: PlanEquipment): int { f.targetProductive }
  function Unproductive(f: PlanEquipment): int { f.targetUnproductive }
  function EstimatedCost(f: PlanEquipment): int { f.estimatedCost }

  /** The figures `calculateTotals` returns. */
  datatype Totals = Totals(
    rentalTotal: int,
    constructionTotal: int,
    grandTotalContract: int,
    fleetProductive: int,
    fleetUnproductive: int,
    fleetRevenue: int,
    fleetCost: int,
    fleetMargin: int)

  // ---------------------------------------------------------------------------
  // The saved plan
  // ---------------------------------------------------------------------------

  /** The plan line for an index, priced at its current price. */
  function PlanItemFor(x: ContractIndex, planItems: map<string, int>): PlanItem
  {
    PlanItem(x.id, Lookup(planItems, x.id), IndexValue(x, planItems))
  }

  function PlanItemValue(it: PlanItem): int { it.totalValue }

  /** The `itemsToSave` of `handleSave`: indices with a positive quantity, in index order. */
  function PlanItemsToSave(indices: seq<ContractIndex>, planItems: map<string, int>): (r: seq<PlanItem>)
    ensures |r| <= |indices|
    ensures forall k :: 0 <= k < |r| ==> r[k].plannedQuantity > 0
    decreases |indices|
  {
    if indices == [] then []
    else
      var x := indices[|indices| - 1];
      PlanItemsToSave(indices[..|indices| - 1], planItems) + (if Lookup(planItems, x.id) > 0 then [PlanItemFor(x, planItems)] else [])
  }

  /** The saved lines are exactly the priced lines of the indices with a positive quantity. */
  lemma {:induction false} PlanItemsToSaveMembers(indices: seq<ContractIndex>, planItems: map<string, int>)
    ensures forall it :: it in PlanItemsToSave(indices, planItems) ==> exists x :: x in indices && it == PlanItemFor(x, planItems)
    ensures forall x :: x in indices && Lookup(planItems, x.id) > 0 ==> PlanItemFor(x, planItems) in PlanItemsToSave(indices, planItems)
    decreases |indices|
  {
    if indices != [] {
      var init := indices[..|indices| - 1];
      var x := indices[|indices| - 1];
      assert indices == init + [x];
      PlanItemsToSaveMembers(init, planItems);
      var prev := PlanItemsToSave(init, planItems);
      var r := PlanItemsToSave(indices, planItems);
      assert r == prev + (if Lookup(planItems, x.id) > 0 then [PlanItemFor(x, planItems)] else []);
      forall it | it in r ensures exists y :: y in indices && it == PlanItemFor(y, planItems) {
        if it in prev {
          var y :| y in init && it == PlanItemFor(y, planItems);
          assert y in indices;
        } else {
          assert it == PlanItemFor(x, planItems);
        }
      }
      forall y | y in indices && Lookup(planItems, y.id) > 0 ensures PlanItemFor(y, planItems) in r {
        if y != x {
          assert y in init;
        }
      }
    }
  }

  /** Index order is kept: the plan lines of a concatenation are the lines of each part, in turn. */
  lemma {:induction false} PlanItemsInIndexOrder(a: seq<ContractIndex>, b: seq<ContractIndex>, planItems: map<string, int>)
    ensures PlanItemsToSave(a + b, planItems) == PlanItemsToSave(a, planItems) + PlanItemsToSave(b, planItems)
    decreases |b|
  {
    if b == [] {
      assert a + b == a;
    } else {
      var ab := a + b;
      var x := b[|b| - 1];
      assert ab[..|ab| - 1] == a + b[..|b| - 1];
      assert ab[|ab| - 1] == x;
      PlanItemsInIndexOrder(a, b[..|b| - 1], planItems);
      var tail := if Lookup(planItems, x.id) > 0 then [PlanItemFor(x, planItems)] else [];
      assert PlanItemsToSave(ab, planItems) == PlanItemsToSave(ab[..|ab| - 1], planItems) + tail;
      assert PlanItemsToSave(b, planItems) == PlanItemsToSave(b[..|b| - 1], planItems) + tail;
    }
  }

  /** With no negative quantity the saved plan's total equals the contract total shown
      on screen: dropping the zero lines loses nothing. */
  lemma {:induction false} PlanTotalMatchesContract(indices: seq<ContractIndex>, planItems: map<string, int>)
    requires forall k :: 0 <= k < |indices| ==> Lookup(planItems, indices[k].id) >= 0
    ensures Sum(PlanItemsToSave(indices, planItems), PlanItemValue) == ContractValue(indices, planItems)
    decreases |indices|
  {
    if indices != [] {
      var init := indices[..|indices| - 1];
      var x := indices[|indices| - 1];
      PlanTotalMatchesContract(init, planItems);
      var tail := if Lookup(planItems, x.id) > 0 then [PlanItemFor(x, planItems)] else [];
      SumAppend(PlanItemsToSave(init, planItems), tail, PlanItemValue);
      if tail != [] {
        assert tail[..0] == [];
      }
    }
  }

  /** A negative quantity is counted on screen but dropped from the saved plan. */
  lemma NegativeQuantityDropped(x: ContractIndex)
    requires x.currentPrice == 100
    ensures ContractValue([x], map[x.id := -1]) == -100
    ensures PlanItemsToSave([x], map[x.id := -1]) == []
  {
    assert [x][..0] == [];
  }

  // ---------------------------------------------------------------------------
  // Fleet roster
  // ---------------------------------------------------------------------------

  /** `demobilizeEquipment`: drops every entry of that equipment, keeps the others in order. */
  function Demobilize(fleet: seq<PlanEquipment>, id: string): (r: seq<PlanEquipment>)
    ensures forall f :: f in r <==> f in fleet && f.equipmentId != id
    ensures |r| <= |fleet|
    ensures Subsequence(r, fleet)
    ensures forall f :: multiset(r)[f] == if f.equipmentId != id then multiset(fleet)[f] else 0
  {
    var keep := (f: PlanEquipment) => f.equipmentId != id;
    FilterSubsequence(fleet, keep);
    FilterCount(fleet, keep);
    Filter(fleet, keep)
  }

  /** The four fields the roster table edits through `updateFleetItem`. */
  datatype FleetEdit =
    | SetStatus(status: FleetStatus)
    | SetTargetProductive(amount: int)
    | SetTargetUnproductive(amount: int)
    | SetEstimatedCost(amount: int)

  /** Copies a fleet entry with one field replaced: the edited field takes the value, the others are kept. */
  function EditFleetEntry(f: PlanEquipment, edit: FleetEdit): (r: PlanEquipment)
    ensures r.equipmentId == f.equipmentId
    ensures r.status == if edit.SetStatus? then edit.status else f.status
    ensures r.targetProductive == if edit.SetTargetProductive? then edit.amount else f.targetProductive
    ensures r.targetUnproductive == if edit.SetTargetUnproductive? then edit.amount else f.targetUnproductive
    ensures r.estimatedCost == if edit.SetEstimatedCost? then edit.amount else f.estimatedCost
  {
    match edit
    case SetStatus(s) => f.(status := s)
    case SetTargetProductive(v) => f.(targetProductive := v)
    case SetTargetUnproductive(v) => f.(targetUnproductive := v)
    case SetEstimatedCost(v) => f.(estimatedCost := v)
  }

  /** `updateFleetItem`: edits every entry of that equipment, leaves the others alone. */
  function UpdateFleet(fleet: seq<PlanEquipment>, eqId: string, edit: FleetEdit): (r: seq<PlanEquipment>)
    ensures |r| == |fleet|
    ensures forall k :: 0 <= k < |fleet| ==> r[k].equipmentId == fleet[k].equipmentId
    ensures forall k :: 0 <= k < |fleet| && fleet[k].equipmentId != eqId ==> r[k] == fleet[k]
    ensures forall k :: 0 <= k < |fleet| && fleet[k].equipmentId == eqId ==> r[k] == EditFleetEntry(fleet[k], edit)
  {
    seq(|fleet|, k requires 0 <= k < |fleet| =>
      if fleet[k].equipmentId == eqId then EditFleetEntry(fleet[k], edit) else fleet[k])
  }

  /** `toggleSelectionForMobilization`: removes the id if selected, else appends it. */
  function Toggle(selected: seq<string>, id: string): (r: seq<string>)
    ensures id in selected ==> id !in r && forall x :: x != id ==> (x in r <==> x in selected)
    ensures id in selected ==> Subsequence(r, selected)
    ensures id in selected ==> forall x :: multiset(r)[x] == if x != id then multiset(selected)[x] else 0
    ensures id !in selected ==> r == selected + [id]
  {
    if id in selected then
      var keep := (x: string) => x != id;
      FilterSubsequence(selected, keep);
      FilterCount(selected, keep);
      Filter(selected, keep)
    else selected + [id]
  }

  /** Toggling twice restores membership; from an unselected id it restores the list itself. */
  lemma ToggleTwice(selected: seq<string>, id: string)
    ensures forall x :: x in Toggle(Toggle(selected, id), id) <==> x in selected
    ensures id !in selected ==> Toggle(Toggle(selected, id), id) == selected
  {
    if id !in selected {
      var keep := (x: string) => x != id;
      FilterAppend(selected, [id], keep);
      FilterAll(selected, keep);
      assert Filter([id], keep) == [];
    }
  }

  /** The entries `commitMobilization` appends: one per selected id, in selection order. */
  function MobilizationEntries(selected: seq<string>): (r: seq<PlanEquipment>)
    ensures |r| == |selected|
    ensures forall k :: 0 <= k < |r| ==> r[k] == PlanEquipment(selected[k], Mobilizacao, 0, 0, 0)
  {
    seq(|selected|, k requires 0 <= k < |selected| => PlanEquipment(selected[k], Mobilizacao, 0, 0, 0))
  }

  /** The equipment has an entry in the roster. */
  predicate InFleet(fleet: seq<PlanEquipment>, id: string)
  {
    exists f :: f in fleet && f.equipmentId == id
  }

  /** `availableFleet`: the equipment not yet on the roster, in store order. */
  function AvailableFleet(allEquipment: seq<Equipment>, fleet: seq<PlanEquipment>): (r: seq<Equipment>)
    ensures forall eq :: eq in r <==> eq in allEquipment && !InFleet(fleet, eq.id)
    ensures Subsequence(r, allEquipment)
    ensures forall eq :: multiset(r)[eq] == if !InFleet(fleet, eq.id) then multiset(allEquipment)[eq] else 0
  {
    var keep := (eq: Equipment) => !InFleet(fleet, eq.id);
    FilterSubsequence(allEquipment, keep);
    FilterCount(allEquipment, keep);
    Filter(allEquipment, keep)
  }

  /** Once committed, no selected equipment is offered for mobilisation again. */
  lemma CommittedNotAvailable(allEquipment: seq<Equipment>, fleet: seq<PlanEquipment>, selected: seq<string>)
    ensures forall eq :: eq in AvailableFleet(allEquipment, fleet + MobilizationEntries(selected)) ==> eq.id !in selected
  {
  }

  // ---------------------------------------------------------------------------
  // The screen's state
  // ---------------------------------------------------------------------------

  class PlanningSession {
    var selectedProject: string
    var month: int
    var year: int
    var allEquipment: seq<Equipment>
    var indices: seq<ContractIndex>
    var planItems: map<string, int>
    var fleetPlan: seq<PlanEquipment>
    var selectedForMobilization: seq<string>

    /** A screen for the given project and month, with the store's equipment list. */
    constructor (store: DataStore, project: string, y: int, m: int)
      ensures selectedProject == project && year == y && month == m
      ensures allEquipment == store.equipment
      ensures indices == [] && planItems == map[] && fleetPlan == [] && selectedForMobilization == []
    {
      selectedProject := project;
      year, month := y, m;
      allEquipment := store.equipment;
      indices, planItems, fleetPlan, selectedForMobilization := [], map[], [], [];
    }

    /** `loadPlanningData`, given the plan the store returned for the month (if any). */
    method LoadPlanningData(store: DataStore, existing: Option<MonthlyPlan>)
      modifies this`indices, this`planItems, this`fleetPlan
      ensures indices == store.GetIndices(selectedProject)
      ensures planItems.Keys == set x | x in indices :: x.id
      ensures forall id :: id in planItems ==> planItems[id] == SavedQuantity(existing, id)
      ensures fleetPlan == if existing.Some? then existing.value.fleet else []
    {
      var projectIndices := store.GetIndices(selectedProject);
      indices := projectIndices;
      planItems := InitialQuantities(projectIndices, existing);
      fleetPlan := if existing.Some? then existing.value.fleet else [];
    }

    method HandleQuantityChange(indexId: string, qty: int)
      modifies this`planItems
      ensures planItems == old(planItems)[indexId := qty]
    {
      planItems := planItems[indexId := qty];
    }

    method DemobilizeEquipment(id: string)
      modifies this`fleetPlan
      ensures fleetPlan == Demobilize(old(fleetPlan), id)
    {
      fleetPlan := Demobilize(fleetPlan, id);
    }

    method UpdateFleetItem(eqId: string, edit: FleetEdit)
      modifies this`fleetPlan
      ensures fleetPlan == UpdateFleet(old(fleetPlan), eqId, edit)
    {
      fleetPlan := UpdateFleet(fleetPlan, eqId, edit);
    }

    method ToggleSelectionForMobilization(id: string)
      modifies this`selectedForMobilization
      ensures selectedForMobilization == Toggle(old(selectedForMobilization), id)
    {
      selectedForMobilization := Toggle(selectedForMobilization, id);
    }

    /** `commitMobilization`: appends the selected equipment and clears the selection. */
    method CommitMobilization()
      modifies this`fleetPlan, this`selectedForMobilization
      ensures fleetPlan == old(fleetPlan) + MobilizationEntries(old(selectedForMobilization))
      ensures selectedForMobilization == []
    {
      fleetPlan := fleetPlan + MobilizationEntries(selectedForMobilization);
      selectedForMobilization := [];
    }

    /** `calculateTotals`: the two contract buckets and the fleet figures. */
    method CalculateTotals() returns (t: Totals)
      ensures t.rentalTotal == BucketTotal(indices, planItems, true)
      ensures t.constructionTotal == BucketTotal(indices, planItems, false)
      ensures t.grandTotalContract == t.rentalTotal + t.constructionTotal == ContractValue(indices, planItems)
      ensures t.fleetProductive == Sum(fleetPlan, Productive) && t.fleetUnproductive == Sum(fleetPlan, Unproductive)
      ensures t.fleetRevenue == t.fleetProductive + t.fleetUnproductive
      ensures t.fleetCost == Sum(fleetPlan, EstimatedCost)
      ensures t.fleetMargin == t.fleetRevenue - t.fleetCost
    {
      var rentalTotal, constructionTotal := 0, 0;
      var i := 0;
      while i < |indices|
        invariant 0 <= i <= |indices|
        invariant rentalTotal == BucketTotal(indices[..i], planItems, true)
        invariant constructionTotal == BucketTotal(indices[..i], planItems, false)
      {
        var idx := indices[i];
        assert indices[..i + 1][..i] == indices[..i];
        var qty := Lookup(planItems, idx.id);
        var val := qty * idx.currentPrice;
        if idx.indexType == Rental {
          rentalTotal := rentalTotal + val;
        } else {
          constructionTotal := constructionTotal + val;
        }
        i := i + 1;
      }
      assert indices[..i] == indices;
      ContractValueSplit(indices, planItems);
      var fleetProductive := Sum(fleetPlan, Productive);
      var fleetUnproductive := Sum(fleetPlan, Unproductive);
      var fleetRevenue := fleetProductive + fleetUnproductive;
      var fleetCost := Sum(fleetPlan, EstimatedCost);
      t := Totals(rentalTotal, constructionTotal, rentalTotal + constructionTotal,
                  fleetProductive, fleetUnproductive, fleetRevenue, fleetCost, fleetRevenue - fleetCost);
    }

    /** `handleSave`: the plan handed to the store (there is no guard in the source). */
    method HandleSave(id: string) returns (plan: MonthlyPlan)
      ensures plan.id == id && plan.projectId == selectedProject && plan.month == month && plan.year == year
      ensures plan.items == PlanItemsToSave(indices, planItems)
      ensures plan.fleet == fleetPlan
      ensures plan.totalValue == Sum(plan.items, PlanItemValue)
      ensures (forall k :: 0 <= k < |indices| ==> Lookup(planItems, indices[k].id) >= 0) ==>
                plan.totalValue == BucketTotal(indices, planItems, true) + BucketTotal(indices, planItems, false)
    {
      var itemsToSave := PlanItemsToSave(indices, planItems);
      if forall k :: 0 <= k < |indices| ==> Lookup(planItems, indices[k].id) >= 0 {
        PlanTotalMatchesContract(indices, planItems);
        ContractValueSplit(indices, planItems);
      }
      plan := MonthlyPlan(id, selectedProject, month, year, itemsToSave, fleetPlan, Sum(itemsToSave, PlanItemValue));
    }

    /** `availableFleet` for the current roster. */
    function Available(): (r: seq<Equipment>)
      reads this
      ensures forall eq :: eq in r ==> eq in allEquipment && !InFleet(fleetPlan, eq.id)
    {
      AvailableFleet(allEquipment, fleetPlan)
    }
  }
}
