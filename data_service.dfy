/**
 * The in-memory store of services/dataService.ts: the seeded reference arrays,
 * the append-only list of daily reports (RDOs), the per-project filters and the
 * dashboard aggregation that folds reports and costs into revenue splits and a
 * per-equipment revenue/cost/margin table.
 */
module DataService {
  import opened Types
  import opened Seqs

  // ---------------------------------------------------------------------------
  // Specification of the dashboard folds
  // ---------------------------------------------------------------------------

  function DailyValue(r: RDO): int { r.totalDailyValue }

  function CostValue(c: EquipmentCost): int { c.value }

  /** What one item adds to the rental (rental == true) or construction bucket:
      its total when its index resolves to one of that type, else nothing. */
  function BucketValue(it: RDOItem, indices: seq<ContractIndex>, rental: bool): int
  {
    match FindIndex(indices, it.indexId)
    case None => 0
    case Some(x) => if (x.indexType == Rental) == rental then it.totalValue else 0
  }

  function ItemsRevenue(items: seq<RDOItem>, indices: seq<ContractIndex>, rental: bool): int
    decreases |items|
  {
    if items == [] then 0
    else ItemsRevenue(items[..|items| - 1], indices, rental) + BucketValue(items[|items| - 1], indices, rental)
  }

  /** Rental (or construction) revenue of a list of reports. */
  function Revenue(rdos: seq<RDO>, indices: seq<ContractIndex>, rental: bool): int
    decreases |rdos|
  {
    if rdos == [] then 0
    else Revenue(rdos[..|rdos| - 1], indices, rental) + ItemsRevenue(rdos[|rdos| - 1].items, indices, rental)
  }

  /** The item's total if its index resolves at all, else nothing. */
  function ResolvedValue(it: RDOItem, indices: seq<ContractIndex>): int
  {
    if FindIndex(indices, it.indexId).Some? then it.totalValue else 0
  }

  function ItemsResolved(items: seq<RDOItem>, indices: seq<ContractIndex>): int
    decreases |items|
  {
    if items == [] then 0
    else ItemsResolved(items[..|items| - 1], indices) + ResolvedValue(items[|items| - 1], indices)
  }

  /** Sum of the totals of every item, over all reports, whose index resolves. */
  function ResolvedRevenue(rdos: seq<RDO>, indices: seq<ContractIndex>): int
    decreases |rdos|
  {
    if rdos == [] then 0
    else ResolvedRevenue(rdos[..|rdos| - 1], indices) + ItemsResolved(rdos[|rdos| - 1].items, indices)
  }

  /** What one item adds to equipment e: items with a non-empty equipment id only. */
  function Attribution(it: RDOItem, e: string): int
  {
    if it.equipmentId == Some(e) && e != "" then it.totalValue else 0
  }

  function ItemsEquipmentRevenue(items: seq<RDOItem>, e: string): int
    decreases |items|
  {
    if items == [] then 0
    else ItemsEquipmentRevenue(items[..|items| - 1], e) + Attribution(items[|items| - 1], e)
  }

  function EquipmentRevenue(rdos: seq<RDO>, e: string): int
    decreases |rdos|
  {
    if rdos == [] then 0
    else EquipmentRevenue(rdos[..|rdos| - 1], e) + ItemsEquipmentRevenue(rdos[|rdos| - 1].items, e)
  }

  /** Sum of the costs booked against equipment id e. */
  function EquipmentCostOf(costs: seq<EquipmentCost>, e: string): int
    decreases |costs|
  {
    if costs == [] then 0
    else EquipmentCostOf(costs[..|costs| - 1], e) + (if costs[|costs| - 1].equipmentId == e then costs[|costs| - 1].value else 0)
  }

  /** The value stored under a key of a numeric record, 0 when the key is absent. */
  function Lookup(m: map<string, int>, key: string): int
  {
    if key in m then m[key] else 0
  }

  /** The unsorted equipment table: one row per equipment, in store order. */
  function HealthRows(equipment: seq<Equipment>, rdos: seq<RDO>, costs: seq<EquipmentCost>): (r: seq<HealthRow>)
    ensures |r| == |equipment|
    ensures forall k :: 0 <= k < |r| ==>
      && r[k].equipmentId == equipment[k].name
      && r[k].revenue == EquipmentRevenue(rdos, equipment[k].id)
      && r[k].cost == EquipmentCostOf(costs, equipment[k].id)
      && r[k].margin == r[k].revenue - r[k].cost
  {
    seq(|equipment|, k requires 0 <= k < |equipment| =>
      var rev := EquipmentRevenue(rdos, equipment[k].id);
      var cost := EquipmentCostOf(costs, equipment[k].id);
      HealthRow(equipment[k].name, rev, cost, rev - cost))
  }

  ghost predicate NonIncreasing(rows: seq<HealthRow>)
  {
    forall i, j :: 0 <= i < j < |rows| ==> rows[i].revenue >= rows[j].revenue
  }

  /** Inserts x after every row whose revenue is at least x's, so ties keep their order. */
  function Insert(rows: seq<HealthRow>, x: HealthRow): (r: seq<HealthRow>)
    ensures |r| == |rows| + 1
    ensures multiset(r) == multiset(rows) + multiset{x}
    decreases |rows|
  {
    if rows == [] then [x]
    else if rows[0].revenue >= x.revenue then
      assert rows == [rows[0]] + rows[1..];
      [rows[0]] + Insert(rows[1..], x)
    else [x] + rows
  }

  /** A row of revenue at least every revenue of a sorted list may head it. */
  lemma ConsSorted(h: HealthRow, rest: seq<HealthRow>)
    requires NonIncreasing(rest)
    requires forall k :: 0 <= k < |rest| ==> h.revenue >= rest[k].revenue
    ensures NonIncreasing([h] + rest)
  {
    var r := [h] + rest;
    forall i, j | 0 <= i < j < |r| ensures r[i].revenue >= r[j].revenue {
      assert r[j] == rest[j - 1];
      if i > 0 {
        assert r[i] == rest[i - 1];
      }
    }
  }

  /** Inserting keeps every revenue within a bound that the list and the new row respect. */
  lemma InsertBounded(rows: seq<HealthRow>, x: HealthRow, bound: int)
    requires forall k :: 0 <= k < |rows| ==> rows[k].revenue <= bound
    requires x.revenue <= bound
    ensures forall k :: 0 <= k < |Insert(rows, x)| ==> Insert(rows, x)[k].revenue <= bound
  {
    var r := Insert(rows, x);
    forall k | 0 <= k < |r| ensures r[k].revenue <= bound {
      assert r[k] in multiset(r);
      if r[k] != x {
        assert r[k] in multiset(rows);
        assert r[k] in rows;
      }
    }
  }

  lemma {:induction false} InsertSorted(rows: seq<HealthRow>, x: HealthRow)
    requires NonIncreasing(rows)
    ensures NonIncreasing(Insert(rows, x))
    decreases |rows|
  {
    if rows != [] {
      if rows[0].revenue >= x.revenue {
        var tail := rows[1..];
        assert forall k :: 0 <= k < |tail| ==> tail[k] == rows[k + 1];
        InsertSorted(tail, x);
        InsertBounded(tail, x, rows[0].revenue);
        ConsSorted(rows[0], Insert(tail, x));
      } else {
        ConsSorted(x, rows);
      }
    }
  }

  /** A stable sort of the health rows by non-increasing revenue. */
  function SortByRevenue(rows: seq<HealthRow>): (r: seq<HealthRow>)
    ensures |r| == |rows|
    ensures multiset(r) == multiset(rows)
    ensures NonIncreasing(r)
    decreases |rows|
  {
    if rows == [] then []
    else
      assert rows == rows[..|rows| - 1] + [rows[|rows| - 1]];
      var sorted := SortByRevenue(rows[..|rows| - 1]);
      InsertSorted(sorted, rows[|rows| - 1]);
      Insert(sorted, rows[|rows| - 1])
  }

  // ---------------------------------------------------------------------------
  // Properties of the dashboard folds
  // ---------------------------------------------------------------------------

  lemma {:induction false} ItemsRevenueSplit(items: seq<RDOItem>, indices: seq<ContractIndex>)
    ensures ItemsRevenue(items, indices, true) + ItemsRevenue(items, indices, false) == ItemsResolved(items, indices)
    decreases |items|
  {
    if items != [] {
      ItemsRevenueSplit(items[..|items| - 1], indices);
    }
  }

  /** Every item whose index resolves lands in exactly one of the two buckets. */
  lemma {:induction false} RevenueSplit(rdos: seq<RDO>, indices: seq<ContractIndex>)
    ensures Revenue(rdos, indices, true) + Revenue(rdos, indices, false) == ResolvedRevenue(rdos, indices)
    decreases |rdos|
  {
    if rdos != [] {
      RevenueSplit(rdos[..|rdos| - 1], indices);
      ItemsRevenueSplit(rdos[|rdos| - 1].items, indices);
    }
  }

  lemma {:induction false} ItemsRevenueAppend(a: seq<RDOItem>, b: seq<RDOItem>, indices: seq<ContractIndex>, rental: bool)
    ensures ItemsRevenue(a + b, indices, rental) == ItemsRevenue(a, indices, rental) + ItemsRevenue(b, indices, rental)
    decreases |b|
  {
    if b == [] {
      assert a + b == a;
    } else {
      assert (a + b)[..|a + b| - 1] == a + b[..|b| - 1];
      ItemsRevenueAppend(a, b[..|b| - 1], indices, rental);
    }
  }

  /** An item whose index is unknown to the project adds nothing to either bucket,
      wherever it stands in the report. */
  lemma DanglingItemIgnored(a: seq<RDOItem>, it: RDOItem, b: seq<RDOItem>, indices: seq<ContractIndex>, rental: bool)
    requires forall x :: x in indices ==> x.id != it.indexId
    ensures ItemsRevenue(a + [it] + b, indices, rental) == ItemsRevenue(a + b, indices, rental)
  {
    ItemsRevenueAppend(a + [it], b, indices, rental);
    ItemsRevenueAppend(a, [it], indices, rental);
    ItemsRevenueAppend(a, b, indices, rental);
    assert [it][..0] == [];
  }

  lemma {:induction false} EquipmentCostAppendOne(costs: seq<EquipmentCost>, c: EquipmentCost, e: string)
    ensures EquipmentCostOf(costs + [c], e) == EquipmentCostOf(costs, e) + (if c.equipmentId == e then c.value else 0)
  {
    assert (costs + [c])[..|costs + [c]| - 1] == costs;
  }

  /** A cost booked against an id that matches no equipment counts in the total
      of costs but leaves every row of the equipment table as it was. */
  lemma DanglingCost(equipment: seq<Equipment>, rdos: seq<RDO>, costs: seq<EquipmentCost>, c: EquipmentCost)
    requires forall eq :: eq in equipment ==> eq.id != c.equipmentId
    ensures HealthRows(equipment, rdos, costs + [c]) == HealthRows(equipment, rdos, costs)
    ensures Sum(costs + [c], CostValue) == Sum(costs, CostValue) + c.value
  {
    forall k | 0 <= k < |equipment|
      ensures EquipmentCostOf(costs + [c], equipment[k].id) == EquipmentCostOf(costs, equipment[k].id)
    {
      EquipmentCostAppendOne(costs, c, equipment[k].id);
      assert equipment[k] in equipment;
    }
    assert (costs + [c])[..|costs + [c]| - 1] == costs;
  }

  // ---------------------------------------------------------------------------
  // Seed data (services/dataService.ts:13-47), prices in cents
  // ---------------------------------------------------------------------------

  const SeedEquipment: seq<Equipment> := [
    Equipment("eq1", "EQ-001", "Escavadeira CAT 320", "Linha Amarela", GrupoDr, "c1"),
    Equipment("eq2", "EQ-002", "Caminhão Basculante", "Transporte", GrupoDr, "c1"),
    Equipment("eq3", "EQ-999", "Gerador 500kVA", "Energia", Terceiro, "c2")
  ]

  const SeedIndices: seq<ContractIndex> := [
    ContractIndex("idx1", "R-1001", "Locação Escavadeira (Hora)", "H", Rental, 25000, 1000, 25000000, "p1", 0, "2023-01-01"),
    ContractIndex("idx2", "R-1002", "Locação Caminhão (Diária)", "D", Rental, 120000, 200, 24000000, "p1", 0, "2023-01-01"),
    ContractIndex("idx3", "C-5001", "Escavação de Solo 1ª Cat", "m3", Construtora, 4500, 50000, 225000000, "p1", 1, "2023-06-01"),
    ContractIndex("idx4", "C-5002", "Aterro Compactado", "m3", Construtora, 6550, 30000, 196500000, "p1", 0, "2023-01-01")
  ]

  const SeedCosts: seq<EquipmentCost> := [
    EquipmentCost("cost1", "eq1", Manutencao, 500000, "2023-05-10", "Troca de óleo e filtros"),
    EquipmentCost("cost2", "eq1", Ipva, 320000, "2023-01-15", "IPVA 2023")
  ]

  const SeedRdos: seq<RDO> := [
    RDO("rdo1", "p1", "2023-10-01", Approved, [
      RDOItem("item1", "rdo1", "idx1", Some("eq1"), 8, 25000, 200000),
      RDOItem("item2", "rdo1", "idx3", None, 200, 4200, 840000),
      RDOItem("item3", "rdo1", "idx2", Some("eq2"), 1, 120000, 120000)
    ], 1250000)
  ]

  /** Each seed line resolves to the seed index it names. */
  lemma SeedLookups()
    ensures FindIndex(SeedIndices, "idx1") == Some(SeedIndices[0])
    ensures FindIndex(SeedIndices, "idx2") == Some(SeedIndices[1])
    ensures FindIndex(SeedIndices, "idx3") == Some(SeedIndices[2])
  {
    var s := SeedIndices;
    assert s[0].id == "idx1" && s[1].id == "idx2" && s[2].id == "idx3";
    assert "idx1"[3] != "idx2"[3] && "idx1"[3] != "idx3"[3] && "idx2"[3] != "idx3"[3];
    assert s[1..][0] == s[1] && s[1..][1..][0] == s[2];
  }

  lemma SeedItemBuckets()
    ensures BucketValue(SeedRdos[0].items[0], SeedIndices, true) == 200000
    ensures BucketValue(SeedRdos[0].items[0], SeedIndices, false) == 0
    ensures BucketValue(SeedRdos[0].items[1], SeedIndices, true) == 0
    ensures BucketValue(SeedRdos[0].items[1], SeedIndices, false) == 840000
    ensures BucketValue(SeedRdos[0].items[2], SeedIndices, true) == 120000
    ensures BucketValue(SeedRdos[0].items[2], SeedIndices, false) == 0
  {
    SeedLookups();
  }

  lemma ItemsRevenueOfThree(a: RDOItem, b: RDOItem, c: RDOItem, indices: seq<ContractIndex>, rental: bool)
    ensures ItemsRevenue([a, b, c], indices, rental)
         == BucketValue(a, indices, rental) + BucketValue(b, indices, rental) + BucketValue(c, indices, rental)
  {
    assert [a, b, c][..2] == [a, b] && [a, b][..1] == [a] && [a][..0] == [];
    assert ItemsRevenue([a], indices, rental) == BucketValue(a, indices, rental);
    assert ItemsRevenue([a, b], indices, rental) == BucketValue(a, indices, rental) + BucketValue(b, indices, rental);
  }

  lemma SeedItemsRevenue(rental: bool)
    ensures ItemsRevenue(SeedRdos[0].items, SeedIndices, rental) == if rental then 320000 else 840000
  {
    var items := SeedRdos[0].items;
    SeedItemBuckets();
    assert items == [items[0], items[1], items[2]];
    ItemsRevenueOfThree(items[0], items[1], items[2], SeedIndices, rental);
  }

  /** The seeded report stores a daily total of 12500.00 while its items resolve to
      11600.00: the dashboard's total revenue is the stored figure, not the item sum. */
  lemma SeedRevenueIsStored()
    ensures Sum(SeedRdos, DailyValue) == 1250000
    ensures Revenue(SeedRdos, SeedIndices, true) == 320000
    ensures Revenue(SeedRdos, SeedIndices, false) == 840000
    ensures ResolvedRevenue(SeedRdos, SeedIndices) == 1160000
  {
    assert SeedRdos[..0] == [];
    SeedItemsRevenue(true);
    SeedItemsRevenue(false);
    RevenueSplit(SeedRdos, SeedIndices);
  }

  // ---------------------------------------------------------------------------
  // The store
  // ---------------------------------------------------------------------------

  class DataStore {
    var equipment: seq<Equipment>
    var indices: seq<ContractIndex>
    var costs: seq<EquipmentCost>
    var rdos: seq<RDO>

    /** The store as seeded at module load. */
    constructor ()
      ensures equipment == SeedEquipment && indices == SeedIndices
      ensures costs == SeedCosts && rdos == SeedRdos
    {
      equipment := SeedEquipment;
      indices := SeedIndices;
      costs := SeedCosts;
      rdos := SeedRdos;
    }

    /** `getIndices`: the project's indices, in store order. */
    function GetIndices(projectId: string): (r: seq<ContractIndex>)
      reads this
      ensures forall x :: x in r <==> x in indices && x.projectId == projectId
      ensures forall k :: 0 <= k < |r| ==> r[k].projectId == projectId
      ensures Subsequence(r, indices)
      ensures forall x :: multiset(r)[x] == if x.projectId == projectId then multiset(indices)[x] else 0
    {
      var keep := (i: ContractIndex) => i.projectId == projectId;
      FilterSubsequence(indices, keep);
      FilterCount(indices, keep);
      Filter(indices, keep)
    }

    /** `getRDOs`: the project's reports, in store order. */
    function GetRDOs(projectId: string): (r: seq<RDO>)
      reads this
      ensures forall x :: x in r <==> x in rdos && x.projectId == projectId
      ensures forall k :: 0 <= k < |r| ==> r[k].projectId == projectId
      ensures Subsequence(r, rdos)
      ensures forall x :: multiset(r)[x] == if x.projectId == projectId then multiset(rdos)[x] else 0
    {
      var keep := (r: RDO) => r.projectId == projectId;
      FilterSubsequence(rdos, keep);
      FilterCount(rdos, keep);
      Filter(rdos, keep)
    }

    /** `saveRDO`: appends the report as given; no lookup by id, no re-pricing. */
    method SaveRDO(rdo: RDO)
      modifies this`rdos
      ensures rdos == old(rdos) + [rdo]
      ensures |rdos| == |old(rdos)| + 1 && rdos[..|old(rdos)|] == old(rdos)
    {
      rdos := rdos + [rdo];
    }

    /** `getDashboardMetrics`: reads the store and changes nothing (no modifies clause). */
    method GetDashboardMetrics(projectId: string) returns (m: DashboardMetrics)
      ensures m.totalRevenue == Sum(GetRDOs(projectId), DailyValue)
      ensures m.rentalRevenue == Revenue(GetRDOs(projectId), GetIndices(projectId), true)
      ensures m.constructionRevenue == Revenue(GetRDOs(projectId), GetIndices(projectId), false)
      ensures m.rentalRevenue + m.constructionRevenue == ResolvedRevenue(GetRDOs(projectId), GetIndices(projectId))
      ensures m.totalCosts == Sum(costs, CostValue)
      ensures |m.equipmentHealth| == |equipment|
      ensures multiset(m.equipmentHealth) == multiset(HealthRows(equipment, GetRDOs(projectId), costs))
      ensures NonIncreasing(m.equipmentHealth)
    {
      var relevantRDOs := GetRDOs(projectId);
      var relevantIndices := GetIndices(projectId);
      var totalRevenue, rentalRevenue, constructionRevenue, eqRevenueMap := FoldReports(relevantRDOs, relevantIndices);
      var eqCostsMap, totalCosts := FoldCosts(costs);
      var rows := MergeHealth(equipment, eqRevenueMap, eqCostsMap, relevantRDOs, costs);
      RevenueSplit(relevantRDOs, relevantIndices);
      m := DashboardMetrics(totalRevenue, rentalRevenue, constructionRevenue, totalCosts, SortByRevenue(rows));
    }
  }

  /** The `relevantRDOs.forEach` loop of getDashboardMetrics: accumulates the stored
      daily totals, the two revenue buckets and the revenue per equipment id. */
  method FoldReports(relevantRDOs: seq<RDO>, relevantIndices: seq<ContractIndex>)
    returns (totalRevenue: int, rentalRevenue: int, constructionRevenue: int, eqRevenueMap: map<string, int>)
    ensures totalRevenue == Sum(relevantRDOs, DailyValue)
    ensures rentalRevenue == Revenue(relevantRDOs, relevantIndices, true)
    ensures constructionRevenue == Revenue(relevantRDOs, relevantIndices, false)
    ensures forall e :: Lookup(eqRevenueMap, e) == EquipmentRevenue(relevantRDOs, e)
  {
    totalRevenue, rentalRevenue, constructionRevenue := 0, 0, 0;
    eqRevenueMap := map[];
    var i := 0;
    while i < |relevantRDOs|
      invariant 0 <= i <= |relevantRDOs|
      invariant totalRevenue == Sum(relevantRDOs[..i], DailyValue)
      invariant rentalRevenue == Revenue(relevantRDOs[..i], relevantIndices, true)
      invariant constructionRevenue == Revenue(relevantRDOs[..i], relevantIndices, false)
      invariant forall e :: Lookup(eqRevenueMap, e) == EquipmentRevenue(relevantRDOs[..i], e)
    {
      var rdo := relevantRDOs[i];
      SumPrefix(relevantRDOs, i, DailyValue);
      totalRevenue := totalRevenue + rdo.totalDailyValue;
      var items := rdo.items;
      var j := 0;
      while j < |items|
        invariant 0 <= j <= |items|
        invariant rentalRevenue == Revenue(relevantRDOs[..i], relevantIndices, true) + ItemsRevenue(items[..j], relevantIndices, true)
        invariant constructionRevenue == Revenue(relevantRDOs[..i], relevantIndices, false) + ItemsRevenue(items[..j], relevantIndices, false)
        invariant forall e :: Lookup(eqRevenueMap, e) == EquipmentRevenue(relevantRDOs[..i], e) + ItemsEquipmentRevenue(items[..j], e)
      {
        var item := items[j];
        assert items[..j + 1][..j] == items[..j];
        var idx := FindIndex(relevantIndices, item.indexId);
        if idx.Some? {
          if idx.value.indexType == Rental {
            rentalRevenue := rentalRevenue + item.totalValue;
          } else {
            constructionRevenue := constructionRevenue + item.totalValue;
          }
        }
        if item.equipmentId.Some? && item.equipmentId.value != "" {
          var key := item.equipmentId.value;
          eqRevenueMap := eqRevenueMap[key := Lookup(eqRevenueMap, key) + item.totalValue];
        }
        j := j + 1;
      }
      assert items[..j] == items;
      assert relevantRDOs[..i + 1][..i] == relevantRDOs[..i];
      i := i + 1;
    }
    assert relevantRDOs[..i] == relevantRDOs;
  }

  /** The `COSTS.forEach` loop of getDashboardMetrics: every cost counts in the total,
      and in the entry of its equipment id whether or not that equipment exists. */
  method FoldCosts(costs: seq<EquipmentCost>) returns (eqCostsMap: map<string, int>, totalCosts: int)
    ensures totalCosts == Sum(costs, CostValue)
    ensures forall e :: Lookup(eqCostsMap, e) == EquipmentCostOf(costs, e)
  {
    eqCostsMap := map[];
    totalCosts := 0;
    var k := 0;
    while k < |costs|
      invariant 0 <= k <= |costs|
      invariant totalCosts == Sum(costs[..k], CostValue)
      invariant forall e :: Lookup(eqCostsMap, e) == EquipmentCostOf(costs[..k], e)
    {
      var cost := costs[k];
      SumPrefix(costs, k, CostValue);
      assert costs[..k + 1][..k] == costs[..k];
      eqCostsMap := eqCostsMap[cost.equipmentId := Lookup(eqCostsMap, cost.equipmentId) + cost.value];
      totalCosts := totalCosts + cost.value;
      k := k + 1;
    }
    assert costs[..k] == costs;
  }

  /** The `EQUIPMENT.map` of getDashboardMetrics: one row per equipment, missing
      entries read as 0. */
  method MergeHealth(equipment: seq<Equipment>, eqRevenueMap: map<string, int>, eqCostsMap: map<string, int>,
                     ghost rdos: seq<RDO>, ghost costs: seq<EquipmentCost>)
    returns (rows: seq<HealthRow>)
    requires forall e :: Lookup(eqRevenueMap, e) == EquipmentRevenue(rdos, e)
    requires forall e :: Lookup(eqCostsMap, e) == EquipmentCostOf(costs, e)
    ensures rows == HealthRows(equipment, rdos, costs)
  {
    rows := seq(|equipment|, n requires 0 <= n < |equipment| =>
      HealthRow(equipment[n].name,
                Lookup(eqRevenueMap, equipment[n].id),
                Lookup(eqCostsMap, equipment[n].id),
                Lookup(eqRevenueMap, equipment[n].id) - Lookup(eqCostsMap, equipment[n].id)));
    var spec := HealthRows(equipment, rdos, costs);
    forall n | 0 <= n < |equipment| ensures rows[n] == spec[n] {
      assert Lookup(eqRevenueMap, equipment[n].id) == EquipmentRevenue(rdos, equipment[n].id);
      assert Lookup(eqCostsMap, equipment[n].id) == EquipmentCostOf(costs, equipment[n].id);
    }
  }
}
