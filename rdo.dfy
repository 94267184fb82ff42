/**
 * Daily-report (RDO) entry of components/RDOModule.tsx: the item list the
 * operator edits, the price freeze that copies an index's current price into an
 * item when the index is selected, the line-total recomputation and the guarded
 * save that appends the report to the store.
 */
module Rdo {
  import opened Types
  import opened Seqs
  import opened DataService

  /** The three edits the item table sends through `updateItem(id, field, value)`:
      the index select, the equipment select and the quantity input. */
  datatype Edit = SetIndex(indexId: string) | SetEquipment(equipmentId: string) | SetQuantity(quantity: int)

  /** The line total agrees with the quantity and the frozen price. */
  predicate Consistent(it: RDOItem)
  {
    it.totalValue == it.quantity * it.frozenPrice
  }

  ghost predicate AllConsistent(items: seq<RDOItem>)
  {
    forall k :: 0 <= k < |items| ==> Consistent(items[k])
  }

  /** quantity * frozenPrice: what a line is worth by its own fields. */
  function LineValue(it: RDOItem): int { it.quantity * it.frozenPrice }

  /** `addItem`: the new line has no index, no equipment, quantity, price and total 0. */
  function AppendBlank(items: seq<RDOItem>, id: string): (r: seq<RDOItem>)
    ensures |r| == |items| + 1 && r[..|items|] == items
    ensures r[|items|].id == id && r[|items|].rdoId == "" && r[|items|].indexId == ""
    ensures r[|items|].equipmentId == None
    ensures r[|items|].quantity == 0 && r[|items|].frozenPrice == 0 && r[|items|].totalValue == 0
    ensures AllConsistent(items) ==> AllConsistent(r)
  {
    items + [RDOItem(id, "", "", None, 0, 0, 0)]
  }

  /** The body of the `prev.map` in `updateItem` for a matching line. */
  function ApplyEdit(item: RDOItem, indices: seq<ContractIndex>, edit: Edit): (r: RDOItem)
    ensures r.id == item.id && r.rdoId == item.rdoId
    // selecting an index copies its current price, or keeps the old one if the id is unknown
    ensures edit.SetIndex? ==> r.indexId == edit.indexId && r.quantity == item.quantity && r.equipmentId == item.equipmentId
    ensures edit.SetIndex? && FindIndex(indices, edit.indexId).Some? ==>
              r.frozenPrice == FindIndex(indices, edit.indexId).value.currentPrice
    ensures edit.SetIndex? && FindIndex(indices, edit.indexId).None? ==> r.frozenPrice == item.frozenPrice
    // no other edit touches the index or the price
    ensures !edit.SetIndex? ==> r.indexId == item.indexId && r.frozenPrice == item.frozenPrice
    ensures edit.SetQuantity? ==> r.quantity == edit.quantity && r.equipmentId == item.equipmentId
    ensures edit.SetEquipment? ==> r.equipmentId == Some(edit.equipmentId) && r.quantity == item.quantity && r.totalValue == item.totalValue
    // index and quantity edits recompute the total; an equipment edit keeps a consistent line consistent
    ensures !edit.SetEquipment? ==> Consistent(r)
    ensures Consistent(item) ==> Consistent(r)
  {
    match edit
    case SetIndex(v) =>
      var price := match FindIndex(indices, v) case Some(x) => x.currentPrice case None => item.frozenPrice;
      item.(indexId := v, frozenPrice := price, totalValue := item.quantity * price)
    case SetEquipment(e) =>
      item.(equipmentId := Some(e))
    case SetQuantity(q) =>
      item.(quantity := q, totalValue := q * item.frozenPrice)
  }

  /** `updateItem`: every line with the given id is edited, all others stay as they are. */
  function UpdateItems(items: seq<RDOItem>, indices: seq<ContractIndex>, id: string, edit: Edit): (r: seq<RDOItem>)
    ensures |r| == |items|
    ensures forall k :: 0 <= k < |items| ==> r[k].id == items[k].id
    ensures forall k :: 0 <= k < |items| && items[k].id != id ==> r[k] == items[k]
    ensures forall k :: 0 <= k < |items| && items[k].id == id ==> r[k] == ApplyEdit(items[k], indices, edit)
    ensures AllConsistent(items) ==> AllConsistent(r)
  {
    seq(|items|, k requires 0 <= k < |items| =>
      if items[k].id != id then items[k] else ApplyEdit(items[k], indices, edit))
  }

  /** `removeItem`: drops every line with the id and keeps the rest in order. */
  function RemoveItems(items: seq<RDOItem>, id: string): (r: seq<RDOItem>)
    ensures forall x :: x in r <==> x in items && x.id != id
    ensures AllConsistent(items) ==> AllConsistent(r)
    ensures Subsequence(r, items)
    ensures forall x :: multiset(r)[x] == if x.id != id then multiset(items)[x] else 0
  {
    var keep := (it: RDOItem) => it.id != id;
    FilterSubsequence(items, keep);
    FilterCount(items, keep);
    var r := Filter(items, keep);
    assert forall k :: 0 <= k < |r| ==> r[k] in items;
    r
  }

  /** The daily total of consistent lines is the sum of quantity times frozen price. */
  lemma {:induction false} GrandTotalOfConsistent(items: seq<RDOItem>)
    requires AllConsistent(items)
    ensures Sum(items, ItemTotal) == Sum(items, LineValue)
    decreases |items|
  {
    if items != [] {
      GrandTotalOfConsistent(items[..|items| - 1]);
      assert Consistent(items[|items| - 1]);
    }
  }

  /** A new blank line does not change the daily total. */
  lemma AppendBlankKeepsTotal(items: seq<RDOItem>, id: string)
    ensures Sum(AppendBlank(items, id), ItemTotal) == Sum(items, ItemTotal)
  {
    var r := AppendBlank(items, id);
    assert r[..|r| - 1] == items;
  }

  // ---------------------------------------------------------------------------
  // The price freeze over a history of edits
  // ---------------------------------------------------------------------------

  /** One call of `updateItem`, with the index list the screen held at that moment. */
  datatype Step = Step(indices: seq<ContractIndex>, id: string, edit: Edit)

  function Replay(items: seq<RDOItem>, steps: seq<Step>): (r: seq<RDOItem>)
    ensures |r| == |items|
    decreases |steps|
  {
    if steps == [] then items
    else Replay(UpdateItems(items, steps[0].indices, steps[0].id, steps[0].edit), steps[1..])
  }

  /** A step re-reads a price for the line with this id: it selects an index known at that moment. */
  predicate Refreezes(step: Step, itemId: string)
  {
    step.id == itemId && step.edit.SetIndex? && FindIndex(step.indices, step.edit.indexId).Some?
  }

  /** Price freeze: whatever the index lists held at each step (prices revised or not),
      a line's frozen price changes only through a step that selects a known index for it. */
  lemma {:induction false} FrozenPriceKept(items: seq<RDOItem>, steps: seq<Step>, k: nat)
    requires k < |items|
    requires forall j :: 0 <= j < |steps| ==> !Refreezes(steps[j], items[k].id)
    ensures Replay(items, steps)[k].id == items[k].id
    ensures Replay(items, steps)[k].frozenPrice == items[k].frozenPrice
    decreases |steps|
  {
    if steps != [] {
      var next := UpdateItems(items, steps[0].indices, steps[0].id, steps[0].edit);
      assert !Refreezes(steps[0], items[k].id);
      assert next[k].frozenPrice == items[k].frozenPrice;
      assert forall j :: 0 <= j < |steps[1..]| ==> steps[1..][j] == steps[j + 1];
      FrozenPriceKept(next, steps[1..], k);
    }
  }

  /** Line totals stay consistent along any history of edits. */
  lemma {:induction false} ReplayConsistent(items: seq<RDOItem>, steps: seq<Step>)
    requires AllConsistent(items)
    ensures AllConsistent(Replay(items, steps))
    decreases |steps|
  {
    if steps != [] {
      ReplayConsistent(UpdateItems(items, steps[0].indices, steps[0].id, steps[0].edit), steps[1..]);
    }
  }

  /** The 42.00 -> 45.00 revision scenario: a line frozen at 42.00 for 200 units keeps
      42.00 and 8400.00 when the index list is reloaded at 45.00, and a new line that
      selects the index afterwards freezes at 45.00. */
  lemma RevisionScenario(x: ContractIndex, line: string, newLine: string)
    requires x.id == "idx3" && x.currentPrice == 4200 && line != newLine
    ensures
      var before := [x];
      var after := [x.(currentPrice := 4500, revision := x.revision + 1)];
      var items := UpdateItems(UpdateItems(AppendBlank([], line), before, line, SetQuantity(200)),
                               before, line, SetIndex("idx3"));
      var later := UpdateItems(AppendBlank(items, newLine), after, newLine, SetIndex("idx3"));
      && items[0].frozenPrice == 4200 && items[0].totalValue == 840000
      && UpdateItems(items, after, line, SetQuantity(200)) == items
      && later[0] == items[0] && later[1].frozenPrice == 4500
  {
    var before := [x];
    var after := [x.(currentPrice := 4500, revision := x.revision + 1)];
    assert FindIndex(before, "idx3") == Some(x);
    assert FindIndex(after, "idx3") == Some(after[0]);
    var blank := AppendBlank([], line);
    var q := UpdateItems(blank, before, line, SetQuantity(200));
    assert q[0].quantity == 200 && q[0].frozenPrice == 0;
    var items := UpdateItems(q, before, line, SetIndex("idx3"));
    assert items[0].frozenPrice == 4200 && items[0].totalValue == 840000;
    var again := UpdateItems(items, after, line, SetQuantity(200));
    assert again[0] == items[0];
    assert again == items;
    var later := UpdateItems(AppendBlank(items, newLine), after, newLine, SetIndex("idx3"));
    assert AppendBlank(items, newLine)[1].id == newLine;
    assert later[1].frozenPrice == 4500;
  }

  // ---------------------------------------------------------------------------
  // The screen's state
  // ---------------------------------------------------------------------------

  class RdoEditor {
    var selectedProject: string
    var rdoDate: string
    var indices: seq<ContractIndex>
    var items: seq<RDOItem>

    /** Every line's total agrees with its quantity and frozen price. */
    ghost predicate Valid()
      reads this
    {
      AllConsistent(items)
    }

    /** A fresh screen: no project, the given date, no indices, no lines. */
    constructor (today: string)
      ensures Valid()
      ensures selectedProject == "" && rdoDate == today && indices == [] && items == []
    {
      selectedProject := "";
      rdoDate := today;
      indices := [];
      items := [];
    }

    /** Choosing a project reloads its indices (when one is chosen); the lines already
        entered keep their frozen prices and totals. */
    method SelectProject(store: DataStore, p: string)
      requires Valid()
      modifies this`selectedProject, this`indices
      ensures Valid()
      ensures selectedProject == p
      ensures indices == if p != "" then store.GetIndices(p) else old(indices)
      ensures items == old(items)
    {
      selectedProject := p;
      if p != "" {
        indices := store.GetIndices(p);
      }
    }

    method SetDate(date: string)
      modifies this`rdoDate
      ensures rdoDate == date
    {
      rdoDate := date;
    }

    method AddItem(id: string)
      requires Valid()
      modifies this`items
      ensures Valid()
      ensures items == AppendBlank(old(items), id)
    {
      items := AppendBlank(items, id);
    }

    method UpdateItem(id: string, edit: Edit)
      requires Valid()
      modifies this`items
      ensures Valid()
      ensures items == UpdateItems(old(items), indices, id, edit)
    {
      items := UpdateItems(items, indices, id, edit);
    }

    method RemoveItem(id: string)
      requires Valid()
      modifies this`items
      ensures Valid()
      ensures items == RemoveItems(old(items), id)
    {
      items := RemoveItems(items, id);
    }

    /** `grandTotal`: the sum of the line totals on screen. */
    function GrandTotal(): (t: int)
      reads this
      requires Valid()
      ensures t == Sum(items, LineValue)
    {
      GrandTotalOfConsistent(items);
      Sum(items, ItemTotal)
    }

    /** `handleSave`: without a project or without lines nothing happens; otherwise the
        report is appended to the store as APPROVED with the lines verbatim and the
        on-screen grand total, and the line list is emptied. */
    method HandleSave(store: DataStore, id: string)
      requires Valid()
      modifies this`items, store`rdos
      ensures Valid()
      ensures old(selectedProject) == "" || old(items) == [] ==>
                items == old(items) && store.rdos == old(store.rdos)
      ensures old(selectedProject) != "" && old(items) != [] ==>
                && store.rdos == old(store.rdos) + [RDO(id, selectedProject, rdoDate, Approved, old(items), old(GrandTotal()))]
                && AllConsistent(store.rdos[|store.rdos| - 1].items)
                && items == []
    {
      if selectedProject == "" || |items| == 0 {
        return;
      }
      var rdo := RDO(id, selectedProject, rdoDate, Approved, items, Sum(items, ItemTotal));
      store.SaveRDO(rdo);
      items := [];
    }
  }
}
