/**
 * The records of the construction-contract dashboard. Amounts of money are
 * integers in cents and quantities are integers; identifiers and dates are
 * strings, as in the source.
 */
module Types {

  datatype Option<T> = None | Some(value: T)

  /** Contract index type: rental (RENTAL) or construction (CONSTRUTORA). */
  datatype IndexType = Rental | Construtora

  datatype EquipmentOwner = GrupoDr | Terceiro

  datatype CostType = Manutencao | Seguro | Ipva | LocacaoExterna

  /** A fleet asset. */
  datatype Equipment = Equipment(
    id: string,
    internalCode: string,
    name: string,
    category: string,
    owner: EquipmentOwner,
    responsibleCompanyId: string)

  /** A billable contract line with its current unit price. */
  datatype ContractIndex = ContractIndex(
    id: string,
    codeSAP: string,
    description: string,
    unit: string,
    indexType: IndexType,
    currentPrice: int,
    totalQuantity: int,
    totalValue: int,
    projectId: string,
    revision: int,
    lastRevisionDate: string)

  /** A dated expense against an equipment id (which may no longer exist). */
  datatype EquipmentCost = EquipmentCost(
    id: string,
    equipmentId: string,
    costType: CostType,
    value: int,
    date: string,
    description: string)

  /** One line of a daily report; frozenPrice is the unit price copied when the index was chosen. */
  datatype RDOItem = RDOItem(
    id: string,
    rdoId: string,
    indexId: string,
    equipmentId: Option<string>,
    quantity: int,
    frozenPrice: int,
    totalValue: int)

  /** The stored total of an item: what every sum over items adds up. */
  function ItemTotal(it: RDOItem): int { it.totalValue }

  datatype RDOStatus = Draft | Approved

  /** A daily report (RDO). */
  datatype RDO = RDO(
    id: string,
    projectId: string,
    date: string,
    status: RDOStatus,
    items: seq<RDOItem>,
    totalDailyValue: int)

  /** One row of the dashboard's equipment table; equipmentId holds the equipment's name. */
  datatype HealthRow = HealthRow(equipmentId: string, revenue: int, cost: int, margin: int)

  datatype DashboardMetrics = DashboardMetrics(
    totalRevenue: int,
    rentalRevenue: int,
    constructionRevenue: int,
    totalCosts: int,
    equipmentHealth: seq<HealthRow>)

  /** Monthly plan records: only the fields the planning screen reads and writes. */
  datatype PlanItem = PlanItem(indexId: string, plannedQuantity: int, totalValue: int)

  datatype FleetStatus = Ativo | Mobilizacao | Desmobilizacao

  datatype PlanEquipment = PlanEquipment(
    equipmentId: string,
    status: FleetStatus,
    targetProductive: int,
    targetUnproductive: int,
    estimatedCost: int)

  datatype MonthlyPlan = MonthlyPlan(
    id: string,
    projectId: string,
    month: int,
    year: int,
    items: seq<PlanItem>,
    fleet: seq<PlanEquipment>,
    totalValue: int)

  /** Measurement bulletin records: only the fields the measurement screen fills in. */
  datatype MeasurementItem = MeasurementItem(
    codeSAP: string,
    description: string,
    unit: string,
    unitPrice: int,
    measuredQuantity: int,
    measuredValue: int)

  datatype MeasurementBulletin = MeasurementBulletin(
    id: string,
    projectId: string,
    referenceDate: string,
    bulletinType: IndexType,
    items: seq<MeasurementItem>,
    totalValue: int,
    uploadDate: string,
    fileName: string)

  /** The first index carrying the given id, or None when no index carries it. */
  function FindIndex(indices: seq<ContractIndex>, id: string): (r: Option<ContractIndex>)
    ensures r.Some? ==> r.value in indices && r.value.id == id
    ensures r.Some? ==> exists k :: 0 <= k < |indices| && indices[k] == r.value &&
                          forall j :: 0 <= j < k ==> indices[j].id != id
    ensures r.None? <==> forall x :: x in indices ==> x.id != id
  {
    if indices == [] then None
    else if indices[0].id == id then Some(indices[0])
    else FindIndex(indices[1..], id)
  }
}
