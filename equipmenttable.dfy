/** The equipment list: one row per equipment with its type badge and stock status. */
module EquipmentTable {
  import opened Wrappers
  import opened Types
  import opened Strings

  datatype StockStatus = LowStock | InStock

  datatype BadgeColour = Blue | Green

  datatype EquipmentRowView = EquipmentRowView(
    id: string,
    name: string,
    typeName: string,
    badge: BadgeColour,
    available: int,
    total: int,
    threshold: int,
    location: string,
    status: StockStatus,
    /** The delete button's disabled flag, when the table has an actions column. */
    deleteDisabled: Option<bool>)

  datatype TableView = NothingFound(colSpan: nat) | Rows(rows: seq<EquipmentRowView>)

  /** `getStockStatus`: at or below the threshold is low. */
  function StockStatusOf(available: int, threshold: int): (r: StockStatus)
    ensures r == LowStock <==> available <= threshold
    ensures r == InStock <==> available > threshold
  {
    if available <= threshold then LowStock else InStock
  }

  /** Fewer units, or a higher threshold, never turn a low-stock equipment into one in stock. */
  lemma LowStockMonotonic(available: int, threshold: int, fewer: int, higher: int)
    requires StockStatusOf(available, threshold) == LowStock
    requires fewer <= available && threshold <= higher
    ensures StockStatusOf(fewer, higher) == LowStock
  {
  }

  /** `getTypeBadge`'s colour: blue for `'electrical'`, green for any other type. */
  function TypeBadge(typeName: string): (r: BadgeColour)
    ensures r == Blue <==> typeName == "electrical"
  {
    if typeName == "electrical" then Blue else Green
  }

  /** Of the two equipment types, electrical shows blue and manual green. */
  lemma BadgeOfEachType()
    ensures TypeBadge(Electrical.Name()) == Blue && TypeBadge(Manual.Name()) == Green
  {
  }

  /** The column headers; Actions only when deleting is offered. */
  function Headers(hasDelete: bool): (r: seq<string>)
    ensures |r| == if hasDelete then 9 else 8
    ensures r[..8] == ["Name", "Type", "Available", "Total", "Threshold", "Price", "Location", "Status"]
  {
    ["Name", "Type", "Available", "Total", "Threshold", "Price", "Location", "Status"]
    + (if hasDelete then ["Actions"] else [])
  }

  function EquipmentRow(e: Equipment, hasDelete: bool, deleting: Option<string>): EquipmentRowView {
    EquipmentRowView(e.id, e.name, e.kind.Name(), TypeBadge(e.kind.Name()),
                     e.quantityAvailable, e.quantityTotal, e.minimumThreshold,
                     StringOr(e.location, "N/A"), StockStatusOf(e.quantityAvailable, e.minimumThreshold),
                     if hasDelete then Some(deleting == Some(e.id)) else None)
  }

  /** The table body: one "No equipments found" cell across every column, or one row per equipment in order. */
  function Render(equipments: seq<Equipment>, hasDelete: bool, deleting: Option<string>): (r: TableView)
    ensures r.NothingFound? <==> equipments == []
    ensures r.NothingFound? ==> r.colSpan == |Headers(hasDelete)|
    ensures r.Rows? ==> |r.rows| == |equipments|
    ensures r.Rows? ==> forall i :: 0 <= i < |equipments| ==> r.rows[i] == EquipmentRow(equipments[i], hasDelete, deleting)
  {
    if |equipments| == 0 then NothingFound(if hasDelete then 9 else 8)
    else Rows(seq(|equipments|, i requires 0 <= i < |equipments| => EquipmentRow(equipments[i], hasDelete, deleting)))
  }

  /**
   * What a row shows of its equipment: the location or "N/A", the status by
   * the threshold, and an actions cell exactly when deleting is offered,
   * disabled only for the equipment being deleted.
   */
  lemma RowShows(equipments: seq<Equipment>, hasDelete: bool, deleting: Option<string>, i: int)
    requires 0 <= i < |equipments|
    ensures var v := Render(equipments, hasDelete, deleting);
            var e := equipments[i];
            && v.Rows?
            && (v.rows[i].location == "N/A" <==> e.location.None? || e.location.value == "" || e.location.value == "N/A")
            && (v.rows[i].status == LowStock <==> e.quantityAvailable <= e.minimumThreshold)
            && (v.rows[i].deleteDisabled.Some? <==> hasDelete)
            && (hasDelete ==> (v.rows[i].deleteDisabled.value <==> deleting == Some(e.id)))
  {
  }
}
