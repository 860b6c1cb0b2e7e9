/** The stock-movement history: one row per movement, with the equipment's name looked up by id. */
module HistoryTable {
  import opened Wrappers
  import opened Types
  import opened Strings

  datatype MovementRowView = MovementRowView(
    equipmentName: string,
    quantity: int,
    movementLabel: string,
    receiver: string,
    orderReference: string)

  datatype HistoryView = Loading | NoMovements | Rows(rows: seq<MovementRowView>)

  /** An id cut to its first eight characters and marked with "...". */
  function Shortened(id: string): (r: string)
    ensures 3 <= |r| <= 11 && r[|r| - 3..] == "..."
    ensures r == Take(id, 8) + "..."
  {
    Take(id, 8) + "..."
  }

  /** `getEquipmentName`: the name of the first equipment with the id when it is non-empty, else the shortened id. */
  function EquipmentName(equipments: seq<Equipment>, equipmentId: string): (r: string)
    ensures var found := FindEquipment(equipments, equipmentId);
            if found.Some? && found.value.name != "" then r == found.value.name else r == Shortened(equipmentId)
  {
    var found := FindEquipment(equipments, equipmentId);
    if found.Some? && found.value.name != "" then found.value.name else Shortened(equipmentId)
  }

  /** A known, named equipment is shown by the name at its first position; an unknown id is shown shortened. */
  lemma EquipmentNameCases(equipments: seq<Equipment>, equipmentId: string)
    ensures forall k :: IsFirstWithId(equipments, equipmentId, k) && equipments[k].name != "" ==>
              EquipmentName(equipments, equipmentId) == equipments[k].name
    ensures (forall k :: 0 <= k < |equipments| ==> equipments[k].id != equipmentId) ==>
              EquipmentName(equipments, equipmentId) == Shortened(equipmentId)
  {
    forall k | IsFirstWithId(equipments, equipmentId, k) && equipments[k].name != ""
      ensures EquipmentName(equipments, equipmentId) == equipments[k].name
    {
      var found := FindEquipment(equipments, equipmentId);
      var j :| IsFirstWithId(equipments, equipmentId, j) && equipments[j] == found.value;
      assert j == k;
    }
  }

  /** `movement.type === 'OUT' ? 'OUT' : 'IN'`. */
  function MovementLabel(typeName: string): (r: string)
    ensures r == "OUT" <==> typeName == "OUT"
    ensures r != "OUT" ==> r == "IN"
  {
    if typeName == "OUT" then "OUT" else "IN"
  }

  /** Each movement type shows as its own name. */
  lemma MovementLabelOfEachType(kind: MovementType)
    ensures MovementLabel(kind.Name()) == kind.Name()
  {
  }

  /** `movement.related_order_id ? <first eight characters>... : '-'`. */
  function OrderReferenceText(relatedOrderId: Option<string>): (r: string)
    ensures relatedOrderId.Some? && relatedOrderId.value != "" ==> r == Shortened(relatedOrderId.value)
    ensures relatedOrderId.None? || relatedOrderId.value == "" ==> r == "-"
  {
    if relatedOrderId.Some? && relatedOrderId.value != "" then Shortened(relatedOrderId.value) else "-"
  }

  function MovementRow(m: StockMovement, equipments: seq<Equipment>): MovementRowView {
    MovementRowView(EquipmentName(equipments, m.equipmentId), m.quantity, MovementLabel(m.kind.Name()),
                    StringOr(m.receiverName, "-"), OrderReferenceText(m.relatedOrderId))
  }

  /** The table: the loading line first, then the empty message, else one row per movement in order. */
  function Render(movements: seq<StockMovement>, equipments: seq<Equipment>, loading: bool): (r: HistoryView)
    ensures r.Loading? <==> loading
    ensures r.NoMovements? <==> !loading && movements == []
    ensures r.Rows? ==> |r.rows| == |movements|
    ensures r.Rows? ==> forall i :: 0 <= i < |movements| ==> r.rows[i] == MovementRow(movements[i], equipments)
  {
    if loading then Loading
    else if |movements| == 0 then NoMovements
    else Rows(seq(|movements|, i requires 0 <= i < |movements| => MovementRow(movements[i], equipments)))
  }

  /** A missing or empty receiver shows as "-". */
  lemma ReceiverFallback(movements: seq<StockMovement>, equipments: seq<Equipment>, i: int)
    requires 0 <= i < |movements|
    requires movements[i].receiverName.None? || movements[i].receiverName.value == ""
    ensures var v := Render(movements, equipments, false); v.Rows? && v.rows[i].receiver == "-"
  {
  }
}
