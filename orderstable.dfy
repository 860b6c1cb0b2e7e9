/**
 * The orders list: one summary row per order, an expandable detail row with
 * the order's materials and receipt files, and an empty-state card when
 * there are no orders. Which orders are expanded is a set of order ids.
 */
module OrdersTable {
  import opened Wrappers
  import opened Types
  import opened Strings
  import ReceiptUpload

  /** An order material together with the equipment it refers to, when that is known. */
  datatype MaterialWithEquipment = MaterialWithEquipment(material: OrderMaterial, equipment: Option<Equipment>)

  datatype OrderWithMaterials = OrderWithMaterials(order: Order, materials: seq<MaterialWithEquipment>)

  /** One line of the expanded materials table. */
  datatype MaterialLineView = MaterialLineView(name: string, quantity: int, unit: string)

  /** The expanded part of a row: the notes when there are any, and the materials. */
  datatype OrderDetails = OrderDetails(notes: Option<string>, materials: seq<MaterialLineView>)

  datatype OrderRowView = OrderRowView(
    orderId: string,
    orderReference: string,
    generatorModel: string,
    receiverName: string,
    itemCount: nat,
    totalQuantity: int,
    deleteDisabled: bool,
    details: Option<OrderDetails>)

  datatype TableView = EmptyState | Rows(rows: seq<OrderRowView>)

  /** A receipt's size as the list shows it: unknown, or a number in a unit. */
  datatype SizeLabel = UnknownSize | InUnit(unit: ReceiptUpload.SizeUnit)

  /** The receipts part of an expanded order: still loading, nothing at all, or the files. */
  datatype AttachmentsView = LoadingReceipts | NoReceipts | Receipts(attachments: seq<OrderAttachment>)

  /** The set after `toggleExpand(id)`. */
  function Toggled(expanded: set<string>, id: string): (r: set<string>)
    ensures id in r <==> id !in expanded
    ensures forall other :: other != id ==> (other in r <==> other in expanded)
  {
    if id in expanded then expanded - {id} else expanded + {id}
  }

  /** Toggling the same order twice leaves the expanded set as it was. */
  lemma ToggleTwice(expanded: set<string>, id: string)
    ensures Toggled(Toggled(expanded, id), id) == expanded
  {
    var once := Toggled(expanded, id);
    var twice := Toggled(once, id);
    forall o ensures o in twice <==> o in expanded {
      if o == id {
        assert (o in twice) == (o !in once);
      }
    }
  }

  /** The component's `expandedOrders` state. */
  class ExpandedOrders {
    var expanded: set<string>

    constructor ()
      ensures expanded == {}
    {
      expanded := {};
    }

    /** `toggleExpand`: copy the set, flip the membership of `id` in the copy and store it. */
    method ToggleExpand(id: string)
      modifies this
      ensures expanded == Toggled(old(expanded), id)
    {
      var newExpanded := expanded;
      if id in newExpanded {
        newExpanded := newExpanded - {id};
      } else {
        newExpanded := newExpanded + {id};
      }
      expanded := newExpanded;
    }
  }

  /** `materials.reduce((sum, m) => sum + m.quantity, 0)`, folded from the left. */
  function TotalQuantity(materials: seq<MaterialWithEquipment>): (r: int)
    ensures materials == [] ==> r == 0
  {
    if materials == [] then 0
    else TotalQuantity(materials[..|materials| - 1]) + materials[|materials| - 1].material.quantity
  }

  /** The plain sum of the quantities, taken from the front. */
  function QuantitySum(materials: seq<MaterialWithEquipment>): int {
    if materials == [] then 0 else materials[0].material.quantity + QuantitySum(materials[1..])
  }

  lemma {:induction false} QuantitySumSnoc(materials: seq<MaterialWithEquipment>, m: MaterialWithEquipment)
    ensures QuantitySum(materials + [m]) == QuantitySum(materials) + m.material.quantity
    decreases |materials|
  {
    if materials == [] {
      assert [] + [m] == [m];
    } else {
      assert (materials + [m])[1..] == materials[1..] + [m];
      QuantitySumSnoc(materials[1..], m);
    }
  }

  /** The left fold is the sum of the quantities. */
  lemma {:induction false} TotalIsSum(materials: seq<MaterialWithEquipment>)
    ensures TotalQuantity(materials) == QuantitySum(materials)
    decreases |materials|
  {
    if materials != [] {
      var front := materials[..|materials| - 1];
      TotalIsSum(front);
      QuantitySumSnoc(front, materials[|materials| - 1]);
      assert front + [materials[|materials| - 1]] == materials;
    }
  }

  /** Splitting an order's materials splits its total. */
  lemma {:induction false} TotalAppend(a: seq<MaterialWithEquipment>, b: seq<MaterialWithEquipment>)
    ensures TotalQuantity(a + b) == TotalQuantity(a) + TotalQuantity(b)
    decreases |b|
  {
    if b == [] {
      assert a + b == a;
    } else {
      var front := b[..|b| - 1];
      TotalAppend(a, front);
      assert (a + b)[..|a + b| - 1] == a + front;
    }
  }

  /** Non-negative quantities give a non-negative total, at least each single quantity. */
  lemma {:induction false} TotalBounds(materials: seq<MaterialWithEquipment>)
    requires forall i :: 0 <= i < |materials| ==> materials[i].material.quantity >= 0
    ensures TotalQuantity(materials) >= 0
    ensures forall i :: 0 <= i < |materials| ==> materials[i].material.quantity <= TotalQuantity(materials)
    decreases |materials|
  {
    if materials != [] {
      var front := materials[..|materials| - 1];
      TotalBounds(front);
      forall i | 0 <= i < |front| ensures materials[i].material.quantity <= TotalQuantity(materials) {
        assert front[i] == materials[i];
      }
    }
  }

  /** `material.equipment?.name || 'Unknown Material'`. */
  function MaterialName(m: MaterialWithEquipment): (r: string)
    ensures m.equipment.Some? && m.equipment.value.name != "" ==> r == m.equipment.value.name
    ensures m.equipment.None? || m.equipment.value.name == "" ==> r == "Unknown Material"
  {
    StringOr(if m.equipment.Some? then Some(m.equipment.value.name) else None, "Unknown Material")
  }

  /** `material.unit || 'pcs'`. */
  function UnitText(m: MaterialWithEquipment): (r: string)
    ensures m.material.unit.Some? && m.material.unit.value != "" ==> r == m.material.unit.value
    ensures m.material.unit.None? || m.material.unit.value == "" ==> r == "pcs"
  {
    StringOr(m.material.unit, "pcs")
  }

  function MaterialLineOf(m: MaterialWithEquipment): MaterialLineView {
    MaterialLineView(MaterialName(m), m.material.quantity, UnitText(m))
  }

  /** The row of one order, given the expanded set and the order being deleted. */
  function OrderRow(o: OrderWithMaterials, expanded: set<string>, deleting: Option<string>): (r: OrderRowView)
    ensures r.orderId == o.order.id && r.orderReference == o.order.orderReference
    ensures r.generatorModel == o.order.generatorModel && r.receiverName == o.order.receiverName
    ensures r.itemCount == |o.materials| && r.totalQuantity == QuantitySum(o.materials)
    ensures r.deleteDisabled <==> deleting == Some(o.order.id)
    ensures r.details.Some? <==> o.order.id in expanded
    ensures r.details.Some? ==>
              && |r.details.value.materials| == |o.materials|
              && (forall i :: 0 <= i < |o.materials| ==>
                    r.details.value.materials[i] == MaterialLineView(MaterialName(o.materials[i]), o.materials[i].material.quantity, UnitText(o.materials[i])))
              && (r.details.value.notes.Some? <==> o.order.notes.Some? && o.order.notes.value != "")
  {
    TotalIsSum(o.materials);
    var details :=
      if o.order.id in expanded then
        Some(OrderDetails(
          if o.order.notes.Some? && o.order.notes.value != "" then o.order.notes else None,
          seq(|o.materials|, i requires 0 <= i < |o.materials| => MaterialLineOf(o.materials[i]))))
      else None;
    OrderRowView(o.order.id, o.order.orderReference, o.order.generatorModel, o.order.receiverName,
                 |o.materials|, TotalQuantity(o.materials), deleting == Some(o.order.id), details)
  }

  /** The whole table: the empty-state card alone for no orders, otherwise one row per order, in order. */
  function Render(orders: seq<OrderWithMaterials>, expanded: set<string>, deleting: Option<string>): (r: TableView)
    ensures r.EmptyState? <==> orders == []
    ensures r.Rows? ==> |r.rows| == |orders| && forall i :: 0 <= i < |orders| ==> r.rows[i] == OrderRow(orders[i], expanded, deleting)
  {
    if |orders| == 0 then EmptyState
    else Rows(seq(|orders|, i requires 0 <= i < |orders| => OrderRow(orders[i], expanded, deleting)))
  }

  /** At most one row has its delete button disabled: the one of the order being deleted. */
  lemma OnlyDeletingRowDisabled(orders: seq<OrderWithMaterials>, expanded: set<string>, deleting: Option<string>, i: int)
    requires 0 <= i < |orders|
    ensures var v := Render(orders, expanded, deleting);
            v.Rows? && (v.rows[i].deleteDisabled <==> deleting == Some(orders[i].order.id))
  {
  }

  /** Toggling an order opens or closes its own details and no other row's. */
  lemma ToggleShowsOnlyThatOrder(orders: seq<OrderWithMaterials>, expanded: set<string>, deleting: Option<string>, id: string, i: int)
    requires 0 <= i < |orders|
    ensures var before := OrderRow(orders[i], expanded, deleting);
            var after := OrderRow(orders[i], Toggled(expanded, id), deleting);
            if orders[i].order.id == id then after.details.Some? != before.details.Some?
            else after == before
  {
  }

  /** `formatFileSize` of the list: unknown for a missing or zero size, else the size's unit. */
  function FormatFileSize(bytes: Option<int>): (r: SizeLabel)
    ensures r.UnknownSize? <==> bytes.None? || bytes.value == 0
    ensures r.InUnit? ==> r.unit == ReceiptUpload.UnitFor(bytes.value)
  {
    if bytes.None? || bytes.value == 0 then UnknownSize else InUnit(ReceiptUpload.UnitFor(bytes.value))
  }

  /** The list and the upload component agree on which sizes are unknown and on the units of the rest. */
  lemma SizeLabelsAgree(bytes: Option<int>)
    ensures FormatFileSize(bytes).UnknownSize? <==> ReceiptUpload.AttachmentSizeUnit(bytes).None?
    ensures FormatFileSize(bytes).InUnit? ==> Some(FormatFileSize(bytes).unit) == ReceiptUpload.AttachmentSizeUnit(bytes)
  {
  }

  /** `OrderAttachmentsList`: loading until the fetch settles, then the fetched receipts. */
  class AttachmentsList {
    const orderId: string
    var attachments: seq<OrderAttachment>
    var loading: bool

    constructor (orderId: string)
      ensures this.orderId == orderId && attachments == [] && loading
    {
      this.orderId := orderId;
      attachments := [];
      loading := true;
    }

    /** The fetch settles: a result replaces the list, a failure keeps it; loading ends either way. */
    method Settle(fetched: Option<seq<OrderAttachment>>)
      modifies this
      ensures !loading
      ensures fetched.Some? ==> attachments == fetched.value
      ensures fetched.None? ==> attachments == old(attachments)
    {
      if fetched.Some? {
        attachments := fetched.value;
      }
      loading := false;
    }

    /** What the list shows: the loading line first, nothing for no receipts, else the receipts. */
    function View(): (r: AttachmentsView)
      reads this
      ensures r.LoadingReceipts? <==> loading
      ensures r.NoReceipts? <==> !loading && attachments == []
      ensures r.Receipts? ==> r.attachments == attachments && attachments != []
    {
      if loading then LoadingReceipts else if |attachments| == 0 then NoReceipts else Receipts(attachments)
    }
  }
}
