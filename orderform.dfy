/**
 * The order form: its initial values, the validation of the header fields
 * and of every material row against the equipment list, and the order
 * that is submitted once validation passes.
 */
module OrderForm {
  import opened Wrappers
  import opened Types
  import opened Strings
  import opened MaterialsTable

  /** The header fields of the form. */
  datatype OrderHeader = OrderHeader(generatorModel: string, orderReference: string, receiverName: string, notes: string)

  /** The optional `initialData`: any part of an order. */
  datatype OrderDraft = OrderDraft(
    generatorModel: Option<string>,
    orderReference: Option<string>,
    receiverName: Option<string>,
    notes: Option<string>,
    materials: Option<seq<MaterialLine>>)

  /** The entries of the error record. */
  datatype OrderErrorKey = OrderReference | ReceiverName | Materials | MaterialEquipment(i: nat) | MaterialQuantity(i: nat) {
    /** The property name the entry has in the error record. */
    function KeyName(): (r: string)
      ensures |r| >= 9
    {
      match this
      case OrderReference => "order_reference"
      case ReceiverName => "receiver_name"
      case Materials => "materials"
      case MaterialEquipment(i) => "material_" + NatToString(i) + "_equipment"
      case MaterialQuantity(i) => "material_" + NatToString(i) + "_quantity"
    }
  }

  /** Distinct entries have distinct property names, so no write to one entry can overwrite another. */
  lemma KeyNameInjective(a: OrderErrorKey, b: OrderErrorKey)
    requires a.KeyName() == b.KeyName()
    ensures a == b
  {
    var s := a.KeyName();
    if a.MaterialEquipment? || a.MaterialQuantity? {
      assert s[0] == 'm' && 'm' != 'o' && 'm' != 'r';
      assert |s| >= 19;
      var n := NatToString(a.i);
      assert s[|s| - 1] == (if a.MaterialEquipment? then 't' else 'y');
      if b.MaterialEquipment? || b.MaterialQuantity? {
        var m := NatToString(b.i);
        assert a.MaterialEquipment? == b.MaterialEquipment?;
        assert |n| == |m|;
        assert n == s[9..9 + |n|];
        assert m == s[9..9 + |m|];
        NatToStringInjective(a.i, b.i);
      }
    }
  }

  const PerkinsModel := "Perkins"

  /** The header the form starts with: each draft field when non-empty, else `Perkins` or `""`. */
  function InitialHeader(draft: Option<OrderDraft>): (r: OrderHeader)
    ensures draft.None? ==> r == OrderHeader(PerkinsModel, "", "", "")
    ensures draft.Some? ==> r == OrderHeader(StringOr(draft.value.generatorModel, PerkinsModel),
                                             StringOr(draft.value.orderReference, ""),
                                             StringOr(draft.value.receiverName, ""),
                                             StringOr(draft.value.notes, ""))
    ensures r.generatorModel != ""
  {
    if draft.None? then OrderHeader(PerkinsModel, "", "", "")
    else OrderHeader(StringOr(draft.value.generatorModel, PerkinsModel),
                     StringOr(draft.value.orderReference, ""),
                     StringOr(draft.value.receiverName, ""),
                     StringOr(draft.value.notes, ""))
  }

  /**
   * The rows the form starts with: one per draft material, in order, with an
   * id made of its index, its equipment id and a time stamp; none otherwise.
   */
  function InitialRows(draft: Option<OrderDraft>, stamp: string): (r: seq<MaterialRow>)
    ensures (draft.None? || draft.value.materials.None? || draft.value.materials.value == []) ==> r == []
    ensures draft.Some? && draft.value.materials.Some? ==>
              var lines := draft.value.materials.value;
              lines != [] ==> |r| == |lines| && forall i :: 0 <= i < |lines| ==>
                r[i] == MaterialRow("material-" + NatToString(i) + "-" + lines[i].equipmentId + "-" + stamp,
                                    lines[i].equipmentId, lines[i].quantity)
  {
    if draft.Some? && draft.value.materials.Some? && draft.value.materials.value != [] then
      var lines := draft.value.materials.value;
      seq(|lines|, i requires 0 <= i < |lines| =>
        MaterialRow("material-" + NatToString(i) + "-" + lines[i].equipmentId + "-" + stamp, lines[i].equipmentId, lines[i].quantity))
    else []
  }

  /** A row's equipment is listed and has less available stock than the row asks for. */
  predicate StockShort(row: MaterialRow, equipments: seq<Equipment>) {
    var e := FindEquipment(equipments, row.equipmentId);
    e.Some? && row.quantity > e.value.quantityAvailable
  }

  /** The stock message for a row whose equipment is listed. */
  function StockMessage(row: MaterialRow, equipments: seq<Equipment>): string
    requires FindEquipment(equipments, row.equipmentId).Some?
  {
    "Available stock: " + IntToString(FindEquipment(equipments, row.equipmentId).value.quantityAvailable)
  }

  /** A key names the header, or a row below `n`. */
  predicate KeyBelow(k: OrderErrorKey, n: int) {
    (k.MaterialEquipment? || k.MaterialQuantity?) ==> k.i < n
  }

  /** The header entries of the error record, each present exactly when its field fails. */
  predicate HeaderEntries(form: OrderHeader, materials: seq<MaterialRow>, errors: map<OrderErrorKey, string>) {
    && (OrderReference in errors <==> Trim(form.orderReference) == "")
    && (OrderReference in errors ==> errors[OrderReference] == "Order reference is required")
    && (ReceiverName in errors <==> Trim(form.receiverName) == "")
    && (ReceiverName in errors ==> errors[ReceiverName] == "Receiver name is required")
    && (Materials in errors <==> |materials| == 0)
    && (Materials in errors ==> errors[Materials] == "At least one material is required")
  }

  /**
   * The two entries of row `i`: a missing equipment, and a quantity that is
   * not positive or above a listed equipment's stock, the stock message
   * taking the place of the other.
   */
  predicate RowEntries(row: MaterialRow, i: nat, equipments: seq<Equipment>, errors: map<OrderErrorKey, string>) {
    && (MaterialEquipment(i) in errors <==> row.equipmentId == "")
    && (MaterialEquipment(i) in errors ==> errors[MaterialEquipment(i)] == "Please select a material")
    && (MaterialQuantity(i) in errors <==> row.quantity <= 0 || StockShort(row, equipments))
    && (StockShort(row, equipments) ==> errors[MaterialQuantity(i)] == StockMessage(row, equipments))
    && (!StockShort(row, equipments) && row.quantity <= 0 ==>
          errors[MaterialQuantity(i)] == "Quantity must be greater than zero")
  }

  /** The record holds the entries of the rows below `n` and no entry of any other row. */
  ghost predicate RowErrorsBelow(materials: seq<MaterialRow>, equipments: seq<Equipment>,
                                 errors: map<OrderErrorKey, string>, n: int)
    requires 0 <= n <= |materials|
  {
    && (forall k :: k in errors ==> KeyBelow(k, n))
    && (forall i: nat :: i < n ==> RowEntries(materials[i], i, equipments, errors))
  }

  /** Writing only the two entries of row `index` keeps the header entries and those of earlier rows. */
  lemma RowStep(form: OrderHeader, materials: seq<MaterialRow>, equipments: seq<Equipment>,
                before: map<OrderErrorKey, string>, after: map<OrderErrorKey, string>, index: nat)
    requires index < |materials|
    requires HeaderEntries(form, materials, before) && RowErrorsBelow(materials, equipments, before, index)
    requires forall k :: k != MaterialEquipment(index) && k != MaterialQuantity(index) ==>
               (k in after <==> k in before) && (k in before ==> after[k] == before[k])
    requires RowEntries(materials[index], index, equipments, after)
    ensures HeaderEntries(form, materials, after) && RowErrorsBelow(materials, equipments, after, index + 1)
  {
    forall i: nat | i < index
      ensures RowEntries(materials[i], i, equipments, after)
    {
      assert RowEntries(materials[i], i, equipments, before);
    }
  }

  /** Everything validation checks holds, so it records no error. */
  predicate OrderAcceptable(form: OrderHeader, materials: seq<MaterialRow>, equipments: seq<Equipment>) {
    && Trim(form.orderReference) != ""
    && Trim(form.receiverName) != ""
    && |materials| > 0
    && forall i :: 0 <= i < |materials| ==>
         materials[i].equipmentId != "" && materials[i].quantity > 0 && !StockShort(materials[i], equipments)
  }

  /** A record with the entries validation writes is empty exactly when the order is acceptable. */
  lemma NoErrorsIffAcceptable(form: OrderHeader, materials: seq<MaterialRow>, equipments: seq<Equipment>,
                              errors: map<OrderErrorKey, string>)
    requires HeaderEntries(form, materials, errors) && RowErrorsBelow(materials, equipments, errors, |materials|)
    ensures errors == map[] <==> OrderAcceptable(form, materials, equipments)
  {
    if errors == map[] {
      forall i | 0 <= i < |materials|
        ensures materials[i].equipmentId != "" && materials[i].quantity > 0 && !StockShort(materials[i], equipments)
      {
        assert RowEntries(materials[i], i, equipments, errors);
      }
    } else {
      var k :| k in errors;
      if k.MaterialEquipment? || k.MaterialQuantity? {
        assert KeyBelow(k, |materials|);
        assert RowEntries(materials[k.i], k.i, equipments, errors);
      }
    }
  }

  /** The `forEach` callback for row `index`: it writes that row's two entries and nothing else. */
  method CheckRow(errors: map<OrderErrorKey, string>, material: MaterialRow, index: nat, equipments: seq<Equipment>)
    returns (after: map<OrderErrorKey, string>)
    requires MaterialEquipment(index) !in errors && MaterialQuantity(index) !in errors
    ensures RowEntries(material, index, equipments, after)
    ensures forall k :: k != MaterialEquipment(index) && k != MaterialQuantity(index) ==>
              (k in after <==> k in errors) && (k in errors ==> after[k] == errors[k])
  {
    after := errors;
    if material.equipmentId == "" {
      after := after[MaterialEquipment(index) := "Please select a material"];
    }
    if material.quantity <= 0 {
      after := after[MaterialQuantity(index) := "Quantity must be greater than zero"];
    }
    var equipment := FindEquipment(equipments, material.equipmentId);
    if equipment.Some? && material.quantity > equipment.value.quantityAvailable {
      after := after[MaterialQuantity(index) := "Available stock: " + IntToString(equipment.value.quantityAvailable)];
    }
  }

  /** `validate`: the error record for the form, the rows and the equipment list. */
  method ValidateOrder(form: OrderHeader, materials: seq<MaterialRow>, equipments: seq<Equipment>)
    returns (errors: map<OrderErrorKey, string>)
    ensures HeaderEntries(form, materials, errors)
    ensures RowErrorsBelow(materials, equipments, errors, |materials|)
    ensures errors == map[] <==> OrderAcceptable(form, materials, equipments)
  {
    errors := map[];
    if Trim(form.orderReference) == "" {
      errors := errors[OrderReference := "Order reference is required"];
    }
    if Trim(form.receiverName) == "" {
      errors := errors[ReceiverName := "Receiver name is required"];
    }
    if |materials| == 0 {
      errors := errors[Materials := "At least one material is required"];
    }
    var index := 0;
    while index < |materials|
      invariant 0 <= index <= |materials|
      invariant HeaderEntries(form, materials, errors)
      invariant RowErrorsBelow(materials, equipments, errors, index)
    {
      var before := errors;
      errors := CheckRow(errors, materials[index], index, equipments);
      RowStep(form, materials, equipments, before, errors, index);
      index := index + 1;
    }
    NoErrorsIffAcceptable(form, materials, equipments, errors);
  }

  /** The order submitted: the three header fields, one line per row in order without its id, notes `""` as absent. */
  function BuildOrderDto(form: OrderHeader, materials: seq<MaterialRow>): (r: CreateOrderDto)
    ensures r.generatorModel == form.generatorModel && r.orderReference == form.orderReference
    ensures r.receiverName == form.receiverName
    ensures r.notes == (if form.notes == "" then None else Some(form.notes))
    ensures |r.materials| == |materials|
    ensures forall i :: 0 <= i < |materials| ==>
              r.materials[i] == MaterialLine(materials[i].equipmentId, materials[i].quantity)
  {
    CreateOrderDto(form.generatorModel, form.orderReference, form.receiverName,
                   if form.notes == "" then None else Some(form.notes),
                   seq(|materials|, i requires 0 <= i < |materials| => MaterialLine(materials[i].equipmentId, materials[i].quantity)))
  }

  /**
   * An order that passes validation names an equipment on every line, asks
   * for a positive quantity, and never more than a listed equipment has.
   */
  lemma AcceptedOrderLinesValid(form: OrderHeader, materials: seq<MaterialRow>, equipments: seq<Equipment>)
    requires OrderAcceptable(form, materials, equipments)
    ensures var dto := BuildOrderDto(form, materials);
            && Trim(dto.orderReference) != "" && Trim(dto.receiverName) != "" && |dto.materials| > 0
            && forall i :: 0 <= i < |dto.materials| ==>
                 dto.materials[i].equipmentId != "" && dto.materials[i].quantity > 0
                 && (FindEquipment(equipments, dto.materials[i].equipmentId).Some? ==>
                       dto.materials[i].quantity <= FindEquipment(equipments, dto.materials[i].equipmentId).value.quantityAvailable)
  {
    var dto := BuildOrderDto(form, materials);
    forall i | 0 <= i < |dto.materials|
      ensures FindEquipment(equipments, dto.materials[i].equipmentId).Some? ==>
                dto.materials[i].quantity <= FindEquipment(equipments, dto.materials[i].equipmentId).value.quantityAvailable
    {
      assert !StockShort(materials[i], equipments);
    }
  }

  /**
   * For a row whose equipment is listed, the table's red flag and the form's
   * stock error agree; for an unlisted one the table flags any positive
   * quantity while the form checks no stock at all.
   */
  lemma TableFlagMatchesStockError(row: MaterialRow, equipments: seq<Equipment>)
    requires row.equipmentId != ""
    ensures FindEquipment(equipments, row.equipmentId).Some? ==> (HasError(row, equipments) <==> StockShort(row, equipments))
    ensures FindEquipment(equipments, row.equipmentId).None? ==>
              !StockShort(row, equipments) && (HasError(row, equipments) <==> row.quantity > 0)
  {
  }

  /** `handleSubmit`: validate, and hand the order to `onSubmit` only when there is no error. */
  method Submit(form: OrderHeader, materials: seq<MaterialRow>, equipments: seq<Equipment>)
    returns (errors: map<OrderErrorKey, string>, submitted: Option<CreateOrderDto>)
    ensures submitted.Some? <==> OrderAcceptable(form, materials, equipments)
    ensures submitted.Some? <==> errors == map[]
    ensures submitted.Some? ==> submitted.value == BuildOrderDto(form, materials)
    ensures HeaderEntries(form, materials, errors)
    ensures RowErrorsBelow(materials, equipments, errors, |materials|)
  {
    errors := ValidateOrder(form, materials, equipments);
    if errors != map[] {
      submitted := None;
      return;
    }
    submitted := Some(BuildOrderDto(form, materials));
  }
}
