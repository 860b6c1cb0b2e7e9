/**
 * The consumption form: an equipment picked from the list, a quantity used
 * and a purpose, validated against the picked equipment's available stock.
 */
module ConsumptionForm {
  import opened Wrappers
  import opened Types
  import opened Strings

  /** The form's fields. */
  datatype ConsumptionFormData = ConsumptionFormData(equipmentId: string, quantityUsed: int, purpose: string)

  /** The entries of the error record. */
  datatype ConsumptionField = EquipmentId | QuantityUsed

  /** The fields the form starts with: no equipment, quantity 1 and no purpose. */
  const InitialConsumption := ConsumptionFormData("", 1, "")

  /** `selectedEquipment`: the first listed equipment with the chosen id. */
  function SelectedEquipment(form: ConsumptionFormData, equipments: seq<Equipment>): (r: Option<Equipment>)
    ensures r.Some? ==> r.value in equipments && r.value.id == form.equipmentId
    ensures r.Some? ==> exists k :: IsFirstWithId(equipments, form.equipmentId, k) && equipments[k] == r.value
    ensures r.None? <==> forall k :: 0 <= k < |equipments| ==> equipments[k].id != form.equipmentId
  {
    FindEquipment(equipments, form.equipmentId)
  }

  /** The chosen equipment is listed and has less available stock than the quantity. */
  predicate OverStock(form: ConsumptionFormData, equipments: seq<Equipment>) {
    var e := SelectedEquipment(form, equipments);
    e.Some? && form.quantityUsed > e.value.quantityAvailable
  }

  /** Everything validation checks holds, so it records no error. */
  predicate ConsumptionAcceptable(form: ConsumptionFormData, equipments: seq<Equipment>) {
    form.equipmentId != "" && form.quantityUsed > 0 && !OverStock(form, equipments)
  }

  /**
   * `validate`: no equipment gives its entry; a quantity that is not
   * positive gives one, which the stock message replaces whenever a listed
   * equipment has less stock. An unlisted id gets no stock check.
   */
  method ValidateConsumption(form: ConsumptionFormData, equipments: seq<Equipment>)
    returns (errors: map<ConsumptionField, string>)
    ensures EquipmentId in errors <==> form.equipmentId == ""
    ensures EquipmentId in errors ==> errors[EquipmentId] == "Please select an equipment"
    ensures QuantityUsed in errors <==> form.quantityUsed <= 0 || OverStock(form, equipments)
    ensures OverStock(form, equipments) ==>
              errors[QuantityUsed] == "Only " + IntToString(SelectedEquipment(form, equipments).value.quantityAvailable)
                                      + " units available"
    ensures !OverStock(form, equipments) && form.quantityUsed <= 0 ==>
              errors[QuantityUsed] == "Quantity must be greater than 0"
    ensures errors == map[] <==> ConsumptionAcceptable(form, equipments)
  {
    errors := map[];
    if form.equipmentId == "" {
      errors := errors[EquipmentId := "Please select an equipment"];
    }
    if form.quantityUsed <= 0 {
      errors := errors[QuantityUsed := "Quantity must be greater than 0"];
    }
    var selected := SelectedEquipment(form, equipments);
    if selected.Some? && form.quantityUsed > selected.value.quantityAvailable {
      errors := errors[QuantityUsed := "Only " + IntToString(selected.value.quantityAvailable) + " units available"];
    }
    if errors == map[] {
      assert EquipmentId !in errors && QuantityUsed !in errors;
    }
  }

  /** With the initial fields, only the missing equipment is reported, whatever the list. */
  lemma InitialFormNeedsEquipmentOnly(equipments: seq<Equipment>)
    requires forall k :: 0 <= k < |equipments| ==> equipments[k].id != ""
    ensures !OverStock(InitialConsumption, equipments) && InitialConsumption.quantityUsed > 0
    ensures !ConsumptionAcceptable(InitialConsumption, equipments)
  {
  }

  /** The form as a component instance: its fields and the last error record. */
  class ConsumptionFormState {
    const equipments: seq<Equipment>
    var form: ConsumptionFormData
    var errors: map<ConsumptionField, string>

    constructor (equipments: seq<Equipment>)
      ensures this.equipments == equipments && form == InitialConsumption && errors == map[]
    {
      this.equipments := equipments;
      form := InitialConsumption;
      errors := map[];
    }

    /** The equipment `select`. */
    method ChooseEquipment(id: string)
      modifies this
      ensures form == old(form).(equipmentId := id) && errors == old(errors)
    {
      form := form.(equipmentId := id);
    }

    /** The quantity input: `parseInt(value) || 1`, so an unparsable or zero entry becomes 1. */
    method SetQuantity(parsed: Option<int>)
      modifies this
      ensures form == old(form).(quantityUsed := ParseIntOr(parsed, 1)) && errors == old(errors)
      ensures form.quantityUsed != 0
    {
      form := form.(quantityUsed := ParseIntOr(parsed, 1));
    }

    /** The purpose input. */
    method SetPurpose(purpose: string)
      modifies this
      ensures form == old(form).(purpose := purpose) && errors == old(errors)
    {
      form := form.(purpose := purpose);
    }

    /** `handleSubmit`: validate, and hand the fields to `onSubmit`, unchanged, only when there is no error. */
    method Submit() returns (submitted: Option<ConsumptionFormData>)
      modifies this
      ensures submitted.Some? <==> ConsumptionAcceptable(form, equipments)
      ensures submitted.Some? <==> errors == map[]
      ensures submitted.Some? ==> submitted.value == form
      ensures EquipmentId in errors <==> form.equipmentId == ""
      ensures EquipmentId in errors ==> errors[EquipmentId] == "Please select an equipment"
      ensures QuantityUsed in errors <==> form.quantityUsed <= 0 || OverStock(form, equipments)
      ensures OverStock(form, equipments) ==>
                errors[QuantityUsed] == "Only " + IntToString(SelectedEquipment(form, equipments).value.quantityAvailable)
                                        + " units available"
      ensures !OverStock(form, equipments) && form.quantityUsed <= 0 ==>
                errors[QuantityUsed] == "Quantity must be greater than 0"
      ensures form == old(form)
    {
      errors := ValidateConsumption(form, equipments);
      submitted := if errors == map[] then Some(form) else None;
    }
  }
}
