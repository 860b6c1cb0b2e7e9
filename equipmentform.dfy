/**
 * The equipment form: its initial values, the list of existing equipments
 * it loads when creating, its validation with the duplicate-name check,
 * and the copy of an existing equipment's fields when one is picked.
 */
module EquipmentForm {
  import opened Wrappers
  import opened Types
  import opened Strings
  import opened Autocomplete

  /** The form's fields. */
  datatype EquipmentFormData = EquipmentFormData(
    name: string,
    kind: EquipmentType,
    quantityTotal: int,
    quantityAvailable: int,
    minimumThreshold: int,
    unitPrice: real,
    location: string)

  /** The entries of the error record. */
  datatype EquipmentField = Name | QuantityTotal | QuantityAvailable | MinimumThreshold | UnitPrice

  /** JavaScript's `value || fallback` for a number. */
  function NumberOr(value: int, fallback: int): (r: int)
    ensures value != 0 ==> r == value
    ensures value == 0 ==> r == fallback
  {
    if value != 0 then value else fallback
  }

  /** A present, non-zero price, else 0. */
  function PriceOrZero(price: Option<real>): (r: real)
    ensures price.Some? ==> r == price.value
    ensures price.None? ==> r == 0.0
  {
    if price.Some? && price.value != 0.0 then price.value else 0.0
  }

  /**
   * The initial fields as the source writes them: every field of the edited
   * equipment, with `|| 10` on the threshold, so that a stored threshold of 0
   * is shown, and then saved, as 10.
   */
  function InitialFormAsWritten(equipment: Option<Equipment>): (r: EquipmentFormData)
    ensures equipment.Some? ==> r.minimumThreshold == NumberOr(equipment.value.minimumThreshold, 10)
    ensures equipment.None? ==> r == InitialForm(None)
  {
    match equipment
    case None => EquipmentFormData("", Electrical, 0, 0, 10, 0.0, "")
    case Some(e) =>
      EquipmentFormData(e.name, e.kind, NumberOr(e.quantityTotal, 0), NumberOr(e.quantityAvailable, 0),
                        NumberOr(e.minimumThreshold, 10), PriceOrZero(e.unitPrice), StringOr(e.location, ""))
  }

  /** An equipment stored with threshold 0 is edited with threshold 10. */
  lemma InitialFormAsWrittenReplacesZeroThreshold(e: Equipment)
    requires e.minimumThreshold == 0
    ensures InitialFormAsWritten(Some(e)).minimumThreshold == 10 != e.minimumThreshold
  {
  }

  /**
   * The initial fields: empty name, electrical, quantities 0, threshold 10,
   * price 0 and empty location for a new equipment; the stored values, a
   * missing price as 0 and a missing location as `""`, for an edited one.
   */
  function InitialForm(equipment: Option<Equipment>): (r: EquipmentFormData)
    ensures equipment.None? ==> r == EquipmentFormData("", Electrical, 0, 0, 10, 0.0, "")
    ensures equipment.Some? ==>
              var e := equipment.value;
              && r.name == e.name && r.kind == e.kind && r.quantityTotal == e.quantityTotal
              && r.quantityAvailable == e.quantityAvailable && r.minimumThreshold == e.minimumThreshold
              && r.unitPrice == PriceOrZero(e.unitPrice) && r.location == StringOr(e.location, "")
  {
    match equipment
    case None => EquipmentFormData("", Electrical, 0, 0, 10, 0.0, "")
    case Some(e) =>
      EquipmentFormData(e.name, e.kind, e.quantityTotal, e.quantityAvailable,
                        e.minimumThreshold, PriceOrZero(e.unitPrice), StringOr(e.location, ""))
  }

  /** The two initial forms differ only in the threshold of an equipment stored with threshold 0. */
  lemma InitialFormsAgreeOtherwise(equipment: Option<Equipment>)
    ensures equipment.None? || equipment.value.minimumThreshold != 0 ==>
              InitialFormAsWritten(equipment) == InitialForm(equipment)
    ensures InitialFormAsWritten(equipment) == InitialForm(equipment).(minimumThreshold := InitialFormAsWritten(equipment).minimumThreshold)
  {
  }

  /** `name.trim().toLowerCase()`. */
  function Normalized(name: string): string {
    ToLower(Trim(name))
  }

  /** Another equipment than the edited one, with the same normalized name. */
  predicate IsDuplicateOf(e: Equipment, normalized: string, editingId: Option<string>) {
    Normalized(e.name) == normalized && (editingId.None? || e.id != editingId.value)
  }

  predicate IsFirstDuplicate(existing: seq<Equipment>, normalized: string, editingId: Option<string>, k: int) {
    0 <= k < |existing| && IsDuplicateOf(existing[k], normalized, editingId)
    && forall j :: 0 <= j < k ==> !IsDuplicateOf(existing[j], normalized, editingId)
  }

  /** The `find` of the duplicate-name check: the first listed equipment that is a duplicate. */
  function FindDuplicate(existing: seq<Equipment>, normalized: string, editingId: Option<string>): (r: Option<Equipment>)
    ensures r.None? <==> forall k :: 0 <= k < |existing| ==> !IsDuplicateOf(existing[k], normalized, editingId)
    ensures r.Some? ==> exists k :: IsFirstDuplicate(existing, normalized, editingId, k) && existing[k] == r.value
  {
    if existing == [] then None
    else if IsDuplicateOf(existing[0], normalized, editingId) then
      assert IsFirstDuplicate(existing, normalized, editingId, 0);
      Some(existing[0])
    else
      var r := FindDuplicate(existing[1..], normalized, editingId);
      assert r.Some? ==> exists k :: IsFirstDuplicate(existing, normalized, editingId, k) && existing[k] == r.value by {
        if r.Some? {
          var k :| IsFirstDuplicate(existing[1..], normalized, editingId, k) && existing[1..][k] == r.value;
          forall j | 0 <= j < k + 1 ensures !IsDuplicateOf(existing[j], normalized, editingId) {
            if j > 0 { assert existing[j] == existing[1..][j - 1]; }
          }
          assert IsFirstDuplicate(existing, normalized, editingId, k + 1);
        }
      }
      r
  }

  function DuplicateMessage(duplicate: Equipment): string {
    "Equipment \"" + duplicate.name + "\" already exists. Please select it from the list or use a different name."
  }

  /** Everything validation checks holds, so it records no error. */
  predicate EquipmentAcceptable(form: EquipmentFormData, existing: seq<Equipment>, editingId: Option<string>) {
    && Trim(form.name) != ""
    && FindDuplicate(existing, Normalized(form.name), editingId).None?
    && form.quantityTotal >= 0 && form.quantityAvailable >= 0
    && form.minimumThreshold >= 0 && form.unitPrice >= 0.0
  }

  /** The entry one check writes: `message` under `key` when the check failed, nothing otherwise. */
  function Entry(key: EquipmentField, failed: bool, message: string): (r: map<EquipmentField, string>)
    ensures forall k :: k in r <==> failed && k == key
    ensures failed ==> r[key] == message
  {
    if failed then map[key := message] else map[]
  }

  /** The name check: a blank name, or else the first duplicate of another listed equipment. */
  function NameEntry(name: string, existing: seq<Equipment>, editingId: Option<string>): (r: map<EquipmentField, string>)
    ensures forall k :: k in r ==> k == Name
    ensures Trim(name) == "" ==> Name in r && r[Name] == "Equipment name is required"
    ensures Trim(name) != "" ==>
              var d := FindDuplicate(existing, Normalized(name), editingId);
              (Name in r <==> d.Some?) && (d.Some? ==> r[Name] == DuplicateMessage(d.value))
  {
    if Trim(name) == "" then map[Name := "Equipment name is required"]
    else
      var duplicate := FindDuplicate(existing, Normalized(name), editingId);
      if duplicate.Some? then map[Name := DuplicateMessage(duplicate.value)] else map[]
  }

  /**
   * The entries `validate` writes: a blank name, or else a duplicate of
   * another listed equipment, and each negative number get their own entry.
   */
  predicate EquipmentEntries(form: EquipmentFormData, existing: seq<Equipment>, editingId: Option<string>,
                             errors: map<EquipmentField, string>) {
    && (Trim(form.name) == "" ==> Name in errors && errors[Name] == "Equipment name is required")
    && (Trim(form.name) != "" ==>
          var d := FindDuplicate(existing, Normalized(form.name), editingId);
          (Name in errors <==> d.Some?) && (d.Some? ==> errors[Name] == DuplicateMessage(d.value)))
    && (QuantityTotal in errors <==> form.quantityTotal < 0)
    && (QuantityTotal in errors ==> errors[QuantityTotal] == "New quantity must be greater than or equal to zero")
    && (QuantityAvailable in errors <==> form.quantityAvailable < 0)
    && (QuantityAvailable in errors ==>
          errors[QuantityAvailable] == "Current stock must be greater than or equal to zero")
    && (MinimumThreshold in errors <==> form.minimumThreshold < 0)
    && (MinimumThreshold in errors ==>
          errors[MinimumThreshold] == "Minimum threshold must be greater than or equal to zero")
    && (UnitPrice in errors <==> form.unitPrice < 0.0)
    && (UnitPrice in errors ==> errors[UnitPrice] == "Unit price must be greater than or equal to zero")
  }

  /** A record with exactly those entries is empty iff the form is acceptable. */
  lemma NoEquipmentErrorsIffAcceptable(form: EquipmentFormData, existing: seq<Equipment>, editingId: Option<string>,
                                       errors: map<EquipmentField, string>)
    requires EquipmentEntries(form, existing, editingId, errors)
    ensures errors == map[] <==> EquipmentAcceptable(form, existing, editingId)
  {
    if errors != map[] {
      var k :| k in errors;
      assert !EquipmentAcceptable(form, existing, editingId) by {
        match k
        case Name =>
        case QuantityTotal =>
        case QuantityAvailable =>
        case MinimumThreshold =>
        case UnitPrice =>
      }
    }
  }

  /** The numeric checks add their own entries and leave the name entry as it was. */
  lemma NumberEntries(nameEntry: map<EquipmentField, string>, form: EquipmentFormData)
    requires forall k :: k in nameEntry ==> k == Name
    ensures var e := nameEntry
              + Entry(QuantityTotal, form.quantityTotal < 0, "New quantity must be greater than or equal to zero")
              + Entry(QuantityAvailable, form.quantityAvailable < 0, "Current stock must be greater than or equal to zero")
              + Entry(MinimumThreshold, form.minimumThreshold < 0, "Minimum threshold must be greater than or equal to zero")
              + Entry(UnitPrice, form.unitPrice < 0.0, "Unit price must be greater than or equal to zero");
            && (Name in e <==> Name in nameEntry) && (Name in e ==> e[Name] == nameEntry[Name])
            && (QuantityTotal in e <==> form.quantityTotal < 0)
            && (QuantityTotal in e ==> e[QuantityTotal] == "New quantity must be greater than or equal to zero")
            && (QuantityAvailable in e <==> form.quantityAvailable < 0)
            && (QuantityAvailable in e ==> e[QuantityAvailable] == "Current stock must be greater than or equal to zero")
            && (MinimumThreshold in e <==> form.minimumThreshold < 0)
            && (MinimumThreshold in e ==> e[MinimumThreshold] == "Minimum threshold must be greater than or equal to zero")
            && (UnitPrice in e <==> form.unitPrice < 0.0)
            && (UnitPrice in e ==> e[UnitPrice] == "Unit price must be greater than or equal to zero")
  {
  }

  /**
   * `validate`: the error record for the fields, the loaded list and the id
   * of the edited equipment. Zero is accepted everywhere, and the available
   * stock is not compared with the total.
   */
  method ValidateEquipment(form: EquipmentFormData, existing: seq<Equipment>, editingId: Option<string>)
    returns (errors: map<EquipmentField, string>)
    ensures EquipmentEntries(form, existing, editingId, errors)
    ensures errors == map[] <==> EquipmentAcceptable(form, existing, editingId)
  {
    var nameEntry := NameEntry(form.name, existing, editingId);
    errors := nameEntry;
    errors := errors + Entry(QuantityTotal, form.quantityTotal < 0,
                             "New quantity must be greater than or equal to zero");
    errors := errors + Entry(QuantityAvailable, form.quantityAvailable < 0,
                             "Current stock must be greater than or equal to zero");
    errors := errors + Entry(MinimumThreshold, form.minimumThreshold < 0,
                             "Minimum threshold must be greater than or equal to zero");
    errors := errors + Entry(UnitPrice, form.unitPrice < 0.0,
                             "Unit price must be greater than or equal to zero");
    NumberEntries(nameEntry, form);
    NoEquipmentErrorsIffAcceptable(form, existing, editingId, errors);
  }

  /** The fields after `onSelect` picks an option: its equipment's fields, except the total, which stays. */
  function WithPicked(form: EquipmentFormData, option: AutoOption): (r: EquipmentFormData)
    ensures option.equipment.None? ==> r == form
    ensures option.equipment.Some? ==>
              var e := option.equipment.value;
              && r.name == e.name && r.kind == e.kind && r.quantityTotal == form.quantityTotal
              && r.quantityAvailable == e.quantityAvailable && r.minimumThreshold == e.minimumThreshold
              && r.unitPrice == PriceOrZero(e.unitPrice) && r.location == StringOr(e.location, "")
  {
    if option.equipment.Some? then
      var e := option.equipment.value;
      form.(name := e.name, kind := e.kind, quantityAvailable := e.quantityAvailable,
            minimumThreshold := e.minimumThreshold, unitPrice := PriceOrZero(e.unitPrice),
            location := StringOr(e.location, ""))
    else form
  }

  /** The options offered: one per existing equipment, in order, labelled by its name. */
  function NameOptions(existing: seq<Equipment>): (r: seq<AutoOption>)
    ensures |r| == |existing|
    ensures forall i :: 0 <= i < |r| ==>
              r[i] == AutoOption(existing[i].id, existing[i].name, Some(existing[i]))
  {
    seq(|existing|, i requires 0 <= i < |existing| => AutoOption(existing[i].id, existing[i].name, Some(existing[i])))
  }

  /**
   * Picking an existing equipment while creating copies its name, and that
   * name is then a duplicate of the picked equipment: such a form is never
   * accepted.
   */
  lemma PickedEquipmentIsDuplicate(form: EquipmentFormData, existing: seq<Equipment>, i: int)
    requires 0 <= i < |existing|
    ensures var f := WithPicked(form, NameOptions(existing)[i]);
            FindDuplicate(existing, Normalized(f.name), None).Some? && !EquipmentAcceptable(f, existing, None)
  {
    var f := WithPicked(form, NameOptions(existing)[i]);
    assert IsDuplicateOf(existing[i], Normalized(f.name), None);
  }

  /** With no list of existing equipments there is never a duplicate. */
  lemma NoListNoDuplicate(name: string, editingId: Option<string>)
    ensures FindDuplicate([], Normalized(name), editingId).None?
  {
  }

  /** The form as a component instance: its fields, the loaded list and the last error record. */
  class EquipmentFormState {
    const editing: Option<Equipment>
    var form: EquipmentFormData
    var existing: seq<Equipment>
    var errors: map<EquipmentField, string>

    /** The list is only ever loaded when creating. */
    ghost predicate Valid()
      reads this
    {
      editing.Some? ==> existing == []
    }

    function EditingId(): Option<string>
      reads this
    {
      if editing.Some? then Some(editing.value.id) else None
    }

    /** The form started from the corrected `InitialForm`, which keeps a stored threshold of 0. */
    constructor (equipment: Option<Equipment>)
      ensures Valid()
      ensures editing == equipment && form == InitialForm(equipment) && existing == [] && errors == map[]
    {
      editing := equipment;
      form := InitialForm(equipment);
      existing := [];
      errors := map[];
    }

    /** The form as the source starts it, from `InitialFormAsWritten`, with its `|| 10` on the threshold. */
    constructor AsWritten(equipment: Option<Equipment>)
      ensures Valid()
      ensures editing == equipment && form == InitialFormAsWritten(equipment) && existing == [] && errors == map[]
    {
      editing := equipment;
      form := InitialFormAsWritten(equipment);
      existing := [];
      errors := map[];
    }

    /** The loading effect: when creating, a successful `getAll` replaces the list; a failure is only logged. */
    method LoadExisting(fetched: Option<seq<Equipment>>)
      requires Valid()
      modifies this
      ensures Valid()
      ensures existing == (if editing.None? && fetched.Some? then fetched.value else old(existing))
      ensures form == old(form) && errors == old(errors)
    {
      if editing.None? && fetched.Some? {
        existing := fetched.value;
      }
    }

    /** The name input's `onChange`. */
    method SetName(value: string)
      requires Valid()
      modifies this
      ensures Valid()
      ensures form == old(form).(name := value) && existing == old(existing) && errors == old(errors)
    {
      form := form.(name := value);
    }

    /** The type `select`. */
    method SetKind(kind: EquipmentType)
      requires Valid()
      modifies this
      ensures Valid()
      ensures form == old(form).(kind := kind) && existing == old(existing) && errors == old(errors)
    {
      form := form.(kind := kind);
    }

    /**
     * The three whole-number inputs: `parseInt(value) || 0`, so an unparsable
     * entry becomes 0; the other fields, the available stock included, stay.
     */
    method SetCount(field: EquipmentField, parsed: Option<int>)
      requires Valid()
      requires field == QuantityTotal || field == QuantityAvailable || field == MinimumThreshold
      modifies this
      ensures Valid()
      ensures field == QuantityTotal ==> form == old(form).(quantityTotal := ParseIntOr(parsed, 0))
      ensures field == QuantityAvailable ==> form == old(form).(quantityAvailable := ParseIntOr(parsed, 0))
      ensures field == MinimumThreshold ==> form == old(form).(minimumThreshold := ParseIntOr(parsed, 0))
      ensures existing == old(existing) && errors == old(errors)
    {
      var n := ParseIntOr(parsed, 0);
      if field == QuantityTotal {
        form := form.(quantityTotal := n);
      } else if field == QuantityAvailable {
        form := form.(quantityAvailable := n);
      } else {
        form := form.(minimumThreshold := n);
      }
    }

    /** The price input: `parseFloat(value) || 0`. */
    method SetPrice(parsed: Option<real>)
      requires Valid()
      modifies this
      ensures Valid()
      ensures form == old(form).(unitPrice := PriceOrZero(parsed)) && existing == old(existing) && errors == old(errors)
    {
      form := form.(unitPrice := PriceOrZero(parsed));
    }

    /** The location input. */
    method SetLocation(location: string)
      requires Valid()
      modifies this
      ensures Valid()
      ensures form == old(form).(location := location) && existing == old(existing) && errors == old(errors)
    {
      form := form.(location := location);
    }

    /** The Autocomplete's `onSelect`. */
    method SelectOption(option: AutoOption)
      requires Valid()
      modifies this
      ensures Valid()
      ensures form == WithPicked(old(form), option) && existing == old(existing) && errors == old(errors)
    {
      form := WithPicked(form, option);
    }

    /** `handleSubmit`: validate, and hand the fields to `onSubmit`, unchanged, only when there is no error. */
    method Submit() returns (submitted: Option<EquipmentFormData>)
      requires Valid()
      modifies this
      ensures Valid()
      ensures submitted.Some? <==> EquipmentAcceptable(form, existing, EditingId())
      ensures submitted.Some? ==> submitted.value == form
      ensures submitted.Some? <==> errors == map[]
      ensures EquipmentEntries(form, existing, EditingId(), errors)
      ensures form == old(form) && existing == old(existing)
      ensures editing.Some? ==> FindDuplicate(existing, Normalized(form.name), EditingId()).None?
    {
      errors := ValidateEquipment(form, existing, EditingId());
      if errors == map[] {
        submitted := Some(form);
      } else {
        submitted := None;
      }
    }
  }

  /** An equipment the form accepts as it stands, except that its threshold is 0. */
  predicate EditableWithZeroThreshold(e: Equipment) {
    && e.minimumThreshold == 0 && Trim(e.name) != ""
    && e.quantityTotal >= 0 && e.quantityAvailable >= 0
    && (e.unitPrice.Some? ==> e.unitPrice.value >= 0.0)
  }

  /**
   * The input of the threshold finding, on the form as the source writes it:
   * editing an equipment stored with threshold 0 and submitting it unchanged
   * saves threshold 10.
   */
  method SubmitUnchangedAsWritten(e: Equipment) returns (saved: Option<EquipmentFormData>)
    requires EditableWithZeroThreshold(e)
    ensures saved.Some? && saved.value.minimumThreshold == 10
  {
    var f := new EquipmentFormState.AsWritten(Some(e));
    saved := f.Submit();
  }

  /** The same edit on the corrected form saves the stored threshold, 0, and every other stored field. */
  method SubmitUnchanged(e: Equipment) returns (saved: Option<EquipmentFormData>)
    requires EditableWithZeroThreshold(e)
    ensures saved == Some(InitialForm(Some(e))) && saved.value.minimumThreshold == 0
  {
    var f := new EquipmentFormState(Some(e));
    saved := f.Submit();
  }
}
