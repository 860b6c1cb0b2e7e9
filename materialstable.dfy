/**
 * The material rows of an order as the MaterialsTable edits them. Every
 * edit builds a new list of rows and hands it to the owner, so each one is
 * a function from the old rows to the new rows.
 */
module MaterialsTable {
  import opened Wrappers
  import opened Types
  import opened Strings
  import opened Autocomplete

  /** One row of the table: a local id, the chosen equipment id (`""` for none) and a quantity. */
  datatype MaterialRow = MaterialRow(id: string, equipmentId: string, quantity: int)

  /** The field an `updateMaterial` call writes, with its new value. */
  datatype RowUpdate = SetId(id: string) | SetEquipmentId(equipmentId: string) | SetQuantity(quantity: int)

  function Ids(rows: seq<MaterialRow>): (r: seq<string>)
    ensures |r| == |rows| && forall i :: 0 <= i < |rows| ==> r[i] == rows[i].id
  {
    seq(|rows|, i requires 0 <= i < |rows| => rows[i].id)
  }

  /** `addMaterial`: the old rows, then one new row with no equipment and quantity 1. */
  function AddMaterial(rows: seq<MaterialRow>, newId: string): (r: seq<MaterialRow>)
    ensures |r| == |rows| + 1 && r[..|rows|] == rows
    ensures r[|rows|] == MaterialRow(newId, "", 1)
  {
    rows + [MaterialRow(newId, "", 1)]
  }

  /** `removeMaterial`: every row whose id differs, in their order. */
  function RemoveMaterial(rows: seq<MaterialRow>, id: string): (r: seq<MaterialRow>)
    ensures |r| <= |rows|
    ensures forall i :: 0 <= i < |r| ==> r[i] in rows && r[i].id != id
    ensures forall m :: m in rows && m.id != id ==> m in r
  {
    if rows == [] then []
    else if rows[0].id == id then RemoveMaterial(rows[1..], id)
    else [rows[0]] + RemoveMaterial(rows[1..], id)
  }

  /** Removing from two lists one after the other is removing from their concatenation: the order is kept. */
  lemma {:induction false} RemoveMaterialAppend(a: seq<MaterialRow>, b: seq<MaterialRow>, id: string)
    ensures RemoveMaterial(a + b, id) == RemoveMaterial(a, id) + RemoveMaterial(b, id)
    decreases |a|
  {
    if a == [] {
      assert a + b == b;
    } else {
      assert (a + b)[0] == a[0];
      assert (a + b)[1..] == a[1..] + b;
      RemoveMaterialAppend(a[1..], b, id);
    }
  }

  /** Removing an id no row carries leaves the rows as they are. */
  lemma {:induction false} RemoveAbsentId(rows: seq<MaterialRow>, id: string)
    requires id !in Ids(rows)
    ensures RemoveMaterial(rows, id) == rows
    decreases |rows|
  {
    if rows != [] {
      assert rows[0].id == Ids(rows)[0];
      assert Ids(rows[1..]) == Ids(rows)[1..];
      RemoveAbsentId(rows[1..], id);
      assert [rows[0]] + rows[1..] == rows;
    }
  }

  /** Adding a row under a fresh id and then removing that id gives back the original rows. */
  lemma AddThenRemove(rows: seq<MaterialRow>, newId: string)
    requires newId !in Ids(rows)
    ensures RemoveMaterial(AddMaterial(rows, newId), newId) == rows
  {
    RemoveMaterialAppend(rows, [MaterialRow(newId, "", 1)], newId);
    RemoveAbsentId(rows, newId);
    assert RemoveMaterial([MaterialRow(newId, "", 1)], newId) == [];
  }

  /** `{ ...m, [field]: value }`: only the named field takes the new value. */
  function ApplyUpdate(m: MaterialRow, u: RowUpdate): (r: MaterialRow)
    ensures r.id == (if u.SetId? then u.id else m.id)
    ensures r.equipmentId == (if u.SetEquipmentId? then u.equipmentId else m.equipmentId)
    ensures r.quantity == (if u.SetQuantity? then u.quantity else m.quantity)
  {
    match u
    case SetId(v) => m.(id := v)
    case SetEquipmentId(v) => m.(equipmentId := v)
    case SetQuantity(v) => m.(quantity := v)
  }

  /** `updateMaterial`: every row with the id gets the update; the rest stay, in place. */
  function UpdateMaterial(rows: seq<MaterialRow>, id: string, u: RowUpdate): (r: seq<MaterialRow>)
    ensures |r| == |rows|
    ensures forall i :: 0 <= i < |rows| && rows[i].id != id ==> r[i] == rows[i]
    ensures forall i :: 0 <= i < |rows| && rows[i].id == id ==> r[i] == ApplyUpdate(rows[i], u)
  {
    seq(|rows|, i requires 0 <= i < |rows| => if rows[i].id == id then ApplyUpdate(rows[i], u) else rows[i])
  }

  /** Updating the equipment or the quantity leaves every row id where it was. */
  lemma UpdateKeepsIds(rows: seq<MaterialRow>, id: string, u: RowUpdate)
    requires !u.SetId?
    ensures Ids(UpdateMaterial(rows, id, u)) == Ids(rows)
  {
  }

  /** `getEquipment`, and the available stock shown for a row: 0 when the equipment is unknown. */
  function Available(equipments: seq<Equipment>, equipmentId: string): (r: int)
    ensures FindEquipment(equipments, equipmentId).None? ==> r == 0
    ensures FindEquipment(equipments, equipmentId).Some? ==>
              r == FindEquipment(equipments, equipmentId).value.quantityAvailable
  {
    var e := FindEquipment(equipments, equipmentId);
    if e.Some? && e.value.quantityAvailable != 0 then e.value.quantityAvailable else 0
  }

  /** `hasError`: a row with an equipment id asks for more than the shown stock. */
  predicate HasError(row: MaterialRow, equipments: seq<Equipment>) {
    row.equipmentId != "" && row.quantity > Available(equipments, row.equipmentId)
  }

  /** A chosen id not in the list shows a stock of 0, so any positive quantity is flagged. */
  lemma UnknownEquipmentFlagged(row: MaterialRow, equipments: seq<Equipment>)
    requires row.equipmentId != "" && row.quantity > 0
    requires forall k :: 0 <= k < |equipments| ==> equipments[k].id != row.equipmentId
    ensures HasError(row, equipments)
  {
  }

  predicate IsFirstWithName(equipments: seq<Equipment>, name: string, k: int) {
    0 <= k < |equipments| && equipments[k].name == name
    && forall j :: 0 <= j < k ==> equipments[j].name != name
  }

  /** `equipments.find(eq => eq.name === value)`: the first equipment with exactly that name. */
  function FindByName(equipments: seq<Equipment>, name: string): (r: Option<Equipment>)
    ensures r.None? <==> forall k :: 0 <= k < |equipments| ==> equipments[k].name != name
    ensures r.Some? ==> exists k :: IsFirstWithName(equipments, name, k) && equipments[k] == r.value
  {
    if equipments == [] then None
    else if equipments[0].name == name then
      assert IsFirstWithName(equipments, name, 0);
      Some(equipments[0])
    else
      var r := FindByName(equipments[1..], name);
      assert r.Some? ==> exists k :: IsFirstWithName(equipments, name, k) && equipments[k] == r.value by {
        if r.Some? {
          var k :| IsFirstWithName(equipments[1..], name, k) && equipments[1..][k] == r.value;
          forall j | 0 <= j < k + 1 ensures equipments[j].name != name {
            if j > 0 { assert equipments[j] == equipments[1..][j - 1]; }
          }
          assert IsFirstWithName(equipments, name, k + 1);
        }
      }
      r
  }

  /** The Autocomplete `onChange` of a row: the id of the equipment with exactly the typed name, else `""`. */
  function OnNameTyped(rows: seq<MaterialRow>, rowId: string, equipments: seq<Equipment>, value: string): (r: seq<MaterialRow>)
    ensures FindByName(equipments, value).Some? ==>
              r == UpdateMaterial(rows, rowId, SetEquipmentId(FindByName(equipments, value).value.id))
    ensures FindByName(equipments, value).None? ==> r == UpdateMaterial(rows, rowId, SetEquipmentId(""))
  {
    var found := FindByName(equipments, value);
    UpdateMaterial(rows, rowId, SetEquipmentId(if found.Some? then found.value.id else ""))
  }

  /** The Autocomplete `onSelect` of a row: the option's equipment id, when the option carries one. */
  function OnOptionSelected(rows: seq<MaterialRow>, rowId: string, option: AutoOption): (r: seq<MaterialRow>)
    ensures option.equipment.Some? ==> r == UpdateMaterial(rows, rowId, SetEquipmentId(option.equipment.value.id))
    ensures option.equipment.None? ==> r == rows
  {
    if option.equipment.Some? then UpdateMaterial(rows, rowId, SetEquipmentId(option.equipment.value.id)) else rows
  }

  /** The label of an equipment's option: its name, then its available stock. */
  function OptionLabel(e: Equipment): (r: string)
    ensures |r| == |e.name| + 10 + |IntToString(e.quantityAvailable)|
    ensures r[..|e.name|] == e.name
    ensures r[|e.name|..|e.name| + 9] == " (Stock: "
    ensures r[|e.name| + 9..|r| - 1] == IntToString(e.quantityAvailable)
    ensures r[|r| - 1] == ')'
  {
    e.name + " (Stock: " + IntToString(e.quantityAvailable) + ")"
  }

  /** `autocompleteOptions`: one option per equipment, in order, valued by its id and carrying it. */
  function Options(equipments: seq<Equipment>): (r: seq<AutoOption>)
    ensures |r| == |equipments|
    ensures forall i :: 0 <= i < |r| ==>
              r[i].value == equipments[i].id && r[i].equipment == Some(equipments[i])
              && r[i].caption == OptionLabel(equipments[i])
  {
    seq(|equipments|, i requires 0 <= i < |equipments| => AutoOption(equipments[i].id, OptionLabel(equipments[i]), Some(equipments[i])))
  }

  /**
   * Choosing an option reports its label through `onChange` and then the
   * option through `onSelect`. Whatever the label lookup wrote, the row ends
   * up with the chosen equipment's id, and no other row changes.
   */
  lemma SelectingOptionSetsEquipment(rows: seq<MaterialRow>, rowId: string, equipments: seq<Equipment>, i: int)
    requires 0 <= i < |equipments|
    ensures var o := Options(equipments)[i];
            var r := OnOptionSelected(OnNameTyped(rows, rowId, equipments, o.caption), rowId, o);
            |r| == |rows|
            && (forall k :: 0 <= k < |rows| && rows[k].id == rowId ==> r[k] == rows[k].(equipmentId := equipments[i].id))
            && (forall k :: 0 <= k < |rows| && rows[k].id != rowId ==> r[k] == rows[k])
  {
  }

  /** The quantity input: `parseInt(value) || 1`, so an unparsable or zero entry becomes 1. */
  function QuantityFromInput(parsed: Option<int>): (r: int)
    ensures r != 0
    ensures parsed.Some? && parsed.value != 0 ==> r == parsed.value
    ensures parsed.None? || parsed.value == 0 ==> r == 1
  {
    ParseIntOr(parsed, 1)
  }
}
