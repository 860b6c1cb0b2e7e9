/**
 * The records and enumerations exchanged with the inventory REST API.
 * Nullable fields (`T | null`) and optional fields (`T?`) are both `Option<T>`;
 * numbers are `int`, except prices, predictions and scores, which are `real`.
 */
module Types {
  import opened Wrappers

  /** `EquipmentType`: exactly `'electrical'` or `'manual'`. */
  datatype EquipmentType = Electrical | Manual {
    function Name(): (r: string)
      ensures r == "electrical" || r == "manual"
    {
      match this
      case Electrical => "electrical"
      case Manual => "manual"
    }
  }

  /** `NotificationType`: exactly `'email'`, `'dashboard'` or `'whatsapp'`. */
  datatype NotificationType = Email | Dashboard | WhatsApp {
    function Name(): (r: string)
      ensures r == "email" || r == "dashboard" || r == "whatsapp"
    {
      match this
      case Email => "email"
      case Dashboard => "dashboard"
      case WhatsApp => "whatsapp"
    }
  }

  /** `UserRole`: exactly `'admin'` or `'staff'`. */
  datatype UserRole = Admin | Staff {
    function Name(): (r: string)
      ensures r == "admin" || r == "staff"
    {
      match this
      case Admin => "admin"
      case Staff => "staff"
    }
  }

  /** The direction of a stock movement: exactly `'IN'` or `'OUT'`. */
  datatype MovementType = In | Out {
    function Name(): (r: string)
      ensures r == "IN" || r == "OUT"
    {
      match this
      case In => "IN"
      case Out => "OUT"
    }
  }

  /** Reads a wire value as an `EquipmentType`; only the two names are accepted. */
  function ParseEquipmentType(s: string): (r: Option<EquipmentType>)
    ensures r.Some? <==> s == "electrical" || s == "manual"
    ensures r.Some? ==> r.value.Name() == s
  {
    if s == "electrical" then Some(Electrical) else if s == "manual" then Some(Manual) else None
  }

  /** Reads a wire value as a `NotificationType`; only the three names are accepted. */
  function ParseNotificationType(s: string): (r: Option<NotificationType>)
    ensures r.Some? <==> s == "email" || s == "dashboard" || s == "whatsapp"
    ensures r.Some? ==> r.value.Name() == s
  {
    if s == "email" then Some(Email)
    else if s == "dashboard" then Some(Dashboard)
    else if s == "whatsapp" then Some(WhatsApp)
    else None
  }

  /** Reads a wire value as a `UserRole`; only the two names are accepted. */
  function ParseUserRole(s: string): (r: Option<UserRole>)
    ensures r.Some? <==> s == "admin" || s == "staff"
    ensures r.Some? ==> r.value.Name() == s
  {
    if s == "admin" then Some(Admin) else if s == "staff" then Some(Staff) else None
  }

  /** Reads a wire value as a `MovementType`; only `IN` and `OUT` are accepted. */
  function ParseMovementType(s: string): (r: Option<MovementType>)
    ensures r.Some? <==> s == "IN" || s == "OUT"
    ensures r.Some? ==> r.value.Name() == s
  {
    if s == "IN" then Some(In) else if s == "OUT" then Some(Out) else None
  }

  /** Every enumeration survives a trip through its wire name. */
  lemma EnumerationsRoundTrip(e: EquipmentType, n: NotificationType, u: UserRole, m: MovementType)
    ensures ParseEquipmentType(e.Name()) == Some(e)
    ensures ParseNotificationType(n.Name()) == Some(n)
    ensures ParseUserRole(u.Name()) == Some(u)
    ensures ParseMovementType(m.Name()) == Some(m)
  {
  }

  datatype Equipment = Equipment(
    id: string,
    name: string,
    kind: EquipmentType,
    quantityTotal: int,
    quantityAvailable: int,
    minimumThreshold: int,
    unitPrice: Option<real>,
    location: Option<string>,
    supplierId: Option<string>,
    createdAt: string,
    updatedAt: string)

  datatype EquipmentConsumption = EquipmentConsumption(
    id: string,
    equipmentId: string,
    quantityUsed: int,
    purpose: Option<string>,
    userId: string,
    date: string,
    createdAt: string)

  datatype Notification = Notification(
    id: string,
    kind: NotificationType,
    message: string,
    sent: bool,
    equipmentId: Option<string>,
    userId: Option<string>,
    timestamp: string,
    createdAt: string)

  datatype Prediction = Prediction(
    id: string,
    equipmentId: string,
    predictedConsumption: real,
    predictionDate: string,
    confidenceScore: Option<real>,
    createdAt: string)

  /** The envelope of every API answer: a mandatory `success` flag and three optional parts. */
  datatype ApiResponse<T> = ApiResponse(
    success: bool,
    data: Option<T>,
    error: Option<string>,
    message: Option<string>)

  datatype ConsumptionFilter = ConsumptionFilter(
    equipmentId: Option<string>,
    userId: Option<string>,
    startDate: Option<string>,
    endDate: Option<string>,
    limit: Option<int>,
    offset: Option<int>)

  datatype Order = Order(
    id: string,
    generatorModel: string,
    orderReference: string,
    receiverName: string,
    notes: Option<string>,
    createdBy: string,
    createdAt: string,
    updatedAt: string)

  datatype OrderMaterial = OrderMaterial(
    id: string,
    orderId: string,
    equipmentId: string,
    quantity: int,
    unit: Option<string>,
    createdAt: string)

  datatype StockMovement = StockMovement(
    id: string,
    equipmentId: string,
    kind: MovementType,
    quantity: int,
    relatedOrderId: Option<string>,
    receiverName: Option<string>,
    createdBy: string,
    createdAt: string)

  /** One `(equipment_id, quantity)` pair of an order to create. */
  datatype MaterialLine = MaterialLine(equipmentId: string, quantity: int)

  datatype CreateOrderDto = CreateOrderDto(
    generatorModel: string,
    orderReference: string,
    receiverName: string,
    notes: Option<string>,
    materials: seq<MaterialLine>)

  datatype StockMovementFilter = StockMovementFilter(
    equipmentId: Option<string>,
    kind: Option<MovementType>,
    receiverName: Option<string>,
    startDate: Option<string>,
    endDate: Option<string>,
    limit: Option<int>,
    offset: Option<int>)

  datatype OrderAttachment = OrderAttachment(
    id: string,
    orderId: string,
    fileName: string,
    filePath: string,
    fileSize: Option<int>,
    fileType: Option<string>,
    uploadedBy: string,
    createdAt: string,
    fileUrl: Option<string>)

  /**
   * A thrown JavaScript value: an `Error` (or a subclass other than
   * `TypeError`), a `TypeError`, or something that is not an `Error` at all.
   */
  datatype Thrown = ErrorObject(message: string) | TypeErrorObject(message: string) | NonError {
    /** `value instanceof Error`. */
    predicate IsError() {
      !NonError?
    }

    /** `err instanceof Error ? err.message : fallback`. */
    function MessageOr(fallback: string): (r: string)
      ensures IsError() ==> r == message
      ensures !IsError() ==> r == fallback
    {
      if NonError? then fallback else message
    }
  }

  /** `k` is the first position of `equipments` whose id is `id`. */
  predicate IsFirstWithId(equipments: seq<Equipment>, id: string, k: int) {
    0 <= k < |equipments| && equipments[k].id == id
    && forall j :: 0 <= j < k ==> equipments[j].id != id
  }

  /**
   * `equipments.find((e) => e.id === id)`: the first equipment with that id,
   * or nothing when none has it.
   */
  function FindEquipment(equipments: seq<Equipment>, id: string): (r: Option<Equipment>)
    ensures r.None? <==> forall k :: 0 <= k < |equipments| ==> equipments[k].id != id
    ensures r.Some? ==> exists k :: IsFirstWithId(equipments, id, k) && equipments[k] == r.value
  {
    if equipments == [] then None
    else if equipments[0].id == id then
      assert IsFirstWithId(equipments, id, 0);
      Some(equipments[0])
    else
      var r := FindEquipment(equipments[1..], id);
      assert r.Some? ==> exists k :: IsFirstWithId(equipments, id, k) && equipments[k] == r.value by {
        if r.Some? {
          var k :| IsFirstWithId(equipments[1..], id, k) && equipments[1..][k] == r.value;
          forall j | 0 <= j < k + 1 ensures equipments[j].id != id {
            if j > 0 { assert equipments[j] == equipments[1..][j - 1]; }
          }
          assert IsFirstWithId(equipments, id, k + 1);
        }
      }
      r
  }
}
