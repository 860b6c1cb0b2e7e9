/**
 * The resource wrappers of the API client: how the filter objects become
 * query strings, and how each wrapper unwraps the answer envelope.
 * Query values are written without percent-encoding.
 */
module ApiResources {
  import opened Wrappers
  import opened Types
  import opened Strings
  import Api

  /** One `name=value` pair of a query string. */
  datatype Param = Param(name: string, value: string)

  /** `URLSearchParams.toString()`: the pairs joined by `&`. */
  function QueryString(params: seq<Param>): (q: string)
    ensures q == "" <==> params == []
  {
    if params == [] then ""
    else
      var head := params[0].name + "=" + params[0].value;
      assert head[|params[0].name|] == '=';
      if |params| == 1 then head else head + "&" + QueryString(params[1..])
  }

  /** `queryString ? base + '?' + queryString : base`. */
  function WithQuery(base: string, params: seq<Param>): (endpoint: string)
    ensures params == [] ==> endpoint == base
    ensures params != [] ==> endpoint == base + "?" + QueryString(params)
  {
    var q := QueryString(params);
    if q != "" then base + "?" + q else base
  }

  /** A string field is appended when it is present and non-empty. */
  function StringParam(name: string, field: Option<string>): seq<Param> {
    if Api.Truthy(field) then [Param(name, field.value)] else []
  }

  /** A number field is appended when it is present and non-zero (`0` is falsy). */
  function NumberParam(name: string, field: Option<int>): seq<Param> {
    if field.Some? && field.value != 0 then [Param(name, IntToString(field.value))] else []
  }

  /** The movement type is appended when it is given; it can only be `IN` or `OUT`. */
  function TypeParam(kind: Option<MovementType>): seq<Param> {
    if kind.Some? then [Param("type", kind.value.Name())] else []
  }

  /** The parameters `consumptionAPI.getHistory` appends, in its fixed order. */
  function ConsumptionParams(filter: Option<ConsumptionFilter>): seq<Param> {
    match filter
    case None => []
    case Some(f) =>
      StringParam("equipment_id", f.equipmentId) + StringParam("user_id", f.userId)
      + StringParam("start_date", f.startDate) + StringParam("end_date", f.endDate)
      + NumberParam("limit", f.limit) + NumberParam("offset", f.offset)
  }

  /** The parameters `orderAPI.getStockMovements` appends, in its fixed order. */
  function MovementParams(filter: Option<StockMovementFilter>): seq<Param> {
    match filter
    case None => []
    case Some(f) =>
      StringParam("equipment_id", f.equipmentId)
      + TypeParam(f.kind)
      + StringParam("receiver_name", f.receiverName)
      + StringParam("start_date", f.startDate) + StringParam("end_date", f.endDate)
      + NumberParam("limit", f.limit) + NumberParam("offset", f.offset)
  }

  /** The parameters `notificationAPI.getAll` appends: `sent` whenever it is given, even `false`. */
  function NotificationParams(userId: Option<string>, sent: Option<bool>): seq<Param> {
    StringParam("user_id", userId)
    + (if sent.Some? then [Param("sent", if sent.value then "true" else "false")] else [])
  }

  /** The endpoint `consumptionAPI.getHistory` requests, built by successive appends. */
  method ConsumptionHistoryEndpoint(filter: Option<ConsumptionFilter>) returns (endpoint: string)
    ensures endpoint == WithQuery("/consumption", ConsumptionParams(filter))
  {
    var params: seq<Param> := [];
    if filter.Some? {
      var f := filter.value;
      params := params + StringParam("equipment_id", f.equipmentId);
      params := params + StringParam("user_id", f.userId);
      params := params + StringParam("start_date", f.startDate);
      params := params + StringParam("end_date", f.endDate);
      params := params + NumberParam("limit", f.limit);
      params := params + NumberParam("offset", f.offset);
      assert [] + StringParam("equipment_id", f.equipmentId) == StringParam("equipment_id", f.equipmentId);
    }
    var queryString := QueryString(params);
    endpoint := if queryString != "" then "/consumption?" + queryString else "/consumption";
  }

  /** The endpoint `orderAPI.getStockMovements` requests, built by successive appends. */
  method StockMovementsEndpoint(filter: Option<StockMovementFilter>) returns (endpoint: string)
    ensures endpoint == WithQuery("/orders/history/movements", MovementParams(filter))
  {
    var params: seq<Param> := [];
    if filter.Some? {
      var f := filter.value;
      params := params + StringParam("equipment_id", f.equipmentId);
      params := params + TypeParam(f.kind);
      params := params + StringParam("receiver_name", f.receiverName);
      params := params + StringParam("start_date", f.startDate);
      params := params + StringParam("end_date", f.endDate);
      params := params + NumberParam("limit", f.limit);
      params := params + NumberParam("offset", f.offset);
      assert [] + StringParam("equipment_id", f.equipmentId) == StringParam("equipment_id", f.equipmentId);
    }
    var queryString := QueryString(params);
    endpoint := if queryString != "" then "/orders/history/movements?" + queryString
                else "/orders/history/movements";
  }

  /** The endpoint `notificationAPI.getAll` requests, built by successive appends. */
  method NotificationsEndpoint(userId: Option<string>, sent: Option<bool>) returns (endpoint: string)
    ensures endpoint == WithQuery("/notifications", NotificationParams(userId, sent))
  {
    var params: seq<Param> := [];
    params := params + StringParam("user_id", userId);
    if sent.Some? { params := params + [Param("sent", if sent.value then "true" else "false")]; }
    assert [] + StringParam("user_id", userId) == StringParam("user_id", userId);
    var queryString := QueryString(params);
    endpoint := if queryString != "" then "/notifications?" + queryString else "/notifications";
  }

  /** `predictionAPI.getAll`: the id is spliced in directly when it is non-empty. */
  function PredictionsEndpoint(equipmentId: Option<string>): (endpoint: string)
    ensures !Api.Truthy(equipmentId) ==> endpoint == "/predictions"
    ensures Api.Truthy(equipmentId) ==> endpoint == WithQuery("/predictions", [Param("equipment_id", equipmentId.value)])
  {
    if Api.Truthy(equipmentId) then "/predictions?equipment_id=" + equipmentId.value else "/predictions"
  }

  /** Only present and non-zero `limit`/`offset` reach the query: `0` is the same as no value. */
  lemma ZeroPagingDropped(f: ConsumptionFilter, g: StockMovementFilter)
    ensures ConsumptionParams(Some(f.(limit := Some(0), offset := Some(0))))
         == ConsumptionParams(Some(f.(limit := None, offset := None)))
    ensures MovementParams(Some(g.(limit := Some(0), offset := Some(0))))
         == MovementParams(Some(g.(limit := None, offset := None)))
  {
  }

  /** With no parameter the endpoint carries no `?` at all. */
  lemma NoParamsNoQuestionMark()
    ensures WithQuery("/consumption", ConsumptionParams(None)) == "/consumption"
    ensures WithQuery("/orders/history/movements", MovementParams(None)) == "/orders/history/movements"
    ensures WithQuery("/notifications", NotificationParams(None, None)) == "/notifications"
  {
  }

  /** `sent = false` is sent, because it is tested against `undefined` and not for truthiness. */
  lemma SentFalseIncluded(userId: Option<string>)
    ensures Param("sent", "false") in NotificationParams(userId, Some(false))
  {
  }

  /** The names in a parameter list. */
  function Names(params: seq<Param>): (names: seq<string>)
    ensures |names| == |params| && forall i :: 0 <= i < |params| ==> names[i] == params[i].name
  {
    seq(|params|, i requires 0 <= i < |params| => params[i].name)
  }

  lemma NamesAppend(a: seq<Param>, b: seq<Param>)
    ensures Names(a + b) == Names(a) + Names(b)
  {
    assert Names(a + b) == Names(a) + Names(b);
  }

  lemma NamesOfStringParam(name: string, field: Option<string>)
    ensures Names(StringParam(name, field)) == if Api.Truthy(field) then [name] else []
  {
    assert Names(StringParam(name, field)) == if Api.Truthy(field) then [name] else [];
  }

  lemma NamesOfNumberParam(name: string, field: Option<int>)
    ensures Names(NumberParam(name, field)) == if field.Some? && field.value != 0 then [name] else []
  {
    assert Names(NumberParam(name, field)) == if field.Some? && field.value != 0 then [name] else [];
  }

  /**
   * A consumption query names each present field once, in the fixed order
   * equipment_id, user_id, start_date, end_date, limit, offset.
   */
  lemma ConsumptionParamsOrder(f: ConsumptionFilter)
    ensures Names(ConsumptionParams(Some(f)))
      == (if Api.Truthy(f.equipmentId) then ["equipment_id"] else [])
       + (if Api.Truthy(f.userId) then ["user_id"] else [])
       + (if Api.Truthy(f.startDate) then ["start_date"] else [])
       + (if Api.Truthy(f.endDate) then ["end_date"] else [])
       + (if f.limit.Some? && f.limit.value != 0 then ["limit"] else [])
       + (if f.offset.Some? && f.offset.value != 0 then ["offset"] else [])
  {
    var p1, p2 := StringParam("equipment_id", f.equipmentId), StringParam("user_id", f.userId);
    var p3, p4 := StringParam("start_date", f.startDate), StringParam("end_date", f.endDate);
    var p5, p6 := NumberParam("limit", f.limit), NumberParam("offset", f.offset);
    NamesOfStringParam("equipment_id", f.equipmentId);
    NamesOfStringParam("user_id", f.userId);
    NamesOfStringParam("start_date", f.startDate);
    NamesOfStringParam("end_date", f.endDate);
    NamesOfNumberParam("limit", f.limit);
    NamesOfNumberParam("offset", f.offset);
    NamesAppend(p1, p2);
    NamesAppend(p1 + p2, p3);
    NamesAppend(p1 + p2 + p3, p4);
    NamesAppend(p1 + p2 + p3 + p4, p5);
    NamesAppend(p1 + p2 + p3 + p4 + p5, p6);
  }

  // ---------------------------------------------------------------------------
  // Envelope unwrapping

  /** A list getter (`getAll`, `getHistory`, ...): `response.data || []`. */
  function ListData<T>(response: Result<ApiResponse<seq<T>>, Thrown>): (r: Result<seq<T>, Thrown>)
    ensures response.Err? ==> r == Err(response.error)
    ensures response.Ok? ==> r.Ok? && (response.value.data.None? ==> r.value == [])
    ensures response.Ok? && response.value.data.Some? ==> r.value == response.value.data.value
  {
    match response
    case Err(e) => Err(e)
    case Ok(env) => Ok(env.data.GetOr([]))
  }

  /** A lookup, create or update: a missing `data` throws the wrapper's fixed message. */
  function RecordData<T>(response: Result<ApiResponse<T>, Thrown>, missing: string): (r: Result<T, Thrown>)
    ensures response.Err? ==> r == Err(response.error)
    ensures response.Ok? && response.value.data.None? ==> r == Err(ErrorObject(missing))
    ensures response.Ok? && response.value.data.Some? ==> r == Ok(response.value.data.value)
  {
    match response
    case Err(e) => Err(e)
    case Ok(env) => if env.data.None? then Err(ErrorObject(missing)) else Ok(env.data.value)
  }

  /** A delete: the envelope is discarded; only a thrown error reaches the caller. */
  function Discard<T>(response: Result<ApiResponse<T>, Thrown>): (r: Result<(), Thrown>)
    ensures r.Err? <==> response.Err?
    ensures r.Err? ==> r.error == response.error
  {
    match response
    case Err(e) => Err(e)
    case Ok(_) => Ok(())
  }

  /** The wrappers that return one record, each with its own missing-data message. */
  datatype RecordCall =
    | GetEquipment(id: string) | CreateEquipment | UpdateEquipment(id: string)
    | LogConsumption | GetConsumption(id: string)
    | MarkNotificationSent(id: string)
    | CreateOrder | GetOrder(id: string) | UpdateOrder(id: string)
  {
    /** The HTTP method: `GET` for the three getters, `POST` for the three creations, `PUT` for the three updates. */
    function Method(): (m: string)
      ensures m == "GET" <==> this.GetEquipment? || this.GetConsumption? || this.GetOrder?
      ensures m == "POST" <==> this.CreateEquipment? || this.LogConsumption? || this.CreateOrder?
      ensures m == "PUT" <==> this.UpdateEquipment? || this.MarkNotificationSent? || this.UpdateOrder?
    {
      match this
      case CreateEquipment | LogConsumption | CreateOrder => "POST"
      case UpdateEquipment(_) | MarkNotificationSent(_) | UpdateOrder(_) => "PUT"
      case _ => "GET"
    }

    /** The path requested: an absolute path under the wrapper's resource. */
    function Endpoint(): (r: string)
      ensures |r| > 1 && r[0] == '/'
    {
      match this
      case GetEquipment(id) => "/equipments/" + id
      case CreateEquipment => "/equipments"
      case UpdateEquipment(id) => "/equipments/" + id
      case LogConsumption => "/consumption"
      case GetConsumption(id) => "/consumption/" + id
      case MarkNotificationSent(id) => "/notifications/" + id + "/sent"
      case CreateOrder => "/orders"
      case GetOrder(id) => "/orders/" + id
      case UpdateOrder(id) => "/orders/" + id
    }

    function MissingMessage(): (m: string)
      ensures m != ""
    {
      match this
      case GetEquipment(_) => "Equipment not found"
      case CreateEquipment => "Failed to create equipment"
      case UpdateEquipment(_) => "Failed to update equipment"
      case LogConsumption => "Failed to log consumption"
      case GetConsumption(_) => "Consumption record not found"
      case MarkNotificationSent(_) => "Failed to update notification"
      case CreateOrder => "Failed to create order"
      case GetOrder(_) => "Order not found"
      case UpdateOrder(_) => "Failed to update order"
    }
  }

  /** The wrappers that return a list, with the endpoint each requests. */
  datatype ListCall =
    | AllEquipments | LowStockEquipments
    | ConsumptionHistory(consumptionFilter: Option<ConsumptionFilter>)
    | Notifications(userId: Option<string>, sent: Option<bool>)
    | Predictions(forEquipment: Option<string>) | PredictionsForEquipment(equipmentId: string)
    | AllOrders | StockMovements(movementFilter: Option<StockMovementFilter>) | Attachments(orderId: string)
  {
    /** The path requested, with its query string where the wrapper builds one. */
    function Endpoint(): (r: string)
      ensures |r| > 1 && r[0] == '/'
    {
      match this
      case AllEquipments => "/equipments"
      case LowStockEquipments => "/equipments/low-stock"
      case ConsumptionHistory(f) => WithQuery("/consumption", ConsumptionParams(f))
      case Notifications(u, s) => WithQuery("/notifications", NotificationParams(u, s))
      case Predictions(e) => PredictionsEndpoint(e)
      case PredictionsForEquipment(e) => "/predictions/" + e
      case AllOrders => "/orders"
      case StockMovements(f) => WithQuery("/orders/history/movements", MovementParams(f))
      case Attachments(o) => "/orders/" + o + "/attachments"
    }
  }

  /** The wrappers that delete and return nothing. */
  datatype DeleteCall = DeleteEquipment(id: string) | DeleteOrder(id: string) | DeleteAttachment(id: string) {
    /** The path a `DELETE` request goes to. */
    function Endpoint(): (r: string)
      ensures |r| > 1 && r[0] == '/'
    {
      match this
      case DeleteEquipment(id) => "/equipments/" + id
      case DeleteOrder(id) => "/orders/" + id
      case DeleteAttachment(id) => "/orders/attachments/" + id
    }
  }

  /** When two strings with the same prefix are equal, so are their remainders. */
  lemma PrefixCancel(p: string, a: string, b: string)
    requires p + a == p + b
    ensures a == b
  {
    assert a == (p + a)[|p|..];
    assert b == (p + b)[|p|..];
  }

  /** When two strings with the same prefix and suffix are equal, so are their middles. */
  lemma AffixCancel(p: string, a: string, b: string, q: string)
    requires p + a + q == p + b + q
    ensures a == b
  {
    assert |a| == |b|;
    assert a == (p + a + q)[|p|..|p| + |a|];
    assert b == (p + b + q)[|p|..|p| + |b|];
  }

  /**
   * A record request identifies its wrapper: no two wrappers, and no two
   * arguments of one wrapper, send the same method to the same path.
   */
  lemma {:induction false} RecordRequestIdentifiesCall(c: RecordCall, d: RecordCall)
    requires c.Method() == d.Method() && c.Endpoint() == d.Endpoint()
    ensures c == d
  {
    var e := c.Endpoint();
    assert e == d.Endpoint();
    match c
    case GetEquipment(x) =>
      assert e[1] == 'e';
      if d.GetEquipment? { PrefixCancel("/equipments/", x, d.id); }
    case UpdateEquipment(x) =>
      assert e[1] == 'e';
      if d.UpdateEquipment? { PrefixCancel("/equipments/", x, d.id); }
    case GetConsumption(x) =>
      assert e[1] == 'c';
      if d.GetConsumption? { PrefixCancel("/consumption/", x, d.id); }
    case MarkNotificationSent(x) =>
      assert e[1] == 'n';
      if d.MarkNotificationSent? { AffixCancel("/notifications/", x, d.id, "/sent"); }
    case GetOrder(x) =>
      assert e[1] == 'o';
      if d.GetOrder? { PrefixCancel("/orders/", x, d.id); }
    case UpdateOrder(x) =>
      assert e[1] == 'o';
      if d.UpdateOrder? { PrefixCancel("/orders/", x, d.id); }
    case CreateEquipment =>
      assert e[1] == 'e';
    case LogConsumption =>
      assert e[1] == 'c';
    case CreateOrder =>
      assert e[1] == 'o';
  }

  /** An equipment and an order are read, updated and deleted at one path each. */
  lemma RecordPathsShared(id: string)
    ensures GetEquipment(id).Endpoint() == UpdateEquipment(id).Endpoint() == DeleteEquipment(id).Endpoint()
    ensures GetOrder(id).Endpoint() == UpdateOrder(id).Endpoint() == DeleteOrder(id).Endpoint()
  {
  }

  /** A list getter never fails on a missing `data`; a record wrapper always does. */
  lemma MissingDataHandling<T, U>(call: RecordCall, list: ApiResponse<seq<T>>, record: ApiResponse<U>)
    requires list.data.None? && record.data.None?
    ensures ListData(Ok(list)) == Ok([])
    ensures RecordData(Ok(record), call.MissingMessage()) == Err(ErrorObject(call.MissingMessage()))
  {
  }
}
