/** The inventory-update Lambda handler. The DynamoDB table is a map from
    (blood type, location) to the item's attributes; the notification topic is
    the sequence of alerts handed to it. Decoding the request body, converting
    the change to a decimal and the clock are parameters. */
module UpdateHandler {
  import opened Wrappers
  import opened Json

  const DefaultLocation := "Main_Branch"
  const MissingFieldsError := "Missing BloodType or UnitsChange"
  const UpdatedMessage := "Inventory updated successfully."

  /** The table's key schema: partition key BloodType, sort key LocationID. */
  datatype Key = Key(bloodType: string, locationId: string)

  /** The attributes of one item that the handler reads or writes. An item
      may lack a SafetyThreshold attribute; DynamoDB items have no fixed schema. */
  datatype Row = Row(currentStock: int, safetyThreshold: Option<int>, lastUpdated: string)

  /** The content of one low-stock notification. */
  datatype Alert = Alert(bloodType: string, currentStock: int, safetyThreshold: int)

  /** Exceptions the handler catches and turns into a 500. */
  datatype Fault =
    | EventNotObject   // `event.get` on a value that is not a dict
    | BodyNotJson      // `json.loads` raised
    | BodyNotObject    // `body.get` on a decoded value that is not a dict
    | UnitsNotDecimal  // `Decimal(str(units_change))` raised
    | KeyNotString     // DynamoDB refused a key attribute that is not a string
    | ItemMissing      // DynamoDB refused `CurrentStock + :val` on an absent item
    | ThresholdMissing // `KeyError` reading SafetyThreshold, after the update was written

  datatype ResponseBody =
    | Updated(message: string, newStock: int, alertTriggered: bool)
    | ClientError(error: string)
    | InternalError(fault: Fault)

  datatype Response = Response(statusCode: int, body: ResponseBody)

  /** What the request asks for, once parsed and validated. */
  datatype Request = BadRequest | Unprocessable(fault: Fault) | Update(key: Key, change: int)

  /** The request body: a string `body` member is JSON-decoded (`loads` is
      `json.loads`, `None` when it raises); otherwise the event itself is the body. */
  function RequestBody(event: Value, loads: string -> Option<Value>): (r: Result<Value, Fault>)
    ensures event.Obj? && "body" in event.fields && event.fields["body"].Str? ==>
      && (r.Success? <==> loads(event.fields["body"].s).Some?)
      && (r.Success? ==> Some(r.value) == loads(event.fields["body"].s))
      && (r.Failure? ==> r.error == BodyNotJson)
    ensures event.Obj? && !("body" in event.fields && event.fields["body"].Str?) ==> r == Success(event)
    ensures !event.Obj? ==> r == Failure(EventNotObject)
  {
    if !event.Obj? then Failure(EventNotObject)
    else
      var raw := PyGet(event.fields, "body");
      if raw.Str? then
        match loads(raw.s)
        case None => Failure(BodyNotJson)
        case Some(body) => Success(body)
      else Success(event)
  }

  /** The 400 condition: no truthy BloodType, or a UnitsChange that is absent or
      null. A UnitsChange of zero is present, so it passes. */
  predicate MissingField(body: map<string, Value>): (missing: bool)
    ensures "BloodType" !in body || body["BloodType"] == Str("") ==> missing
    ensures "UnitsChange" !in body || body["UnitsChange"] == Null ==> missing
    ensures ("BloodType" in body && body["BloodType"].Str? && body["BloodType"].s != ""
             && "UnitsChange" in body && body["UnitsChange"] == Num(0)) ==> !missing
  {
    !PyTruthy(PyGet(body, "BloodType")) || PyGet(body, "UnitsChange") == Null
  }

  /** The location, `Main_Branch` when the body has no LocationID member. */
  function LocationOf(body: map<string, Value>): (location: Value)
    ensures "LocationID" !in body ==> location == Str(DefaultLocation)
    ensures "LocationID" in body ==> location == body["LocationID"]
  {
    if "LocationID" in body then body["LocationID"] else Str(DefaultLocation)
  }

  /** `Decimal(str(units))`: a number converts as it is, a string through
      `decimal` (`None` when the text is not a decimal); anything else raises. */
  function UnitsDecimal(units: Value, decimal: string -> Option<int>): (change: Option<int>)
    ensures units.Num? ==> change == Some(units.n)
    ensures units.Str? ==> change == decimal(units.s)
    ensures change.Some? ==> units.Num? || units.Str?
  {
    match units
    case Num(n) => Some(n)
    case Str(s) => decimal(s)
    case _ => None
  }

  /** The members of the request body, when it decodes to an object. */
  function BodyFields(event: Value, loads: string -> Option<Value>): Option<map<string, Value>>
  {
    var body := RequestBody(event, loads);
    if body.Success? && body.value.Obj? then Some(body.value.fields) else None
  }

  /** Parsing and validation. A missing field is a 400 and nothing else is; a
      complete body whose blood type and location are strings and whose change
      is a decimal becomes an update, and each other case raises its own fault. */
  function Decide(event: Value, loads: string -> Option<Value>, decimal: string -> Option<int>): (req: Request)
    ensures req.BadRequest? <==>
      BodyFields(event, loads).Some? && MissingField(BodyFields(event, loads).value)
    ensures req.Update? ==>
      BodyFields(event, loads).Some? &&
      (var fields := BodyFields(event, loads).value;
       && !MissingField(fields) && req.key.bloodType != ""
       && Str(req.key.bloodType) == PyGet(fields, "BloodType")
       && Str(req.key.locationId) == LocationOf(fields)
       && Some(req.change) == UnitsDecimal(PyGet(fields, "UnitsChange"), decimal))
    ensures BodyFields(event, loads).Some? ==>
      (var fields := BodyFields(event, loads).value;
       && ((!MissingField(fields) && PyGet(fields, "BloodType").Str? && LocationOf(fields).Str?
            && UnitsDecimal(PyGet(fields, "UnitsChange"), decimal).Some?) ==> req.Update?)
       && (!MissingField(fields) && UnitsDecimal(PyGet(fields, "UnitsChange"), decimal).None?
           ==> req == Unprocessable(UnitsNotDecimal))
       && ((!MissingField(fields) && UnitsDecimal(PyGet(fields, "UnitsChange"), decimal).Some?
            && !(PyGet(fields, "BloodType").Str? && LocationOf(fields).Str?)) ==> req == Unprocessable(KeyNotString)))
    ensures RequestBody(event, loads).Failure? ==> req == Unprocessable(RequestBody(event, loads).error)
    ensures RequestBody(event, loads).Success? && !RequestBody(event, loads).value.Obj? ==>
      req == Unprocessable(BodyNotObject)
  {
    match RequestBody(event, loads)
    case Failure(fault) => Unprocessable(fault)
    case Success(body) =>
      if !body.Obj? then Unprocessable(BodyNotObject)
      else
        var bloodType := PyGet(body.fields, "BloodType");
        var units := PyGet(body.fields, "UnitsChange");
        var location := LocationOf(body.fields);
        if MissingField(body.fields) then BadRequest
        else match UnitsDecimal(units, decimal)
          case None => Unprocessable(UnitsNotDecimal)
          case Some(change) =>
            if bloodType.Str? && location.Str? then Update(Key(bloodType.s, location.s), change)
            else Unprocessable(KeyNotString)
  }

  /** The effect of one call: the table afterwards, the response, and the alert
      published, if any. */
  datatype Outcome = Outcome(items: map<Key, Row>, response: Response, alert: Option<Alert>)

  /** The item at `key` after `SET CurrentStock = CurrentStock + :val,
      LastUpdated = :time`, with every other item and attribute as before. */
  ghost predicate Written(before: map<Key, Row>, after: map<Key, Row>, key: Key, change: int, now: string)
  {
    && key in before && after.Keys == before.Keys
    && after[key].currentStock == before[key].currentStock + change
    && after[key].safetyThreshold == before[key].safetyThreshold
    && after[key].lastUpdated == now
    && (forall k :: k in before && k != key ==> after[k] == before[k])
  }

  /** The handler as a function of the table before the call. */
  function Handle(items: map<Key, Row>, event: Value, now: string,
                  loads: string -> Option<Value>, decimal: string -> Option<int>): (out: Outcome)
    ensures out.response.statusCode == 400 <==> Decide(event, loads, decimal).BadRequest?
    ensures out.response.statusCode == 400 ==> out.response.body == ClientError(MissingFieldsError)
    ensures out.response.statusCode in {200, 400, 500}
    ensures out.response.statusCode == 500 ==> out.response.body.InternalError?
    ensures out.response.statusCode != 200 ==> out.alert.None?
    ensures out.response.statusCode != 200 && out.response.body != InternalError(ThresholdMissing) ==> out.items == items
    ensures out.response.body == InternalError(ThresholdMissing) ==>
      var req := Decide(event, loads, decimal);
      req.Update? && Written(items, out.items, req.key, req.change, now)
      && items[req.key].safetyThreshold.None?
    ensures out.response.statusCode == 200 ==>
      var req := Decide(event, loads, decimal);
      req.Update? && Written(items, out.items, req.key, req.change, now)
      && items[req.key].safetyThreshold.Some?
      && var newStock := out.items[req.key].currentStock;
         var threshold := items[req.key].safetyThreshold.value;
         && out.response.body == Updated(UpdatedMessage, newStock, newStock < threshold)
         && (out.alert.Some? <==> newStock < threshold)
         && (out.alert.Some? ==> out.alert.value == Alert(req.key.bloodType, newStock, threshold))
    ensures Decide(event, loads, decimal).Update? && Decide(event, loads, decimal).key in items ==>
      (out.response.statusCode == 200 <==> items[Decide(event, loads, decimal).key].safetyThreshold.Some?)
    ensures Decide(event, loads, decimal).Unprocessable? ==>
      out == Outcome(items, Response(500, InternalError(Decide(event, loads, decimal).fault)), None)
    ensures Decide(event, loads, decimal).Update? && Decide(event, loads, decimal).key !in items ==>
      out == Outcome(items, Response(500, InternalError(ItemMissing)), None)
  {
    match Decide(event, loads, decimal)
    case BadRequest => Outcome(items, Response(400, ClientError(MissingFieldsError)), None)
    case Unprocessable(fault) => Outcome(items, Response(500, InternalError(fault)), None)
    case Update(key, change) =>
      if key !in items then Outcome(items, Response(500, InternalError(ItemMissing)), None)
      else
        var row := items[key];
        var newStock := row.currentStock + change;
        var written := items[key := row.(currentStock := newStock, lastUpdated := now)];
        match row.safetyThreshold
        case None => Outcome(written, Response(500, InternalError(ThresholdMissing)), None)
        case Some(threshold) =>
          var alertTriggered := newStock < threshold;
          Outcome(written, Response(200, Updated(UpdatedMessage, newStock, alertTriggered)),
                  if alertTriggered then Some(Alert(key.bloodType, newStock, threshold)) else None)
  }

  /** A request without a BloodType member, or with an empty one, is a 400. */
  lemma AbsentBloodTypeIsBadRequest(fields: map<string, Value>, now: string, items: map<Key, Row>,
                                    loads: string -> Option<Value>, decimal: string -> Option<int>)
    requires "body" !in fields
    requires "BloodType" !in fields || fields["BloodType"] == Str("")
    ensures Handle(items, Obj(fields), now, loads, decimal).response == Response(400, ClientError(MissingFieldsError))
    ensures Handle(items, Obj(fields), now, loads, decimal).items == items
  {
  }

  /** A UnitsChange of zero passes validation and reaches the table. */
  lemma ZeroChangeIsApplied(bloodType: string, location: string, now: string, items: map<Key, Row>,
                            loads: string -> Option<Value>, decimal: string -> Option<int>)
    requires bloodType != "" && Key(bloodType, location) in items
    requires items[Key(bloodType, location)].safetyThreshold.Some?
    ensures var event := Obj(map["BloodType" := Str(bloodType), "UnitsChange" := Num(0), "LocationID" := Str(location)]);
      Decide(event, loads, decimal) == Update(Key(bloodType, location), 0)
      && Handle(items, event, now, loads, decimal).response.statusCode == 200
  {
  }

  /** The table and the notification topic. */
  class InventoryTable {
    var items: map<Key, Row>
    var published: seq<Alert>

    constructor (initial: map<Key, Row>)
      ensures items == initial && published == []
    {
      items := initial;
      published := [];
    }

    /** `lambda_handler`: update one item's stock in place and publish an alert
        when the new stock is below the item's threshold. An item without a
        threshold keeps the written stock and the call fails with a 500. */
    method LambdaHandler(event: Value, now: string,
                         loads: string -> Option<Value>, decimal: string -> Option<int>)
      returns (response: Response)
      modifies this
      ensures var out := Handle(old(items), event, now, loads, decimal);
        items == out.items && response == out.response
        && published == old(published) + (if out.alert.Some? then [out.alert.value] else [])
    {
      var req := Decide(event, loads, decimal);
      if req.BadRequest? {
        return Response(400, ClientError(MissingFieldsError));
      }
      if req.Unprocessable? {
        return Response(500, InternalError(req.fault));
      }
      var key := req.key;
      if key !in items {
        return Response(500, InternalError(ItemMissing));
      }
      items := items[key := items[key].(currentStock := items[key].currentStock + req.change, lastUpdated := now)];
      var newStock := items[key].currentStock;
      if items[key].safetyThreshold.None? {
        return Response(500, InternalError(ThresholdMissing));
      }
      var safetyThreshold := items[key].safetyThreshold.value;
      var alertTriggered := false;
      if newStock < safetyThreshold {
        alertTriggered := true;
        published := published + [Alert(key.bloodType, newStock, safetyThreshold)];
      }
      response := Response(200, Updated(UpdatedMessage, newStock, alertTriggered));
    }
  }
}
