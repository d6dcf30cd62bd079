/** How the browser script and the update handler fit together: the payloads
    the form sends pass the handler's validation, the handler's alert rule is
    the script's red band, and the handler's responses produce the messages the
    script is meant to show when the handler's result reaches it as an
    envelope `{statusCode, body}`. */
module Integration {
  import opened Wrappers
  import opened Json
  import opened Client
  import opened UpdateHandler

  const InternalErrorPrefix := "Internal server error: "

  /** The JSON object `json.dumps` writes into a response's `body`; `describe`
      is Python's `str()` of the exception behind a fault. A success carries
      `new_stock` and `alert_triggered` and no `error`; a failure carries its
      error text. */
  function ResultJson(body: ResponseBody, describe: Fault -> string): (json: Value)
    ensures json.Obj?
    ensures body.Updated? ==>
      && Field(json, "new_stock") == Num(body.newStock)
      && Field(json, "alert_triggered") == Bool(body.alertTriggered)
      && Field(json, "message") == Str(body.message)
      && Field(json, "error") == Undefined
    ensures body.ClientError? ==> Field(json, "error") == Str(body.error)
    ensures body.InternalError? ==>
      Field(json, "error") == Str(InternalErrorPrefix + describe(body.fault))
      && Field(json, "detail") == Str(describe(body.fault))
  {
    match body
    case Updated(message, newStock, alertTriggered) =>
      Obj(map["message" := Str(message), "new_stock" := Num(newStock), "alert_triggered" := Bool(alertTriggered)])
    case ClientError(error) => Obj(map["error" := Str(error)])
    case InternalError(fault) =>
      Obj(map["error" := Str(InternalErrorPrefix + describe(fault)), "detail" := Str(describe(fault))])
  }

  /** The handler's result as one decoded value: status code and body text. */
  function Envelope(response: Response, text: string): Value
  {
    Obj(map["statusCode" := Num(response.statusCode), "body" := Str(text)])
  }

  /** The handler raises an alert exactly when the script would show the
      updated item as a red card. */
  lemma AlertMeansRedCard(items: map<Key, Row>, event: Value, now: string,
                          loads: string -> Option<Value>, decimal: string -> Option<int>)
    requires Handle(items, event, now, loads, decimal).response.statusCode == 200
    ensures var out := Handle(items, event, now, loads, decimal);
      var key := Decide(event, loads, decimal).key;
      var card := CardFor(Item(key.bloodType, out.items[key].currentStock, out.items[key].safetyThreshold.value));
      card.quantity == out.response.body.newStock
      && (out.response.body.alertTriggered <==> card.statusClass == StatusRed)
  {
  }

  /** Every payload the form lets through, with a blood type chosen, passes the
      handler's missing-field check and updates the default location's item by
      the signed change, whether the payload arrives as the event itself or as
      the JSON text of the event's `body` member (other members of the event
      are ignored). */
  lemma SubmittedPayloadIsAccepted(bloodType: string, quantity: Option<int>, operation: string,
                                   event: Value, loads: string -> Option<Value>, decimal: string -> Option<int>)
    requires bloodType != ""
    requires ValidateSubmission(bloodType, quantity, operation).Accepted?
    requires var payload := PayloadJson(ValidateSubmission(bloodType, quantity, operation).payload);
      || event == payload
      || (event.Obj? && "body" in event.fields && event.fields["body"].Str?
          && loads(event.fields["body"].s) == Some(payload))
    ensures var payload := ValidateSubmission(bloodType, quantity, operation).payload;
      Decide(event, loads, decimal) == Update(Key(bloodType, DefaultLocation), payload.unitsChange)
  {
  }

  /** A successful update, delivered as an envelope, is shown as a success with
      the new stock, announcing an alert exactly when the handler sent one. */
  lemma UpdateShownAsSuccess(bloodType: string, response: Response, text: string,
                             parse: Value -> Option<Value>, describe: Fault -> string)
    requires response.statusCode == 200 && response.body.Updated?
    requires text != "" && parse(Str(text)) == Some(ResultJson(response.body, describe))
    ensures HandleUpdateResponse(bloodType, Some(HttpResponse(true, Envelope(response, text))), parse)
      == Succeeded(bloodType, Num(response.body.newStock), response.body.alertTriggered)
  {
  }

  /** A request the handler refuses (400) or fails on (500), delivered as an
      envelope, is shown as an error carrying the handler's own error text. */
  lemma FailureShownAsError(bloodType: string, ok: bool, response: Response, text: string,
                            parse: Value -> Option<Value>, describe: Fault -> string)
    requires response.statusCode != 200 && !response.body.Updated?
    requires response.body.ClientError? ==> response.body.error != ""
    requires text != "" && parse(Str(text)) == Some(ResultJson(response.body, describe))
    ensures HandleUpdateResponse(bloodType, Some(HttpResponse(ok, Envelope(response, text))), parse)
      == Failed(Str(match response.body
                    case ClientError(error) => error
                    case InternalError(fault) => InternalErrorPrefix + describe(fault)
                    case Updated(_, _, _) => ""))
  {
  }

  /** A request without a BloodType, sent to the handler and delivered back as
      an envelope, is shown as the handler's missing-field error. */
  lemma MissingBloodTypeShownAsError(bloodType: string, ok: bool, text: string,
                                     parse: Value -> Option<Value>, describe: Fault -> string)
    requires text != ""
    requires parse(Str(text)) == Some(ResultJson(ClientError(MissingFieldsError), describe))
    ensures HandleUpdateResponse(bloodType,
              Some(HttpResponse(ok, Envelope(Response(400, ClientError(MissingFieldsError)), text))), parse)
      == Failed(Str(MissingFieldsError))
  {
    FailureShownAsError(bloodType, ok, Response(400, ClientError(MissingFieldsError)), text, parse, describe);
  }

  /** When the gateway hands the script the handler's body itself rather than
      the envelope, even a successful update is shown as the generic failure,
      because the script finds no status code of 200 and no error text. */
  lemma BareBodyShownAsFailure(bloodType: string, newStock: int, alertTriggered: bool,
                               parse: Value -> Option<Value>, describe: Fault -> string)
    ensures HandleUpdateResponse(bloodType,
              Some(HttpResponse(true, ResultJson(Updated(UpdatedMessage, newStock, alertTriggered), describe))), parse)
      == Failed(Str(DefaultFailureText))
  {
  }
}
