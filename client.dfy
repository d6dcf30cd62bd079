/** The browser script of the inventory dashboard: stock banding, the update
    form's validation and response handling, and the polling render of the
    inventory cards and the blood-type selector. The network, the DOM and the
    clock are parameters: a response arrives as an already decoded value. */
module Client {
  import opened Wrappers
  import opened Json

  // ---------------------------------------------------------------------------
  // Stock bands

  const StatusRed := "status-RED"
  const StatusYellow := "status-YELLOW"
  const StatusGreen := "status-GREEN"

  /** The CSS class of a stock card. Stock below the safety threshold is red,
      stock below one and a half times the threshold is yellow, anything else is
      green. The comparison with `threshold * 1.5` is done exactly, in the
      integer form `2 * stock < 3 * threshold`. */
  function GetStatusClass(currentStock: int, safetyThreshold: int): (cls: string)
    ensures cls == StatusRed || cls == StatusYellow || cls == StatusGreen
    ensures cls == StatusRed <==> currentStock < safetyThreshold
    ensures cls == StatusYellow <==>
      safetyThreshold <= currentStock && (currentStock as real) < (safetyThreshold as real) * 1.5
    ensures cls == StatusGreen <==>
      safetyThreshold <= currentStock && (currentStock as real) >= (safetyThreshold as real) * 1.5
  {
    if currentStock < safetyThreshold then StatusRed
    else if 2 * currentStock < 3 * safetyThreshold then StatusYellow
    else StatusGreen
  }

  /** Position of a band in the order red, yellow, green. */
  function BandRank(cls: string): nat
  {
    if cls == StatusRed then 0 else if cls == StatusYellow then 1 else 2
  }

  /** With the threshold fixed, more stock never gives a worse band. */
  lemma StatusMonotone(lower: int, higher: int, safetyThreshold: int)
    requires lower <= higher
    ensures BandRank(GetStatusClass(lower, safetyThreshold)) <= BandRank(GetStatusClass(higher, safetyThreshold))
  {
  }

  /** The boundaries for a threshold of 10. */
  lemma StatusAtThresholdTen()
    ensures GetStatusClass(9, 10) == StatusRed
    ensures GetStatusClass(10, 10) == StatusYellow
    ensures GetStatusClass(14, 10) == StatusYellow
    ensures GetStatusClass(15, 10) == StatusGreen
  {
  }

  // ---------------------------------------------------------------------------
  // The update form

  const UsageOperation := "usage"
  const InvalidQuantityText := "Please enter a valid quantity."
  const DefaultFailureText := "Failed to update stock."
  const ConnectionErrorText := "API connection error. Check network and CORS."
  const AlertSentText := "ALERT SENT!"

  /** The signed change for a parsed quantity; `None` stands for NaN, which
      `parseInt` yields for text that is not a number, and NaN times -1 stays NaN.
      The sign is flipped exactly when the operation is `usage`. */
  function SignedChange(quantity: Option<int>, operation: string): (change: Option<int>)
    ensures change.Some? <==> quantity.Some?
    ensures change.Some? ==> Abs(change.value) == Abs(quantity.value)
    ensures change.Some? ==>
      (change.value == quantity.value <==> operation != UsageOperation || quantity.value == 0)
  {
    match quantity
    case None => None
    case Some(q) => if operation == UsageOperation then Some(q * -1) else Some(q)
  }

  /** The request body the form sends. */
  datatype Payload = Payload(bloodType: string, unitsChange: int)

  /** The JSON object `JSON.stringify` makes of a payload, as a decoder reads it back. */
  function PayloadJson(p: Payload): Value
  {
    Obj(map["BloodType" := Str(p.bloodType), "UnitsChange" := Num(p.unitsChange)])
  }

  datatype Validation = Rejected | Accepted(payload: Payload)

  /** The check the form makes before any request is built: a NaN or a zero
      change is rejected; otherwise the payload carries the signed change, which
      is negative exactly for usage of a positive quantity or a donation of a
      negative one. */
  function ValidateSubmission(bloodType: string, quantity: Option<int>, operation: string): (v: Validation)
    ensures v.Rejected? <==> quantity.None? || quantity.value == 0
    ensures v.Accepted? ==> v.payload.bloodType == bloodType && v.payload.unitsChange != 0
    ensures v.Accepted? ==> Abs(v.payload.unitsChange) == Abs(quantity.value)
    ensures v.Accepted? ==>
      (v.payload.unitsChange < 0 <==> (operation == UsageOperation) == (quantity.value > 0))
  {
    var change := SignedChange(quantity, operation);
    if change.None? || change.value == 0 then Rejected
    else Accepted(Payload(bloodType, change.value))
  }

  /** What the script learns from a POST: `ok` of the fetch response and the
      value `response.json()` decoded. */
  datatype HttpResponse = HttpResponse(ok: bool, json: Value)

  /** The text shown in the form's message area, before its string interpolation. */
  datatype Message =
    | InvalidQuantity
    | Succeeded(bloodType: string, newStock: Value, alertSent: bool)
    | Failed(detail: Value)
    | ConnectionError

  /** The error text in its preference order: the result's `error`, else the
      envelope's raw `body`, else the generic text. Never falsy. */
  function ErrorDetail(resultError: Value, rawBody: Value): (detail: Value)
    ensures JsTruthy(detail)
    ensures JsTruthy(resultError) ==> detail == resultError
    ensures !JsTruthy(resultError) && JsTruthy(rawBody) ==> detail == rawBody
    ensures !JsTruthy(resultError) && !JsTruthy(rawBody) ==> detail == Str(DefaultFailureText)
  {
    JsOr(JsOr(resultError, rawBody), Str(DefaultFailureText))
  }

  /** The envelope's inner result: the decoded `body` when that field is truthy,
      else the envelope itself. `None` means a throw: `parse` failed (`None` from
      `parse` is a throwing `JSON.parse`). */
  function UnwrapResult(envelope: Value, parse: Value -> Option<Value>): (result: Option<Value>)
    requires Readable(envelope)
    ensures !JsTruthy(Field(envelope, "body")) ==> result == Some(envelope)
    ensures JsTruthy(Field(envelope, "body")) ==> result == parse(Field(envelope, "body"))
  {
    var raw := Field(envelope, "body");
    if JsTruthy(raw) then parse(raw) else Some(envelope)
  }

  /** Success needs both a successful transport status and an embedded status
      code that is exactly 200. */
  predicate UpdateSucceeded(response: HttpResponse)
    requires Readable(response.json)
  {
    response.ok && Field(response.json, "statusCode") == Num(200)
  }

  /** The message for the outcome of a POST. `response` is `None` when `fetch`
      or `response.json()` threw; reading a member of `null` or `undefined` also
      throws; every throw ends in the connection-error message. */
  function HandleUpdateResponse(bloodType: string, response: Option<HttpResponse>,
                                parse: Value -> Option<Value>): (m: Message)
    ensures m != InvalidQuantity
    ensures m.ConnectionError? <==>
      response.None? || !Readable(response.value.json)
      || UnwrapResult(response.value.json, parse).None?
      || !Readable(UnwrapResult(response.value.json, parse).value)
    ensures m.Succeeded? <==> !m.ConnectionError? && UpdateSucceeded(response.value)
    ensures m.Succeeded? ==>
      var result := UnwrapResult(response.value.json, parse).value;
      m.bloodType == bloodType && m.newStock == Field(result, "new_stock")
      && (m.alertSent <==> JsTruthy(Field(result, "alert_triggered")))
    ensures m.Failed? ==>
      var result := UnwrapResult(response.value.json, parse).value;
      m.detail == ErrorDetail(Field(result, "error"), Field(response.value.json, "body"))
  {
    if response.None? || !Readable(response.value.json) then ConnectionError
    else
      var envelope := response.value.json;
      var result := UnwrapResult(envelope, parse);
      if result.None? || !Readable(result.value) then ConnectionError
      else if UpdateSucceeded(response.value) then
        Succeeded(bloodType, Field(result.value, "new_stock"),
                  JsTruthy(Field(result.value, "alert_triggered")))
      else
        Failed(ErrorDetail(Field(result.value, "error"), Field(envelope, "body")))
  }

  predicate StartsWith(text: string, prefix: string)
  {
    |prefix| <= |text| && text[..|prefix|] == prefix
  }

  /** The message text; `show` is JavaScript's conversion of a value inside a
      template literal. A success names the blood type and the new stock, an
      error carries the detail after its prefix. */
  function MessageText(m: Message, show: Value -> string): (text: string)
    ensures m.InvalidQuantity? ==> text == InvalidQuantityText
    ensures m.ConnectionError? ==> text == ConnectionErrorText
    ensures m.Failed? ==> StartsWith(text, "ERROR: ") && text[|"ERROR: "|..] == show(m.detail)
    ensures m.Succeeded? ==>
      StartsWith(text, "SUCCESS: Stock for " + m.bloodType + " is now " + show(m.newStock) + ". ")
  {
    match m
    case InvalidQuantity => InvalidQuantityText
    case Succeeded(bloodType, newStock, alertSent) =>
      "SUCCESS: Stock for " + bloodType + " is now " + show(newStock) + ". "
      + (if alertSent then AlertSentText else "")
    case Failed(detail) => "ERROR: " + show(detail)
    case ConnectionError => ConnectionErrorText
  }

  predicate EndsWith(text: string, suffix: string)
  {
    |suffix| <= |text| && text[|text| - |suffix|..] == suffix
  }

  /** A success message ends with the alert notice exactly when an alert was sent. */
  lemma SuccessTextAnnouncesAlert(m: Message, show: Value -> string)
    requires m.Succeeded?
    ensures EndsWith(MessageText(m, show), AlertSentText) <==> m.alertSent
  {
    var text := MessageText(m, show);
    if !m.alertSent {
      assert text[|text| - 1] == ' ';
      assert AlertSentText[|AlertSentText| - 1] == '!';
    }
  }

  /** The outcome of one submit event: the payload sent (if any), the message
      shown, and whether an immediate refresh of the inventory follows.
      `exchange` stands for the POST and the decoding of its response. */
  datatype SubmitOutcome = SubmitOutcome(sent: Option<Payload>, message: Message, refresh: bool)

  function Submit(bloodType: string, quantity: Option<int>, operation: string,
                  exchange: Payload -> Option<HttpResponse>,
                  parse: Value -> Option<Value>): (o: SubmitOutcome)
    ensures o.sent.None? <==> quantity.None? || quantity.value == 0
    ensures o.sent.None? ==> o.message == InvalidQuantity && !o.refresh
    ensures o.sent.Some? ==>
      ValidateSubmission(bloodType, quantity, operation) == Accepted(o.sent.value)
      && o.sent.value.bloodType == bloodType && o.sent.value.unitsChange != 0
      && o.message == HandleUpdateResponse(bloodType, exchange(o.sent.value), parse)
    ensures o.refresh <==> o.message.Succeeded?
  {
    match ValidateSubmission(bloodType, quantity, operation)
    case Rejected => SubmitOutcome(None, InvalidQuantity, false)
    case Accepted(payload) =>
      var m := HandleUpdateResponse(bloodType, exchange(payload), parse);
      SubmitOutcome(Some(payload), m, m.Succeeded?)
  }

  // ---------------------------------------------------------------------------
  // Rendering the inventory

  /** One entry of the status snapshot, after its stock fields went through `Number()`. */
  datatype Item = Item(bloodType: string, currentStock: int, safetyThreshold: int)

  /** One stock card: the blood type, the stock, the threshold and the band's class. */
  datatype Card = Card(bloodType: string, quantity: int, threshold: int, statusClass: string)

  datatype LoadFailure = RequestFailed | BadStatus(statusCode: Value) | MalformedData

  /** The content of the inventory list: the cards, or the error paragraph. */
  datatype Listing = Cards(cards: seq<Card>) | LoadError(failure: LoadFailure)

  function CardFor(item: Item): Card
  {
    Card(item.bloodType, item.currentStock, item.safetyThreshold,
         GetStatusClass(item.currentStock, item.safetyThreshold))
  }

  function CardsFor(items: seq<Item>): seq<Card>
  {
    seq(|items|, i requires 0 <= i < |items| => CardFor(items[i]))
  }

  function BloodTypes(items: seq<Item>): seq<string>
  {
    seq(|items|, i requires 0 <= i < |items| => items[i].bloodType)
  }

  /** Cards and options come from the same snapshot: the i-th option is the
      blood type on the i-th card, and a card is red exactly when its stock is
      below its threshold. */
  lemma CardsMatchOptions(items: seq<Item>)
    ensures |CardsFor(items)| == |BloodTypes(items)| == |items|
    ensures forall i :: 0 <= i < |items| ==>
      CardsFor(items)[i].bloodType == BloodTypes(items)[i]
      && (CardsFor(items)[i].statusClass == StatusRed <==> items[i].currentStock < items[i].safetyThreshold)
  {
  }

  /** The snapshot carried by a status response, or why there is none.
      `response` is `None` when `fetch` or `response.json()` threw; `decode`
      stands for `JSON.parse` of the body and the per-item reads (`None` when
      either throws). */
  function Snapshot(response: Option<Value>, decode: Value -> Option<seq<Item>>): (r: Result<seq<Item>, LoadFailure>)
    ensures r.Success? <==>
      response.Some? && Readable(response.value) && Field(response.value, "statusCode") == Num(200)
      && decode(Field(response.value, "body")).Some?
    ensures r.Success? ==> decode(Field(response.value, "body")) == Some(r.value)
    ensures r.Failure? && r.error.BadStatus? ==>
      response.Some? && Readable(response.value)
      && r.error.statusCode == Field(response.value, "statusCode") && r.error.statusCode != Num(200)
    ensures response.Some? && Readable(response.value) && Field(response.value, "statusCode") != Num(200) ==>
      r == Failure(BadStatus(Field(response.value, "statusCode")))
    ensures response.None? ==> r == Failure(RequestFailed)
  {
    if response.None? then Failure(RequestFailed)
    else if !Readable(response.value) then Failure(MalformedData)
    else
      var status := Field(response.value, "statusCode");
      if status != Num(200) then Failure(BadStatus(status))
      else match decode(Field(response.value, "body"))
        case None => Failure(MalformedData)
        case Some(items) => Success(items)
  }

  /** The selector's value once its options are rebuilt: a non-empty previous
      choice that is still among the options is chosen again; otherwise the
      first option, or nothing when there are none. */
  function Restored(previous: string, options: seq<string>): (selection: string)
    ensures previous != "" && previous in options ==> selection == previous
    ensures options == [] ==> selection == ""
    ensures options != [] ==> selection in options
  {
    if previous != "" && previous in options then previous
    else if options == [] then "" else options[0]
  }

  /** The `forEach` over the snapshot: one card and one blood type per item, in
      data order. */
  method BuildCards(items: seq<Item>) returns (cards: seq<Card>, bloodTypes: seq<string>)
    ensures cards == CardsFor(items) && bloodTypes == BloodTypes(items)
  {
    cards, bloodTypes := [], [];
    var i := 0;
    while i < |items|
      invariant 0 <= i <= |items|
      invariant cards == CardsFor(items[..i])
      invariant bloodTypes == BloodTypes(items[..i])
    {
      var item := items[i];
      bloodTypes := bloodTypes + [item.bloodType];
      cards := cards + [CardFor(item)];
      i := i + 1;
    }
    assert items[..i] == items;
  }

  /** The dashboard's mutable view: the inventory list, the selector's options
      and value, and the last-updated label. */
  class InventoryPage {
    var listing: Listing
    var options: seq<string>
    var selection: string
    var lastUpdated: string

    /** The selector shows one of its options, or nothing when it has none.
        This rests on `Restored` falling back to the first option when the
        previous choice is gone; a browser given a value that matches no option
        selects none. */
    ghost predicate Valid()
      reads this
    {
      (options == [] ==> selection == "") && (options != [] ==> selection in options)
    }

    constructor ()
      ensures Valid()
      ensures listing == Cards([]) && options == [] && selection == "" && lastUpdated == ""
    {
      listing := Cards([]);
      options := [];
      selection := "";
      lastUpdated := "";
    }

    /** One refresh. On failure only the list changes, to the error paragraph;
        on success the list, the options and the label are replaced from the
        snapshot and the previous choice is restored. `now` is the clock's
        reading. */
    method FetchAndRenderInventory(response: Option<Value>, decode: Value -> Option<seq<Item>>, now: string)
      requires Valid()
      modifies this
      ensures Valid()
      ensures match Snapshot(response, decode)
        case Failure(failure) =>
          listing == LoadError(failure) && options == old(options)
          && selection == old(selection) && lastUpdated == old(lastUpdated)
        case Success(items) =>
          listing == Cards(CardsFor(items)) && options == BloodTypes(items)
          && selection == Restored(old(selection), options) && lastUpdated == now
    {
      var currentSelection := selection;
      var snapshot := Snapshot(response, decode);
      if snapshot.Failure? {
        listing := LoadError(snapshot.error);
        return;
      }
      listing := Cards([]);
      var cards, bloodTypes := BuildCards(snapshot.value);
      listing := Cards(cards);
      options := bloodTypes;
      selection := Restored("", options);
      if currentSelection != "" && currentSelection in options {
        selection := currentSelection;
      }
      lastUpdated := now;
    }
  }
}
