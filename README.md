# Blood-bank inventory: stock banding, stock updates and low-stock alerts

A Dafny model of the decision logic of a small blood-bank inventory system.

The browser dashboard (`frontend/script.js`) does four things:

- It polls a status endpoint and renders one colour-coded card per blood type.
- It rebuilds the blood-type selector from the same data and keeps the user's choice.
- It validates the stock-adjustment form and sends a signed change.
- It reports the outcome of that update.

The update handler (`backend/update_inventory_and_alert.py`) is an AWS Lambda function. It validates the request and adds the signed change to the stock of one DynamoDB item, keyed by blood type and location. When the new stock falls below the item's safety threshold it publishes a low-stock alert.

Files:

- `wrappers.dfy` — `Option`, `Result` and `Abs`.
- `json.dfy` — decoded JSON values as a tagged datatype. It has an `Undefined` case for JavaScript's absent properties. It also holds JavaScript and Python truthiness, JavaScript property reads (a read of `null`/`undefined` throws) and Python's `dict.get`.
- `client.dfy` (module `Client`) — the browser script:
  - the stock bands;
  - the form's signed change and validation;
  - response unwrapping and message choice;
  - the render. The render is a class `InventoryPage` whose method replaces the list, the options and the selection.
- `update_handler.dfy` (module `UpdateHandler`) — the Lambda handler:
  - body parsing, validation and location defaulting (`Decide`);
  - the whole call as a function of the table (`Handle`);
  - a class `InventoryTable`. It holds the table as a `map` field and the published alerts as a `seq` field. Its `LambdaHandler` updates them in place.
- `integration.dfy` (module `Integration`) — the two halves together:
  - the payloads the form sends pass the handler's checks;
  - the handler's alert rule is the dashboard's red band;
  - the handler's responses produce the intended messages.

Parameters stand for what the model does not compute:

- `JSON.parse` and `json.loads`;
- `Decimal(str(...))` of a string;
- the per-item decoding of the status snapshot (`JSON.parse`, member reads, `Number()`);
- the result of `fetch` plus `response.json()`;
- the clock.

The handler's output reaches the dashboard in one of two ways:

- As an envelope: a decoded value whose `statusCode` and `body` members are present. This is what the script expects. Under it, successes and failures are reported as intended (`UpdateShownAsSuccess`, `FailureShownAsError`).
- As the bare body object. `BareBodyShownAsFailure` shows that the script then reports "Failed to update stock." even for a successful update. The handler formats its return for API Gateway proxy integration, which delivers the body this way.

## Model

| member | source | states |
|---|---|---|
| `Client.GetStatusClass` | frontend/script.js:13-21 | the class is one of `status-RED`, `status-YELLOW`, `status-GREEN`; RED iff stock < threshold; YELLOW iff threshold <= stock < 1.5 * threshold (exact real arithmetic); GREEN iff threshold <= stock and stock >= 1.5 * threshold |
| `Client.StatusMonotone` | frontend/script.js:13-21 | with the threshold fixed, raising the stock never moves the card to a worse band (RED < YELLOW < GREEN) |
| `Client.StatusAtThresholdTen` | frontend/script.js:14-20 | with threshold 10: 9 is RED, 10 and 14 are YELLOW, 15 is GREEN |
| `Client.SignedChange` | frontend/script.js:80-85 | NaN stays NaN; the magnitude is kept; the sign is flipped exactly when the operation is `usage` (any other operation keeps it, so a negative donation stays negative) |
| `Client.ValidateSubmission` | frontend/script.js:80-97 | rejected iff the parsed quantity is NaN or zero; an accepted payload carries the chosen blood type and a non-zero change with the quantity's magnitude, negative exactly for usage of a positive or donation of a negative quantity |
| `Client.UnwrapResult` | frontend/script.js:109-114 | the result is the parsed inner `body` when that member is truthy, else the outer object |
| `Client.ErrorDetail` | frontend/script.js:121 | the error shown is the result's `error` if truthy, else the raw `body` if truthy, else `Failed to update stock.`; it is never falsy |
| `Client.HandleUpdateResponse` | frontend/script.js:108-130 | a throw (failed fetch, failed parse, member read on null/undefined) gives the connection error; otherwise success iff `response.ok` and `statusCode === 200`; a success carries the blood type, `new_stock` and whether `alert_triggered` is truthy; a failure carries `ErrorDetail` of the result's `error` and the raw `body` |
| `Client.SuccessTextAnnouncesAlert` | frontend/script.js:117 | a success message ends with `ALERT SENT!` iff the alert flag is set |
| `Client.Submit` | frontend/script.js:71-132 | no payload is sent iff the quantity is NaN or zero, and then the message is the validation error with no refresh; otherwise the payload sent is exactly the one `ValidateSubmission` accepts (form blood type, signed non-zero change) and the message is the response's; a refresh follows iff the message is a success |
| `Client.MessageText` | frontend/script.js:88-128 | the validation and connection texts are the script's constants; an error text is `ERROR: ` followed by the detail; a success text starts with `SUCCESS: Stock for <type> is now <stock>. ` |
| `Client.Snapshot` | frontend/script.js:28-35 | a snapshot exists iff the response arrived, is readable, has `statusCode === 200` and its body decodes; a readable response with any other status code fails with exactly that code, and a failed request fails as such |
| `Client.CardsMatchOptions` | frontend/script.js:37-57 | one card and one option per item from the same snapshot, in order; the i-th option is the i-th card's blood type; a card is RED iff its stock is below its threshold |
| `Client.Restored` | frontend/script.js:57-61 | a non-empty previous selection that is among the new options is selected again; the selection is one of the options whenever there are any |
| `Client.BuildCards` | frontend/script.js:38-56 | the loop produces exactly the cards and blood types of the snapshot, in data order |
| `Client.InventoryPage.FetchAndRenderInventory` | frontend/script.js:23-69 | on failure only the list changes, to the error for that failure; on success the list becomes the snapshot's cards, the options its blood types, the label the current time and the selection is restored; the selector shows one of its options whenever it has any (this invariant rests on the first-option fallback of `Restored`) |
| `UpdateHandler.RequestBody` | backend/update_inventory_and_alert.py:22-26 | a string `body` member is JSON-decoded and the decoded value is the body (a decoding failure is the `BodyNotJson` fault); otherwise the event itself is the body |
| `UpdateHandler.LocationOf` | backend/update_inventory_and_alert.py:30 | the location is `Main_Branch` when the body has no `LocationID`, else that member |
| `UpdateHandler.MissingField` | backend/update_inventory_and_alert.py:32 | an absent or empty `BloodType`, or an absent or null `UnitsChange`, is missing; a non-empty blood type with a `UnitsChange` of 0 is not |
| `UpdateHandler.UnitsDecimal` | backend/update_inventory_and_alert.py:40 | a number converts to itself, a string through the decimal parser; nothing else converts |
| `UpdateHandler.Decide` | backend/update_inventory_and_alert.py:28-40 | a 400 iff the body is an object with no truthy `BloodType` or a missing/null `UnitsChange`; an update names the body's non-empty blood type, its location (defaulted) and its change as a decimal; conversely a complete body with string blood type and location and a decimal change always becomes that update; a body that fails to decode, is not an object, has a non-decimal change or a non-string key gets its own fault |
| `UpdateHandler.Handle` | backend/update_inventory_and_alert.py:20-97 | status is 200, 400 or 500; 400 iff a field is missing, with error `Missing BloodType or UnitsChange`; no non-200 publishes anything, and every non-200 except a missing threshold leaves the table alone; a 200 means the keyed item existed with a threshold, its stock is old stock + change, its threshold is kept, `LastUpdated` is now, every other item is unchanged, the body is the success message with `new_stock` the new stock and `alert_triggered` iff new stock < threshold, and the alert published (iff triggered) names the blood type, new stock and threshold; an item without `SafetyThreshold` keeps the written stock and the call returns 500; a request that raises before the write, or names an absent item, returns 500 with that fault and leaves the table alone; an update of an existing item succeeds iff it has a threshold |
| `UpdateHandler.AbsentBloodTypeIsBadRequest` | backend/update_inventory_and_alert.py:28-37 | a body without `BloodType`, or with an empty one, gets 400 with the missing-field error and the table is untouched |
| `UpdateHandler.ZeroChangeIsApplied` | backend/update_inventory_and_alert.py:29-32 | a `UnitsChange` of 0 passes the missing-field check and updates the item |
| `UpdateHandler.InventoryTable.LambdaHandler` | backend/update_inventory_and_alert.py:43-89 | the table, the response and the published alerts after one call are those of `Handle` on the table before it (the alert appended only when triggered) |
| `Integration.ResultJson` | backend/update_inventory_and_alert.py:84-96 | a success body carries `message`, `new_stock` and `alert_triggered` and no `error`; a 400 body carries the missing-field error; a 500 body carries `Internal server error: ` plus the exception text, and that text as `detail` |
| `Integration.AlertMeansRedCard` | backend/update_inventory_and_alert.py:62-64 | after a successful update the handler's `alert_triggered` holds iff the dashboard's card for the new stock and threshold is `status-RED` |
| `Integration.SubmittedPayloadIsAccepted` | backend/update_inventory_and_alert.py:22-32 | every payload the form's validation accepts, with a non-empty blood type, passes the handler's check and updates `(blood type, Main_Branch)` by the signed change, whether it arrives as the event itself or as the JSON text of the event's `body` member |
| `Integration.UpdateShownAsSuccess` | frontend/script.js:116-117 | a 200 response delivered as an envelope is shown as a success with the handler's `new_stock` and alert flag |
| `Integration.FailureShownAsError` | frontend/script.js:121-122 | a 400 or 500 response delivered as an envelope is shown as an error with the handler's own `error` text |
| `Integration.MissingBloodTypeShownAsError` | backend/update_inventory_and_alert.py:32-37 | the handler's missing-field 400 reaches the user as `Missing BloodType or UnitsChange` |
| `Integration.BareBodyShownAsFailure` | frontend/script.js:109-121 | when the script receives the handler's bare success body instead of the envelope, it shows `Failed to update stock.` |

## Left out

- Network, DOM and clock:
  - `fetch`, `response.json()`, element lookups, `innerHTML`/`classList` building and the `Date` timestamp are parameters or abstract values;
  - the HTML of the cards and options is reduced to the `Card` values and option strings;
  - the 5-second `setInterval` polling and the initial call are not modelled; each refresh is one call of `FetchAndRenderInventory`.
- The race between overlapping periodic and post-submit refreshes. It is event-loop concurrency with no guard in the script; each call is modelled as atomic.
- `Client.Restored`: when the previous selection is not among the new options, the browser decides the selector's value; the model takes the first option.
- Floating point:
  - stock and thresholds are integers, and `1.5 * threshold` is compared exactly;
  - an item whose stock or threshold is not numeric is not representable; the script would show NaN and band it GREEN;
  - `parseInt` is an `Option<int>` input, with `None` for NaN;
  - fractional `UnitsChange` values and the `Decimal`-to-`int` truncation are not modelled.
- `Client.MessageText`: the template-literal conversion of a value to text is a parameter.
- DynamoDB and SNS are foreign services:
  - the table is a map and `update_item` is modelled as atomic;
  - an update of an absent item, and a key member that is not a string, become 500 with the table unchanged;
  - an item that exists but lacks `CurrentStock` is not represented (DynamoDB refuses the update as for an absent item);
  - `sns.publish` appends to a sequence; its own failures (500 after the stock was already changed) are not modelled;
  - the text of the SNS message, the response headers and the log lines are not modelled.
- `UpdateHandler.UnitsDecimal`: `Decimal(str(x))` of a string is a parameter; booleans, lists and objects are treated as raising, and special decimals (NaN, Infinity) are not distinguished.
- `backend/get_inventory_status.py` (a table scan) and the two `DecimalEncoder` classes are not part of this model.
