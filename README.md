# fake-pms-cs: the insurance-forms messaging protocol, modelled in Dafny

The project models the practice-management demo's cross-window messaging protocol and the small pure helpers that feed it.

- **Host channel.** `InsuranceFormsChannel` runs in the host page. It filters incoming envelopes by the channel name `"insurance-forms"`. It remembers the last sender as the reply target and dispatches by message type to a fixed record of optional listeners. It posts either up the parent/opener chain (`send`) or back to the last sender (`reply`).
- **Form-side client.** `InsuranceFormsClient` keeps:
  - a live registry of callbacks per message type;
  - an auto-detected connection;
  - a `connect` handshake, guarded by a 10 000 ms timer;
  - guarded sends.
- **Prefill selection.** In the patient-visit page, a form's load request is mapped to shareable patient fields. The operator ticks them, and a `prepopulated` map goes back in the load response.
- **Form instance list.** Its status filter, date sort, form-name lookup, status label and navigation target.
- **REST URL templates.**
  - `DatabaseApiEndpoints` builds the templates of one entity.
  - `EntityApiClient` fills in `:id`, `:field` and `:value` by first-occurrence replacement.
  - `APIBase` normalises the leading slash and builds its base URL.

Modules:

| file | module | form |
|---|---|---|
| wrappers.dfy | `Wrappers` | `Option` |
| strings.dfy | `StringUtil` | string search, `replace`, decimal rendering |
| messages.dfy | `Messages` | envelopes, payload interfaces, post targets |
| forms_channel.dfy | `FormsChannel` | class `InsuranceFormsChannel`; its `outbox` and `invoked` fields record every post and every listener call |
| forms_client_spec.dfy | `FormsClientSpec` | the client as a state machine on values, and the properties of the protocol |
| forms_client.dfy | `FormsClient` | class `InsuranceFormsClient`; every method is proved to change the fields exactly as the matching `FormsClientSpec` transition says |
| patient_share.dfy | `PatientShare` | pure field selection, and class `PatientVisitCreator` for the page state and its channel |
| form_instances.dfy | `FormInstances` | pure filter, sort and row display |
| endpoints.dfy | `Endpoints` | endpoint templates |
| entity_urls.dfy | `EntityUrls` | request URLs |
| api_base.dfy | `ApiBase` | `makeUrl` and the base URL |

How the environment is represented:

- **Windows** are abstract `WindowId`s. `postMessage` is an append to an `outbox` of `(target, envelope)`.
- **Promises** are entries `Pending | Resolved(data) | Rejected(error)` of an `attempts` sequence. Attempt `a` is the promise the a-th `connect` returns.
- **Timers.** Attempt `a`'s timer is the explicit event `TimerFires(a)`. `timers` holds those still scheduled.
- **Callbacks.** A caller's callback is `User(id)`, and running it is recorded in `calls`. The handshake's completion handler is `Ready(a)`.
- **`emit`** follows JavaScript `forEach` over the live array. The length is fixed when iteration starts. An index past the current end is skipped, so the completion handler's own `off` shifts the array during dispatch.
- **`Date.now()`** is a parameter `now`.
- **`toLocaleDateString`** is a parameter `formatDate`.
- **`window.location.protocol` and `hostname`** are parameters of `BaseUrl`.

Where the code and the documented design differ, the model follows the code. Lemmas pin down each difference. The one exception is the page's field filter, which has a bug (see "## Findings"): the page uses the corrected filter, and separate lemmas state what the filter as written does.

- `emit` does not isolate a failing callback (there is no try/catch), and that is not modelled.
- A second `connect` does not cancel the first timer. Both stay scheduled (`SecondConnectKeepsFirstTimer`).
- With two `connect` calls pending, one 'form-ready' message strands the second promise (`OverlappingConnectsStrandSecondPromise`):
  - the first completion handler clears `connectionTimeout`, which is by then the second call's timer;
  - the handler's own `off` makes `forEach` skip the second handler;
  - the second promise therefore stays pending, and it can no longer time out.
- The callback registry is an object literal. For a type inherited from `Object.prototype` (`"toString"`, `"__proto__"`, …), `on`, `off` and `emit` throw a TypeError before changing anything (`InheritedTypeChangesNothing`).
- A timeout rejects the promise, but it leaves `isConnected`, the completion handler and `connectionTimeout` as they were (`TimeoutBeforeReadyRejects`).
- `connectToForm`'s `timeout` option is never read. The timer is always 10 000 ms.
- `destroy` and `disconnect` remove a freshly bound function, not the attached handler, so the window handler stays attached:
  - after `destroy`, envelopes still move `replySource` (`DestroyedChannelReceives`);
  - after `disconnect`, a matching message connects the client again (`DisconnectedClientRunsNoCallback`).
- `sendFormData` posts type `'form-data'`. That is not one of the host channel's type tags, so no host listener ever sees form data (`FormDataReachesNoChannelListener`).
- The host channel's `onFormChangeRequest` listener is never called, because the switch has no case for it (`FormChangeNeverDispatched`).

## Model

| member | source | states |
|---|---|---|
| Messages.FormIdOf | client/src/forms/InsuranceFormsClient.ts:30 | `data?.formId` is absent for an absent payload and is the string `formId` of every typed protocol payload |
| Messages.FormNameOf | client/src/forms/InsuranceFormsClient.ts:30 | `data?.formName` is the name carried by a form-ready payload and is absent for payloads that have no name field |
| Messages.Outgoing | client/src/patients/ui/InsuranceFormsChannel.ts:129-134 | an outgoing envelope carries the channel name, the given type and the given data unchanged |
| FormsChannel.TagInjective | client/src/patients/ui/InsuranceFormsChannel.ts:58-66 | distinct message kinds have distinct type tags |
| FormsChannel.Handled | client/src/patients/ui/InsuranceFormsChannel.ts:93-113 | a type selects a switch case only when it is the tag of a switched kind, and every switched kind's tag selects that kind |
| FormsChannel.Dispatch | client/src/patients/ui/InsuranceFormsChannel.ts:93-113 | an envelope calls at most one listener; the called listener is present, switched, and named by the type, and receives the data unchanged; a present, switched, named listener is always called |
| FormsChannel.UnknownTypeInvokesNothing | client/src/patients/ui/InsuranceFormsChannel.ts:94-113 | a type naming no switched kind calls no listener, whatever listeners are present |
| FormsChannel.FormChangeNeverDispatched | client/src/patients/ui/InsuranceFormsChannel.ts:94-113 | a form-change request calls no listener, even a present `onFormChangeRequest` |
| FormsChannel.DeliveredEnvelopeReachesNamedListener | client/src/patients/ui/InsuranceFormsChannel.ts:86-113 | round trip: an envelope built with a switched kind's tag reaches exactly that kind's listener, with identical data, if the receiver has the listener, and nothing otherwise |
| FormsChannel.SendTarget | client/src/patients/ui/InsuranceFormsChannel.ts:137-151 | `send` picks exactly one target: the parent when it exists and is not the window itself, else the opener when present, else the window itself; it never picks a specific window |
| FormsChannel.ReplyPosts | client/src/patients/ui/InsuranceFormsChannel.ts:167 | `reply` posts nothing when no sender is recorded, else exactly one post to the recorded sender, and never to the parent, the opener or the window itself |
| FormsChannel.InsuranceFormsChannel.constructor | client/src/patients/ui/InsuranceFormsChannel.ts:79-84 | a new channel holds the given listeners, has no reply target, and has posted and called nothing |
| FormsChannel.InsuranceFormsChannel.Invoke | client/src/patients/ui/InsuranceFormsChannel.ts:96 | an optional call runs the listener only if it is present |
| FormsChannel.InsuranceFormsChannel.HandleMessage | client/src/patients/ui/InsuranceFormsChannel.ts:86-114 | a wrong-channel envelope changes neither the reply target nor the calls; a matching one, of any type, sets the reply target to the source and makes exactly the calls `Dispatch` gives |
| FormsChannel.InsuranceFormsChannel.Send | client/src/patients/ui/InsuranceFormsChannel.ts:119-155 | exactly one post is appended: the channel-named envelope, to `SendTarget` |
| FormsChannel.InsuranceFormsChannel.Reply | client/src/patients/ui/InsuranceFormsChannel.ts:157-167 | the outbox grows by exactly `ReplyPosts` of the current reply target |
| FormsChannel.InsuranceFormsChannel.SendLoadRequest | client/src/patients/ui/InsuranceFormsChannel.ts:192-194 | one post is made through `send`, with the tag "onLoadRequest" |
| FormsChannel.InsuranceFormsChannel.SendLoadResponse | client/src/patients/ui/InsuranceFormsChannel.ts:196-198 | the post goes through `reply`, with the tag "onLoadResponse" |
| FormsChannel.InsuranceFormsChannel.SendSaveRequest | client/src/patients/ui/InsuranceFormsChannel.ts:203-205 | one post is made through `send`, with the tag "onSaveRequest" |
| FormsChannel.InsuranceFormsChannel.SendSaveResponse | client/src/patients/ui/InsuranceFormsChannel.ts:207-209 | the post goes through `reply`, with the tag "onSaveResponse" |
| FormsChannel.InsuranceFormsChannel.SendSubmitRequest | client/src/patients/ui/InsuranceFormsChannel.ts:214-216 | one post is made through `send`, with the tag "onSubmitRequest" |
| FormsChannel.InsuranceFormsChannel.SendSubmitResponse | client/src/patients/ui/InsuranceFormsChannel.ts:218-220 | the post goes through `reply`, with the tag "onSubmitResponse" |
| FormsChannel.InsuranceFormsChannel.SendFormChangeRequest | client/src/patients/ui/InsuranceFormsChannel.ts:225-227 | one post is made through `send`, with the tag "onFormChangeRequest" |
| FormsChannel.InsuranceFormsChannel.Destroy | client/src/patients/ui/InsuranceFormsChannel.ts:232-235 | the listener record is empty afterwards |
| FormsChannel.RequestReplyRoundTrip | client/src/patients/ui/InsuranceFormsChannel.ts:119-167 | a request sent by one channel and delivered from window `w` to another channel calls the receiver's listener for its kind, if present; the receiver's reply goes to `w` and nowhere else |
| FormsChannel.DestroyedChannelReceives | client/src/patients/ui/InsuranceFormsChannel.ts:232-235 | after `destroy`, a matching envelope calls no listener but still moves the reply target |
| FormsClientSpec.On | client/src/forms/InsuranceFormsClient.ts:113-118 | `on` appends the callback to the end of its type's list, creating the list if needed; for a name inherited from `Object.prototype` it registers nothing; other types and all other state are untouched |
| FormsClientSpec.IndexOfItem | client/src/forms/InsuranceFormsClient.ts:125 | `indexOf` is -1 exactly when the item is absent, and otherwise the first index holding it |
| FormsClientSpec.RemoveFirstSpec | client/src/forms/InsuranceFormsClient.ts:123-130 | `splice` at `indexOf` removes exactly the first copy and keeps the order of the rest; an absent callback changes nothing |
| FormsClientSpec.OffSpec | client/src/forms/InsuranceFormsClient.ts:123-130 | `off` changes only its type's list, by removing the first copy; it changes nothing for an inherited name; other types and all other state are unchanged |
| FormsClientSpec.SettleSpec | client/src/forms/InsuranceFormsClient.ts:48-66 | a promise settles at most once: a settled entry keeps its outcome and no other entry changes |
| FormsClientSpec.ConnectedPayload | client/src/forms/InsuranceFormsClient.ts:30 | the 'connected' payload carries the form-ready announcement's id and name, only the id for the other protocol payloads, and neither for an absent payload |
| FormsClientSpec.Connect | client/src/forms/InsuranceFormsClient.ts:45-67 | `connect(w)` targets `w`, schedules a new timer, records it as `connectionTimeout`, appends a pending promise, and registers its completion handler last for 'form-ready'; nothing else changes |
| FormsClientSpec.TimerFires | client/src/forms/InsuranceFormsClient.ts:50-52 | a scheduled timer fires once and rejects its promise with a timeout if that promise is still pending; a cleared or already fired timer does nothing; nothing else changes |
| FormsClientSpec.Disconnect | client/src/forms/InsuranceFormsClient.ts:170-181 | `disconnect` clears the current timer, drops the target and the connection, and empties the registry |
| FormsClientSpec.SendMessage | client/src/forms/InsuranceFormsClient.ts:186-201 | the answer is true exactly when connected with a target window; then exactly one envelope is posted to that window, otherwise nothing changes |
| FormsClientSpec.SendFormData | client/src/forms/InsuranceFormsClient.ts:72-87 | the same guard as `sendMessage`, posting one 'form-data' envelope |
| FormsClientSpec.OpenForm | client/src/forms/InsuranceFormsClient.ts:135-151 | without a window handle nothing changes and the result is a popup-blocked rejection; with one, `connect` runs on the new window |
| FormsClientSpec.OpenResult | client/src/forms/InsuranceFormsClient.ts:143-150 | a blocked popup is a popup-blocked rejection; an opened window's result is the promise of the `connect` started on it |
| FormsClientSpec.EmitUserRange | client/src/forms/InsuranceFormsClient.ts:36-40 | a run of caller's callbacks in the live list is executed in list order, each once with the data |
| FormsClientSpec.EmitRunsCallbacksInOrder | client/src/forms/InsuranceFormsClient.ts:36-40 | for a type that is not inherited and whose callbacks are all caller's callbacks, `emit` runs exactly those, in registration order, each once with the data, and changes nothing else |
| FormsClientSpec.InheritedTypeChangesNothing | client/src/forms/InsuranceFormsClient.ts:113-130 | for a name inherited from `Object.prototype`, `on`, `off` and `emit` leave the whole state unchanged, because the lookup finds no array and the array call throws |
| FormsClientSpec.InvokeEvolves | client/src/forms/InsuranceFormsClient.ts:55-63 | running any callback keeps the target and the outbox, never disconnects, only appends calls, and never changes a settled promise |
| FormsClientSpec.EmitFromEvolves | client/src/forms/InsuranceFormsClient.ts:36-40 | the same holds for a whole dispatch |
| FormsClientSpec.EmitEvolves | client/src/forms/InsuranceFormsClient.ts:36-40 | the same holds for `emit` of any type, inherited names included |
| FormsClientSpec.WrongChannelIgnored | client/src/forms/InsuranceFormsClient.ts:19-22 | a wrong-channel envelope leaves the whole state unchanged and runs no callback |
| FormsClientSpec.FirstContactConnects | client/src/forms/InsuranceFormsClient.ts:27-33 | the first matching message with a source, while disconnected, targets that source and connects; the 'connected' callbacks run with the message's `formId`/`formName` before any callback of the message's own type |
| FormsClientSpec.ConnectedOnlyOnce | client/src/forms/InsuranceFormsClient.ts:27-33 | once connected, a message only dispatches its own type; 'connected' is not emitted again, and the connection and target stay |
| FormsClientSpec.SettledPromiseStaysSettled | client/src/forms/InsuranceFormsClient.ts:48-66 | no message changes a promise that has already settled |
| FormsClientSpec.ReadyAfterUserCallbacks | client/src/forms/InsuranceFormsClient.ts:55-63 | a 'form-ready' dispatch ending in the completion handler resolves its promise with the payload, connects, clears the timer, and removes the handler |
| FormsClientSpec.ReadyBeforeTimeoutResolves | client/src/forms/InsuranceFormsClient.ts:45-67 | handshake success: after `connect`, a 'form-ready' message resolves the new promise with its payload, clears the timer, connects, and removes the handler; the timer then cannot fire a timeout |
| FormsClientSpec.TimeoutBeforeReadyRejects | client/src/forms/InsuranceFormsClient.ts:50-52 | handshake timeout: if the timer fires first, the promise is rejected with a timeout; `isConnected`, the handler and `connectionTimeout` stay; no later message resolves it |
| FormsClientSpec.SecondConnectKeepsFirstTimer | client/src/forms/InsuranceFormsClient.ts:50 | a second `connect` leaves both timers scheduled, and the first still rejects its promise |
| FormsClientSpec.OverlappingConnectsStrandSecondPromise | client/src/forms/InsuranceFormsClient.ts:50-65 | after two `connect` calls, one 'form-ready' message resolves the first promise; the second stays pending, its handler is still registered, and its timer is cleared, so firing it does nothing |
| FormsClientSpec.ReadyHandlerSkipsNextCallback | client/src/forms/InsuranceFormsClient.ts:36-63 | the handler's own `off` during `forEach` skips the callback registered after it on the handshake message; that callback runs on the next 'form-ready' |
| FormsClientSpec.DisconnectIdempotent | client/src/forms/InsuranceFormsClient.ts:170-181 | disconnecting twice gives the same state as disconnecting once |
| FormsClientSpec.DisconnectedClientRunsNoCallback | client/src/forms/InsuranceFormsClient.ts:170-181 | after `disconnect` no message runs a callback or settles a promise; a matching message with a source reconnects the client |
| FormsClientSpec.ConnectToFormBlockedCleansUp | client/src/forms/InsuranceFormsClient.ts:207-228 | with a blocked popup, `connectToForm` rejects at once with popup-blocked and leaves a fresh, disconnected client |
| FormsClientSpec.ConnectToFormTimeoutCleansUp | client/src/forms/InsuranceFormsClient.ts:207-228 | when the handshake times out, the promise is rejected with a timeout and the client ends disconnected, with no timer, no target and an empty registry |
| FormsClient.InsuranceFormsClient.constructor | client/src/forms/InsuranceFormsClient.ts:12-17 | a new client: the given target, not connected, no timer, empty registry |
| FormsClient.InsuranceFormsClient.HandleMessage | client/src/forms/InsuranceFormsClient.ts:19-34 | the fields change exactly as `FormsClientSpec.HandleMessage` |
| FormsClient.InsuranceFormsClient.Emit | client/src/forms/InsuranceFormsClient.ts:36-40 | the `forEach` loop over the live list changes the fields exactly as `FormsClientSpec.Emit` |
| FormsClient.InsuranceFormsClient.Invoke | client/src/forms/InsuranceFormsClient.ts:38 | one callback changes the fields exactly as `FormsClientSpec.Invoke` |
| FormsClient.InsuranceFormsClient.HandleReady | client/src/forms/InsuranceFormsClient.ts:55-63 | the completion handler changes the fields exactly as `FormsClientSpec.HandleReady` |
| FormsClient.InsuranceFormsClient.OnCallback | client/src/forms/InsuranceFormsClient.ts:113-118 | only the registry changes, exactly as `FormsClientSpec.On` |
| FormsClient.InsuranceFormsClient.OffCallback | client/src/forms/InsuranceFormsClient.ts:123-130 | only the registry changes, exactly as `FormsClientSpec.Off` |
| FormsClient.InsuranceFormsClient.On | client/src/forms/InsuranceFormsClient.ts:113-118 | a caller's callback is registered as `FormsClientSpec.On` says; the call throws exactly for an inherited name |
| FormsClient.InsuranceFormsClient.Off | client/src/forms/InsuranceFormsClient.ts:123-130 | a caller's callback is removed as `FormsClientSpec.Off` says; the call throws exactly for an inherited name |
| FormsClient.InsuranceFormsClient.OnFormReady | client/src/forms/InsuranceFormsClient.ts:92-94 | the callback is registered for 'form-ready' |
| FormsClient.InsuranceFormsClient.OnFormSave | client/src/forms/InsuranceFormsClient.ts:99-101 | the callback is registered for 'form-save' |
| FormsClient.InsuranceFormsClient.OnConnected | client/src/forms/InsuranceFormsClient.ts:106-108 | the callback is registered for 'connected' |
| FormsClient.InsuranceFormsClient.Connect | client/src/forms/InsuranceFormsClient.ts:45-67 | the fields change exactly as `FormsClientSpec.Connect`; the answer is the new promise's number |
| FormsClient.InsuranceFormsClient.TimerFires | client/src/forms/InsuranceFormsClient.ts:50-52 | only timers and promises change, exactly as `FormsClientSpec.TimerFires` |
| FormsClient.InsuranceFormsClient.SendMessage | client/src/forms/InsuranceFormsClient.ts:186-201 | the outbox and the answer are exactly as `FormsClientSpec.SendMessage` gives |
| FormsClient.InsuranceFormsClient.SendFormData | client/src/forms/InsuranceFormsClient.ts:72-87 | the outbox and the answer are exactly as `FormsClientSpec.SendFormData` gives |
| FormsClient.InsuranceFormsClient.OpenForm | client/src/forms/InsuranceFormsClient.ts:135-151 | the URL opened is `baseUrl + "/#/forms/display/" + formId`; the fields and the outcome are as `FormsClientSpec.OpenForm` gives |
| FormsClient.InsuranceFormsClient.Disconnect | client/src/forms/InsuranceFormsClient.ts:170-181 | the fields change exactly as `FormsClientSpec.Disconnect` |
| FormsClient.ConnectToForm | client/src/forms/InsuranceFormsClient.ts:207-228 | a fresh client opens the form URL and disconnects on an immediate rejection, as `FormsClientSpec.ConnectToForm` |
| FormsClient.ConnectToFormTimerFires | client/src/forms/InsuranceFormsClient.ts:224-227 | the timer of the fresh client's only promise, attempt 0, fires; a timeout rejection reaches the `catch`, which disconnects, as `FormsClientSpec.ConnectToFormTimerFires` |
| FormsClient.ConnectToIframe | client/src/forms/InsuranceFormsClient.ts:233-241 | a fresh client that connects to the frame's window when there is one |
| FormsClient.FormDataReachesNoChannelListener | client/src/forms/InsuranceFormsClient.ts:78-85 | a 'form-data' envelope from the client calls no listener of the host channel |
| PatientShare.FieldMapping | client/src/patients/ui/PatientVisitCreator.tsx:136-162 | the mapping has exactly the six `client.*` keys, and the date of birth has a value exactly when the patient's date is truthy |
| PatientShare.RequestedKeys | client/src/patients/ui/PatientVisitCreator.tsx:164-165 | the kept ids are at most as many as requested, and each is one of the six keys |
| PatientShare.RequestedKeysAppend | client/src/patients/ui/PatientVisitCreator.tsx:164-165 | filtering keeps request order: it distributes over concatenation |
| PatientShare.RequestedKeysCount | client/src/patients/ui/PatientVisitCreator.tsx:164-165 | each known id is kept as often as it was requested, and every other id is dropped |
| PatientShare.RequestedKeysMembers | client/src/patients/ui/PatientVisitCreator.tsx:164-165 | an id is kept exactly when it was requested and is one of the six keys |
| PatientShare.ShareableFields | client/src/patients/ui/PatientVisitCreator.tsx:164-171 | with the corrected filter: one row per kept id, in order, ticked, with the caption and value of the mapping entry for its key |
| PatientShare.RequestedKeysAsWritten | client/src/patients/ui/PatientVisitCreator.tsx:165 | the filter as written keeps own keys and the names inherited from `Object.prototype` |
| PatientShare.RequestedKeysAsWrittenMembers | client/src/patients/ui/PatientVisitCreator.tsx:165 | as written, an id passes exactly when it was requested and is an own key or an inherited name |
| PatientShare.ShareableFieldsAsWritten | client/src/patients/ui/PatientVisitCreator.tsx:164-171 | the rows as written: one ticked row per id passing that filter, in order; an own key gets its caption and value, an inherited name gets neither |
| PatientShare.InheritedOnlyRequestOpensDialog | client/src/patients/ui/PatientVisitCreator.tsx:164-285 | as written, a request for just "toString" yields one row, so the page opens the dialog, and the reply map is empty; the corrected filter yields no row |
| PatientShare.AsWrittenRowsShareTheSame | client/src/patients/ui/PatientVisitCreator.tsx:164-203 | for every request, the rows as written and the corrected rows give the same `prepopulated` map |
| PatientShare.InheritedNameSlipsThrough | client/src/patients/ui/PatientVisitCreator.tsx:164-171 | a request for "toString" passes the filter as written, though the mapping has no entry for it; the corrected filter drops it |
| PatientShare.FiltersAgreeWithoutInheritedNames | client/src/patients/ui/PatientVisitCreator.tsx:165 | on requests naming no inherited property, the filter as written and the corrected one agree |
| PatientShare.SelectAll | client/src/patients/ui/PatientVisitCreator.tsx:177-181 | every row gets the new ticked state; the length, order, keys, captions and values are kept |
| PatientShare.FieldCheck | client/src/patients/ui/PatientVisitCreator.tsx:184-188 | only rows with the key get the new ticked state; all other rows are identical |
| PatientShare.SelectAllLastWins | client/src/patients/ui/PatientVisitCreator.tsx:177-181 | only the last select-all counts |
| PatientShare.FieldCheckProperties | client/src/patients/ui/PatientVisitCreator.tsx:184-188 | ticking an absent key changes nothing, and ticking twice is ticking once |
| PatientShare.PrepopulatedKeys | client/src/patients/ui/PatientVisitCreator.tsx:198-203 | the response's keys are exactly the keys of rows that are ticked and have a non-empty value |
| PatientShare.PrepopulatedLastWins | client/src/patients/ui/PatientVisitCreator.tsx:198-203 | each key maps to the value of the last such row with that key |
| PatientShare.CollectResponseData | client/src/patients/ui/PatientVisitCreator.tsx:198-203 | the `forEach` loop builds exactly `Prepopulated` of the rows |
| PatientShare.FreshRowsShareTruthyFields | client/src/patients/ui/PatientVisitCreator.tsx:130-203 | for freshly built rows, the response offers exactly the requested known fields whose patient value is truthy, each with that value |
| PatientShare.PatientVisitCreator.constructor | client/src/patients/ui/PatientVisitCreator.tsx:262-288 | the page's channel listens for load requests only and starts with no reply target; no request is stored and the dialog is closed |
| PatientShare.PatientVisitCreator.OnLoadRequest | client/src/patients/ui/PatientVisitCreator.tsx:264-286 | without a patient or a frame nothing changes; otherwise the dialog opens with the rows and the request only when there is at least one row |
| PatientShare.PatientVisitCreator.HandleSelectAll | client/src/patients/ui/PatientVisitCreator.tsx:177-181 | the rows become `SelectAll` of the old rows |
| PatientShare.PatientVisitCreator.HandleFieldCheck | client/src/patients/ui/PatientVisitCreator.tsx:184-188 | the rows become `FieldCheck` of the old rows |
| PatientShare.PatientVisitCreator.HandleShareSubmit | client/src/patients/ui/PatientVisitCreator.tsx:191-217 | with no stored request nothing is sent and nothing changes; otherwise one load response is replied, with the request's `formId`, the rows' `Prepopulated` map and empty content; then the dialog closes and the request is cleared |
| PatientShare.PatientVisitCreator.HandleShareCancel | client/src/patients/ui/PatientVisitCreator.tsx:220-223 | the dialog closes and the request is cleared |
| PatientShare.PatientVisitCreator.Receive | client/src/patients/ui/PatientVisitCreator.tsx:262-288 | a message reaching the page goes through the channel; the dialog opens exactly when a dispatched load request yields rows |
| PatientShare.ShareExchange | client/src/patients/ui/PatientVisitCreator.tsx:191-217 | a load request from window `w`, then submit, posts to `w` only one load response, for the same form, with the fresh rows' shared values and empty content |
| FormInstances.Toggle | client/src/forms/ui/MyFormInstances.tsx:88 | the toggle always changes the mode |
| FormInstances.ToggleTwiceRestores | client/src/forms/ui/MyFormInstances.tsx:88 | two toggles restore the mode |
| FormInstances.GetFormName | client/src/forms/ui/MyFormInstances.tsx:53-56 | the name of the first form with the id, or the id itself when no form has it |
| FormInstances.Filtered | client/src/forms/ui/MyFormInstances.tsx:58-63 | the filter keeps only instances it accepts, out of the input (as a sub-multiset) |
| FormInstances.FilteredAppend | client/src/forms/ui/MyFormInstances.tsx:58-63 | filtering keeps order: it distributes over concatenation |
| FormInstances.UnfilteredKeepsAll | client/src/forms/ui/MyFormInstances.tsx:58-63 | "all", and any unrecognised value, keep every instance |
| FormInstances.DraftAndSubmittedPartition | client/src/forms/ui/MyFormInstances.tsx:60-61 | "draft" and "submitted" partition the instances |
| FormInstances.OrderedMeansDates | client/src/forms/ui/MyFormInstances.tsx:64-68 | sorted means non-increasing dates in "desc" mode and non-decreasing dates in "asc" mode |
| FormInstances.Insert | client/src/forms/ui/MyFormInstances.tsx:64-68 | inserting adds exactly the one element |
| FormInstances.InsertOrdered | client/src/forms/ui/MyFormInstances.tsx:64-68 | inserting into a sorted list keeps it sorted |
| FormInstances.SortByDate | client/src/forms/ui/MyFormInstances.tsx:64-68 | the sorted copy is a permutation of the input |
| FormInstances.SortByDateOrdered | client/src/forms/ui/MyFormInstances.tsx:64-68 | the sorted copy is ordered by the comparator's direction |
| FormInstances.SortByDateKeepsOrdered | client/src/forms/ui/MyFormInstances.tsx:64-68 | the sort leaves an ordered list unchanged, so equal dates keep their order |
| FormInstances.Rows | client/src/forms/ui/MyFormInstances.tsx:58-68 | the table holds the filtered instances, each as often as the filter keeps it |
| FormInstances.RowsSortedAndKept | client/src/forms/ui/MyFormInstances.tsx:58-68 | the table is ordered, and every row passes the filter |
| FormInstances.NavTarget | client/src/forms/ui/MyFormInstances.tsx:119-123 | the link starts with "/forms/view/" exactly for submitted instances, and with "/forms/fill/" exactly for the others; after that prefix come the form id, "?instance=" and the instance id |
| FormInstances.RowAgrees | client/src/forms/ui/MyFormInstances.tsx:110-126 | the status label, the button label and the link agree |
| FormInstances.NavTargetInjective | client/src/forms/ui/MyFormInstances.tsx:119-123 | when form ids have no '?', the link determines the status, the form id and the instance id |
| Endpoints.ForEntity | common/src/api/database/DatabaseApiEndpoints.ts:4-6 | `basePath` is "/api/repo/" followed by the entity name |
| Endpoints.Suffix | common/src/api/database/DatabaseApiEndpoints.ts:8-43 | every template's suffix starts a new path segment |
| Endpoints.EndpointSuffix | common/src/api/database/DatabaseApiEndpoints.ts:8-43 | every template is `basePath` followed by its kind's suffix |
| Endpoints.SharedTemplates | common/src/api/database/DatabaseApiEndpoints.ts:8-34 | `list`, `create` and `deleteAll` are `basePath + "/items"`; `item`, `update` and `delete` are that plus "/:id"; `count` and `exists` have their own paths |
| Endpoints.EveryEndpointUnderBase | common/src/api/database/DatabaseApiEndpoints.ts:8-43 | every endpoint lies under `basePath + "/"` |
| Endpoints.EntityOfRepoPath | common/src/api/database/DatabaseApiEndpoints.ts:5 | the segment after the repository prefix, up to the next slash, is the entity name |
| Endpoints.EntityOfEndpoint | common/src/api/database/DatabaseApiEndpoints.ts:4-43 | a slash-free entity name is recovered from any of its endpoints |
| Endpoints.DistinctEntitiesNeverCoincide | common/src/api/database/DatabaseApiEndpoints.ts:4-43 | endpoints of two distinct slash-free entities never coincide |
| Endpoints.RegisteredEndpointsDisjoint | common/src/api/database/DatabaseApiEndpointRegistry.ts:3-7 | no endpoint of "form-instances", "forms" or "patients" equals an endpoint of another of them |
| StringUtil.IndexFrom | client/src/database/api/EntityApiClient.ts:17 | the first occurrence at or after a position, or -1 when there is none |
| StringUtil.IndexOf | client/src/database/api/EntityApiClient.ts:17 | the first occurrence, or -1 exactly when there is none |
| StringUtil.ReplaceFirst | client/src/database/api/EntityApiClient.ts:17 | without an occurrence the string is unchanged |
| StringUtil.ReplaceFirstAt | client/src/database/api/EntityApiClient.ts:17 | only the first occurrence is replaced |
| StringUtil.NatToString | client/src/database/api/EntityApiClient.ts:82 | a non-empty run of decimal digits |
| StringUtil.IntToString | client/src/database/api/EntityApiClient.ts:82 | a minus sign exactly for negative numbers, followed by the digits of the magnitude |
| StringUtil.DecimalRoundTrip | client/src/database/api/EntityApiClient.ts:82 | reading the rendered digits back yields the number |
| StringUtil.NatToStringInjective | client/src/database/api/EntityApiClient.ts:82 | distinct naturals render differently |
| StringUtil.IntToStringInjective | client/src/database/api/EntityApiClient.ts:82 | distinct integers render differently |
| EntityUrls.FillSlot | client/src/database/api/EntityApiClient.ts:17 | a placeholder after a colon-free prefix is the one `replace` fills |
| EntityUrls.ItemUrls | client/src/database/api/EntityApiClient.ts:16-44 | `getItem`, `update` and `delete` on a colon-free entity request `basePath + "/items/" + id` |
| EntityUrls.ExistsUrlShape | client/src/database/api/EntityApiClient.ts:53-55 | `exists` requests `basePath + "/exists/" + id` |
| EntityUrls.NoValueBeforeSlot | client/src/database/api/EntityApiClient.ts:59-60 | once the field is written in, the first ":value" is the template's own placeholder, when the field does not contain ":value" |
| EntityUrls.FindUrl | client/src/database/api/EntityApiClient.ts:56-76 | replacing ":field" and then ":value" writes the field and the value into their own segments |
| EntityUrls.FindByFieldUrlShape | client/src/database/api/EntityApiClient.ts:56-62 | `findByField` requests `basePath + "/find/" + field + "/" + value` |
| EntityUrls.FindOneByFieldUrlShape | client/src/database/api/EntityApiClient.ts:63-69 | `findOneByField` requests `basePath + "/findOne/" + field + "/" + value` |
| EntityUrls.FindAndCountByFieldUrlShape | client/src/database/api/EntityApiClient.ts:70-76 | `findAndCountByField` requests `basePath + "/findAndCount/" + field + "/" + value` |
| EntityUrls.NoAmpersand | client/src/database/api/EntityApiClient.ts:82 | a rendered page number contains no '&' |
| EntityUrls.PaginationQuery | client/src/database/api/EntityApiClient.ts:81-84 | after `list + "?page="` comes the page number, then '&', then "limit=" and the limit |
| EntityUrls.PaginationInjective | client/src/database/api/EntityApiClient.ts:81-84 | the pagination URL determines both the page and the limit |
| EntityUrls.RequestedCollectionUrls | client/src/database/api/EntityApiClient.ts:12-52 | `list`, `create` and `deleteAll` request the same URL, `baseUrl + "/api/repo/" + entity + "/items"`, and `count` its own |
| EntityUrls.RequestedItemUrl | client/src/database/api/EntityApiClient.ts:16-18 | `getItem` on a colon-free entity requests `baseUrl + "/api/repo/" + entity + "/items/" + id` |
| ApiBase.BaseUrl | client/src/api/APIBase.ts:2-8 | the base URL is the protocol, "//", the host name and ":3000" |
| ApiBase.Normalize | client/src/api/APIBase.ts:12-14 | the normalised endpoint starts with "/"; it is the endpoint unchanged when that already starts with "/", and otherwise the endpoint with one slash in front |
| ApiBase.MakeUrl | client/src/api/APIBase.ts:10-17 | `makeUrl(e)` is `baseUrl` followed by a tail that starts with "/" and equals `e` when `e` already does |
| ApiBase.NormalizeIdempotent | client/src/api/APIBase.ts:12-14 | normalising twice is normalising once |
| ApiBase.MissingSlashIsAdded | client/src/api/APIBase.ts:10-17 | `makeUrl(x)` equals `makeUrl("/" + x)` when `x` has no leading slash, and `makeUrl("")` is `baseUrl + "/"` |

## Left out

- Real windows are not modelled: `postMessage`, `window.parent` and `window.opener` identity, the `"*"` target origin, and adding and removing event listeners. Windows are abstract ids, posts go to an outbox, and handlers are called as methods.
- `Date.now()` is not modelled. Timestamps are a parameter and informational only.
- Real time and JavaScript promises are not modelled. The 10 000 ms timer is the explicit event `TimerFires`. Promises are outcome entries. The `.then` that adds the window to `openForm`'s result is not modelled.
- `FormsClient.ConnectToFormTimerFires`: the `catch` of `connectToForm` runs on a later microtask in the source; the model runs it in the same step as the timeout.
- `FormsClientSpec.EmitRunsCallbacksInOrder`: it is stated only for dispatches whose callbacks are all caller's callbacks. A caller's callback that calls back into the client (`on`, `off`, `connect`, …) during `forEach` is not modelled, because callbacks are opaque.
- `FormsClientSpec.On`, `FormsClientSpec.Off` and `FormsClientSpec.Emit` model the TypeError of an inherited type name only through its effect: the state is unchanged. That the exception propagates is not modelled, except that `FormsClient.InsuranceFormsClient.On` and `Off` report it. When `handleMessage` receives such a type, the state reached before its last `emit` stays.
- `PatientShare.ShareableFields`, `PatientShare.PatientVisitCreator.OnLoadRequest`, `PatientShare.PatientVisitCreator.Receive` and `PatientShare.ShareExchange` use the corrected filter of the Finding. For a request naming only inherited properties, such as `["toString"]`:
  - the source opens the dialog with rows that have no caption and no value, and submitting replies with an empty map;
  - the page model stays as it was.
  `ShareableFieldsAsWritten` and `InheritedOnlyRequestOpensDialog` state the source's rows. `AsWrittenRowsShareTheSame` shows that the reply map is the same for every request.
- Exceptions thrown by callbacks are not modelled. The source has no try/catch, so such an exception would abort the rest of the `forEach`.
- `console.log` and `console.warn` output is not modelled.
- The window features string of `openForm`, and `window.location.origin` as the default base URL, are not modelled. The base URL is a parameter.
- `toLocaleDateString` is the parameter `formatDate`. An invalid date string is whatever that function returns.
- The `"/api"` initial value of `baseUrl` is not modelled. The constructor always overwrites it.
- `String.prototype.replace` special `$` patterns in the replacement text are not modelled. Ids, fields and values are inserted literally.
- `StringUtil.IntToString` renders every integer as plain decimal, and that matches `Number.prototype.toString` only for safe integers (|n| < 2^53). Not modelled: the exponent form from 1e21 on, the precision loss above 2^53, non-integral numbers, non-finite numbers and `-0`.
- `StringUtil.DecimalRoundTrip`, `StringUtil.IntToStringInjective` and `EntityUrls.PaginationInjective` are therefore statements about that plain decimal rendering. For the source's numbers they hold on safe integers.
- The HTTP plumbing in `APIBase` is not modelled: `fetchJSON`, `fetchBlob`, `postJSON` and `putJSON`. That includes the request bodies of `create` and `update`, which JSON-encode the options object around an already encoded body. JSON encoding is not modelled.
- The rest of the repository is not modelled: the server (ORM entities, routing, file storage), the React rendering and hooks, local storage, and the page's `fetch` calls and visit `handleSubmit`.
- A load request whose payload is not a load request object is not modelled (in the source `request.fields` would then be undefined and the filter call would throw). `PatientVisitCreator.OnLoadRequest` requires a load request payload, as its TypeScript type does.
- React's `useMemo` re-creation of the page's channel when the patient changes is not modelled. The page holds one channel.
- `FormInstances.SortByDate`: stability is proved only for input already in order, which includes lists whose dates are all equal. General stability, that equal dates keep their relative order in any input, is not stated.
- That the sort leaves `instances` unreordered is not stated separately. The model works on values, so the input list cannot change.
- Dates are milliseconds (`updatedAt: int`). `new Date(...).getTime()` is not modelled, and an unparseable date would give NaN there.
- `data?.submitted` is modelled as a boolean, its truthiness.

## Findings

| source | as written | input that shows it | evidently intended | confidence | as-written member | corrected member |
|---|---|---|---|---|---|---|
| client/src/patients/ui/PatientVisitCreator.tsx:165 | the filter `fieldMapping[field]` reads an object literal, so names inherited from `Object.prototype` are truthy and pass it; the following `map` then builds a row whose caption and value are undefined | a load request with `fields: ["toString"]` | keep only ids that are own keys of the mapping (the six `client.*` ids) | not executed | PatientShare.RequestedKeysAsWritten | PatientShare.RequestedKeys |
