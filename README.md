# Webhook registry and temperature fan-out

A Dafny model of the notification core of a small weather service written in
Go. Third parties subscribe a callback URL to a city ("webhooks"); every new
temperature reading for that city is posted to each subscriber. The modelled
parts are:

- **the webhook store** (`addWebhook`, `deleteWebhook` in `app/webhooks.go`):
  an ordered slice of `Webhook{ID, CityID, CallbackURL}` updated in place.
  In `store.dfy`, class `WebhookStore.Store` keeps it as an array plus a
  length, growing the array when full like Go's `append`. `deleteWebhook`'s
  scan, shift and truncation are loops over that array. Both methods are
  proved against the value-level functions `Add` and `Delete`.
- **the mutation actor** (`webhookStoreRoutine`): the tagged actions on the
  channel are a sequence consumed in order (`actor.dfy`). `"add"` adds, any
  other tag deletes, and a failure is logged while the loop goes on. Its
  meaning is the left fold `ApplyAll` together with the log `ErrorLog`.
- **startup restore** (`restoreWebhooks`): fetched rows become one `"add"`
  action each, in row order; a failed fetch logs and sends nothing.
- **the notifier** (`sendTemperature`, `webhookRoutine` in
  `app/temperatures.go` and `app/webhooks.go`), in `notifier.dfy`. It
  validates the reading and collects the callback URLs of its city in store
  order. It builds one payload and posts it to each URL in turn, stopping at
  the first transport error. The transport is an oracle `Transport`
  (URL and payload to error). The URLs actually posted to are a ghost output.
- **the mock transport** (`mocks`, `enableMocks` and their four setters, and the
  mock branch of `sendRequest` in `app/app.go`), in `mocks.dfy`: a `Registry`
  object standing for the two package variables. `AsTransport` turns a
  registry state into the notifier's oracle.

`scenarios.dfy` states concrete runs as lemmas: some restate the unit tests'
settings and expected results, others go beyond them (a restore followed by a
reading, a payload with given values).

Go's `*App` receiver becomes an explicit `Store` parameter, and the package
variables become one `Registry` object. Log output is modelled as the
returned sequence of logged messages. Integers are unbounded: the core only
compares ids, cities and timestamps with zero and with each other, so Go's
64-bit width never matters.

Two behaviours of the source a reader might not expect:
- `deleteWebhook` removes the entry at the *last* index whose id matches, not
  the first one. Because of this, adding a valid webhook and deleting it by
  id gives back the earlier list even when that id was already present
  (`AddThenDelete`).
- Ids are not kept unique: a duplicate id is appended (`DuplicateIdsKept`).

## Model

| member | source | states |
|---|---|---|
| WebhookStore.LastIndexOf | app/webhooks.go:73-80 | the scan's result is -1 exactly when no entry has the id; otherwise the entry there has the id and no later entry has it |
| WebhookStore.RemoveAt | app/webhooks.go:84-86 | the shift-and-truncate leaves one entry fewer: entries before the index stay, entries after move down by one |
| WebhookStore.AddSpec | app/webhooks.go:60-67 | add succeeds iff id, city and URL are all non-zero/non-empty; on failure the list is unchanged and the error is "Invalid webhook"; on success the list is the old one followed by the webhook, duplicates included |
| WebhookStore.DeleteSpec | app/webhooks.go:70-88 | delete succeeds iff some entry has the id; on failure the list is unchanged with "Webhook not found"; on success exactly the last matching entry is removed, the others keep their order, and the multiset loses just that entry |
| WebhookStore.AddThenDelete | app/webhooks.go:60-88 | adding a valid webhook and deleting by its id succeeds and restores the earlier list |
| WebhookStore.OperationsKeepValid | app/webhooks.go:60-88 | if every entry is valid before add or delete, every entry is valid after |
| WebhookStore.DuplicateIdsKept | app/webhooks.go:60-67 | the same valid webhook added twice is stored twice |
| WebhookStore.Store.constructor | app/app.go:48-51 | a fresh store holds no webhook |
| WebhookStore.Store.AddWebhook | app/webhooks.go:60-68 | the array-backed list and the returned error are exactly those of `Add` on the old list |
| WebhookStore.Store.FindLast | app/webhooks.go:73-80 | the scan over the array reports the id as found exactly when some entry has it, and then gives the last such index; otherwise the index keeps its initial 0 |
| WebhookStore.Store.ShiftOut | app/webhooks.go:84-86 | shifting the later entries down, clearing the freed slot and shortening the list leaves exactly the list with that index taken out |
| WebhookStore.Store.DeleteWebhook | app/webhooks.go:70-88 | the scan, shift, clearing of the freed slot and truncation leave the list and error of `Delete` on the old list |
| WebhookActor.FailedActionChangesNothing | app/webhooks.go:24-34 | a failing action leaves the list as it was; any tag other than "add" deletes |
| WebhookActor.ApplyAllConcat | app/webhooks.go:21-36 | applying two batches one after the other gives the same list and the same log as applying their concatenation |
| WebhookActor.ErrorLogBounded | app/webhooks.go:26-33 | at most one log line per action |
| WebhookActor.ApplyAllKeepsValid | app/webhooks.go:21-36 | no sequence of actions brings an invalid webhook into a valid store |
| WebhookActor.ReplayAppendsValidRows | app/webhooks.go:54-56 | replaying rows as "add" actions appends the valid rows, in row order |
| WebhookActor.ReplayLogsInvalidRows | app/webhooks.go:54-56 | the replay logs one "Invalid webhook" for each row that is not appended, and nothing else |
| WebhookActor.ReplayOfValidRows | app/webhooks_test.go:127-149 | replaying only valid rows into an empty store yields exactly those rows and an empty log |
| WebhookActor.Perform | app/webhooks.go:24-34 | one action on the store has the effect and the error of `Apply` |
| WebhookActor.StoreRoutine | app/webhooks.go:21-36 | after consuming the actions, the store is the left fold of the per-action operations and the log holds every failure's message in order |
| WebhookActor.RestoreWebhooks | app/webhooks.go:48-58 | a failed fetch gives no action and logs its error; otherwise one "add" action per row, in row order, and no log |
| WebhookActor.Restore | app/webhooks.go:48-58 | restore through the actor leaves the store unchanged on a fetch error, and otherwise appends the valid rows in order and logs "Invalid webhook" once per invalid row |
| Notifier.BuildPayload | app/temperatures.go:31-36 | the payload has exactly the keys city_id, max, min and Timestamp, holding the reading's city, maximum, minimum and timestamp |
| Notifier.ReceiversConcat | app/temperatures.go:20-27 | the receivers of a concatenation are the receivers of each part one after the other, and an entry contributes its URL iff its city matches, which fixes the store order |
| Notifier.ReceiversMembers | app/temperatures.go:22-26 | a URL is a receiver iff some entry of the reading's city has it; there are never more receivers than entries |
| Notifier.DispatchShortCircuits | app/temperatures.go:37-43 | the URLs posted to are a prefix of the list; the result is success iff every POST succeeded, and then all were posted to; otherwise the last one posted to is the first failure, its error is the result, and all earlier POSTs succeeded |
| Notifier.DispatchAfter | app/temperatures.go:37-42 | after a run of successful POSTs, dispatching the whole list is those POSTs followed by dispatching the rest |
| Notifier.NotifySpec | app/temperatures.go:15-44 | a reading without city or timestamp gives "Missing fields in temperature object" and no POST; with no receiver the result is success with no POST; otherwise the payload is dispatched to the receivers |
| Notifier.NoSubscriberNoPost | app/temperatures.go:28-30 | when no entry has the reading's city, the result is success and nothing is posted |
| Notifier.PostsOnlyToSubscribers | app/temperatures.go:20-42 | every URL posted to belongs to an entry of the reading's city |
| Notifier.SendTemperature | app/temperatures.go:15-44 | the error returned and the URLs posted to are those of `Notify` on the store's contents; the method may modify nothing, so the store is only read |
| Notifier.WebhookRoutine | app/webhooks.go:38-46 | each reading is dispatched once, in order, against the store; each error is logged and the next reading is still processed |
| Mocks.AsTransport | app/app.go:105-112 | with mocks on, a URL without a mock fails with "No mockup found for given request" and a mocked URL gives its mock's error; with mocks off, the network's error |
| Mocks.Registry.constructor | app/app.go:17-20 | mocks start disabled with an empty registry |
| Mocks.Registry.StartMockups | app/app.go:29-31 | enables mocks, registry untouched |
| Mocks.Registry.DisableMockups | app/app.go:33-35 | disables mocks, registry untouched |
| Mocks.Registry.FlushMockups | app/app.go:37-39 | empties the registry, flag untouched |
| Mocks.Registry.AddMockups | app/app.go:41-43 | the mock is stored under its URL, replacing any earlier one; other URLs keep their mocks and no other key appears |
| Mocks.Registry.SendRequest | app/app.go:105-118 | with mocks on: no mock gives a nil response and "No mockup found for given request", a mock gives its response and error unchanged; with mocks off: the network's answer; its error is always what the registry's oracle `Oracle`, the transport the notifier is given, answers for the same URL and payload |
| Mocks.MockedFanOut | app/temperatures.go:37-43 | with mocks on, the fan-out succeeds iff every receiver has a mock whose error is nil; on failure the error is that of the last URL tried, or "No mockup found for given request" when it has no mock |
| Mocks.NoMockupScenario | app/temperatures_test.go:27-45 | one subscriber and an empty registry: the single POST fails with "No mockup found for given request" |
| Mocks.FirstFailureStopsFanOut | app/temperatures.go:37-42 | two subscribers whose first mock fails: that error is returned and the second is never posted to |
| Scenarios.AddZeroWebhookIgnored | app/webhooks_test.go:23-33 | adding the zero webhook leaves an empty store empty and logs "Invalid webhook" |
| Scenarios.DeleteScenarios | app/webhooks_test.go:51-83 | deleting an absent id keeps the one entry; deleting its id empties the store |
| Scenarios.RestoreThenNotify | app/webhooks.go:48-58 | two rows restored by restoreWebhooks into an empty store, both of one city, then both receive that city's reading (the fan-out of app/temperatures.go:20-42), in row order |
| Scenarios.SingleSubscriberScenario | app/temperatures.go:31-42 | one subscriber gets exactly one POST with the body city_id 5, max 30, min 10, Timestamp 1000 |
| Scenarios.EmptyReadingLogged | app/webhooks_test.go:151-163 | the routine given an empty reading logs "Missing fields in temperature object" and posts nothing |

## Left out

- Goroutines, channels and the mutex: the actor and the notifier are sequential loops over input sequences. The blocking hand-off of the unbuffered channels, and the timing between the mutation queue and the reading queue, are not modelled. `WebhookRoutine` runs every reading against one store state, because no mutation is interleaved in this model.
- Pointer identity: webhooks are values. The slice of `*model.Webhook` is modelled as a sequence of values, and the `&webhook` of the range variable in `restoreWebhooks` (app/webhooks.go:54-56) as a copy of the row. Before Go 1.22 that range variable is one variable shared by every iteration, so every restored entry points at the same memory and, once the loop ends, reads as the last row: restoring rows r1, r2 leaves a store that reads r2, r2. The model gives r1, r2, which is the per-iteration behaviour of Go 1.22 and later.
- WebhookStore.Store.AddWebhook: the grown array has capacity `2n+1`, not Go's growth policy. Capacity is not observable.
- WebhookStore.Store.DeleteWebhook: clearing the freed slot writes a zero webhook where Go writes nil. That slot is outside the list either way.
- The real `http.Post` branch of `sendRequest`: it is a network client. It stays an abstract `Network` function parameter.
- JSON serialisation of the payload: the body is modelled as its field map. `json.Marshal` cannot fail on these fields, and its ignored error is not modelled.
- HTTP handlers, routing, `handleForecast` (floating point and the clock), SQL persistence in `model/model.go`, `main.go`: outside the notification core.
- Log output is the returned sequence of messages. Log formatting and timestamps are not modelled.
