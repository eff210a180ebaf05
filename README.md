# SBTGdata core, modelled in Dafny

SBTGdata is a Spring Boot + Vaadin application. Users own *data flows*: a Python
function plus a list of packages, mirrored into an external execution system.
This project models the part of the application that:

- keeps the local stores (MongoDB collections of flows, users, roles and flow
  errors) consistent with that external system;
- reports failures back to the user.

The model covers these pieces:

- **Lifecycle orchestration** (`flow_service.dfy`, `user_service.dfy`).
  Creating a flow or a user stores it first, then announces it to the
  configured webhooks. If an announcement fails, the record is deleted again
  (compensation), the failure is published on the error bus, and
  `IllegalArgumentException` is thrown.
  - Deleting a flow announces first. A transport error aborts the delete.
  - Deleting a user removes the user's flows and their errors, announces
    the deletion (a failure is published, not thrown), and removes the user.
  - Starting or stopping a flow stores its new status and announces it.
- **Webhooks** (`webhooks.dfy`). `RestTemplate.postForEntity` is an oracle: a
  script of replies (a response with a status, or a thrown exception) plus a
  log of the requests sent.
  - A call is made only when its URL has text.
  - The calls of one operation are made in order. They stop at the first
    failure.
  - Only *checked* calls (the create announcements) turn a non-2xx status into
    `IllegalStateException`.
- **Error bus** (`error_events.dfy`). The publisher builds the five-field
  payload and swallows a failing send. The consumer formats
  `"Błąd: " + blad [+ " (Flow ID: " + id + ")"]` and enqueues it for the
  event's user. An event without a user is dropped.
- **Mailbox** (`mailbox.dfy`). One FIFO queue of messages per user, with
  `addError`, `getAndClearErrors` and `hasErrors`.
- **Flow errors** (`flow_errors.dfy`). Lookups by flow and by user, the
  first-occurrence duplicate filter, and deletion of one error, which is
  announced first; a failing announcement aborts the deletion.
- **Entities** (`entities.dfy`). `DataFlow` and `User` as classes with their
  setters, their stored snapshots as datatypes, and ObjectId text parsing.
- **Stores** (`repositories.dfy`). Maps keyed by id (flows, users, roles), or a
  sequence in store order (flow errors). User emails and role names are
  unique, as the derived single-result queries require.
- **API keys** (`api_key_codec.dfy`). The unpadded URL-safe Base64 encoding of
  32 random bytes, with its decoder and round trip.
- **Security** (`security.dfy`). `loadUserByUsername` builds one authority
  `"ROLE_" + upper-cased name` per stored role. The session queries are
  `getAuthenticatedUser`, `hasRole` and `getCurrentUser`.
- **Bootstrap** (`data_initializer.dfy`). Creates the ADMIN and USER roles and
  the `admin` account with the ADMIN role.
- **Views** (`main_layout.dfy`, `api_key_view.dfy`, `register_view.dfy`,
  `admin_views.dfy`):
  - the navigation guard and drawer;
  - the masked API-key page;
  - the registration form's guards;
  - the administrator pages (flow list with its email filter; user panel).

Environment inputs become parameters:

- the current time (`now`, `instant`);
- the 32 random bytes of a new API key;
- the id the database gives a new document (`newId`, a fresh 24-digit hex
  ObjectId);
- the password encoder and matcher (opaque functions);
- the view catalogue (class name to page title);
- the order in which the drawer walks the catalogue.

Java `null` is `Option.None`. A thrown exception is an `Option<Exception>`
result. The store's own order of `findAll`/`findByUserId` results is left
open: contracts speak of membership and distinctness.

## Behaviour worth noting

Some of the code's behaviour is easy to miss; the model follows it as
written.

- **Cascading user deletion** (`src/main/java/com/sbtgdata/data/UserService.java:121-133`).
  Deleting a user:
  - deletes each owned flow's errors;
  - removes all the flows in one `deleteAll`, with no flow webhook;
  - announces the user deletion, publishing a failure instead of throwing it;
  - deletes the user anyway.
- **Unchecked announcements.** The delete, start, stop and error-delete
  announcements never look at the reply's status; only an exception fails
  them (`src/main/java/com/sbtgdata/data/DataFlowService.java:181-237`,
  `src/main/java/com/sbtgdata/data/FlowErrorService.java:79-94`). Only the
  create announcements check for a 2xx status.
- **Create with no endpoint.** Flow creation with no create endpoint makes
  no call and succeeds (`src/main/java/com/sbtgdata/data/DataFlowService.java:141-179`).
  User creation with no endpoint throws `IllegalStateException` after the
  insert, so it is compensated and reported as a failed registration
  (`src/main/java/com/sbtgdata/data/UserService.java:143-146`).
- **No input validation.** Nothing checks required fields before a save. The
  only early failure is the ObjectId parse in `setUserIdFromString`
  (`src/main/java/com/sbtgdata/data/DataFlow.java:90-94`), which the
  owner-email fallback of `resolveOwnerId`
  (`src/main/java/com/sbtgdata/data/DataFlowService.java:239-243`) can
  trigger.

## Model

Source paths are relative to the repository root.

| member | source | states |
|---|---|---|
| Entities.ParseObjectId | src/main/java/com/sbtgdata/data/DataFlow.java:90-94 | text becomes an ObjectId exactly when it is 24 hexadecimal digits, which `new ObjectId(String)` requires |
| Entities.ObjectIdRoundTrip | src/main/java/com/sbtgdata/data/DataFlow.java:96-98 | printing a parsed ObjectId with `toHexString` and parsing it again gives the same ObjectId |
| Entities.UserIdAsString | src/main/java/com/sbtgdata/data/DataFlow.java:96-98 | the printed owner id is null exactly when the flow has no owner id |
| Entities.DataFlow.constructor | src/main/java/com/sbtgdata/data/DataFlow.java:28-32 | a new flow is STOPPED, created and updated now, and has every other field null |
| Entities.DataFlow.SetId | src/main/java/com/sbtgdata/data/DataFlow.java:38-40 | only the id changes, to the argument |
| Entities.DataFlow.SetName | src/main/java/com/sbtgdata/data/DataFlow.java:46-48 | only the name changes |
| Entities.DataFlow.SetOwnerEmail | src/main/java/com/sbtgdata/data/DataFlow.java:54-56 | only the owner email changes |
| Entities.DataFlow.SetStatus | src/main/java/com/sbtgdata/data/DataFlow.java:62-64 | only the status changes |
| Entities.DataFlow.SetCreatedAt | src/main/java/com/sbtgdata/data/DataFlow.java:70-72 | only the creation time changes |
| Entities.DataFlow.SetUpdatedAt | src/main/java/com/sbtgdata/data/DataFlow.java:78-80 | only the update time changes |
| Entities.DataFlow.SetUserId | src/main/java/com/sbtgdata/data/DataFlow.java:86-88 | only the owner id changes |
| Entities.DataFlow.SetFunction | src/main/java/com/sbtgdata/data/DataFlow.java:104-106 | only the function code changes |
| Entities.DataFlow.SetPackages | src/main/java/com/sbtgdata/data/DataFlow.java:112-114 | only the package list changes |
| Entities.DataFlow.SetUserIdFromString | src/main/java/com/sbtgdata/data/DataFlow.java:90-94 | null or empty text leaves the flow unchanged; valid hex sets the parsed owner id; anything else throws IllegalArgumentException naming the text and changes nothing |
| Entities.DataFlow.GetUserIdAsString | src/main/java/com/sbtgdata/data/DataFlow.java:96-98 | null exactly when the owner id is null, otherwise its hex text |
| Entities.User.constructor | src/main/java/com/sbtgdata/data/User.java:19-20 | a new user has every field null |
| Entities.User.WithCredentials | src/main/java/com/sbtgdata/data/User.java:22-26 | sets email, password and roles, and leaves id and API key null |
| Entities.User.SetId | src/main/java/com/sbtgdata/data/User.java:32-34 | only the id changes |
| Entities.User.SetEmail | src/main/java/com/sbtgdata/data/User.java:40-42 | only the email changes |
| Entities.User.SetPassword | src/main/java/com/sbtgdata/data/User.java:48-50 | only the password changes |
| Entities.User.SetRoles | src/main/java/com/sbtgdata/data/User.java:56-58 | only the role set changes |
| Entities.User.SetApiKey | src/main/java/com/sbtgdata/data/User.java:68-70 | the key read back is the one set, and nothing else changes |
| Entities.User.HasRole | src/main/java/com/sbtgdata/data/User.java:60-62 | a user with a null role set holds no role; otherwise holds exactly the (case-sensitive) names in the set |
| Webhooks.RestTemplate.PostForEntity | src/main/java/com/sbtgdata/data/DataFlowService.java:156-157 | the reply is the next scripted one, the script advances by one, and the request is appended to the sent log |
| Webhooks.CallFailure | src/main/java/com/sbtgdata/data/DataFlowService.java:156-160 | a thrown transport error is the failure; a 2xx reply never fails; a non-2xx reply fails a checked call with IllegalStateException whose message starts with the endpoint's name, and never fails an unchecked call |
| Webhooks.Guarded | src/main/java/com/sbtgdata/data/DataFlowService.java:145 | a URL that is null or blank makes no call; a URL with text makes exactly one |
| Webhooks.FanOut | src/main/java/com/sbtgdata/data/DataFlowService.java:141-179 | the calls made are a prefix of the planned calls; with no failure every planned call is made |
| Webhooks.FanOutFailsAtFirstFailure | src/main/java/com/sbtgdata/data/DataFlowService.java:141-179 | an operation fails exactly when one of its calls fails; the failure reported is that of the last call made, and every earlier call succeeded |
| Webhooks.FanOutUncheckedSucceeds | src/main/java/com/sbtgdata/data/DataFlowService.java:181-207 | unchecked calls that all get a response, whatever its status, all go out and never fail |
| Webhooks.FanOutAfterSuccess | src/main/java/com/sbtgdata/data/DataFlowService.java:163-178 | after a successful first call, the second endpoint is called with the remaining replies and decides the outcome |
| Repositories.FlowsOwnedBy | src/main/java/com/sbtgdata/data/UserService.java:121 | the stored flows whose owner id is the given ObjectId, and no others |
| Repositories.FlowRepository.FindById | src/main/java/com/sbtgdata/data/DataFlowService.java:107 | a flow comes back exactly when the id is stored, as a new object equal to the stored document |
| Repositories.FlowRepository.Save | src/main/java/com/sbtgdata/data/DataFlowService.java:78 | upsert by id; a flow without an id receives the fresh id, written back into the object; the store keeps every document under its own id |
| Repositories.FlowRepository.DeleteById | src/main/java/com/sbtgdata/data/DataFlowService.java:85 | exactly that id disappears |
| Repositories.FlowRepository.Delete | src/main/java/com/sbtgdata/data/DataFlowService.java:103 | removes the entity's id; an entity without an id removes nothing |
| Repositories.FlowRepository.DeleteAll | src/main/java/com/sbtgdata/data/UserService.java:125 | exactly the given ids disappear |
| Repositories.FlowRepository.FindAll | src/main/java/com/sbtgdata/data/DataFlowService.java:62 | lists every stored flow exactly once |
| Repositories.FlowRepository.FindByOwnerEmail | src/main/java/com/sbtgdata/data/DataFlowRepository.java:7 | lists, once each, exactly the stored flows whose owner email equals the argument |
| Repositories.FlowRepository.FindByUserId | src/main/java/com/sbtgdata/data/DataFlowRepository.java:6-8 | the query the callers at UserService.java:120 and FlowErrorService.java:56 use but the interface does not declare, with assumed semantics: the ids, once each, of exactly the flows owned by the user; text that is not an ObjectId matches nothing |
| Repositories.UserByEmail | src/main/java/com/sbtgdata/data/UserService.java:85 | finds a user exactly when one is stored with that email; that user is the stored document with that email |
| Repositories.UserRepository.ExistsByEmail | src/main/java/com/sbtgdata/data/UserService.java:56 | true exactly when some stored user has that email |
| Repositories.UserRepository.FindByEmail | src/main/java/com/sbtgdata/config/UserDetailsServiceImpl.java:25 | a user comes back exactly when the email is taken, as a new object equal to the unique stored user with it |
| Repositories.UserRepository.FindById | src/main/java/com/sbtgdata/data/UserService.java:95 | a user comes back exactly when the id is stored, equal to the stored document |
| Repositories.UserRepository.Save | src/main/java/com/sbtgdata/data/UserService.java:69 | upsert by id, with the fresh id for a new user; emails stay unique |
| Repositories.UserRepository.DeleteById | src/main/java/com/sbtgdata/data/UserService.java:133 | exactly that id disappears |
| Repositories.UserRepository.Delete | src/main/java/com/sbtgdata/views/AdminPanelView.java:69 | removes the entity's id; an entity without an id removes nothing |
| Repositories.RoleByName | src/main/java/com/sbtgdata/views/MainLayout.java:122 | finds a role exactly when one is stored with that name; it is the stored document with that name |
| Repositories.RoleRepository.ExistsByName | src/main/java/com/sbtgdata/config/DataInitializer.java:57 | true exactly when some stored role has that name |
| Repositories.RoleRepository.FindByName | src/main/java/com/sbtgdata/config/DataInitializer.java:64 | a role comes back exactly when a stored role has that name, and it is that stored role |
| Repositories.RoleRepository.Save | src/main/java/com/sbtgdata/config/DataInitializer.java:60 | upsert by id, with the fresh id for a new role; names stay unique |
| Repositories.ErrorsOfFlow | src/main/java/com/sbtgdata/data/FlowErrorService.java:35 | exactly the stored errors of that flow (null matching null), in store order |
| Repositories.ErrorsOfFlowCount | src/main/java/com/sbtgdata/data/FlowErrorService.java:35 | each error of the flow comes back as many times as it is stored, and no other error does |
| Repositories.WithoutFlows | src/main/java/com/sbtgdata/data/FlowErrorService.java:76 | exactly the errors whose flow id is not among the given ones, in store order |
| Repositories.WithoutFlowsCount | src/main/java/com/sbtgdata/data/FlowErrorService.java:76 | each error outside the removed flows stays as many times as it is stored, and no removed error stays |
| Repositories.WithoutError | src/main/java/com/sbtgdata/data/FlowErrorService.java:71 | exactly the errors without that id, in store order |
| Repositories.WithoutErrorCount | src/main/java/com/sbtgdata/data/FlowErrorService.java:71 | each error with another id stays as many times as it is stored, and none with that id stays |
| Repositories.WithoutFlowsTwice | src/main/java/com/sbtgdata/data/UserService.java:122-124 | deleting the errors of one set of flows and then of another equals deleting those of both at once |
| Repositories.WithoutNoFlows | src/main/java/com/sbtgdata/data/UserService.java:122-124 | deleting the errors of no flows changes nothing |
| Repositories.FlowErrorRepository.FindByFlowId | src/main/java/com/sbtgdata/data/FlowErrorRepository.java:10 | the stored errors of that flow, in store order |
| Repositories.FlowErrorRepository.FindById | src/main/java/com/sbtgdata/data/FlowErrorService.java:69 | the first stored error with that id (`ErrorById`), or none when no error has it |
| Repositories.ErrorById | src/main/java/com/sbtgdata/data/FlowErrorService.java:69 | present exactly when some stored error has the id; then it is the first such error in store order |
| Repositories.FlowErrorRepository.DeleteById | src/main/java/com/sbtgdata/data/FlowErrorService.java:71 | removes the errors with that id and keeps the order of the rest |
| Repositories.FlowErrorRepository.DeleteByFlowId | src/main/java/com/sbtgdata/data/FlowErrorRepository.java:11 | removes the errors of that flow and keeps the order of the rest |
| Mailbox.Enqueued | src/main/java/com/sbtgdata/data/ErrorNotificationService.java:13-17 | a null user changes nothing; otherwise the message joins the end of that user's queue, and every other queue is untouched |
| Mailbox.Cleared | src/main/java/com/sbtgdata/data/ErrorNotificationService.java:19-28 | the user's queue becomes empty, an absent or empty queue changes nothing, and other users' queues are untouched |
| Mailbox.ErrorNotificationService.AddError | src/main/java/com/sbtgdata/data/ErrorNotificationService.java:13-17 | the queues become `Enqueued(old queues, user, message)` |
| Mailbox.ErrorNotificationService.GetAndClearErrors | src/main/java/com/sbtgdata/data/ErrorNotificationService.java:19-28 | returns the user's pending messages, oldest first, and clears that user's queue only |
| Mailbox.ErrorNotificationService.HasErrors | src/main/java/com/sbtgdata/data/ErrorNotificationService.java:30-33 | true exactly when the user has a non-empty queue |
| Mailbox.EnqueueAllIsFifo | src/main/java/com/sbtgdata/data/ErrorNotificationService.java:13-17 | after any sequence of deliveries, a user's queue is the old one followed by that user's messages in delivery order |
| Mailbox.DrainAfterDeliveries | src/main/java/com/sbtgdata/data/ErrorNotificationService.java:19-28 | starting from nothing, a drain returns exactly the user's delivered messages in order, and a second drain returns none |
| ErrorEvents.EventPayload | src/main/java/com/sbtgdata/config/ErrorEventPublisher.java:28-33 | the payload has exactly the keys data, flow_id, user_id, blad and timestamp, each holding its argument |
| ErrorEvents.BusAfter | src/main/java/com/sbtgdata/config/ErrorEventPublisher.java:35-39 | a send that throws leaves the bus as it was; otherwise the payload is appended under the topic |
| ErrorEvents.LogAfter | src/main/java/com/sbtgdata/config/ErrorEventPublisher.java:37-39 | a send that throws adds one failure line to the log; a successful send adds none |
| ErrorEvents.ErrorEventPublisher.Publish | src/main/java/com/sbtgdata/config/ErrorEventPublisher.java:27-40 | never throws; the bus and the log become `BusAfter`/`LogAfter` of the payload built at the given instant |
| ErrorEvents.FormatMessage | src/main/java/com/sbtgdata/config/KafkaErrorConsumer.java:30-33 | "Błąd: " followed by the text, or "Nieznany błąd" when there is none; with a flow id, exactly that followed by " (Flow ID: " + id + ")" |
| ErrorEvents.FormatMessageKeepsFlowId | src/main/java/com/sbtgdata/config/KafkaErrorConsumer.java:30-33 | for the same text, two different flow ids give two different messages |
| ErrorEvents.KafkaErrorConsumer.ConsumeError | src/main/java/com/sbtgdata/config/KafkaErrorConsumer.java:23-36 | the event's formatted message is enqueued for the event's user (dropped when there is none) |
| ErrorEvents.PublishThenConsume | src/main/java/com/sbtgdata/config/KafkaErrorConsumer.java:22-35 | when the send does not throw, the bus gains exactly the published record, and consuming it appends the formatted text to the named user's queue and to no other; when the send throws, the bus is unchanged |
| ErrorEvents.PublishWithoutUserIsDropped | src/main/java/com/sbtgdata/config/KafkaErrorConsumer.java:28-35 | an event published without a user leaves every mailbox unchanged |
| ErrorEvents.DataAndTimestampIgnored | src/main/java/com/sbtgdata/config/KafkaErrorConsumer.java:26-33 | two events that agree on user, text and flow id deliver the same message, whatever their data and timestamp |
| FlowErrors.MessagesIn | src/main/java/com/sbtgdata/data/FlowErrorService.java:41-46 | the set of non-null messages occurring in the errors |
| FlowErrors.KeepFirstsIsSubsequence | src/main/java/com/sbtgdata/data/FlowErrorService.java:38-51 | the duplicate filter keeps errors in their original order |
| FlowErrors.KeepFirstsDistinct | src/main/java/com/sbtgdata/data/FlowErrorService.java:38-51 | the kept errors all have messages, no two share one, and every non-null message of the input is kept |
| FlowErrors.KeepFirstsKeepsFirstOccurrences | src/main/java/com/sbtgdata/data/FlowErrorService.java:43-48 | every kept error is the first occurrence of its message in the input |
| FlowErrors.ErrorsOfFlows | src/main/java/com/sbtgdata/data/FlowErrorService.java:60-62 | exactly the errors whose flow id is one of the given flows, in store order |
| FlowErrors.ErrorsOfOneFlow | src/main/java/com/sbtgdata/data/FlowErrorService.java:35 | the errors of a one-flow set are the flow's errors as `findByFlowId` returns them |
| FlowErrors.FlowErrorService.constructor | src/main/java/com/sbtgdata/data/FlowErrorService.java:22-32 | holds the given stores, client and endpoint |
| FlowErrors.FlowErrorService.GetErrorsByFlowId | src/main/java/com/sbtgdata/data/FlowErrorService.java:34-36 | exactly the stored errors of that flow, in store order |
| FlowErrors.FlowErrorService.GetUniqueErrorsByFlowId | src/main/java/com/sbtgdata/data/FlowErrorService.java:38-51 | the flow's errors, keeping the first error of each non-null message (proved by the loop against `KeepFirsts`) |
| FlowErrors.FlowErrorService.GetErrorsByUserId | src/main/java/com/sbtgdata/data/FlowErrorService.java:53-66 | text that is not an ObjectId gives an empty list; otherwise the errors of the user's flows, in store order |
| FlowErrors.FlowErrorService.DeleteError | src/main/java/com/sbtgdata/data/FlowErrorService.java:68-73 | an unknown id changes nothing and calls no webhook; for a known one the error found by id is announced, the call's outcome is the result, and the error is removed exactly when the announcement did not fail |
| FlowErrors.ErrorDeleteFailsOnlyByException | src/main/java/com/sbtgdata/data/FlowErrorService.java:79-94 | the error-delete announcement sends at most one request and fails exactly when the endpoint is set and the call throws |
| FlowErrors.FlowErrorService.DeleteAllErrorsByFlowId | src/main/java/com/sbtgdata/data/FlowErrorService.java:75-77 | removes exactly the flow's errors |
| FlowErrors.FlowErrorService.NotifyExternalOnDelete | src/main/java/com/sbtgdata/data/FlowErrorService.java:79-94 | posts the error's id, flow and message once when the endpoint has text; only a thrown exception fails it |
| Flows.ResolveOwnerId | src/main/java/com/sbtgdata/data/DataFlowService.java:239-243 | a known owner email resolves to the id of the user with that email; an unknown one resolves to the email itself |
| Flows.Prepared | src/main/java/com/sbtgdata/data/DataFlowService.java:72-76 | the update time becomes now; only the owner id may change otherwise, and only when it was null with an owner email; any failure is IllegalArgumentException |
| Flows.PreparedLinksOwner | src/main/java/com/sbtgdata/data/DataFlowService.java:74-76 | a flow with a known owner email and no owner id is linked to that user's id |
| Flows.PreparedRejectsUnknownOwner | src/main/java/com/sbtgdata/data/DataFlowService.java:74-76 | an unknown owner email that is not hex text makes the save throw before anything is stored |
| Flows.CreateWithoutEndpoints | src/main/java/com/sbtgdata/data/DataFlowService.java:141-179 | with neither create endpoint configured, nothing is sent and creation succeeds |
| Flows.CreateStopsAtEndpoint1 | src/main/java/com/sbtgdata/data/DataFlowService.java:145-160 | a failure at the first create endpoint stops the fan-out before the second |
| Flows.DeleteFailsOnlyByException | src/main/java/com/sbtgdata/data/DataFlowService.java:181-207 | a delete announcement fails exactly when one of its calls throws; statuses never fail it |
| Flows.DataFlowService.constructor | src/main/java/com/sbtgdata/data/DataFlowService.java:24-55 | holds the given stores, clients and six endpoints |
| Flows.DataFlowService.FindByOwnerEmail | src/main/java/com/sbtgdata/data/DataFlowService.java:57-59 | lists, once each, exactly the stored flows with that owner email |
| Flows.DataFlowService.FindAll | src/main/java/com/sbtgdata/data/DataFlowService.java:61-63 | lists every stored flow exactly once |
| Flows.DataFlowService.FindById | src/main/java/com/sbtgdata/data/DataFlowService.java:65-67 | a flow comes back exactly when the id is stored |
| Flows.DataFlowService.Save | src/main/java/com/sbtgdata/data/DataFlowService.java:69-93 | a rejected owner throws before storing, with only `updatedAt` changed on the object; an existing flow is only stored; a new flow is stored, announced, and on a failed announcement deleted again, published, and reported as IllegalArgumentException |
| Flows.DataFlowService.InsertAndAnnounce | src/main/java/com/sbtgdata/data/DataFlowService.java:78-90 | a new flow is stored under the fresh id and announced over both create endpoints in order; on success the store gains exactly that record; on a failed call the store is back to what it was, the failure is published with the flow id and the owner id, and "Zapis przepływu nieudany: …" is thrown |
| Flows.DataFlowService.Delete | src/main/java/com/sbtgdata/data/DataFlowService.java:95-104 | announce first; a thrown announcement publishes, throws and changes no store; otherwise the flow's errors and then the flow are removed |
| Flows.DataFlowService.DeleteById | src/main/java/com/sbtgdata/data/DataFlowService.java:106-111 | an unknown id sends nothing and changes no store; a known one has `Delete`'s outcome for the stored flow: the delete webhooks first; on a failure the stores stay, the failure is published for that flow and "Usunięcie przepływu nieudane: …" is thrown; otherwise the flow's errors and the flow are removed |
| Flows.DataFlowService.StartFlow | src/main/java/com/sbtgdata/data/DataFlowService.java:113-125 | an unknown flow throws "Przepływ nie istnieje"; otherwise it is stored RUNNING with the new time, then announced |
| Flows.DataFlowService.StopFlow | src/main/java/com/sbtgdata/data/DataFlowService.java:127-139 | same as start, with STOPPED |
| Flows.DataFlowService.NotifyExternalOnCreate | src/main/java/com/sbtgdata/data/DataFlowService.java:141-179 | two checked calls, in order, to the configured endpoints; the first carries the owner id |
| Flows.DataFlowService.NotifyExternalOnDelete | src/main/java/com/sbtgdata/data/DataFlowService.java:181-207 | two unchecked calls, in order, to the configured endpoints |
| Flows.DataFlowService.NotifyStatus | src/main/java/com/sbtgdata/data/DataFlowService.java:209-237 | one unchecked call with the flow id when the endpoint has text |
| ApiKeyCodec.Symbol | src/main/java/com/sbtgdata/data/UserService.java:140 | every 6-bit value maps to a URL-safe symbol |
| ApiKeyCodec.SymbolValue | src/main/java/com/sbtgdata/data/UserService.java:140 | every URL-safe symbol maps back to a 6-bit value |
| ApiKeyCodec.SymbolRoundTrip | src/main/java/com/sbtgdata/data/UserService.java:140 | decoding the symbol of a value gives the value |
| ApiKeyCodec.EncodeGroup | src/main/java/com/sbtgdata/data/UserService.java:140 | three bytes become four URL-safe symbols |
| ApiKeyCodec.Encode | src/main/java/com/sbtgdata/data/UserService.java:140 | unpadded length: 4 symbols per full group and n+1 for a trailing group of n bytes, all URL-safe |
| ApiKeyCodec.DecodeGroup | src/main/java/com/sbtgdata/data/UserService.java:140 | four symbols become three bytes |
| ApiKeyCodec.GroupRoundTrip | src/main/java/com/sbtgdata/data/UserService.java:140 | a full group decodes to its bytes |
| ApiKeyCodec.ShortGroupRoundTrip | src/main/java/com/sbtgdata/data/UserService.java:140 | a trailing group of one or two bytes decodes to its bytes |
| ApiKeyCodec.DecodeLeadingGroup | src/main/java/com/sbtgdata/data/UserService.java:140 | decoding splits at a leading four-symbol group |
| ApiKeyCodec.DecodeEncode | src/main/java/com/sbtgdata/data/UserService.java:140 | decoding the encoding of any byte string gives the bytes back |
| ApiKeyCodec.GenerateApiKey | src/main/java/com/sbtgdata/data/UserService.java:136-141 | a key is 43 URL-safe symbols |
| ApiKeyCodec.GeneratedKeysDiffer | src/main/java/com/sbtgdata/data/UserService.java:136-141 | different random bytes give different keys |
| Users.UserCreateNotice | src/main/java/com/sbtgdata/data/UserService.java:143-161 | without a create endpoint: no call, and IllegalStateException "Brak skonfigurowanego endpointu webhook"; otherwise one checked call |
| Users.NewUser | src/main/java/com/sbtgdata/data/UserService.java:60-67 | the new user has the email, the generated key, the fresh id and the one role given, USER when none is given |
| Users.RegistrationNeedsEndpoint | src/main/java/com/sbtgdata/data/UserService.java:144-146 | with no create endpoint, registration's announcement always fails |
| Users.PasswordValid | src/main/java/com/sbtgdata/data/UserService.java:84-92 | an unknown email never validates; a valid login names a stored user whose encoded password matches |
| Users.RegisteredUserCanLogIn | src/main/java/com/sbtgdata/data/UserService.java:55-92 | after a registration is stored, emails are still unique and the user can log in with the password given |
| Users.OwnedFlows | src/main/java/com/sbtgdata/data/UserService.java:121 | the ids of the user's stored flows; none when the id is not an ObjectId |
| Users.AsFlowIds | src/main/java/com/sbtgdata/data/UserService.java:123 | the flow ids as the non-null values errors refer to |
| Users.ListedFlowIds | src/main/java/com/sbtgdata/data/UserService.java:122-123 | the listed flow ids as non-null error references |
| Users.UserService.constructor | src/main/java/com/sbtgdata/data/UserService.java:28-49 | holds the given stores, clients, encoder and endpoints |
| Users.UserService.FindByEmail | src/main/java/com/sbtgdata/data/UserService.java:51-53 | a user comes back exactly when the email is taken, with that email |
| Users.UserService.ValidateUser | src/main/java/com/sbtgdata/data/UserService.java:84-92 | the answer is `PasswordValid` on the current store |
| Users.UserService.RegisterUser | src/main/java/com/sbtgdata/data/UserService.java:55-82 | a taken email throws and changes no store, webhook script, bus or log; otherwise the user is stored and announced, and a failed announcement deletes them again, publishes the failure for the new id and throws "Rejestracja nieudana: …" |
| Users.UserService.RegisterNew | src/main/java/com/sbtgdata/data/UserService.java:60-81 | for an email not yet taken: the user (given role or USER, encoded password, generated key) is stored under the fresh id and announced; a failed announcement leaves the store as it was, publishes the failure for the new id and throws |
| Users.UserService.RegenerateApiKey | src/main/java/com/sbtgdata/data/UserService.java:94-105 | an unknown user throws "Użytkownik nie istnieje"; otherwise only the user's key changes, to the new key, which `GetApiKey` then returns |
| Users.UserService.GetApiKey | src/main/java/com/sbtgdata/data/UserService.java:107-111 | the stored key, or null for an unknown user |
| Users.UserService.DeleteUser | src/main/java/com/sbtgdata/data/UserService.java:113-134 | an unknown user throws and changes no store, no webhook script or log, and nothing on the bus; otherwise the owned flows and their errors go, the deletion is announced (a failure is only published), and the user goes |
| Users.UserService.DeleteErrorsOfFlows | src/main/java/com/sbtgdata/data/UserService.java:122-124 | removes exactly the errors of the listed flows |
| Users.UserService.NotifyExternalOnCreate | src/main/java/com/sbtgdata/data/UserService.java:143-161 | sends the user id and API key as a checked call, or fails without sending when no endpoint is set |
| Users.UserService.NotifyExternalOnDelete | src/main/java/com/sbtgdata/data/UserService.java:163-176 | sends the user id as an unchecked call when an endpoint is set; otherwise nothing |
| Security.Authority | src/main/java/com/sbtgdata/config/UserDetailsServiceImpl.java:36 | an authority is "ROLE_" followed by the role name upper-cased; over the modelled alphabet (ASCII and Polish letters) the name keeps its length |
| Security.AuthorityIgnoresCase | src/main/java/com/sbtgdata/config/SecurityService.java:40 | two role names give the same authority exactly when they agree upper-cased |
| Security.AuthoritiesOf | src/main/java/com/sbtgdata/config/UserDetailsServiceImpl.java:33-38 | one authority per stored role; a null role set grants none |
| Security.DetailsOf | src/main/java/com/sbtgdata/config/UserDetailsServiceImpl.java:40-44 | details are built exactly when the email is non-empty and the password non-null, carrying both and the role authorities; a null password is refused with "password cannot be null", an empty email with the constructor's message |
| Security.LoadedDetailsHoldStoredRoles | src/main/java/com/sbtgdata/config/SecurityService.java:30-41 | loaded details pass the role check for a name exactly when the user holds a role equal to it up to case |
| Security.UserDetailsService.LoadUserByUsername | src/main/java/com/sbtgdata/config/UserDetailsServiceImpl.java:24-45 | an unknown email throws UsernameNotFoundException naming it; a known one gives `DetailsOf` of that user (loop proved against `AuthoritiesOf`) |
| Security.SecurityService.Logout | src/main/java/com/sbtgdata/config/SecurityService.java:21-23 | nobody is logged in afterwards |
| Security.SecurityService.GetAuthenticatedUser | src/main/java/com/sbtgdata/config/SecurityService.java:25-28 | the logged-in username, present exactly when somebody is logged in |
| Security.SecurityService.HasRole | src/main/java/com/sbtgdata/config/SecurityService.java:30-41 | nobody logged in holds no role; a held role is a "ROLE_" authority of the session |
| Security.SecurityService.HasRoleIgnoresCase | src/main/java/com/sbtgdata/config/SecurityService.java:40 | asking for a role in any case gives the same answer |
| Security.SecurityService.GetCurrentUser | src/main/java/com/sbtgdata/config/SecurityService.java:43-49 | a user comes back exactly when somebody is logged in under a stored email, equal to that stored user |
| Bootstrap.RolesAfterCreate | src/main/java/com/sbtgdata/config/DataInitializer.java:56-68 | afterwards the role exists; a new role, or ADMIN, gets the given views; another existing role is untouched; roles of other names do not change |
| Bootstrap.AdminCandidate | src/main/java/com/sbtgdata/config/DataInitializer.java:30-37 | the stored admin, or a new user "admin" with the encoded password and no roles |
| Bootstrap.UsersAfterAdmin | src/main/java/com/sbtgdata/config/DataInitializer.java:39-52 | afterwards "admin" exists and holds ADMIN plus any roles it had; a missing admin is inserted under the fresh id; other users are untouched |
| Bootstrap.Initialized | src/main/java/com/sbtgdata/config/DataInitializer.java:24-53 | after start-up, ADMIN allows every view, USER exists (empty when new), and the admin account holds ADMIN |
| Bootstrap.RolesAfterCreateIdempotent | src/main/java/com/sbtgdata/config/DataInitializer.java:56-68 | running role creation twice equals running it once |
| Bootstrap.UsersAfterAdminIdempotent | src/main/java/com/sbtgdata/config/DataInitializer.java:39-52 | running the admin step twice equals running it once |
| Bootstrap.DataInitializer.InitializeData | src/main/java/com/sbtgdata/config/DataInitializer.java:20-54 | the stores become `Initialized` of the old stores |
| Bootstrap.DataInitializer.EnsureAdminUser | src/main/java/com/sbtgdata/config/DataInitializer.java:29-52 | the user store becomes `UsersAfterAdmin` of the old one: an existing "admin" gains ADMIN if it lacks it, a missing one is created with the encoded default password and ADMIN |
| Bootstrap.DataInitializer.CreateRoleIfNotFound | src/main/java/com/sbtgdata/config/DataInitializer.java:56-68 | the role store becomes `RolesAfterCreate` of the old one |
| Layout.SessionUser | src/main/java/com/sbtgdata/views/MainLayout.java:119 | the stored user whose email is the session's username, when there is one |
| Layout.DrawerLinksAreNavigable | src/main/java/com/sbtgdata/views/MainLayout.java:86-111 | every view the drawer links to is let through by the navigation guard |
| Layout.RoleManagementOnlyForAdmins | src/main/java/com/sbtgdata/views/MainLayout.java:95-97 | role management is never offered to a non-admin, and always to an admin |
| Layout.MainLayout.GetAllowedViewsForCurrentUser | src/main/java/com/sbtgdata/views/MainLayout.java:117-130 | exactly the views some stored role of the current user allows (loop proved against `MayOpen`) |
| Layout.MainLayout.BeforeEnter | src/main/java/com/sbtgdata/views/MainLayout.java:132-155 | rerouted exactly when the target is not public, the user is not ADMIN, and no role allows it |
| Layout.MainLayout.CreateDrawer | src/main/java/com/sbtgdata/views/MainLayout.java:72-115 | exactly the catalogue entries the drawer test admits, in title order, as a subsequence of the catalogue |
| Layout.DrawerLinks | src/main/java/com/sbtgdata/views/MainLayout.java:80-112 | over a catalogue listing of the view map, the drawer's links are exactly the entries passing the drawer test, each with its own title, sorted by title |
| Layout.DrawerOrder | src/main/java/com/sbtgdata/views/MainLayout.java:80-82 | filtering a title-sorted catalogue keeps it sorted and in catalogue order |
| ApiKeyPage.MaskApiKey | src/main/java/com/sbtgdata/views/ApiKeyView.java:127-132 | null or four symbols or fewer show as is; longer keys keep their length and last four symbols, the rest become bullets |
| ApiKeyPage.MaskIdempotent | src/main/java/com/sbtgdata/views/ApiKeyView.java:127-132 | masking a mask changes nothing |
| ApiKeyPage.MaskRevealsOnlyLengthAndTail | src/main/java/com/sbtgdata/views/ApiKeyView.java:127-132 | two long keys look the same masked exactly when they have the same length and last four symbols |
| ApiKeyPage.ApiKeyView.constructor | src/main/java/com/sbtgdata/views/ApiKeyView.java:34-57 | the page belongs to the stored user with the session's email (its id), if there is one, shows their key (null read as empty) masked, and starts hidden |
| ApiKeyPage.ApiKeyView.ToggleVisibility | src/main/java/com/sbtgdata/views/ApiKeyView.java:61-70 | flips visibility; the field shows the key when visible and its mask otherwise |
| ApiKeyPage.ApiKeyView.ConfirmRegenerate | src/main/java/com/sbtgdata/views/ApiKeyView.java:80-92 | a known user gets a new stored key, and no other stored field or user changes; the page keeps the new key, hidden, with the success message; an unknown one sees "Użytkownik nie istnieje", and the store, the page's key and its visibility are unchanged |
| Registration.FormRejection | src/main/java/com/sbtgdata/views/RegisterView.java:53-66 | the first failing guard decides the message: missing field, then passwords differ, then too short |
| Registration.SubmittedIffValid | src/main/java/com/sbtgdata/views/RegisterView.java:53-66 | the form is submitted exactly when every field is set, the passwords agree and have at least six characters |
| Registration.RegisterView.Register | src/main/java/com/sbtgdata/views/RegisterView.java:47-75 | a rejected form shows the first failing guard's message and changes no store and sends nothing; a taken email shows the duplicate-email message; otherwise the create announcement decides: on success the user is stored and the page goes to login, on failure the store is unchanged and "Rejestracja nieudana: …" is shown |
| Admin.FilterByEmail | src/main/java/com/sbtgdata/views/AdminDataFlowView.java:78-89 | a null or empty filter shows everything; a non-empty one throws NullPointerException exactly when some flow has no owner email |
| Admin.FilterByEmailKeepsMatches | src/main/java/com/sbtgdata/views/AdminDataFlowView.java:81-85 | a non-empty filter keeps exactly the flows whose owner email contains it ignoring case, in list order |
| Admin.LongerFilterShowsFewer | src/main/java/com/sbtgdata/views/AdminDataFlowView.java:81-85 | every flow shown for a filter is shown for any non-empty part of it |
| Admin.DeleteRefusal | src/main/java/com/sbtgdata/views/AdminPanelView.java:65 | a user without email makes the test throw; otherwise refused exactly for "admin" |
| Admin.ChosenRoles | src/main/java/com/sbtgdata/views/AdminPanelView.java:113-117 | the ticked roles, or just USER when none is ticked; never empty |
| Admin.AdminDataFlowView.constructor | src/main/java/com/sbtgdata/views/AdminDataFlowView.java:38-59 | the grid starts with every stored flow |
| Admin.AdminDataFlowView.UpdateList | src/main/java/com/sbtgdata/views/AdminDataFlowView.java:78-89 | the grid shows `FilterByEmail` of every stored flow; when the filter throws, the grid keeps its items |
| Admin.AdminDataFlowView.DeleteFlow | src/main/java/com/sbtgdata/views/AdminDataFlowView.java:69-73 | goes through the flow service's delete: the delete webhooks first; on a failure the stores and the page are unchanged, the failure is published and thrown; otherwise the flow's errors and the flow are removed, the list is reloaded and confirmed |
| Admin.AdminDataFlowView.BeforeEnter | src/main/java/com/sbtgdata/views/AdminDataFlowView.java:126-131 | exactly the non-admins are sent to the dashboard and shown "Brak uprawnień do tej strony"; an admin stays and the notification is unchanged |
| Admin.AdminPanelView.DeleteUser | src/main/java/com/sbtgdata/views/AdminPanelView.java:64-72 | the admin account is refused; anybody else is removed from the user store only; a user without email throws |
| Admin.AdminPanelView.SaveRoles | src/main/java/com/sbtgdata/views/AdminPanelView.java:112-122 | the user is stored with `ChosenRoles` of the ticked set, and nothing else about them changes |
| Admin.AdminPanelView.BeforeEnter | src/main/java/com/sbtgdata/views/AdminPanelView.java:131-137 | exactly the non-admins are sent to the dashboard and shown "Brak uprawnień do tej strony"; an admin stays and the notification is unchanged |

## Left out

- Transport is not modelled: HTTP, Kafka and MongoDB become the reply script, the send script and in-memory maps. Headers, JSON encoding and timeouts are out.
- Webhooks.RestTemplate.PostForEntity: whether Spring's default error handler turns a 4xx/5xx status into an exception is not decided here. The reply script chooses between a status and a thrown exception per call.
- ErrorEvents.ErrorEventPublisher.Publish: only a send that throws synchronously is modelled. A send that fails later, asynchronously, is not, because `KafkaTemplate.send` returns a future that nobody inspects.
- Concurrency is not modelled: the mailbox's `ConcurrentHashMap`, the listener threads, and concurrent sessions draining one mailbox. Every operation here runs alone.
- Entities.DataFlow.constructor: creation and update time are one `now`, while the Java constructor reads the clock twice.
- Clocks, `SecureRandom` and password hashing become parameters: the encoder and matcher are opaque functions. No property of BCrypt is assumed.
- `ViewService.getAllViews` (class-path scanning) is not part of this model: the catalogue is an input. So are the stream's sort by title (the drawer receives the entries already sorted) and the `Component.isAssignableFrom` check.
- Vaadin rendering is not modelled: notifications' duration and position, dialogs, icons, and the clipboard copy of the API-key page. A notification is the message text kept in a field.
- The role-editor dialog is not modelled. `SaveRoles` starts from the set the user ticked.
- `RoleManagementView`, `DataFlowView`, `ErrorsView`, `DashboardView` and the login page are not part of this model.
- String lengths count `char`s of `seq<char>`. Java counts UTF-16 code units; the two agree for the keys and texts involved.
- Spring Security's own `User` builder checks only the username and password. Its two messages are kept as written: `Security.NullPassword` ("password cannot be null", from the builder's `password`) and `Security.EmptyCredentials` (from the `User` constructor).
- Repositories.FlowRepository.FindByUserId: `DataFlowRepository` (src/main/java/com/sbtgdata/data/DataFlowRepository.java:6-8) declares only `findByOwnerEmail`, yet `UserService.deleteUser` calls `findByUserId` with the id text and `FlowErrorService.getErrorsByUserId` with an `ObjectId`. Its meaning is assumed here: the text is parsed as an ObjectId and matched against each flow's owner id, and text that does not parse matches nothing. Whether a Spring Data derived query would convert a String argument for the ObjectId field `user_id` is not decided by the repository's code.
- Common.ToUpper: maps only ASCII and the Polish letters, one character to one. Java's `String.toUpperCase` is locale-sensitive, covers all of Unicode and can change the length ("ß" becomes "SS"); the role names and e-mails met here stay inside the modelled alphabet.
- Common.ToLower: the same restriction as `Common.ToUpper`, for `String.toLowerCase`.
- Security.Authority: inherits the alphabet of `Common.ToUpper`; its length-keeping property holds for the modelled mapping only, not for Java's on every string.
- Admin.OwnerMatches: the case-insensitive match inherits the alphabet of `Common.ToLower`.
- Flows.DataFlowService.Save: the `DataFlow` object is always returned; a save that throws is reported through `thrown`.
