# Event store core, modelled in Dafny

This project models the sequential request handling of `eventstore-go-v2`, an
embeddable event store. Callers append immutable domain events, each tagged by
an aggregate id and an aggregate name. They read them back by event id, by
aggregate id or by aggregate name. The model covers five parts, leaves first:

- **In-memory repository** (`InMemory`). A class holding the `seq` of stored
  events. `Append` appends in place. Three linear-scan lookups are proved
  against filter functions (`WithAggregateId`, `FirstWithId`) and the
  `(result, found, err)` triples built from them (`AggregateLookup`,
  `EventLookup`).
- **Event constructor** (`Events`). `NewStoreEvent` takes the payload
  encoder, the payload's type name, the drawn GUID and the clock's UTC reading
  as parameters. Its contract can therefore state every field. `GetPayload`
  returns the type name and the encoded data, in that order.
- **Store facade** (`Store`). A class built by a configurator chain that stops
  at the first error. `Add` appends, then publishes one broker message per
  projection topic. The getters translate the repository's triples into caller
  results. Publishing is recorded in a ghost log of effects (`effects`),
  together with each append, so the order of the two appears in `Add`'s
  postcondition.
- **Actor state** (`Actor`). `EventStoreState` is built by its own
  configurator chain. `ProcessSync` dispatches on the message body. It is
  proved against `Reply`, a backend-independent function from a request and
  the repository's answer to a reply. `InMemoryAnswer` gives what the
  in-memory repository answers.
- **Connection settings builder** (`Postgres`). A class that accumulates
  errors. `WithHost`, `WithUserAndPass` and `WithDBName` read the environment.
  The environment is a `map<string, string>`, and an absent key reads as `""`.
  `Build` reports the first error.

Supporting modules:

- `Errors` holds the error values, `Option` and `Result`.
- `Chain` computes the first failing configurator.
- `Decimal` holds Go's `strconv.Itoa` and `strconv.Atoi` on 64-bit integers.
  The lemmas `AtoiOfItoa` and `ItoaInjective` are proved about them.
- `Repository` holds the lookup triple.

Where the code and its callers disagree, the model follows the code:

- `RetriveByAggregateName` compares each event's aggregate id with the name,
  not its aggregate name (internal/repository/in-memory.go:46). The model
  keeps this. `InMemory.NameLookupComparesAggregateId` shows an event that a
  lookup by its own aggregate name does not find, whenever the name differs
  from its aggregate id. tests/store/store_test.go:41-46 expects a name match,
  and that is not proved.
- The not-found error is referenced as `ErrNotFoundAggregateID` but defined
  as `NotFoundAggregateID` (pkg/errors/errors.go:8). Both are the one `NotFound`
  error.
- The actor test expects a reply body named `AddEventBodyResult`. The code
  builds `ResultAddEventBody` (pkg/store/actor.go:81), and the model uses the
  code's name.

## Model

| member | source | states |
|---|---|---|
| `Chain.FirstFailure` | pkg/store/store.go:36-42 | The index of the first configurator that returns an error, or the chain's length if none does. Every configurator before it succeeds. |
| `Chain.FirstFailureIs` | pkg/store/store.go:36-42 | Any index with those two properties is the one `FirstFailure` returns. |
| `Chain.ChainError` | pkg/store/store.go:34-43 | A chain reports no error exactly when every configurator succeeds. |
| `Decimal.Itoa` | internal/repository/in-memory.go:21 | The decimal rendering of an event id: non-empty, with a leading minus sign exactly for negative numbers. |
| `Decimal.Atoi` | internal/repository/postgres/postgres.go:37 | Parses an optionally signed decimal numeral into a 64-bit value. On a syntax error the value is 0. On a range error it is the nearest bound: the minimum for a numeral with a minus sign, else the maximum. |
| `Decimal.ParseDigitsValue` | internal/repository/postgres/postgres.go:37 | The digit parser accepts exactly the non-empty strings of decimal digits and yields their value. |
| `Decimal.DigitsValueOfDigits` | internal/repository/in-memory.go:21 | Reading back the digits of a natural number gives that number. |
| `Decimal.AtoiOfItoa` | internal/repository/in-memory.go:21-22 | Parsing the rendering of any 64-bit integer gives that integer back without error. |
| `Decimal.ItoaInjective` | internal/repository/in-memory.go:21-22 | Different ids have different renderings, so an id lookup can match only one id value. |
| `Events.StoreEvent.GetPayload` | pkg/events/events.go:52-56 | Returns the payload's type name, then its encoded data. |
| `Events.NewStoreEvent` | pkg/events/events.go:22-50 | If the encoder fails, returns its error and the zero event. Otherwise: id 0; the supplied aggregate id, or the GUID if none is supplied; type, name and creator from the arguments; creation time from the clock; the encoder's output and the payload's type name. |
| `Events.PayloadOfNewEvent` | pkg/events/events.go:52-56 | What a new event hands to a backend through `GetPayload` is the encoder's output under the payload's type name. |
| `InMemory.WithAggregateId` | internal/repository/in-memory.go:30-35 | The filter result is no longer than the store, and every event in it has the requested aggregate id. |
| `InMemory.WithAggregateIdConcat` | internal/repository/in-memory.go:31-35 | Filtering distributes over concatenation, so results keep insertion order. |
| `InMemory.WithAggregateIdCount` | internal/repository/in-memory.go:31-35 | Each matching event appears in the result exactly as often as in the store; no other event appears. |
| `InMemory.WithAggregateIdMember` | internal/repository/in-memory.go:31-35 | An event is in the result if and only if it is stored and has the requested aggregate id. |
| `InMemory.WithAggregateIdEmpty` | internal/repository/in-memory.go:37-40 | The result is empty if and only if no stored event has the aggregate id. |
| `InMemory.WithAggregateIdAllMatch` | internal/repository/in-memory.go:31-35 | A sequence whose events all carry the id passes the filter unchanged. |
| `InMemory.FirstWithId` | internal/repository/in-memory.go:20-26 | The event found is stored and its id renders as the key. Nothing is found if and only if no stored id renders as the key. |
| `InMemory.FirstWithIdIsFirst` | internal/repository/in-memory.go:20-24 | The event found is the one at the first matching position. |
| `InMemory.FirstWithIdConcat` | internal/repository/in-memory.go:20-24 | Events appended after a match do not change which event an id lookup finds. |
| `InMemory.FirstWithIdHasId` | internal/repository/in-memory.go:21-23 | A lookup by the rendering of `n` finds an event whose id is `n`. |
| `InMemory.AggregateLookup` | internal/repository/in-memory.go:29-41 | Returns the filtered events. `found` holds if and only if some stored event matches, and if and only if there is no error. When not found, the result is empty and the error is NotFound. |
| `InMemory.EventLookup` | internal/repository/in-memory.go:19-27 | Returns the first match. `found` holds if and only if some stored id renders as the key, and if and only if there is no error. When not found, the error is NotFound. |
| `InMemory.NoDeduplication` | internal/repository/in-memory.go:14-17 | After appending events that carry one aggregate id, a lookup of it returns the earlier matches followed by all of those events, equal values included. |
| `InMemory.NameLookupComparesAggregateId` | internal/repository/in-memory.go:43-55 | Three copies of an event whose name differs from its aggregate id are not found by a lookup of that name: the result is empty, not found, NotFound. |
| `InMemory.InMemoryRepository.Append` | internal/repository/in-memory.go:14-17 | Always returns `(true, nil)`. The stored sequence becomes the old one with the event at the end. |
| `InMemory.InMemoryRepository.RetriveByID` | internal/repository/in-memory.go:19-27 | The scan returns exactly `EventLookup` of the stored events and changes nothing. |
| `InMemory.InMemoryRepository.RetriveByAggregateID` | internal/repository/in-memory.go:29-41 | The scan returns exactly `AggregateLookup` of the stored events and changes nothing. |
| `InMemory.InMemoryRepository.RetriveByAggregateName` | internal/repository/in-memory.go:43-55 | As written, returns `AggregateLookup` with the name as the aggregate id, and changes nothing. |
| `Postgres.Getenv` | internal/repository/postgres/postgres.go:29 | `os.Getenv`: a set variable reads as its value, an unset one as the empty string. |
| `Postgres.HostErrors` | internal/repository/postgres/postgres.go:28-46 | What `WithHost` appends: at most two errors, none exactly when the host is set and the port is set and parses, and the host error first. |
| `Postgres.UserAndPassErrors` | internal/repository/postgres/postgres.go:48-62 | What `WithUserAndPass` appends: at most two errors, none exactly when both are set, the user error ahead of the password error. |
| `Postgres.DBNameErrors` | internal/repository/postgres/postgres.go:64-72 | What `WithDBName` appends: the missing-name error exactly when `PG_DBNAME` is unset or empty, else nothing. |
| `Postgres.EnvInfo` | internal/repository/postgres/postgres.go:28-72 | The settings the chain accumulates. The port is always a 64-bit value, and 0 (the field's zero value) when `PG_PORT` is unset. |
| `Postgres.EnvInfoComplete` | internal/repository/postgres/postgres.go:74-79 | When the chain accumulates no error, the settings it builds have every field present and the port is the parsed `PG_PORT`. |
| `Postgres.ConfigErrors` | internal/repository/postgres/postgres.go:84 | The errors the builder chain `WithHost().WithUserAndPass().WithDBName()` accumulates, at most five; `ConfigErrorsReportMissing` says which. |
| `Postgres.OpenError` | internal/repository/postgres/postgres.go:81-104 | The error opening reports. It is an error whenever connecting fails. `OpenErrorIsFirstConfigError` and `OpenErrorOrder` state which error it is. |
| `Postgres.DatabaseAppendAnswer` | internal/repository/postgres/postgres.go:138-163 | The database `Append` succeeds if and only if the insert runs and reports a non-zero row count. Success is `true` exactly when there is no error. An insert error is passed on, so is an error reading the row count, and zero affected rows is `NoEventAppended`. |
| `Postgres.PortErrors` | internal/repository/postgres/postgres.go:35-44 | At most one port error. It is the missing-port error exactly when `PG_PORT` is empty; otherwise it can only be the parser's error. |
| `Postgres.OpenErrorIsFirstConfigError` | internal/repository/postgres/postgres.go:74-79 | The error opening reports is the first error the builder chain accumulated, else the outcome of connecting. |
| `Postgres.OpenErrorOrder` | internal/repository/postgres/postgres.go:81-104 | Opening succeeds if and only if all five settings are present, the port parses and the connection succeeds. A missing host is reported first, then a missing or unparsable port, then user, password and database name. |
| `Postgres.HostErrorsReport` | internal/repository/postgres/postgres.go:28-46 | `WithHost` reports a missing host and a missing port, at most two errors, and nothing about other settings. |
| `Postgres.CredentialErrorsReport` | internal/repository/postgres/postgres.go:48-72 | `WithUserAndPass` and `WithDBName` report each missing user, password or database name, and nothing else. |
| `Postgres.PortParseErrorReported` | internal/repository/postgres/postgres.go:37-40 | A port that is set but does not parse puts the parser's error among the chain's errors. |
| `Postgres.ConfigErrorsReportMissing` | internal/repository/postgres/postgres.go:84 | Along the whole chain, each of the five missing-setting errors is reported if and only if its variable is unset or empty; at most five errors. A port that is set but does not parse adds the parser's error instead. |
| `Postgres.ConnectionInfoBuilder.WithHost` | internal/repository/postgres/postgres.go:28-46 | Appends the host errors in order. A non-empty host is stored. A non-empty port is stored as the parser's value, even when parsing fails. Returns the same builder. |
| `Postgres.ConnectionInfoBuilder.WithUserAndPass` | internal/repository/postgres/postgres.go:48-62 | Appends the user error before the password error. Each non-empty value is stored. Returns the same builder. |
| `Postgres.ConnectionInfoBuilder.WithDBName` | internal/repository/postgres/postgres.go:64-72 | Either stores the database name or appends the missing-name error. Returns the same builder. |
| `Postgres.ConnectionInfoBuilder.Build` | internal/repository/postgres/postgres.go:74-79 | With any error accumulated, returns the zero settings and the first error. Otherwise returns the accumulated settings and no error. |
| `Postgres.NewPostgresqlRepository` | internal/repository/postgres/postgres.go:81-111 | Runs host, then user and password, then database name, then connects. Reports `OpenError`. On success, holds the settings read from the environment. |
| `Store.Notifications` | pkg/store/store.go:66-71 | One publish of the message per projection topic, in topic order. |
| `Store.ConfiguratorError` | pkg/store/store.go:12-57 | Only the database configurator can fail; the in-memory and projection configurators return no error. |
| `Store.Outcomes` | pkg/store/store.go:36-41 | One outcome per configurator, in chain order; `OutcomeAt` gives each as that configurator's error. |
| `Store.ChainConfiguration` | pkg/store/store.go:35-42 | The store that configurators which all succeed build, applied in order; topics are only ever listed together with a broker. |
| `Store.Step` | pkg/store/store.go:12-57 | What one successful configurator changes. A repository configurator replaces the repository and leaves the broker and topics alone. A projection configurator sets the broker, keeps the repository and only appends to the topics. |
| `Store.AddOutcome` | pkg/store/store.go:60-73 | `Add` for any repository answer. A failed append returns `false` with the repository's error and records nothing. A successful one returns the repository's result with no error and records the append first. Then, only when a broker is set, it records one publish per topic carrying the event's aggregate id and type. |
| `Store.PublishOnlyAfterAppend` | pkg/store/store.go:61-71 | Any publish `Add` performs comes after the append, only when the append succeeded and a broker is set. |
| `Store.NoRowAppendedAnnouncesNothing` | pkg/store/store.go:61-64 | A database insert that affects no row makes `Add` return `(false, NoEventAppended)` and publish nothing, with or without a broker. |
| `Store.EnumerationLength` | pkg/store/store.go:49-54 | Listing each handler key exactly once takes one entry per key. |
| `Store.LastBackendConfig` | pkg/store/store.go:12-25 | The last repository configurator of a chain, if there is one. |
| `Store.ChainBroker` | pkg/store/store.go:47-49 | A chain installs a broker if and only if one of its configurators is a projection configurator. |
| `Store.ChainBackend` | pkg/store/store.go:12-25 | The repository a chain installs is the one its last repository configurator installs. Projection configurators keep it. |
| `Store.ChainTopics` | pkg/store/store.go:47-57 | A topic is listed if and only if it is a handler key of one of the chain's projection configurators. |
| `Store.ProjectionTopics` | pkg/store/store.go:47-57 | A projection configurator installs a broker and appends one topic per handler key, after the topics already listed. The added topics are exactly the key set. |
| `Store.EventStore.WithInMemoryRepository` | pkg/store/store.go:12-16 | Installs a fresh, empty in-memory repository, never fails, and leaves the rest of the store unchanged. |
| `Store.EventStore.WithPostgresqlRepository` | pkg/store/store.go:18-25 | Installs the database repository when opening succeeds. Otherwise returns the error and leaves the store unchanged. |
| `Store.EventStore.WithProjectionHandlers` | pkg/store/store.go:47-57 | Sets the broker, appends the handler keys in iteration order to the topic list, and never fails. |
| `Store.EventStore.Configure` | pkg/store/store.go:38 | Returns the configurator's error. On success the configured state advances by one step; on failure it is unchanged. |
| `Store.EventStore.Add` | pkg/store/store.go:60-73 | Appends the event. Its result and its effects are `AddOutcome` of the in-memory repository's answer `(true, nil)`: it returns `(true, nil)`, and the effect log gains the append, then one publish per topic only when a broker is set. |
| `Store.EventStore.PublishToTopics` | pkg/store/store.go:66-71 | Publishes the message once on every projection topic, in topic order, and does nothing else. |
| `Store.EventStore.GetByName` | pkg/store/store.go:75-81 | Translates the repository's answer: when found, its events and no error, otherwise no events and its error. In memory, this returns the events whose aggregate id is the name (as written), or an empty sequence and NotFound if there are none. |
| `Store.EventStore.GetByID` | pkg/store/store.go:83-89 | Translates the repository's answer the same way. In memory, this returns the aggregate's events in insertion order, or an empty sequence and NotFound if there are none. |
| `Store.EventStore.GetByEventID` | pkg/store/store.go:91-97 | Translates the repository's answer: when found, its event, `true` and no error, otherwise nothing, `false` and its error. In memory, this returns the first event whose id renders as the key, or nothing, `false` and NotFound. |
| `Store.EventsOrError` | pkg/store/store.go:77-80 | How GetByName and GetByID translate any repository's answer: when found, its events and no error, otherwise an empty sequence and the repository's error. |
| `Store.EventOrError` | pkg/store/store.go:93-96 | How GetByEventID translates any repository's answer: `true` exactly when found; then its event and no error, otherwise nothing and its error. |
| `Store.NewEventStore` | pkg/store/store.go:34-43 | Applies configurators in order and stops at the first error, which it returns. The store holds the configuration of exactly the configurators before that one. The publish log is empty. |
| `Actor.Reply` | pkg/store/actor.go:125-188 | The error is the repository's error, or "not implemented" for any other body. An error always comes with the empty message. A success reply goes back to the request's sender, from the request's recipient, except that a name lookup's reply has no recipient. The reply body is the add result, the event list or the existence flag. |
| `Actor.InMemoryAnswer` | internal/repository/in-memory.go:14-55 | The in-memory repository answers each message body with the repository call that body asks for. |
| `Actor.InMemoryAfter` | pkg/store/actor.go:129 | Only an add changes the repository, by one event at the end. |
| `Actor.AddReply` | pkg/store/actor.go:127-141 | An add against the in-memory repository always replies `ResultAddEventBody{Success: true}` to the request's sender, from its recipient. |
| `Actor.RetrieveByAggregateIdReply` | pkg/store/actor.go:143-155 | A lookup replies to the sender with exactly the aggregate's events in insertion order if and only if some event matches; otherwise it replies with the empty message and NotFound. |
| `Actor.RetrieveByNameReply` | pkg/store/actor.go:171-181 | A name lookup replies with no recipient, from the request's recipient, with the events whose aggregate id is the name; otherwise it replies with the empty message and NotFound. |
| `Actor.CheckExistenceReply` | pkg/store/actor.go:157-169 | An existence check replies `Exists == true` if some event has the aggregate id; otherwise it replies with the empty message and NotFound, never with `false`. |
| `Actor.AddThenCheckExists` | pkg/store/actor.go:127-169 | After an add, an existence check of the added event's aggregate id replies `Exists == true`. |
| `Actor.NotImplementedReply` | pkg/store/actor.go:183-186 | Any other body, including a lookup by event id, replies with the empty message and "message not implemented", and changes nothing. |
| `Actor.EventStoreAddress` | pkg/store/actor.go:13-15 | The store's actor address is area `local`, name `eventstore`. |
| `Actor.NewMessage` | pkg/store/actor.go:136-140 | The actor library's message constructor under the `(to, from, body)` reading stated under "Left out": the first address is the recipient, the second the sender. |
| `Actor.EventStoreState.Configure` | pkg/store/actor.go:70 | Runs one configurator. Returns its error. On success its repository replaces the installed one; on failure the state is unchanged. |
| `Actor.StateOutcomeAt` | pkg/store/actor.go:69-74 | The outcome recorded for each configurator is the error it returns. |
| `Actor.StateConfiguratorError` | pkg/store/actor.go:53-65 | Only the database configurator can fail; the in-memory one returns no error. |
| `Actor.StateOutcomes` | pkg/store/actor.go:69-74 | One outcome per configurator, in chain order; `StateOutcomeAt` gives each as that configurator's error. |
| `Actor.StateChainBackend` | pkg/store/actor.go:67-76 | Configurators that all succeed leave the repository of the last one installed, and none is installed exactly when there are no configurators. |
| `Actor.EventStoreState.WithInMemoryRepositoryForActor` | pkg/store/actor.go:53-56 | Installs a fresh, empty in-memory repository and never fails. |
| `Actor.EventStoreState.WithPostgresqlRepositoryForActor` | pkg/store/actor.go:58-65 | Installs the database repository when opening succeeds. Otherwise returns the error and leaves the state unchanged. |
| `Actor.EventStoreState.ProcessSync` | pkg/store/actor.go:125-188 | The reply and error are `Reply` of the request and the in-memory answer. The repository changes only for an add. |
| `Actor.NewEventStoreState` | pkg/store/actor.go:67-76 | Applies configurators in order and returns the first error. No later configurator runs. The state holds the repository of the last configurator that ran successfully. |
| `Actor.NewEventStoreActorWithInMemory` | pkg/store/actor.go:17-30 | The state holds an empty in-memory repository at the address `local/eventstore`. Building the state never fails. |
| `Actor.NewEventStoreActorWithPostgres` | pkg/store/actor.go:32-45 | Reports `OpenError`. On success the state holds the database repository at the store's address. |

## Left out

- The mailbox loop `Process` (pkg/store/actor.go:109-123). It is a channel receive loop whose cases panic with "not implemented". It is concurrency with no defined result.
- The actor runtime: `actor.NewActor` and its error, registration, `SendMessage`, reply channels and timeouts. It is a foreign library. A message is a plain record `(from, to, body)`, and the empty message is modelled as one with no addresses and an `Empty` body. The two actor constructors return the state and the address instead of an actor.
- The broker and the projection handler goroutines. `Publish` is recorded in the ghost effect log, and starting the handlers and subscribing their channels are not modelled.
- The subscription registry and its add/remove messages: they do not exist in this code.
- Go's map iteration order, the GUID generator, the clock and reflection are nondeterministic or foreign. They are parameters: the iteration order, the drawn GUID, the clock reading and the type name.
- The payload codec (gob plus Base64). It is an abstract `encode: T -> Result<string>`, and its round trip is not modelled.
- The database backend's statements: running the insert, the `RetriveBy*` selects, connecting and pinging. This is I/O against a server. The outcomes of connecting, of running the insert and of counting its rows are parameters (`connectErr`, and the arguments of `DatabaseAppendAnswer`). The store's and the actor's methods run on the in-memory repository.
- Store.EventStore.Add: as a method it runs on the in-memory repository, whose append never fails. A failing append, with `(false, err)` and no publish, is stated by `Store.AddOutcome` for any repository answer and by `Store.NoRowAppendedAnnouncesNothing` for the database's.
- Actor.Reply: the actor library's `NewMessage` is not part of this model. It is read as `NewMessage(to, from, body)`, the order in which tests/actor/store_test.go:32-37 addresses its requests to the store. Under this reading ProcessSync replies to the request's sender, and a name lookup's reply has no recipient.
- Actor.NewEventStoreActorWithInMemory: the error `actor.NewActor` can return (pkg/store/actor.go:26-29) is not modelled; the method returns the state and the address, and its error is that of building the state.
- Actor.NewEventStoreActorWithPostgres: likewise, `actor.NewActor`'s error is not modelled.
- Actor.EventStoreState.ProcessSync: the append-error branch is likewise unreachable against the in-memory repository. It is covered only by `Actor.Reply`, which builds the reply from any repository answer.
- Decimal.Atoi: for a numeral that overflows and also contains a later invalid character, Go can report a range error where the model reports a syntax error.
- Store.Step: a second projection configurator installs a new broker (pkg/store/store.go:49) while the earlier keys stay in `ProjectionTopics`, so `Add` publishes them on a broker where their channels are not subscribed. The model records the `Publish` calls in the effect log and does not track which broker holds which subscription.
- Go's `int` is 32 or 64 bits depending on the platform. The model fixes 64 bits for `strconv.Itoa(int(evt.Id))`, `strconv.Atoi` and the port. It does not model the narrower range `strconv.Atoi` accepts on a 32-bit platform, nor the truncation of `int(evt.Id)` there.
- `Shutdown` only logs, and logging is not modelled.
