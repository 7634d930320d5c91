/**
 * The event store as an actor's state: a repository chosen by a configurator
 * chain, and a synchronous handler that turns one request message into one
 * reply message or an error.
 *
 * The handler is specified in two parts. `Reply` says how a reply is built
 * from the request and from what the repository answered, whatever the
 * backend. `InMemoryAnswer` says what the in-memory repository answers. The
 * lemmas combine the two.
 */
module Actor {
  import opened Errors
  import opened Chain
  import opened Events
  import opened Repository
  import opened InMemory
  import opened Postgres
  import opened Store

  /** An actor's address in the runtime: an area and a name. */
  datatype Address = Address(area: string, name: string)

  /** The address the event store actor registers under. */
  function EventStoreAddress(): (a: Address)
    ensures a.area == "local" && a.name == "eventstore"
  {
    Address("local", "eventstore")
  }

  /** The payload of a message: one case per body type the store knows, and any other value. */
  datatype Body =
    | Empty                                        // the body of the runtime's empty message
    | AddEventBody(event: StoreEvent)
    | ResultAddEventBody(success: bool)
    | RetriveByAggregateNameBody(name: string)
    | RetriveByAggregateIDBody(id: string)
    | RetriveByAggregateBodyResult(result: seq<StoreEvent>)
    | CheckExistenceByAggregateIDBody(id: string)
    | CheckExistenceByAggregateIDBodyResult(aggregateExists: bool)
    | RetriveByEventIDBody(id: string)
    | RetriveByEventIDBodyResult(event: StoreEvent)
    | OtherBody(typeName: string)                  // a value of a type the store does not know

  /** A message envelope; a missing address is a nil address. */
  datatype Message = Message(from: Option<Address>, to: Option<Address>, body: Body)

  const EmptyMessage := Message(None, None, Empty)

  /**
   * actor.NewMessage(to, from, body): the recipient comes first, as in the
   * requests the actor test sends to the store.
   */
  function NewMessage(to: Option<Address>, from: Option<Address>, body: Body): (m: Message)
    ensures m.to == to && m.from == from && m.body == body
  {
    Message(from, to, body)
  }

  /** What the repository answered to the call a message body asks for. */
  datatype Answer =
    | AppendAnswer(ok: bool, err: Option<Error>)          // Append
    | LookupAnswer(lookup: Lookup<seq<StoreEvent>>)       // RetriveByAggregateID or RetriveByAggregateName
    | NoAnswer                                            // the body asks for no repository call

  /** The answer has the shape of the repository call that `body` asks for. */
  predicate Answers(body: Body, a: Answer)
  {
    match body
    case AddEventBody(_) => a.AppendAnswer?
    case RetriveByAggregateIDBody(_) => a.LookupAnswer?
    case CheckExistenceByAggregateIDBody(_) => a.LookupAnswer?
    case RetriveByAggregateNameBody(_) => a.LookupAnswer?
    case _ => a.NoAnswer?
  }

  /** The error the repository answered, or the not-implemented error for a body that asks for no call. */
  function AnswerError(a: Answer): Option<Error>
  {
    match a
    case AppendAnswer(_, err) => err
    case LookupAnswer(l) => l.err
    case NoAnswer => Some(NotImplemented)
  }

  /**
   * ProcessSync's reply to `msg` once the repository has answered `answer`.
   * Every error comes with the empty message; every other reply comes from
   * the request's recipient and goes back to the request's sender, except
   * that the reply to a lookup by name has no recipient.
   */
  function Reply(msg: Message, answer: Answer): (r: (Message, Option<Error>))
    requires Answers(msg.body, answer)
    ensures r.1 == AnswerError(answer)
    ensures r.1.Some? ==> r.0 == EmptyMessage
    ensures r.1.None? ==> r.0.from == msg.to
    ensures r.1.None? ==> r.0.to == if msg.body.RetriveByAggregateNameBody? then None else msg.from
    ensures r.1.None? && msg.body.AddEventBody? ==> r.0.body == ResultAddEventBody(answer.ok)
    ensures r.1.None? && (msg.body.RetriveByAggregateIDBody? || msg.body.RetriveByAggregateNameBody?)
            ==> r.0.body == RetriveByAggregateBodyResult(answer.lookup.result)
    ensures r.1.None? && msg.body.CheckExistenceByAggregateIDBody?
            ==> r.0.body == CheckExistenceByAggregateIDBodyResult(answer.lookup.found)
  {
    match msg.body
    case AddEventBody(_) =>
      if answer.err.Some? then (EmptyMessage, answer.err)
      else (NewMessage(msg.from, msg.to, ResultAddEventBody(answer.ok)), None)
    case RetriveByAggregateIDBody(_) =>
      if answer.lookup.err.Some? then (EmptyMessage, answer.lookup.err)
      else (NewMessage(msg.from, msg.to, RetriveByAggregateBodyResult(answer.lookup.result)), answer.lookup.err)
    case CheckExistenceByAggregateIDBody(_) =>
      if answer.lookup.err.Some? then (EmptyMessage, answer.lookup.err)
      else (NewMessage(msg.from, msg.to, CheckExistenceByAggregateIDBodyResult(answer.lookup.found)), answer.lookup.err)
    case RetriveByAggregateNameBody(_) =>
      if answer.lookup.err.Some? then (EmptyMessage, answer.lookup.err)
      else (NewMessage(None, msg.to, RetriveByAggregateBodyResult(answer.lookup.result)), answer.lookup.err)
    case _ => (EmptyMessage, Some(NotImplemented))
  }

  /**
   * What the in-memory repository holding `events` answers to the call
   * `body` asks for. Its name lookup compares aggregate ids.
   */
  function InMemoryAnswer(events: seq<StoreEvent>, body: Body): (a: Answer)
    ensures Answers(body, a)
  {
    match body
    case AddEventBody(_) => AppendAnswer(true, None)
    case RetriveByAggregateIDBody(id) => LookupAnswer(AggregateLookup(events, id))
    case CheckExistenceByAggregateIDBody(id) => LookupAnswer(AggregateLookup(events, id))
    case RetriveByAggregateNameBody(name) => LookupAnswer(AggregateLookup(events, name))
    case _ => NoAnswer
  }

  /** The events an in-memory repository holds after handling `body`: only an add changes them. */
  function InMemoryAfter(events: seq<StoreEvent>, body: Body): (r: seq<StoreEvent>)
    ensures |r| == |events| + (if body.AddEventBody? then 1 else 0)
    ensures r[..|events|] == events
  {
    if body.AddEventBody? then events + [body.event] else events
  }

  /** Adding to the in-memory repository always succeeds and is acknowledged to the request's sender, from the store. */
  lemma AddReply(events: seq<StoreEvent>, msg: Message)
    requires msg.body.AddEventBody?
    ensures Reply(msg, InMemoryAnswer(events, msg.body)) == (Message(msg.to, msg.from, ResultAddEventBody(true)), None)
  {
  }

  /**
   * A lookup by aggregate id replies with exactly the stored events of that
   * aggregate, in insertion order, or with the not-found error when there
   * are none.
   */
  lemma RetrieveByAggregateIdReply(events: seq<StoreEvent>, msg: Message, id: string)
    requires msg.body == RetriveByAggregateIDBody(id)
    ensures var r := Reply(msg, InMemoryAnswer(events, msg.body));
            && (r.1.None? <==> exists e :: e in events && e.aggregateId == id)
            && (r.1.None? ==> r.0 == Message(msg.to, msg.from, RetriveByAggregateBodyResult(WithAggregateId(events, id))))
            && (r.1.Some? ==> r == (EmptyMessage, Some(NotFound)))
  {
  }

  /**
   * A lookup by name replies with the stored events whose aggregate id is
   * that name, addressed to no recipient, or with the not-found error when
   * there are none.
   */
  lemma RetrieveByNameReply(events: seq<StoreEvent>, msg: Message, name: string)
    requires msg.body == RetriveByAggregateNameBody(name)
    ensures var r := Reply(msg, InMemoryAnswer(events, msg.body));
            && (r.1.None? <==> exists e :: e in events && e.aggregateId == name)
            && (r.1.None? ==> r.0 == Message(msg.to, None, RetriveByAggregateBodyResult(WithAggregateId(events, name))))
            && (r.1.Some? ==> r == (EmptyMessage, Some(NotFound)))
  {
  }

  /**
   * An existence check replies `true` when some stored event has that
   * aggregate id. Otherwise the in-memory lookup reports not-found, so the
   * check answers with the error rather than with `false`.
   */
  lemma CheckExistenceReply(events: seq<StoreEvent>, msg: Message, id: string)
    requires msg.body == CheckExistenceByAggregateIDBody(id)
    ensures Reply(msg, InMemoryAnswer(events, msg.body)) ==
              if exists e :: e in events && e.aggregateId == id
              then (Message(msg.to, msg.from, CheckExistenceByAggregateIDBodyResult(true)), None)
              else (EmptyMessage, Some(NotFound))
  {
  }

  /** Once an event is added, checking its aggregate id reports that the aggregate exists. */
  lemma AddThenCheckExists(events: seq<StoreEvent>, add: Message, check: Message)
    requires add.body.AddEventBody?
    requires check.body == CheckExistenceByAggregateIDBody(add.body.event.aggregateId)
    ensures var after := InMemoryAfter(events, add.body);
            Reply(check, InMemoryAnswer(after, check.body))
            == (Message(check.to, check.from, CheckExistenceByAggregateIDBodyResult(true)), None)
  {
    var after := InMemoryAfter(events, add.body);
    assert after[|events|] == add.body.event;
    CheckExistenceReply(after, check, add.body.event.aggregateId);
  }

  /** A lookup by event id, a result body or any other value is not handled. */
  lemma NotImplementedReply(events: seq<StoreEvent>, msg: Message)
    requires !msg.body.AddEventBody? && !msg.body.RetriveByAggregateIDBody?
    requires !msg.body.CheckExistenceByAggregateIDBody? && !msg.body.RetriveByAggregateNameBody?
    ensures Reply(msg, InMemoryAnswer(events, msg.body)) == (EmptyMessage, Some(NotImplemented))
    ensures InMemoryAfter(events, msg.body) == events
  {
  }

  /** The configurators an actor state can be built with. */
  datatype StateConfigurator =
    | InMemoryForActor                                                   // WithInMemoryRepositoryForActor
    | PostgresForActor(env: map<string, string>, connectErr: Option<Error>)  // WithPostgresqlRepositoryForActor

  /** The error a configurator returns; only opening the database can fail. */
  function StateConfiguratorError(c: StateConfigurator): (r: Option<Error>)
    ensures r.Some? ==> c.PostgresForActor?
  {
    match c
    case InMemoryForActor => None
    case PostgresForActor(env, connectErr) => OpenError(env, connectErr)
  }

  /** The error each configurator of `cs` would return, in chain order. */
  function StateOutcomes(cs: seq<StateConfigurator>): (r: seq<Option<Error>>)
    ensures |r| == |cs|
  {
    if cs == [] then [] else [StateConfiguratorError(cs[0])] + StateOutcomes(cs[1..])
  }

  lemma {:induction false} StateOutcomeAt(cs: seq<StateConfigurator>, i: nat)
    requires i < |cs|
    ensures StateOutcomes(cs)[i] == StateConfiguratorError(cs[i])
    decreases i
  {
    if i > 0 {
      StateOutcomeAt(cs[1..], i - 1);
    }
  }

  /** The repository a configurator that succeeds installs, replacing any installed before. */
  function StateBackend(c: StateConfigurator): BackendKind
  {
    match c
    case InMemoryForActor => MemoryKind
    case PostgresForActor(env, _) => PostgresqlKind(PostgresRepository(EnvInfo(env)))
  }

  /** The repository a chain of configurators that all succeed leaves installed. */
  function StateChainBackend(cs: seq<StateConfigurator>): (r: BackendKind)
    ensures r.NoRepositoryKind? <==> cs == []
  {
    if cs == [] then NoRepositoryKind else StateBackend(cs[|cs| - 1])
  }

  lemma StateChainBackendStep(cs: seq<StateConfigurator>, i: nat)
    requires i < |cs|
    ensures StateChainBackend(cs[..i + 1]) == StateBackend(cs[i])
  {
    assert cs[..i + 1][..i] == cs[..i];
  }

  class EventStoreState {
    var backend: Backend

    /** What a value can show of the repository this state holds. */
    ghost function Installed(): BackendKind
      reads this
    {
      KindOf(backend)
    }

    constructor ()
      ensures backend == NoRepository
    {
      backend := NoRepository;
    }

    /** Installs a new, empty in-memory repository; never fails. */
    method WithInMemoryRepositoryForActor() returns (err: Option<Error>)
      modifies this
      ensures err == None
      ensures backend.Memory? && fresh(backend.repo) && backend.repo.events == []
    {
      var repo := new InMemoryRepository();
      backend := Memory(repo);
      err := None;
    }

    /** Opens the database repository and installs it; on failure the state is left as it was. */
    method WithPostgresqlRepositoryForActor(env: map<string, string>, connectErr: Option<Error>) returns (err: Option<Error>)
      modifies this
      ensures err == OpenError(env, connectErr)
      ensures backend == if err.None? then Postgresql(PostgresRepository(EnvInfo(env))) else old(backend)
    {
      var pr;
      pr, err := NewPostgresqlRepository(env, connectErr);
      if err.Some? {
        return;
      }
      backend := Postgresql(pr.value);
    }

    /** Runs one configurator on this state. */
    method Configure(c: StateConfigurator) returns (err: Option<Error>)
      modifies this
      ensures err == StateConfiguratorError(c)
      ensures Installed() == if err.None? then StateBackend(c) else old(Installed())
      ensures c.InMemoryForActor? ==> fresh(backend.repo) && backend.repo.events == []
      ensures c.PostgresForActor? && backend.Memory? ==> backend == old(backend)
    {
      match c
      case InMemoryForActor => err := WithInMemoryRepositoryForActor();
      case PostgresForActor(env, connectErr) => err := WithPostgresqlRepositoryForActor(env, connectErr);
    }

    /**
     * Handles one request against the in-memory repository: appends for an
     * add, looks up for a retrieval or an existence check, and replies.
     */
    method ProcessSync(msg: Message) returns (reply: Message, err: Option<Error>)
      requires backend.Memory?
      modifies backend.repo
      ensures (reply, err) == Reply(msg, InMemoryAnswer(old(backend.repo.events), msg.body))
      ensures backend.repo.events == InMemoryAfter(old(backend.repo.events), msg.body)
    {
      var repo := backend.repo;
      match msg.body
      case AddEventBody(event) =>
        var result, e := repo.Append(event);
        if e.Some? {
          return EmptyMessage, e;
        }
        return NewMessage(msg.from, msg.to, ResultAddEventBody(result)), None;
      case RetriveByAggregateIDBody(id) =>
        var result, _, e := repo.RetriveByAggregateID(id);
        if e.Some? {
          return EmptyMessage, e;
        }
        return NewMessage(msg.from, msg.to, RetriveByAggregateBodyResult(result)), e;
      case CheckExistenceByAggregateIDBody(id) =>
        var _, result, e := repo.RetriveByAggregateID(id);
        if e.Some? {
          return EmptyMessage, e;
        }
        return NewMessage(msg.from, msg.to, CheckExistenceByAggregateIDBodyResult(result)), e;
      case RetriveByAggregateNameBody(name) =>
        var result, _, e := repo.RetriveByAggregateName(name);
        if e.Some? {
          return EmptyMessage, e;
        }
        return NewMessage(None, msg.to, RetriveByAggregateBodyResult(result)), e;
      case _ =>
        return EmptyMessage, Some(NotImplemented);
    }
  }

  /**
   * Runs the configurators in order on a new state and stops at the first
   * error, returning the state as the configurators before it left it.
   */
  method NewEventStoreState(cs: seq<StateConfigurator>) returns (state: EventStoreState, err: Option<Error>)
    ensures fresh(state)
    ensures err == ChainError(StateOutcomes(cs))
    ensures state.Installed() == StateChainBackend(cs[..FirstFailure(StateOutcomes(cs))])
    ensures state.backend.Memory? ==> fresh(state.backend.repo) && state.backend.repo.events == []
  {
    ghost var outcomes := StateOutcomes(cs);
    state := new EventStoreState();
    var i := 0;
    while i < |cs|
      invariant 0 <= i <= |cs|
      invariant forall j :: 0 <= j < i ==> outcomes[j].None?
      invariant state.Installed() == StateChainBackend(cs[..i])
      invariant state.backend.Memory? ==> fresh(state.backend.repo) && state.backend.repo.events == []
      invariant fresh(state)
    {
      err := state.Configure(cs[i]);
      StateOutcomeAt(cs, i);
      assert err == outcomes[i];
      if err.Some? {
        FirstFailureIs(outcomes, i);
        return;
      }
      StateChainBackendStep(cs, i);
      i := i + 1;
    }
    assert cs[..i] == cs;
    FirstFailureIs(outcomes, i);
    err := None;
  }

  /** NewEvenStoreActorWithInMemory: a state holding an empty in-memory repository, at the store's address. */
  method NewEventStoreActorWithInMemory() returns (state: EventStoreState, address: Address, err: Option<Error>)
    ensures err == None && address == EventStoreAddress()
    ensures state.backend.Memory? && fresh(state.backend.repo) && state.backend.repo.events == []
  {
    state, err := NewEventStoreState([InMemoryForActor]);
    assert [InMemoryForActor][..1] == [InMemoryForActor];
    address := EventStoreAddress();
  }

  /**
   * NewEvenStoreActorWithPostgres: a state holding the database repository,
   * at the store's address, or the error opening it reported.
   */
  method NewEventStoreActorWithPostgres(env: map<string, string>, connectErr: Option<Error>)
    returns (state: EventStoreState, address: Address, err: Option<Error>)
    ensures err == OpenError(env, connectErr)
    ensures err.None? ==> state.backend == Postgresql(PostgresRepository(EnvInfo(env))) && address == EventStoreAddress()
  {
    state, err := NewEventStoreState([PostgresForActor(env, connectErr)]);
    StateOutcomeAt([PostgresForActor(env, connectErr)], 0);
    address := EventStoreAddress();
  }
}
