/**
 * The store facade: a repository chosen by a configurator chain, an
 * optional projection broker with its topic list, an `Add` that appends and
 * then announces the event on every projection topic, and three lookups.
 *
 * Publishing is recorded in a ghost log of effects, beside a record of each
 * append the store performs, so that the order of the two is visible.
 */
module Store {
  import opened Errors
  import opened Chain
  import opened Events
  import opened Repository
  import opened InMemory
  import opened Postgres

  /** The repository a store or actor state holds; a new one holds none. */
  datatype Backend =
    | NoRepository
    | Memory(repo: InMemoryRepository)
    | Postgresql(db: PostgresRepository)

  /** The broker message announcing an added event. */
  datatype BrokerMessage = BrokerMessage(aggregateId: string, eventType: string)

  /** What the store did, in order: an append to its repository, or a publish on the broker. */
  datatype Effect = Appended(event: StoreEvent) | Published(topic: string, message: BrokerMessage)

  /** The configurators a store can be built with. */
  datatype StoreConfigurator =
    | InMemoryConfig                                                  // WithInMemoryRepository
    | PostgresConfig(env: map<string, string>, connectErr: Option<Error>)  // WithPostgresqlRepository
    | ProjectionHandlersConfig(handlerKeys: set<string>, iteration: seq<string>)  // NewProjectionHandlersConfig(handlers)

  /** The error a configurator returns; only opening the database can fail. */
  function ConfiguratorError(c: StoreConfigurator): (r: Option<Error>)
    ensures r.Some? ==> c.PostgresConfig?
  {
    match c
    case PostgresConfig(env, connectErr) => OpenError(env, connectErr)
    case _ => None
  }

  /** The error each configurator of `cs` would return, in chain order. */
  function Outcomes(cs: seq<StoreConfigurator>): (r: seq<Option<Error>>)
    ensures |r| == |cs|
  {
    if cs == [] then [] else [ConfiguratorError(cs[0])] + Outcomes(cs[1..])
  }

  lemma {:induction false} OutcomeAt(cs: seq<StoreConfigurator>, i: nat)
    requires i < |cs|
    ensures Outcomes(cs)[i] == ConfiguratorError(cs[i])
    decreases i
  {
    if i > 0 {
      OutcomeAt(cs[1..], i - 1);
    }
  }

  /** One publish of `msg` per topic, in topic order. */
  function Notifications(topics: seq<string>, msg: BrokerMessage): (r: seq<Effect>)
    ensures |r| == |topics|
    ensures forall i :: 0 <= i < |topics| ==> r[i] == Published(topics[i], msg)
  {
    if topics == [] then []
    else Notifications(topics[..|topics| - 1], msg) + [Published(topics[|topics| - 1], msg)]
  }

  /** `s` lists every key of `keys` exactly once, in some order. */
  ghost predicate Enumerates(s: seq<string>, keys: set<string>)
  {
    && (forall i :: 0 <= i < |s| ==> s[i] in keys)
    && (forall k :: k in keys ==> k in s)
    && (forall i, j :: 0 <= i < j < |s| ==> s[i] != s[j])
  }

  /** Listing each key exactly once takes one entry per key. */
  lemma {:induction false} EnumerationLength(s: seq<string>, keys: set<string>)
    requires Enumerates(s, keys)
    ensures |s| == |keys|
    decreases |s|
  {
    if s == [] {
      assert keys == {};
    } else {
      var last := s[|s| - 1];
      var s' := s[..|s| - 1];
      assert forall i :: 0 <= i < |s'| ==> s'[i] == s[i] && s[i] != s[|s| - 1];
      assert last !in s';
      assert Enumerates(s', keys - {last}) by {
        forall k | k in keys - {last} ensures k in s' {
          assert k in s;
          var i :| 0 <= i < |s| && s[i] == k;
          assert i != |s| - 1;
          assert s'[i] == k;
        }
      }
      EnumerationLength(s', keys - {last});
    }
  }

  /**
   * A projection configurator holds the keys of its handler map, and
   * `iteration` is the order in which the runtime happens to iterate that
   * map: every key once.
   */
  ghost predicate WellFormed(c: StoreConfigurator)
  {
    c.ProjectionHandlersConfig? ==> Enumerates(c.iteration, c.handlerKeys)
  }

  /** What a value can show of the repository a store holds. */
  datatype BackendKind = NoRepositoryKind | MemoryKind | PostgresqlKind(db: PostgresRepository)

  function KindOf(b: Backend): BackendKind
  {
    match b
    case NoRepository => NoRepositoryKind
    case Memory(_) => MemoryKind
    case Postgresql(db) => PostgresqlKind(db)
  }

  /** What configuring a store sets: its repository, whether it has a broker, and its projection topics. */
  datatype Configuration = Configuration(backend: BackendKind, hasBroker: bool, topics: seq<string>)

  /** A store as NewEventStore first creates it, before any configurator runs. */
  const Unconfigured := Configuration(NoRepositoryKind, false, [])

  /**
   * The effect of one configurator that succeeds: a repository configurator
   * replaces the repository and nothing else; a projection configurator sets
   * the broker and appends to the topics, keeping the repository.
   */
  function Step(s: Configuration, c: StoreConfigurator): (r: Configuration)
    ensures |s.topics| <= |r.topics| && r.topics[..|s.topics|] == s.topics
    ensures !c.ProjectionHandlersConfig? ==> r.hasBroker == s.hasBroker && r.topics == s.topics
    ensures c.ProjectionHandlersConfig? ==> r.hasBroker && r.backend == s.backend
  {
    match c
    case InMemoryConfig => s.(backend := MemoryKind)
    case PostgresConfig(env, _) => s.(backend := PostgresqlKind(PostgresRepository(EnvInfo(env))))
    case ProjectionHandlersConfig(_, iteration) => s.(hasBroker := true, topics := s.topics + iteration)
  }

  /** The configuration a chain of configurators that all succeed builds, applying them in order. */
  function ChainConfiguration(cs: seq<StoreConfigurator>): (r: Configuration)
    ensures !r.hasBroker ==> r.topics == []
  {
    if cs == [] then Unconfigured else Step(ChainConfiguration(cs[..|cs| - 1]), cs[|cs| - 1])
  }

  lemma ChainConfigurationStep(cs: seq<StoreConfigurator>, i: nat)
    requires i < |cs|
    ensures ChainConfiguration(cs[..i + 1]) == Step(ChainConfiguration(cs[..i]), cs[i])
  {
    assert cs[..i + 1][..i] == cs[..i];
  }

  /** Some configurator of `cs` installs a projection broker. */
  predicate HasProjections(cs: seq<StoreConfigurator>)
  {
    exists i :: 0 <= i < |cs| && cs[i].ProjectionHandlersConfig?
  }

  /** The last configurator of `cs` that installs a repository, if any. */
  function LastBackendConfig(cs: seq<StoreConfigurator>): (r: Option<StoreConfigurator>)
    ensures r.Some? ==> r.value in cs && !r.value.ProjectionHandlersConfig?
    ensures r.None? <==> forall i :: 0 <= i < |cs| ==> cs[i].ProjectionHandlersConfig?
  {
    if cs == [] then None
    else if !cs[|cs| - 1].ProjectionHandlersConfig? then Some(cs[|cs| - 1])
    else LastBackendConfig(cs[..|cs| - 1])
  }

  /** A chain has a broker exactly when one of its configurators is a projection configurator. */
  lemma {:induction false} ChainBroker(cs: seq<StoreConfigurator>)
    ensures ChainConfiguration(cs).hasBroker == HasProjections(cs)
    decreases |cs|
  {
    if cs != [] {
      var init, c := cs[..|cs| - 1], cs[|cs| - 1];
      ChainBroker(init);
      assert cs == init + [c];
      if HasProjections(init) {
        var i :| 0 <= i < |init| && init[i].ProjectionHandlersConfig?;
        assert cs[i] == init[i];
      }
      if HasProjections(cs) {
        var i :| 0 <= i < |cs| && cs[i].ProjectionHandlersConfig?;
        if i < |init| {
          assert init[i] == cs[i];
        }
      }
    }
  }

  /** The repository a chain installs is the one its last repository configurator opens; later configurators keep it. */
  lemma {:induction false} ChainBackend(cs: seq<StoreConfigurator>)
    ensures ChainConfiguration(cs).backend ==
              match LastBackendConfig(cs)
              case None => NoRepositoryKind
              case Some(InMemoryConfig) => MemoryKind
              case Some(PostgresConfig(env, _)) => PostgresqlKind(PostgresRepository(EnvInfo(env)))
              case Some(ProjectionHandlersConfig(_, _)) => NoRepositoryKind
    decreases |cs|
  {
    if cs != [] {
      ChainBackend(cs[..|cs| - 1]);
    }
  }

  /** A topic is listed exactly when it is a handler key of one of the chain's projection configurators. */
  lemma {:induction false} ChainTopics(cs: seq<StoreConfigurator>, t: string)
    requires forall i :: 0 <= i < |cs| ==> WellFormed(cs[i])
    ensures t in ChainConfiguration(cs).topics <==>
              exists i :: 0 <= i < |cs| && cs[i].ProjectionHandlersConfig? && t in cs[i].handlerKeys
    decreases |cs|
  {
    if cs != [] {
      var init, c := cs[..|cs| - 1], cs[|cs| - 1];
      assert forall i :: 0 <= i < |init| ==> init[i] == cs[i];
      ChainTopics(init, t);
      if t in ChainConfiguration(cs).topics {
        if t in ChainConfiguration(init).topics {
          var i :| 0 <= i < |init| && init[i].ProjectionHandlersConfig? && t in init[i].handlerKeys;
          assert cs[i] == init[i];
        } else {
          assert WellFormed(cs[|cs| - 1]);
        }
      }
      if exists i :: 0 <= i < |cs| && cs[i].ProjectionHandlersConfig? && t in cs[i].handlerKeys {
        var i :| 0 <= i < |cs| && cs[i].ProjectionHandlersConfig? && t in cs[i].handlerKeys;
        if i == |cs| - 1 {
          assert WellFormed(c);
        }
      }
    }
  }

  /** A projection configurator adds one topic per handler key, each key once, after the topics already listed. */
  lemma ProjectionTopics(s: Configuration, keys: set<string>, iteration: seq<string>)
    requires Enumerates(iteration, keys)
    ensures var s' := Step(s, ProjectionHandlersConfig(keys, iteration));
            && s'.hasBroker
            && |s'.topics| == |s.topics| + |keys|
            && s'.topics[..|s.topics|] == s.topics
            && (forall k :: k in s'.topics[|s.topics|..] <==> k in keys)
  {
    EnumerationLength(iteration, keys);
    var s' := Step(s, ProjectionHandlersConfig(keys, iteration));
    assert s'.topics[|s.topics|..] == iteration;
  }

  /** What Add returns, and the effects it has, once the repository has answered the append. */
  datatype AddResult = AddResult(ok: bool, err: Option<Error>, effects: seq<Effect>)

  /**
   * Add, whatever the repository: a failed append is returned as `false`
   * with its error and announces nothing; a successful one is recorded and
   * then, only when a broker is set, announced once per topic in topic
   * order.
   */
  function AddOutcome(answer: (bool, Option<Error>), hasBroker: bool, topics: seq<string>, e: StoreEvent): (r: AddResult)
    ensures r.err == answer.1
    ensures answer.1.Some? ==> !r.ok && r.effects == []
    ensures answer.1.None? ==> |r.effects| == 1 + (if hasBroker then |topics| else 0)
    ensures answer.1.None? ==> r.ok == answer.0 && r.effects[0] == Appended(e)
    ensures answer.1.None? && hasBroker ==> r.effects[1..] == Notifications(topics, BrokerMessage(e.aggregateId, e.eventType))
  {
    if answer.1.Some? then AddResult(false, answer.1, [])
    else AddResult(answer.0, None, [Appended(e)] + (if hasBroker then Notifications(topics, BrokerMessage(e.aggregateId, e.eventType)) else []))
  }

  /** Add announces only after a successful append, and only when a broker is set. */
  lemma PublishOnlyAfterAppend(answer: (bool, Option<Error>), hasBroker: bool, topics: seq<string>, e: StoreEvent, i: nat)
    requires i < |AddOutcome(answer, hasBroker, topics, e).effects|
    requires AddOutcome(answer, hasBroker, topics, e).effects[i].Published?
    ensures answer.1.None? && hasBroker && i > 0
    ensures AddOutcome(answer, hasBroker, topics, e).effects[0] == Appended(e)
  {
  }

  /** An insert that the database reports as affecting no row is an error, and nothing is announced. */
  lemma NoRowAppendedAnnouncesNothing(hasBroker: bool, topics: seq<string>, e: StoreEvent)
    ensures AddOutcome(DatabaseAppendAnswer(None, Ok(0)), hasBroker, topics, e) == AddResult(false, Some(NoEventAppended), [])
  {
  }

  /** What GetByName and GetByID return for a repository's answer: its events when found, else none and its error. */
  function EventsOrError(l: Lookup<seq<StoreEvent>>): (r: (seq<StoreEvent>, Option<Error>))
    ensures l.found ==> r.0 == l.result && r.1.None?
    ensures !l.found ==> r.0 == [] && r.1 == l.err
  {
    if l.found then (l.result, None) else ([], l.err)
  }

  /** What GetByEventID returns for a repository's answer: its event when found, else nothing, `false` and its error. */
  function EventOrError(l: Lookup<Option<StoreEvent>>): (r: (Option<StoreEvent>, bool, Option<Error>))
    ensures r.1 <==> l.found
    ensures r.1 ==> r.0 == l.result && r.2.None?
    ensures !r.1 ==> r.0.None? && r.2 == l.err
  {
    if l.found then (l.result, true, None) else (None, false, l.err)
  }

  class EventStore {
    var backend: Backend
    var hasBroker: bool                 // the projection broker is set
    var projectionTopics: seq<string>
    ghost var effects: seq<Effect>

    /** The part of this store's state that configurators set. */
    ghost function Configured(): Configuration
      reads this
    {
      Configuration(KindOf(backend), hasBroker, projectionTopics)
    }

    constructor ()
      ensures backend == NoRepository && !hasBroker && projectionTopics == [] && effects == []
    {
      backend := NoRepository;
      hasBroker := false;
      projectionTopics := [];
      effects := [];
    }

    /** Installs a new, empty in-memory repository; never fails. */
    method WithInMemoryRepository() returns (err: Option<Error>)
      modifies this
      ensures err == None
      ensures backend.Memory? && fresh(backend.repo) && backend.repo.events == []
      ensures hasBroker == old(hasBroker) && projectionTopics == old(projectionTopics) && effects == old(effects)
    {
      var repo := new InMemoryRepository();
      backend := Memory(repo);
      err := None;
    }

    /** Opens the database repository and installs it; on failure the store is left as it was. */
    method WithPostgresqlRepository(env: map<string, string>, connectErr: Option<Error>) returns (err: Option<Error>)
      modifies this
      ensures err == OpenError(env, connectErr)
      ensures backend == if err.None? then Postgresql(PostgresRepository(EnvInfo(env))) else old(backend)
      ensures hasBroker == old(hasBroker) && projectionTopics == old(projectionTopics) && effects == old(effects)
    {
      var pr;
      pr, err := NewPostgresqlRepository(env, connectErr);
      if err.Some? {
        return;
      }
      backend := Postgresql(pr.value);
    }

    /**
     * The configurator NewProjectionHandlersConfig returns: installs a new
     * broker and appends every handler key to the topic list, in the order
     * `iteration` in which the handler map is iterated.
     */
    method WithProjectionHandlers(handlerKeys: set<string>, iteration: seq<string>) returns (err: Option<Error>)
      requires Enumerates(iteration, handlerKeys)
      modifies this
      ensures err == None && hasBroker
      ensures projectionTopics == old(projectionTopics) + iteration
      ensures backend == old(backend) && effects == old(effects)
    {
      hasBroker := true;
      err := None;
      for i := 0 to |iteration|
        invariant projectionTopics == old(projectionTopics) + iteration[..i]
        invariant hasBroker && backend == old(backend) && effects == old(effects)
      {
        projectionTopics := projectionTopics + [iteration[i]];
        assert iteration[..i + 1] == iteration[..i] + [iteration[i]];
      }
      assert iteration[..|iteration|] == iteration;
    }

    /** Runs one configurator on this store: on success its effect is one step of the chain. */
    method Configure(c: StoreConfigurator) returns (err: Option<Error>)
      requires WellFormed(c)
      modifies this
      ensures err == ConfiguratorError(c)
      ensures Configured() == if err.None? then Step(old(Configured()), c) else old(Configured())
      ensures c.InMemoryConfig? ==> fresh(backend.repo) && backend.repo.events == []
      ensures !c.InMemoryConfig? ==> backend.Memory? ==> backend == old(backend)
      ensures effects == old(effects)
    {
      match c
      case InMemoryConfig => err := WithInMemoryRepository();
      case PostgresConfig(env, connectErr) => err := WithPostgresqlRepository(env, connectErr);
      case ProjectionHandlersConfig(keys, iteration) => err := WithProjectionHandlers(keys, iteration);
    }

    /**
     * Appends the event; only after the append succeeds, and only when a
     * broker is set, publishes one message per projection topic, in topic
     * order. The in-memory repository answers every append with `(true, nil)`.
     */
    method Add(event: StoreEvent) returns (ok: bool, err: Option<Error>)
      requires backend.Memory?
      modifies this`effects, backend.repo
      ensures backend.repo.events == old(backend.repo.events) + [event]
      ensures var out := AddOutcome((true, None), hasBroker, projectionTopics, event);
              ok == out.ok && err == out.err && effects == old(effects) + out.effects
    {
      var result, appendErr := backend.repo.Append(event);
      if appendErr.Some? {
        return false, appendErr;
      }
      effects := effects + [Appended(event)];
      if hasBroker {
        PublishToTopics(BrokerMessage(event.aggregateId, event.eventType));
      }
      return result, appendErr;
    }

    /** Publishes `msg` once on every projection topic, in topic order. */
    method PublishToTopics(msg: BrokerMessage)
      modifies this`effects
      ensures effects == old(effects) + Notifications(projectionTopics, msg)
    {
      for i := 0 to |projectionTopics|
        invariant effects == old(effects) + Notifications(projectionTopics[..i], msg)
      {
        assert projectionTopics[..i + 1][..i] == projectionTopics[..i];
        effects := effects + [Published(projectionTopics[i], msg)];
      }
      assert projectionTopics[..|projectionTopics|] == projectionTopics;
    }

    /** As written, looks events up by aggregate id (the in-memory name lookup compares aggregate ids). */
    method GetByName(aggregateName: string) returns (result: seq<StoreEvent>, err: Option<Error>)
      requires backend.Memory?
      ensures (result, err) == EventsOrError(AggregateLookup(backend.repo.events, aggregateName))
      ensures result == WithAggregateId(backend.repo.events, aggregateName)
      ensures err == if result == [] then Some(NotFound) else None
    {
      var r, ok, e := backend.repo.RetriveByAggregateName(aggregateName);
      if ok {
        return r, None;
      }
      return [], e;
    }

    /** The events of one aggregate in insertion order, or none and the not-found error. */
    method GetByID(aggregateId: string) returns (result: seq<StoreEvent>, err: Option<Error>)
      requires backend.Memory?
      ensures (result, err) == EventsOrError(AggregateLookup(backend.repo.events, aggregateId))
      ensures result == WithAggregateId(backend.repo.events, aggregateId)
      ensures err == if result == [] then Some(NotFound) else None
    {
      var r, ok, e := backend.repo.RetriveByAggregateID(aggregateId);
      if ok {
        return r, None;
      }
      return [], e;
    }

    /** The first event whose id renders as `id`, or nothing and the not-found error. */
    method GetByEventID(id: string) returns (result: Option<StoreEvent>, found: bool, err: Option<Error>)
      requires backend.Memory?
      ensures (result, found, err) == EventOrError(EventLookup(backend.repo.events, id))
      ensures result == FirstWithId(backend.repo.events, id)
      ensures found <==> result.Some?
      ensures err == if found then None else Some(NotFound)
    {
      var r, ok, e := backend.repo.RetriveByID(id);
      if ok {
        return r, ok, None;
      }
      return None, ok, e;
    }
  }

  /**
   * Runs the configurators in order on a new store and stops at the first
   * error, returning the store as the configurators before it left it.
   */
  method NewEventStore(cs: seq<StoreConfigurator>) returns (store: EventStore, err: Option<Error>)
    requires forall i :: 0 <= i < |cs| ==> WellFormed(cs[i])
    ensures fresh(store)
    ensures err == ChainError(Outcomes(cs))
    ensures store.Configured() == ChainConfiguration(cs[..FirstFailure(Outcomes(cs))])
    ensures store.backend.Memory? ==> fresh(store.backend.repo) && store.backend.repo.events == []
    ensures store.effects == []
  {
    ghost var outcomes := Outcomes(cs);
    store := new EventStore();
    var i := 0;
    while i < |cs|
      invariant 0 <= i <= |cs|
      invariant forall j :: 0 <= j < i ==> outcomes[j].None?
      invariant store.Configured() == ChainConfiguration(cs[..i])
      invariant store.backend.Memory? ==> fresh(store.backend.repo) && store.backend.repo.events == []
      invariant store.effects == []
      invariant fresh(store)
    {
      err := store.Configure(cs[i]);
      OutcomeAt(cs, i);
      assert err == outcomes[i];
      if err.Some? {
        FirstFailureIs(outcomes, i);
        return;
      }
      ChainConfigurationStep(cs, i);
      i := i + 1;
    }
    assert cs[..i] == cs;
    FirstFailureIs(outcomes, i);
    err := None;
  }
}
