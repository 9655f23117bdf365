/** The sink contract and its factory (`OutputStrategy` and
    `OutputStrategyFactory` in patternLab4/src/output_strategy.py). A sink is one
    of the three variants; `OutputData` and `Close` dispatch on it. A variant
    whose connection fails is reported as a failure result where the source
    exits the process with status 1. */
module Strategies {
  import opened Wrappers
  import opened Values
  import opened Transport
  import ConsoleOutput
  import KafkaOutput
  import RedisOutput

  datatype Kind = ConsoleKind | KafkaKind | RedisKind

  /** The strategy name that selects each variant. */
  function Name(k: Kind): string
  {
    match k
    case ConsoleKind => "console"
    case KafkaKind => "kafka"
    case RedisKind => "redis"
  }

  /** The branch `create_strategy` takes for `strategyType`: a variant exactly when
      the type is one of the three names, and then the variant of that name. */
  function KindOf(strategyType: Json): (r: Option<Kind>)
    ensures r.Some? ==> strategyType == Atom(Str(Name(r.value)))
    ensures r.None? ==> forall k: Kind :: strategyType != Atom(Str(Name(k)))
  {
    if strategyType == Atom(Str("console")) then Some(ConsoleKind)
    else if strategyType == Atom(Str("kafka")) then Some(KafkaKind)
    else if strategyType == Atom(Str("redis")) then Some(RedisKind)
    else None
  }

  /** Each variant is selected by its own name. */
  lemma KindOfName(k: Kind)
    ensures KindOf(Atom(Str(Name(k)))) == Some(k)
  {
  }

  datatype Sink =
    | OnConsole(console: ConsoleOutput.ConsoleSink)
    | OnKafka(kafka: KafkaOutput.KafkaSink)
    | OnRedis(redis: RedisOutput.RedisSink)

  function KindOfSink(s: Sink): Kind
  {
    match s
    case OnConsole(_) => ConsoleKind
    case OnKafka(_) => KafkaKind
    case OnRedis(_) => RedisKind
  }

  /** The object a sink's operations change. */
  function Target(s: Sink): object
  {
    match s
    case OnConsole(c) => c
    case OnKafka(k) => k
    case OnRedis(r) => r
  }

  datatype CreateError =
    | UnknownStrategy(strategyType: Json)  // ValueError
    | NotKeywordArgs                       // TypeError from `**config`
    | ConnectionFailed                     // the constructor calls sys.exit(1)

  /** `Cls(**config)` binds: the options are a dict, and none of them is named
      `self`, which would clash with the constructor's own first parameter. */
  predicate KeywordArgs(config: Json)
  {
    config.Object? && "self" !in config.members
  }

  /** Every constructor takes `**kwargs`, so an option of any other name is accepted
      and ignored: adding one never makes the binding fail. */
  lemma ExtraOptionAccepted(options: map<string, Json>, name: string, value: Json)
    requires KeywordArgs(Object(options))
    requires name != "self"
    ensures KeywordArgs(Object(options[name := value]))
  {
  }

  /** The binding fails for options that are not a dict, and for a dict naming `self`. */
  lemma KeywordArgsRejects(config: Json, value: Json)
    ensures !config.Object? ==> !KeywordArgs(config)
    ensures config.Object? ==> !KeywordArgs(Object(config.members["self" := value]))
  {
  }

  /** A freshly constructed sink of the given options, over a store holding `contents`. */
  predicate Initial(s: Sink, options: map<string, Json>, contents: map<string, Ser>)
    reads Target(s)
  {
    match s
    case OnConsole(c) => c.lines == []
    case OnKafka(k) =>
      && k.servers == GetOr(options, "bootstrap_servers", KafkaOutput.DefaultServers)
      && k.topic == GetOr(options, "topic", KafkaOutput.DefaultTopic)
      && k.calls == [] && k.log == [KafkaOutput.Connected]
    case OnRedis(r) =>
      && r.host == GetOr(options, "host", RedisOutput.DefaultHost)
      && r.port == GetOr(options, "port", RedisOutput.DefaultPort)
      && r.db == GetOr(options, "db", RedisOutput.DefaultDb)
      && r.keyPrefix == GetOr(options, "key_prefix", RedisOutput.DefaultKeyPrefix)
      && r.State() == RedisOutput.Pipe([], contents, 0, [RedisOutput.Connected])
  }

  /** `OutputStrategyFactory.create_strategy(strategy_type, config)`. `connects` says
      whether the broker or store client can be created; `contents` is what the
      store holds before the run. */
  method CreateStrategy(strategyType: Json, config: Json, connects: bool, contents: map<string, Ser>)
    returns (r: Result<Sink, CreateError>)
    ensures KindOf(strategyType).None? ==> r == Failure(UnknownStrategy(strategyType))
    ensures KindOf(strategyType).Some? && !KeywordArgs(config) ==> r == Failure(NotKeywordArgs)
    ensures KindOf(strategyType).Some? && KeywordArgs(config) && KindOf(strategyType) != Some(ConsoleKind) && !connects ==>
              r == Failure(ConnectionFailed)
    ensures r.Success? <==>
              KindOf(strategyType).Some? && KeywordArgs(config) && (KindOf(strategyType) == Some(ConsoleKind) || connects)
    ensures r.Success? ==>
              && KindOfSink(r.value) == KindOf(strategyType).value
              && fresh(Target(r.value))
              && Initial(r.value, config.members, contents)
  {
    var kind := KindOf(strategyType);
    if kind.None? {
      return Failure(UnknownStrategy(strategyType));
    }
    if !KeywordArgs(config) {
      return Failure(NotKeywordArgs);
    }
    var options := config.members;
    match kind.value
    case ConsoleKind =>
      var c := new ConsoleOutput.ConsoleSink();
      r := Success(OnConsole(c));
    case KafkaKind =>
      if !connects {
        return Failure(ConnectionFailed);
      }
      var k := new KafkaOutput.KafkaSink(
        GetOr(options, "bootstrap_servers", KafkaOutput.DefaultServers),
        GetOr(options, "topic", KafkaOutput.DefaultTopic));
      r := Success(OnKafka(k));
    case RedisKind =>
      if !connects {
        return Failure(ConnectionFailed);
      }
      var s := new RedisOutput.RedisSink(
        GetOr(options, "host", RedisOutput.DefaultHost),
        GetOr(options, "port", RedisOutput.DefaultPort),
        GetOr(options, "db", RedisOutput.DefaultDb),
        GetOr(options, "key_prefix", RedisOutput.DefaultKeyPrefix),
        contents);
      r := Success(OnRedis(s));
  }

  /** `output_data(data)` on whichever variant `sink` is. Only the store variant
      can raise, when its closing execute fails. */
  method OutputData(sink: Sink, data: seq<Record>, f: Faults) returns (raised: bool)
    requires sink.OnRedis? ==> sink.redis.pending == []
    modifies Target(sink)
    ensures raised <==> sink.OnRedis? && f.finalExecFails
    ensures sink.OnConsole? ==>
              sink.console.lines == old(sink.console.lines) + ConsoleOutput.Report(data)
    ensures sink.OnKafka? ==>
              && sink.kafka.calls == old(sink.kafka.calls) + KafkaOutput.Sends(sink.kafka.topic, data)
              && sink.kafka.log == old(sink.kafka.log) + [KafkaOutput.Banner] + KafkaOutput.Notices(f, |data|) +
                                   [KafkaOutput.Total(|data|)]
    ensures sink.OnRedis? ==>
              sink.redis.State() == RedisOutput.OutputRun(old(sink.redis.State()), sink.redis.keyPrefix, data, f)
  {
    match sink
    case OnConsole(c) =>
      c.OutputData(data);
      raised := false;
    case OnKafka(k) =>
      k.OutputData(data, f);
      raised := false;
    case OnRedis(s) =>
      raised := s.OutputData(data, f);
  }

  /** `close()` on whichever variant `sink` is; it never raises. */
  method Close(sink: Sink, f: Faults)
    modifies Target(sink)
    ensures sink.OnKafka? ==>
              && sink.kafka.calls == old(sink.kafka.calls) +
                   (if f.flushFails then [KafkaOutput.Flush] else [KafkaOutput.Flush, KafkaOutput.CloseProducer])
              && sink.kafka.log == old(sink.kafka.log) +
                   [if f.flushFails || f.closeFails then KafkaOutput.CloseError else KafkaOutput.Closed]
    ensures sink.OnRedis? ==>
              && sink.redis.store == old(sink.redis.store)
              && sink.redis.pending == old(sink.redis.pending)
              && sink.redis.executes == old(sink.redis.executes)
              && sink.redis.log == old(sink.redis.log) +
                   [if f.closeFails then RedisOutput.CloseError else RedisOutput.Closed]
    ensures sink.OnConsole? ==> sink.console.lines == old(sink.console.lines)
  {
    match sink
    case OnConsole(c) =>
      c.Close();
    case OnKafka(k) =>
      k.Close(f);
    case OnRedis(s) =>
      s.Close(f);
  }
}
