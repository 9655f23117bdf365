/** The command-line driver (`main` in patternLab4/src/main.py) as a chain of
    steps with early exits. Every effect outside the program (the file system,
    the download, the CSV reader, the broker and the store) is an input: the
    `World` says how each step turns out. The run returns the exit code, the
    steps it performed in order, and the sink it created, if any. */
module Driver {
  import opened Wrappers
  import opened Values
  import opened Transport
  import opened Config
  import opened Strategies
  import ConsoleOutput
  import KafkaOutput
  import RedisOutput

  /** The parsed command line; argparse restricts `--strategy` to the three names. */
  datatype Args = Args(configPath: Option<string>, strategy: Option<Kind>, downloadOnly: bool)

  /** How each effectful step turns out. */
  datatype World = World(
    configPathExists: bool,      // whether the `--config` path exists
    document: Option<Json>,      // the parsed settings file; None when reading or parsing raises
    dataFileExists: bool,        // whether the CSV file is already on disk
    downloadOk: bool,            // whether `download_data` succeeds
    rows: Option<seq<Record>>,   // the records `load_data` reads; None when it fails
    connects: bool,              // whether the broker or store client can be created
    contents: map<string, Ser>,  // what the store holds before the run
    faults: Faults)              // how the sink's network calls turn out

  /** The effectful calls `main` makes. */
  datatype Step =
    | ReadConfig                    // Configuration(config_path)
    | Download                      // data_processor.download_data(...)
    | LoadData                      // data_processor.load_data(...)
    | CreateSink(strategyType: Json) // OutputStrategyFactory.create_strategy(...)
    | WriteRecords(count: nat)      // output_strategy.output_data(data)
    | CloseSink                     // output_strategy.close()

  /** A non-empty `--config` path that does not exist. */
  predicate ConfigPathMissing(args: Args, w: World)
  {
    args.configPath.Some? && args.configPath.value != "" && !w.configPathExists
  }

  /** Reading the settings and calling the getters does not raise: the file parses
      to a JSON object (any other document has no `.get`). */
  predicate ConfigLoads(w: World)
  {
    w.document.Some? && w.document.value.Object?
  }

  function Settings(w: World): Configuration
    requires ConfigLoads(w)
  {
    Configuration(w.document.value.members)
  }

  /** `args.strategy or config.get_output_strategy()`: the command line wins. */
  function SelectedStrategy(args: Args, c: Configuration): (r: Json)
    ensures args.strategy.Some? ==> r == Atom(Str(Name(args.strategy.value)))
    ensures args.strategy.None? ==> r == c.OutputStrategy()
  {
    if args.strategy.Some? then Atom(Str(Name(args.strategy.value))) else c.OutputStrategy()
  }

  /** The steps up to and including loading the data. */
  function Prepared(w: World): seq<Step>
  {
    [ReadConfig] + (if w.dataFileExists then [] else [Download]) + [LoadData]
  }

  /** The data are in hand: configuration read, file present or downloaded, file loaded. */
  predicate Loaded(args: Args, w: World)
  {
    !ConfigPathMissing(args, w) && ConfigLoads(w) && (w.dataFileExists || w.downloadOk) && w.rows.Some?
  }

  /** A sink can be built for the selected strategy and its options. */
  predicate SinkBuilt(args: Args, w: World)
    requires Loaded(args, w)
  {
    var st := SelectedStrategy(args, Settings(w));
    var options := Settings(w).OutputConfig(st);
    && options.Success?
    && KindOf(st).Some?
    && KeywordArgs(options.value)
    && (KindOf(st) == Some(ConsoleKind) || w.connects)
  }

  /** The `try` block that ends `main`, once the options are in hand: build the sink,
      hand it the records, close it. Returns the exit code and the steps taken. */
  method Deliver(strategyType: Json, options: Json, data: seq<Record>, connects: bool,
                 contents: map<string, Ser>, f: Faults)
    returns (code: int, steps: seq<Step>, sink: Option<Sink>)
    // no sink: exit 1 right after the factory call
    ensures !(KindOf(strategyType).Some? && KeywordArgs(options) && (KindOf(strategyType) == Some(ConsoleKind) || connects)) ==>
              code == 1 && steps == [CreateSink(strategyType)] && sink.None?
    // a sink: output_data, then close unless output_data raised
    ensures KindOf(strategyType).Some? && KeywordArgs(options) && (KindOf(strategyType) == Some(ConsoleKind) || connects) ==>
              && sink.Some?
              && KindOfSink(sink.value) == KindOf(strategyType).value
              && var raises := sink.value.OnRedis? && f.finalExecFails;
                 && code == (if raises then 1 else 0)
                 && steps == [CreateSink(strategyType), WriteRecords(|data|)] + (if raises then [] else [CloseSink])
    ensures sink.Some? && sink.value.OnConsole? ==> sink.value.console.lines == ConsoleOutput.Report(data)
    ensures sink.Some? && sink.value.OnKafka? ==>
              sink.value.kafka.calls ==
                KafkaOutput.Sends(sink.value.kafka.topic, data) +
                (if f.flushFails then [KafkaOutput.Flush] else [KafkaOutput.Flush, KafkaOutput.CloseProducer])
    ensures sink.Some? && sink.value.OnRedis? ==>
              sink.value.redis.store ==
                RedisOutput.OutputRun(RedisOutput.Pipe([], contents, 0, [RedisOutput.Connected]),
                                      sink.value.redis.keyPrefix, data, f).store
  {
    steps := [CreateSink(strategyType)];
    sink := None;
    var created := CreateStrategy(strategyType, options, connects, contents);
    if created.Failure? {
      return 1, steps, sink;
    }
    var s := created.value;
    sink := Some(s);
    steps := steps + [WriteRecords(|data|)];
    var raised := OutputData(s, data, f);
    if raised {
      return 1, steps, sink;
    }
    steps := steps + [CloseSink];
    Close(s, f);
    return 0, steps, sink;
  }

  /** `main()`. */
  method Run(args: Args, w: World) returns (code: int, trace: seq<Step>, sink: Option<Sink>)
    ensures code == 0 || code == 1
    // a missing --config path: exit 1 before the configuration is read
    ensures ConfigPathMissing(args, w) ==> code == 1 && trace == [] && sink.None?
    // a configuration that cannot be read: exit 1, nothing downloaded or loaded
    ensures !ConfigPathMissing(args, w) && !ConfigLoads(w) ==> code == 1 && trace == [ReadConfig] && sink.None?
    // the download is attempted exactly when the data file is absent
    ensures Download in trace <==> !ConfigPathMissing(args, w) && ConfigLoads(w) && !w.dataFileExists
    // a failed download: exit 1 without loading
    ensures !ConfigPathMissing(args, w) && ConfigLoads(w) && !w.dataFileExists && !w.downloadOk ==>
              code == 1 && trace == [ReadConfig, Download] && sink.None?
    // a failed load: exit 1
    ensures !ConfigPathMissing(args, w) && ConfigLoads(w) && (w.dataFileExists || w.downloadOk) && w.rows.None? ==>
              code == 1 && trace == Prepared(w) && sink.None?
    // --download-only: exit 0 after loading, no sink
    ensures Loaded(args, w) && args.downloadOnly ==> code == 0 && trace == Prepared(w) && sink.None?
    // no sink for the strategy: exit 1; the factory is called unless get_output_config raised
    ensures Loaded(args, w) && !args.downloadOnly && !SinkBuilt(args, w) ==>
              && code == 1 && sink.None?
              && var st := SelectedStrategy(args, Settings(w));
                 trace == Prepared(w) + (if Settings(w).OutputConfig(st).Success? then [CreateSink(st)] else [])
    // a sink: output_data, then close unless output_data raised
    ensures Loaded(args, w) && !args.downloadOnly && SinkBuilt(args, w) ==>
              && sink.Some?
              && KindOfSink(sink.value) == KindOf(SelectedStrategy(args, Settings(w))).value
              && var raises := sink.value.OnRedis? && w.faults.finalExecFails;
                 var steps := [CreateSink(SelectedStrategy(args, Settings(w))), WriteRecords(|w.rows.value|)];
                 && code == (if raises then 1 else 0)
                 && trace == Prepared(w) + steps + (if raises then [] else [CloseSink])
    // every record reaches the console, in order
    ensures sink.Some? && sink.value.OnConsole? ==> sink.value.console.lines == ConsoleOutput.Report(w.rows.value)
    // every record is sent to the configured topic, in order, then the producer is flushed and closed
    ensures sink.Some? && sink.value.OnKafka? ==>
              sink.value.kafka.calls ==
                KafkaOutput.Sends(sink.value.kafka.topic, w.rows.value) +
                (if w.faults.flushFails then [KafkaOutput.Flush] else [KafkaOutput.Flush, KafkaOutput.CloseProducer])
    // the store holds what the run of output_data leaves there
    ensures sink.Some? && sink.value.OnRedis? ==>
              sink.value.redis.store ==
                RedisOutput.OutputRun(RedisOutput.Pipe([], w.contents, 0, [RedisOutput.Connected]),
                                      sink.value.redis.keyPrefix, w.rows.value, w.faults).store
  {
    trace := [];
    sink := None;
    if ConfigPathMissing(args, w) {
      return 1, trace, sink;
    }
    trace := trace + [ReadConfig];
    if !ConfigLoads(w) {
      return 1, trace, sink;
    }
    var config := Settings(w);
    // the URL and the row limit configure the data processor, whose effects are inputs here
    var datasetUrl, maxRows := config.DatasetUrl(), config.MaxRows();
    var strategyType := SelectedStrategy(args, config);

    if !w.dataFileExists {
      trace := trace + [Download];
      if !w.downloadOk {
        return 1, trace, sink;
      }
    }
    trace := trace + [LoadData];
    if w.rows.None? {
      return 1, trace, sink;
    }
    if args.downloadOnly {
      return 0, trace, sink;
    }
    var data := w.rows.value;
    assert trace == Prepared(w) && Loaded(args, w);

    var options := config.OutputConfig(strategyType);
    if options.Failure? {
      return 1, trace, sink;
    }
    var steps;
    code, steps, sink := Deliver(strategyType, options.value, data, w.connects, w.contents, w.faults);
    trace := trace + steps;
  }
}
