/** The settings document and its default-resolving getters
    (patternLab4/src/configuration.py). The document is an immutable value: every
    getter is a function of it, so no getter can change it. Reading and parsing
    the file is left to the driver, which receives the parsed document. */
module Config {
  import opened Wrappers
  import opened Values

  /** Why `get_output_config` raises. */
  datatype ConfigError =
    | NoGetMethod   // `output_config` is present but is not a dict (AttributeError)
    | Unhashable    // the strategy is a list or a dict (TypeError)

  datatype Configuration = Configuration(config: map<string, Json>) {

    /** `get_dataset_url()`: the stored URL, or the empty string. */
    function DatasetUrl(): (r: Json)
      ensures "dataset_url" in config ==> r == config["dataset_url"]
      ensures "dataset_url" !in config ==> r == Atom(Str(""))
    {
      GetOr(config, "dataset_url", Atom(Str("")))
    }

    /** `get_max_rows()`: the stored row limit, or 100. */
    function MaxRows(): (r: Json)
      ensures "max_rows" in config ==> r == config["max_rows"]
      ensures "max_rows" !in config ==> r == Atom(Int(100))
    {
      GetOr(config, "max_rows", Atom(Int(100)))
    }

    /** `get_output_strategy()`: the stored strategy name, or "console". */
    function OutputStrategy(): (r: Json)
      ensures "output_strategy" in config ==> r == config["output_strategy"]
      ensures "output_strategy" !in config ==> r == Atom(Str("console"))
    {
      GetOr(config, "output_strategy", Atom(Str("console")))
    }

    /** `strategy or self.get_output_strategy()`: a falsy argument (None, "", 0, ...)
        is replaced by the configured strategy. */
    function EffectiveStrategy(strategy: Json): (r: Json)
      ensures Truthy(strategy) ==> r == strategy
      ensures !Truthy(strategy) ==> r == OutputStrategy()
    {
      if Truthy(strategy) then strategy else OutputStrategy()
    }

    /** `get_output_config(strategy)`; pass `Atom(Null)` for the default argument.
        The entry of `output_config` for the effective strategy, `{}` when there is
        none; raises when `output_config` is not a dict or the strategy is not hashable. */
    function OutputConfig(strategy: Json): (r: Result<Json, ConfigError>)
      ensures "output_config" in config && !config["output_config"].Object? ==>
                r == Failure(NoGetMethod)
      ensures ("output_config" !in config || config["output_config"].Object?) &&
              !Hashable(EffectiveStrategy(strategy)) ==>
                r == Failure(Unhashable)
      ensures r.Success? ==>
                var s := EffectiveStrategy(strategy);
                var oc := if "output_config" in config then config["output_config"].members else map[];
                (s.Atom? && s.scalar.Str? && s.scalar.s in oc ==> r.value == oc[s.scalar.s]) &&
                (!(s.Atom? && s.scalar.Str? && s.scalar.s in oc) ==> r.value == EmptyObject)
      ensures r.Failure? <==>
                ("output_config" in config && !config["output_config"].Object?) ||
                !Hashable(EffectiveStrategy(strategy))
    {
      var s := EffectiveStrategy(strategy);
      var outputConfig := GetOr(config, "output_config", EmptyObject);
      if !outputConfig.Object? then Failure(NoGetMethod)
      else if !Hashable(s) then Failure(Unhashable)
      else match s
        case Atom(Str(name)) => Success(GetOr(outputConfig.members, name, EmptyObject))
        case _ => Success(EmptyObject)   // JSON object keys are strings: no other key matches
    }
  }

  /** Calling `get_output_config` with a falsy strategy is the same as calling it
      with the configured strategy. */
  lemma FalsyStrategyUsesConfigured(c: Configuration, strategy: Json)
    requires !Truthy(strategy)
    ensures c.OutputConfig(strategy) == c.OutputConfig(c.OutputStrategy())
  {
  }
}
