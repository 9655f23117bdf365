/** What the network clients do during one run. Nothing in the program decides
    these outcomes: the broker and the store do. The model receives them as an
    oracle, one entry per call site in patternLab4/src/output_strategy.py. */
module Transport {

  datatype Faults = Faults(
    sendFails: set<nat>,   // `producer.send` raises for these record indices
    ackFails: set<nat>,    // `future.get(timeout=10)` raises (broker error or timeout)
    setFails: set<nat>,    // `json.dumps` / `pipe.set` raises for these record indices
    execFails: set<nat>,   // the periodic `pipe.execute()` after these record indices raises
    finalExecFails: bool,  // the closing `pipe.execute()` raises
    flushFails: bool,      // `producer.flush()` raises
    closeFails: bool)      // `producer.close()` or `redis_client.close()` raises

  /** Every call succeeds. */
  const NoFaults: Faults := Faults({}, {}, {}, {}, false, false, false)
}
