/** The message-queue variant (`KafkaOutputStrategy` in
    patternLab4/src/output_strategy.py). The producer is represented by the log
    of calls made to it; standard output by a log of notices. */
module KafkaOutput {
  import opened Values
  import opened Transport

  datatype ProducerCall = Send(topic: Json, value: Ser) | Flush | CloseProducer

  datatype Notice =
    | Connected             // printed by the constructor
    | Banner                // printed at the start of `output_data`
    | Progress(count: nat)  // "sent <count> records"
    | SendError             // a send or its acknowledgement failed
    | Total(count: nat)     // "sent <count> records in all"
    | Closed
    | CloseError

  const DefaultServers: Json := Atom(Str("localhost:9092"))
  const DefaultTopic: Json := Atom(Str("fire_incidents"))

  /** One `send` per record, in input order (the value serializer is `json.dumps`). */
  function Sends(topic: Json, data: seq<Record>): seq<ProducerCall>
  {
    if data == [] then [] else Sends(topic, data[..|data| - 1]) + [Send(topic, Dumps(data[|data| - 1]))]
  }

  /** Whether handling record `i` raised (caught and reported by the loop). */
  predicate Failed(f: Faults, i: nat)
  {
    i in f.sendFails || i in f.ackFails
  }

  /** What the loop prints for record `i`. */
  function RecordNotices(f: Faults, i: nat): seq<Notice>
  {
    if Failed(f, i) then [SendError] else if i % 100 == 0 then [Progress(i + 1)] else []
  }

  /** What the loop prints for the first `n` records. */
  function Notices(f: Faults, n: nat): seq<Notice>
  {
    if n == 0 then [] else Notices(f, n - 1) + RecordNotices(f, n - 1)
  }

  /** Progress after records 1, 101, 201, ... up to `n`. */
  function ProgressMarks(n: nat): seq<Notice>
  {
    seq((n + 99) / 100, (m: nat) => Progress(100 * m + 1))
  }

  /** Every record gets exactly one send, to the configured topic, in input order,
      whatever happened to the others. */
  lemma {:induction false} SendsAt(topic: Json, data: seq<Record>, i: nat)
    requires i < |data|
    ensures |Sends(topic, data)| == |data|
    ensures Sends(topic, data)[i] == Send(topic, Dumps(data[i]))
  {
    var init := data[..|data| - 1];
    if i < |data| - 1 {
      SendsAt(topic, init, i);
    } else if init != [] {
      SendsAt(topic, init, 0);
    }
  }

  /** When nothing fails, progress is reported after records 1, 101, 201, ... */
  lemma {:induction false} CleanRunProgress(f: Faults, n: nat)
    requires forall i :: 0 <= i < n ==> !Failed(f, i)
    ensures Notices(f, n) == ProgressMarks(n)
  {
    if n > 0 {
      CleanRunProgress(f, n - 1);
      var k := n - 1;
      if k % 100 == 0 {
        assert (n + 99) / 100 == (k + 99) / 100 + 1;
      } else {
        assert (n + 99) / 100 == (k + 99) / 100;
      }
    }
  }

  /** The number of error notices in `ns`. */
  function ErrorCount(ns: seq<Notice>): nat
  {
    if ns == [] then 0 else ErrorCount(ns[..|ns| - 1]) + (if ns[|ns| - 1] == SendError then 1 else 0)
  }

  /** The number of records among the first `n` whose send or acknowledgement fails. */
  function FailedCount(f: Faults, n: nat): nat
  {
    if n == 0 then 0 else FailedCount(f, n - 1) + (if Failed(f, n - 1) then 1 else 0)
  }

  lemma {:induction false} ErrorCountAppend(ns: seq<Notice>, ms: seq<Notice>)
    ensures ErrorCount(ns + ms) == ErrorCount(ns) + ErrorCount(ms)
  {
    if ms != [] {
      assert (ns + ms)[..|ns + ms| - 1] == ns + ms[..|ms| - 1];
      assert (ns + ms)[|ns + ms| - 1] == ms[|ms| - 1];
      ErrorCountAppend(ns, ms[..|ms| - 1]);
    } else {
      assert ns + ms == ns;
    }
  }

  /** Each failing record is reported exactly once, and no succeeding record is:
      a failure does not end the loop. */
  lemma {:induction false} EachFailureReported(f: Faults, n: nat)
    ensures ErrorCount(Notices(f, n)) == FailedCount(f, n)
  {
    if n > 0 {
      EachFailureReported(f, n - 1);
      ErrorCountAppend(Notices(f, n - 1), RecordNotices(f, n - 1));
      var r := RecordNotices(f, n - 1);
      assert r != [] ==> r[..|r| - 1] == [];
    }
  }

  class KafkaSink {
    const servers: Json
    const topic: Json
    /** Calls made to the producer so far. */
    var calls: seq<ProducerCall>
    /** Everything printed so far. */
    var log: seq<Notice>

    /** The constructor once the producer has been created; a failed connection
        is reported by the factory instead of exiting the process. */
    constructor (servers: Json, topic: Json)
      ensures this.servers == servers && this.topic == topic
      ensures calls == [] && log == [Connected]
    {
      this.servers := servers;
      this.topic := topic;
      calls := [];
      log := [Connected];
    }

    /** `output_data(data)`: one send per record; a failing send or acknowledgement
        is reported and the loop goes on; the closing total is `len(data)`. */
    method OutputData(data: seq<Record>, f: Faults)
      modifies this
      ensures calls == old(calls) + Sends(topic, data)
      ensures log == old(log) + [Banner] + Notices(f, |data|) + [Total(|data|)]
    {
      log := log + [Banner];
      var i := 0;
      while i < |data|
        invariant 0 <= i <= |data|
        invariant calls == old(calls) + Sends(topic, data[..i])
        invariant log == old(log) + [Banner] + Notices(f, i)
      {
        assert data[..i + 1][..i] == data[..i];
        calls := calls + [Send(topic, Dumps(data[i]))];
        if i in f.sendFails || i in f.ackFails {
          log := log + [SendError];
        } else if i % 100 == 0 {
          log := log + [Progress(i + 1)];
        }
        i := i + 1;
      }
      assert data[..i] == data;
      log := log + [Total(|data|)];
    }

    /** `close()`: flush, then close; an exception is reported, never raised.
        A failing flush means close is not reached. */
    method Close(f: Faults)
      modifies this
      ensures calls == old(calls) + (if f.flushFails then [Flush] else [Flush, CloseProducer])
      ensures log == old(log) + [if f.flushFails || f.closeFails then CloseError else Closed]
    {
      calls := calls + [Flush];
      if f.flushFails {
        log := log + [CloseError];
        return;
      }
      calls := calls + [CloseProducer];
      if f.closeFails {
        log := log + [CloseError];
      } else {
        log := log + [Closed];
      }
    }
  }
}
