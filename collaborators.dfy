/**
 * Abstract records of the foreign objects the server wrapper drives: the
 * courier endpoint, a `threading.Thread` and an `iter_utils.IteratorQueue`.
 * Each keeps only the state the wrapper reads or changes; what these objects
 * do on their own threads is outside the model.
 */
module Collaborators {
  import opened Wrappers
  import opened PyValues

  /** A `courier.Server`: the RPC endpoint, its bound address and its method bindings. */
  class Endpoint {
    const name: Option<string>
    const port: Option<int>
    /** The address the transport bound the endpoint to. */
    const address: string
    var started: bool
    /** The RPC method names bound so far, in binding order. */
    var bindings: seq<string>

    constructor (name: Option<string>, port: Option<int>, boundAddress: string)
      ensures this.name == name && this.port == port && address == boundAddress
      ensures !started && bindings == []
    {
      this.name := name;
      this.port := port;
      address := boundAddress;
      started := false;
      bindings := [];
    }

    /** `Server.Bind(method, handler)`. */
    method Bind(methodName: string)
      modifies this
      ensures bindings == old(bindings) + [methodName] && started == old(started)
    {
      bindings := bindings + [methodName];
    }

    /** `Server.Start()`. */
    method Start()
      modifies this
      ensures started && bindings == old(bindings)
    {
      started := true;
    }

    /** `Server.Stop()`. */
    method Stop()
      modifies this
      ensures !started && bindings == old(bindings)
    {
      started := false;
    }
  }

  /** What a thread runs. */
  datatype Target =
    | RunUntilShutdown
      /** `IteratorQueue.enqueue_from_iterator(source)` of the queue named `queueName`. */
    | EnqueueFromIterator(queueName: string, source: Value)

  /** A `threading.Thread`. */
  class Thread {
    const target: Target
    const daemon: Option<bool>
    var started: bool
    /** Set once `join()` has returned, that is, once the target has finished. */
    var joined: bool

    constructor (target: Target, daemon: Option<bool>)
      ensures this.target == target && this.daemon == daemon
      ensures !started && !joined
    {
      this.target := target;
      this.daemon := daemon;
      started := false;
      joined := false;
    }

    method Start()
      modifies this
      ensures started && joined == old(joined)
    {
      started := true;
    }

    method Join()
      modifies this
      ensures joined && started == old(started)
    {
      joined := true;
    }
  }

  /**
   * An `iter_utils.IteratorQueue`. Its producer thread and its `flush` are
   * not part of this model; the fields are what the queue reports.
   */
  class IteratorQueue {
    const capacity: int
    const ignoreError: bool
    const name: string
    var buffered: seq<Value>
    var exhausted: bool
    /** The exception the source iterator raised, if any. */
    var exception: Option<Exc>
    /** The arguments of the source iterator's final `StopIteration`. */
    var returned: seq<Value>
    /** `not queue`: the queue's own truthiness, negated. */
    var done: bool
    /** Set by `stop_enqueue()`. */
    var enqueueStopped: bool

    constructor (capacity: int, ignoreError: bool, name: string)
      ensures this.capacity == capacity && this.ignoreError == ignoreError && this.name == name
      ensures buffered == [] && !exhausted && exception == None && returned == []
      ensures !done && !enqueueStopped
    {
      this.capacity := capacity;
      this.ignoreError := ignoreError;
      this.name := name;
      buffered := [];
      exhausted := false;
      exception := None;
      returned := [];
      done := false;
      enqueueStopped := false;
    }

    /** `stop_enqueue()`: tells the producer to stop filling the queue. */
    method StopEnqueue()
      modifies this
      ensures enqueueStopped
      ensures buffered == old(buffered) && exhausted == old(exhausted)
      ensures exception == old(exception) && returned == old(returned) && done == old(done)
    {
      enqueueStopped := true;
    }
  }
}
