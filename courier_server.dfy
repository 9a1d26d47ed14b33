/**
 * `CourierServerWrapper`: the per-worker server that runs lazy computations
 * sent over courier, serves a remote generator through a prefetch queue, and
 * shuts itself down when no heartbeat arrives within `timeout_secs`.
 *
 * The RPC transport, the pickler and `lazy_fns.maybe_make` are opaque: the
 * transport's bound address is a parameter of the methods that build the
 * endpoint, and the pickler and maker are function-valued parameters.
 */
module CourierServer {
  import opened Wrappers
  import opened PyValues
  import opened Collaborators
  import HeartbeatLoop

  const DefaultPrefetchSize: int := 2
  const DefaultTimeoutSecs: int := 10200

  /** The RPC methods `set_up` binds, in binding order. */
  const BoundMethods: seq<string> :=
    ["maybe_make", "init_generator", "next_from_generator", "next_batch_from_generator",
     "heartbeat", "shutdown", "clear_cache", "cache_info"]

  /** The `AssertionError` of `address` (and through it of `init_generator`) on an unbuilt server without a name. */
  const NotBuilt: Exc := Exc(AssertionError, [Str("Server is not built.")])
  /** The `AssertionError` of `build_server` when `server_name` is the empty string. */
  const IllegalName: Exc := Exc(AssertionError, [Str("illegal self.server_name=''")])
  /** The `AssertionError` of the batch handlers before any `init_generator`. */
  const GeneratorNotSet: Exc :=
    Exc(AssertionError, [Str("Generator is not set, the worker might crashed unexpectedly previously.")])
  /** The `IndexError` of `next_from_generator` on an empty batch. */
  const EmptyBatch: Exc := Exc(IndexError, [Str("list index out of range")])

  /** The `TypeError` of `init_generator` for a non-iterable result (message text abstracted). */
  function NotAGenerator(v: Value): (e: Exc) {
    Exc(TypeError, [Str("is not a generator"), v])
  }

  /** A truthy `server_name`: present and not the empty string. */
  predicate Named(serverName: Option<string>) {
    serverName.Some? && serverName.value != ""
  }

  /**
   * `pickled_maybe_make`. The lazy object is computed; if that raises an
   * `Exception` the blob is decoded once for the log message (which may raise
   * in its turn), then the error propagates unless `returnException` asks for
   * the exception object to be the reply. The reply is pickled; a `TypeError`
   * from pickling is logged (decoding the blob again) and re-raised.
   */
  function PickledMaybeMake(maybeLazy: Bytes, returnException: bool, maybeMake: Maker, p: Pickler)
    : (r: Result<Bytes, Exc>)
    // A computed value is answered with its pickle, or with the pickling error.
    ensures maybeMake(maybeLazy).Success? ==>
      (r.Success? <==> p.dumps(maybeMake(maybeLazy).value).Success?) &&
      (r.Success? ==> r == p.dumps(maybeMake(maybeLazy).value)) &&
      (p.dumps(maybeMake(maybeLazy).value).Failure? && !p.dumps(maybeMake(maybeLazy).value).error.kind.TypeError? ==>
         r == p.dumps(maybeMake(maybeLazy).value))
    // A failed computation never gives a successful reply without `returnException`.
    ensures maybeMake(maybeLazy).Failure? && !returnException ==> r.Failure?
    // ... and the caller sees that very exception when the log decoding succeeds.
    ensures maybeMake(maybeLazy).Failure? && !returnException && p.loads(maybeLazy).Success? ==>
      r == Failure(maybeMake(maybeLazy).error)
    // An exception `except Exception` does not catch always propagates.
    ensures maybeMake(maybeLazy).Failure? && !IsException(maybeMake(maybeLazy).error) ==>
      r == Failure(maybeMake(maybeLazy).error)
    // Decoding the blob for the log message can raise; that error then replaces the exception.
    ensures maybeMake(maybeLazy).Failure? && IsException(maybeMake(maybeLazy).error) && p.loads(maybeLazy).Failure? ==>
      r == Failure(p.loads(maybeLazy).error)
    // With `returnException` the exception object itself is the pickled reply.
    ensures maybeMake(maybeLazy).Failure? && returnException && IsException(maybeMake(maybeLazy).error)
            && p.loads(maybeLazy).Success? ==>
      (r.Success? <==> p.dumps(ExcValue(maybeMake(maybeLazy).error)).Success?) &&
      (r.Success? ==> r == p.dumps(ExcValue(maybeMake(maybeLazy).error)))
    // With a faithful pickler a successful reply decodes to the value, or to the exception.
    ensures RoundTrips(p) && r.Success? ==>
      p.loads(r.value) == Success(if maybeMake(maybeLazy).Success? then maybeMake(maybeLazy).value
                                  else ExcValue(maybeMake(maybeLazy).error))
    // A successful reply stands for a computed value or a requested exception.
    ensures r.Success? ==> maybeMake(maybeLazy).Success? || returnException
  {
    match maybeMake(maybeLazy)
    case Success(v) => PickleReply(maybeLazy, v, p)
    case Failure(e) =>
      if !IsException(e) then Failure(e)
      else match p.loads(maybeLazy)
        case Failure(logError) => Failure(logError)
        case Success(_) =>
          if !returnException then Failure(e) else PickleReply(maybeLazy, ExcValue(e), p)
  }

  /** The second `try` of `pickled_maybe_make`: pickle `result`, re-raising a pickling error. */
  function PickleReply(maybeLazy: Bytes, result: Value, p: Pickler): (r: Result<Bytes, Exc>)
    ensures r.Success? <==> p.dumps(result).Success?
    ensures r.Success? ==> r == p.dumps(result)
    ensures p.dumps(result).Failure? && (!p.dumps(result).error.kind.TypeError? || p.loads(maybeLazy).Success?) ==>
      r == p.dumps(result)
  {
    match p.dumps(result)
    case Success(blob) => Success(blob)
    case Failure(e) =>
      if e.kind.TypeError? then
        match p.loads(maybeLazy)
        case Failure(logError) => Failure(logError)
        case Success(_) => Failure(e)
      else Failure(e)
  }

  class CourierServerWrapper {
    const serverName: Option<string>
    const port: Option<int>
    const prefetchSize: int
    const timeoutSecs: int
    var server: Endpoint?
    /** The thread that runs `run_until_shutdown`, once `start` launched one. */
    var thread: Thread?
    var lastHeartbeat: int
    var shutdownRequested: bool
    /** The active generator slot: the prefetch queue and the thread that fills it. */
    var generator: IteratorQueue?
    var enqueueThread: Thread?

    constructor (serverName: Option<string>, port: Option<int>, prefetchSize: int, timeoutSecs: int)
      ensures this.serverName == serverName && this.port == port
      ensures this.prefetchSize == prefetchSize && this.timeoutSecs == timeoutSecs
      ensures server == null && thread == null && lastHeartbeat == 0 && !shutdownRequested
      ensures generator == null && enqueueThread == null
    {
      this.serverName := serverName;
      this.port := port;
      this.prefetchSize := prefetchSize;
      this.timeoutSecs := timeoutSecs;
      server := null;
      thread := null;
      lastHeartbeat := 0;
      shutdownRequested := false;
      generator := null;
      enqueueThread := null;
    }

    /** `address`: the server name when it is truthy, else the endpoint's bound address. */
    function Address(): (r: Result<string, Exc>)
      reads this, server
      ensures Named(serverName) ==> r == Success(serverName.value)
      ensures !Named(serverName) ==> (r.Success? <==> server != null)
      ensures !Named(serverName) && server != null ==> r == Success(server.address)
      ensures r.Failure? ==> r.error == NotBuilt
    {
      if Named(serverName) then Success(serverName.value)
      else if server == null then Failure(NotBuilt)
      else Success(server.address)
    }

    /** `has_started`. */
    function HasStarted(): (r: bool)
      reads this, server
      ensures r ==> server != null && server.started
      ensures server != null && server.started ==> r
    {
      server != null && server.started
    }

    /** The part of the state the heartbeat loop reads and writes. */
    function Watch(): (w: HeartbeatLoop.Watch)
      reads this
    {
      HeartbeatLoop.Watch(shutdownRequested, lastHeartbeat)
    }

    /** `set_up`: binds the RPC handlers on the endpoint. */
    method SetUp()
      requires server != null
      modifies server
      ensures server.bindings == old(server.bindings) + BoundMethods
      ensures server.started == old(server.started)
    {
      server.Bind("maybe_make");
      server.Bind("init_generator");
      server.Bind("next_from_generator");
      server.Bind("next_batch_from_generator");
      server.Bind("heartbeat");
      server.Bind("shutdown");
      server.Bind("clear_cache");
      server.Bind("cache_info");
    }

    /**
     * `build_server`: idempotent; an existing endpoint is returned untouched.
     * `boundAddress` is the address the transport gives a new endpoint.
     */
    method BuildServer(boundAddress: string) returns (r: Result<Endpoint, Exc>)
      modifies this
      ensures serverName == Some("") ==> r == Failure(IllegalName) && unchanged(this)
      ensures serverName != Some("") && old(server) != null ==> r == Success(old(server)) && unchanged(this)
      ensures serverName != Some("") && old(server) == null ==>
        r.Success? && server == r.value && fresh(server) &&
        server.name == serverName && server.port == port && server.address == boundAddress &&
        !server.started && server.bindings == BoundMethods && !shutdownRequested
      ensures r.Success? ==> Address().Success? && HasStarted() == old(HasStarted())
      ensures thread == old(thread) && lastHeartbeat == old(lastHeartbeat)
      ensures generator == old(generator) && enqueueThread == old(enqueueThread)
    {
      if serverName == Some("") {
        return Failure(IllegalName);
      }
      if server != null {
        return Success(server);
      }
      shutdownRequested := false;
      server := new Endpoint(serverName, port, boundAddress);
      SetUp();
      r := Success(server);
    }

    /**
     * `start`: returns the running thread when the endpoint has started and a
     * thread exists; otherwise builds the server and launches a new thread
     * that runs `run_until_shutdown` (not executed by this model).
     */
    method Start(boundAddress: string, daemon: Option<bool>) returns (r: Result<Thread, Exc>)
      modifies this
      ensures old(HasStarted()) && old(thread) != null ==> r == Success(old(thread)) && unchanged(this)
      ensures !(old(HasStarted()) && old(thread) != null) && serverName == Some("") ==>
        r == Failure(IllegalName) && unchanged(this)
      ensures !(old(HasStarted()) && old(thread) != null) && serverName != Some("") ==>
        r.Success? && thread == r.value && fresh(thread) && thread.started && !thread.joined &&
        thread.target == Target.RunUntilShutdown && thread.daemon == daemon && server != null &&
        (old(server) != null ==> server == old(server) && shutdownRequested == old(shutdownRequested)) &&
        (old(server) == null ==> fresh(server) && !server.started && server.bindings == BoundMethods &&
                                 server.name == serverName && server.port == port &&
                                 server.address == boundAddress && !shutdownRequested)
      ensures lastHeartbeat == old(lastHeartbeat)
      ensures generator == old(generator) && enqueueThread == old(enqueueThread)
    {
      if HasStarted() && thread != null {
        return Success(thread);
      }
      var built := BuildServer(boundAddress);
      if built.Failure? {
        return Failure(built.error);
      }
      var serverThread := new Thread(Target.RunUntilShutdown, daemon);
      serverThread.Start();
      thread := serverThread;
      r := Success(serverThread);
    }

    /** `stop`: only raises the shutdown flag, and returns the lifecycle thread. */
    method Stop() returns (t: Thread?)
      modifies this`shutdownRequested
      ensures shutdownRequested && t == thread
    {
      shutdownRequested := true;
      t := thread;
    }

    /** The `shutdown` handler: `stop()`, its result dropped. */
    method Shutdown()
      modifies this`shutdownRequested
      ensures shutdownRequested
    {
      var _ := Stop();
    }

    /** The `heartbeat` handler at time `now`. */
    method Heartbeat(now: int)
      modifies this`lastHeartbeat
      ensures lastHeartbeat == now
    {
      lastHeartbeat := now;
    }

    /**
     * One wake of the loop in `run_until_shutdown` at time `now`: the loop
     * ends when shutdown was requested or the last heartbeat is more than
     * `timeoutSecs` old, and the timeout branch raises the shutdown flag.
     */
    method LoopStep(now: int) returns (exits: bool)
      modifies this`shutdownRequested
      ensures exits <==> old(shutdownRequested) || now - lastHeartbeat > timeoutSecs
      ensures shutdownRequested == exits
    {
      if shutdownRequested {
        exits := true;
      } else if now - lastHeartbeat > timeoutSecs {
        shutdownRequested := true;
        exits := true;
      } else {
        exits := false;
      }
    }

    /**
     * The `while not self._shutdown_requested` loop of `run_until_shutdown`,
     * over the events that reach the server while it waits.
     */
    method WaitForShutdown(events: seq<HeartbeatLoop.Event>) returns (exited: bool)
      modifies this`shutdownRequested, this`lastHeartbeat
      ensures var end := HeartbeatLoop.RunLoop(timeoutSecs, old(Watch()), events);
        exited == end.exited && Watch() == end.watch
    {
      ghost var end := HeartbeatLoop.RunLoop(timeoutSecs, Watch(), events);
      exited := false;
      var i := 0;
      while i < |events| && !exited
        invariant 0 <= i <= |events|
        invariant exited ==> end == HeartbeatLoop.LoopEnd(Watch(), events[i..], true)
        invariant !exited ==> end == HeartbeatLoop.RunLoop(timeoutSecs, Watch(), events[i..])
        decreases |events| - i
      {
        assert events[i..][1..] == events[i + 1..];
        match events[i] {
          case Wake(t) =>
            exited := LoopStep(t);
          case HeartbeatRpc(t) =>
            Heartbeat(t);
          case ShutdownRpc =>
            Shutdown();
        }
        i := i + 1;
      }
    }

    /**
     * `run_until_shutdown`, entered at time `now` and observed over `events`.
     * It builds the server, starts the endpoint if needed, stamps the
     * heartbeat, then loops; the loop's first test runs at once, at `now`,
     * before any wait. Once the loop ends, a started endpoint is stopped and
     * released. `r.value` is false when the events run out while the loop is
     * still waiting; the teardown has then not happened yet.
     */
    method RunUntilShutdown(boundAddress: string, now: int, events: seq<HeartbeatLoop.Event>)
      returns (r: Result<bool, Exc>, ghost endpoint: Endpoint?)
      modifies this, server
      ensures serverName == Some("") ==> r == Failure(IllegalName) && unchanged(this)
      ensures serverName != Some("") ==>
        var entry := HeartbeatLoop.Watch(old(server) != null && old(shutdownRequested), now);
        var end := HeartbeatLoop.RunLoop(timeoutSecs, entry, [HeartbeatLoop.Wake(now)] + events);
        r == Success(end.exited) && Watch() == end.watch && endpoint != null &&
        (old(server) != null ==> endpoint == old(server) && endpoint.bindings == old(server.bindings)) &&
        (old(server) == null ==> fresh(endpoint) && endpoint.bindings == BoundMethods &&
                                 endpoint.address == boundAddress) &&
        (end.exited ==> server == null && !endpoint.started) &&
        (!end.exited ==> server == endpoint && endpoint.started)
      ensures thread == old(thread) && generator == old(generator) && enqueueThread == old(enqueueThread)
    {
      endpoint := null;
      var built := BuildServer(boundAddress);
      if built.Failure? {
        return Failure(built.error), endpoint;
      }
      endpoint := server;
      if !HasStarted() {
        server.Start();
      }
      lastHeartbeat := now;
      var exited := WaitForShutdown([HeartbeatLoop.Wake(now)] + events);
      if exited && HasStarted() {
        server.Stop();
        server := null;
      }
      r := Success(exited);
    }

    /**
     * The `init_generator` handler. A non-iterable result is a `TypeError`
     * and leaves the slot alone; otherwise an unexhausted previous queue is
     * stopped and its thread joined, then a fresh queue of capacity
     * `prefetchSize` and a started thread filling it take the slot.
     */
    method InitGenerator(maybeLazy: Bytes, maybeMake: Maker) returns (r: Result<(), Exc>)
      modifies this`generator, this`enqueueThread, generator, enqueueThread
      ensures maybeMake(maybeLazy).Failure? ==>
        r == Failure(maybeMake(maybeLazy).error) && generator == old(generator) && enqueueThread == old(enqueueThread)
      ensures maybeMake(maybeLazy).Success? && !IsIterable(maybeMake(maybeLazy).value) ==>
        r == Failure(NotAGenerator(maybeMake(maybeLazy).value)) &&
        generator == old(generator) && enqueueThread == old(enqueueThread)
      // The previous generator is cancelled exactly when the result is iterable and it was not exhausted;
      // cancelling sets only `enqueueStopped` on the old queue and only `joined` on its thread.
      ensures !(maybeMake(maybeLazy).Success? && IsIterable(maybeMake(maybeLazy).value) &&
                old(generator) != null && !old(generator.exhausted)) ==>
        (old(generator) != null ==> unchanged(old(generator))) &&
        (old(enqueueThread) != null ==> unchanged(old(enqueueThread)))
      ensures maybeMake(maybeLazy).Success? && IsIterable(maybeMake(maybeLazy).value) &&
              old(generator) != null && !old(generator.exhausted) ==>
        old(generator).enqueueStopped &&
        old(generator).buffered == old(generator.buffered) && !old(generator).exhausted &&
        old(generator).exception == old(generator.exception) && old(generator).returned == old(generator.returned) &&
        old(generator).done == old(generator.done) &&
        (old(enqueueThread) != null ==>
           old(enqueueThread).joined && old(enqueueThread).started == old(enqueueThread.started))
      // Naming the new queue needs `address`, which can still fail.
      ensures maybeMake(maybeLazy).Success? && IsIterable(maybeMake(maybeLazy).value) && Address().Failure? ==>
        r == Failure(NotBuilt) && generator == old(generator) && enqueueThread == old(enqueueThread)
      ensures maybeMake(maybeLazy).Success? && IsIterable(maybeMake(maybeLazy).value) && Address().Success? ==>
        r == Success(()) && fresh(generator) && fresh(enqueueThread) &&
        generator.capacity == prefetchSize && generator.ignoreError &&
        generator.name == "prefetch_queue@" + Address().value &&
        generator.buffered == [] && !generator.exhausted && generator.exception == None && generator.returned == [] &&
        !generator.done && !generator.enqueueStopped &&
        enqueueThread.target == EnqueueFromIterator(generator.name, maybeMake(maybeLazy).value) &&
        enqueueThread.daemon == Some(true) && enqueueThread.started && !enqueueThread.joined
    {
      var made := maybeMake(maybeLazy);
      if made.Failure? {
        return Failure(made.error);
      }
      var result := made.value;
      if !IsIterable(result) {
        return Failure(NotAGenerator(result));
      }
      if generator != null && !generator.exhausted {
        generator.StopEnqueue();
        if enqueueThread != null {
          enqueueThread.Join();
        }
      }
      var address := Address();
      if address.Failure? {
        return Failure(address.error);
      }
      var queue := new IteratorQueue(prefetchSize, true, "prefetch_queue@" + address.value);
      var producer := new Thread(EnqueueFromIterator(queue.name, result), Some(true));
      producer.Start();
      generator := queue;
      enqueueThread := producer;
      r := Success(());
    }

    /**
     * The batch a flush of `items` is answered with: the items, then exactly
     * one terminal element when the queue reports it is done, namely the
     * stored exception, or else `StopIteration(*returned)`.
     */
    function FlushedBatch(items: seq<Value>): (batch: seq<Value>)
      requires generator != null
      reads this, generator
      ensures |batch| == if generator.done then |items| + 1 else |items|
      ensures batch[..|items|] == items
      ensures generator.done && generator.exception.Some? ==>
        batch[|items|] == ExcValue(generator.exception.value)
      ensures generator.done && generator.exception.None? ==>
        batch[|items|] == ExcValue(StopIterationOf(generator.returned))
    {
      if !generator.done then items
      else if generator.exception.Some? then items + [ExcValue(generator.exception.value)]
      else items + [ExcValue(StopIterationOf(generator.returned))]
    }

    /**
     * `_next_batch_from_iterator`. `flush` stands for the active queue's
     * `flush(batch_size, block=True)`; the queue's fields are what it reports
     * once that flush has returned.
     */
    method NextBatch(batchSize: int, flush: int -> Result<seq<Value>, Exc>) returns (r: Result<seq<Value>, Exc>)
      ensures generator == null ==> r == Failure(GeneratorNotSet)
      ensures generator != null && flush(batchSize).Failure? ==> r == Failure(flush(batchSize).error)
      ensures generator != null && flush(batchSize).Success? ==> r == Success(FlushedBatch(flush(batchSize).value))
    {
      if generator == null {
        return Failure(GeneratorNotSet);
      }
      var flushed := flush(batchSize);
      if flushed.Failure? {
        return Failure(flushed.error);
      }
      var result := flushed.value;
      if generator.done {
        if generator.exception.Some? {
          result := result + [ExcValue(generator.exception.value)];
        } else {
          result := result + [ExcValue(StopIterationOf(generator.returned))];
        }
      }
      r := Success(result);
    }

    /**
     * The `next_batch_from_generator` handler. `batchSize` is the outcome of
     * resolving the argument with `lazy_fns.maybe_make`; the batch is pickled.
     */
    method NextBatchFromGenerator(batchSize: Result<int, Exc>, flush: int -> Result<seq<Value>, Exc>, p: Pickler)
      returns (r: Result<Bytes, Exc>)
      ensures batchSize.Failure? ==> r == Failure(batchSize.error)
      ensures batchSize.Success? && generator == null ==> r == Failure(GeneratorNotSet)
      ensures batchSize.Success? && generator != null && flush(batchSize.value).Failure? ==>
        r == Failure(flush(batchSize.value).error)
      ensures batchSize.Success? && generator != null && flush(batchSize.value).Success? ==>
        r == p.dumps(List(FlushedBatch(flush(batchSize.value).value)))
    {
      if batchSize.Failure? {
        return Failure(batchSize.error);
      }
      var batch := NextBatch(batchSize.value, flush);
      if batch.Failure? {
        return Failure(batch.error);
      }
      r := p.dumps(List(batch.value));
    }

    /**
     * The `next_from_generator` handler: element 0 of a batch of size 1,
     * pickled; an empty batch raises `IndexError`.
     */
    method NextFromGenerator(flush: int -> Result<seq<Value>, Exc>, p: Pickler) returns (r: Result<Bytes, Exc>)
      ensures generator == null ==> r == Failure(GeneratorNotSet)
      ensures generator != null && flush(1).Failure? ==> r == Failure(flush(1).error)
      ensures generator != null && flush(1).Success? && flush(1).value != [] ==>
        r == p.dumps(flush(1).value[0])
      ensures generator != null && flush(1).Success? && flush(1).value == [] && generator.done ==>
        r == p.dumps(FlushedBatch([])[0])
      ensures generator != null && flush(1).Success? && flush(1).value == [] && !generator.done ==>
        r == Failure(EmptyBatch)
    {
      var batch := NextBatch(1, flush);
      if batch.Failure? {
        return Failure(batch.error);
      }
      if |batch.value| == 0 {
        return Failure(EmptyBatch);
      }
      r := p.dumps(batch.value[0]);
    }
  }
}
