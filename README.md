# CourierServerWrapper, modelled in Dafny

This project models `CourierServerWrapper` from ml_metrics. It is the per-worker server that:

- runs lazy computations sent to it over the courier RPC transport;
- serves one remote generator at a time through a bounded prefetch queue;
- shuts itself down when no heartbeat arrives within `timeout_secs`.

The wrapper is modelled as a Dafny class whose fields match the Python
instance attributes:

- `server`: the courier endpoint, or none;
- `thread`: the lifecycle thread;
- `lastHeartbeat`;
- `shutdownRequested`;
- `generator` and `enqueueThread`: the active-generator slot.

Its methods update these fields as the Python methods and RPC handlers do.

Files:

- `wrappers.dfy`: `Option` and `Result`. A `Result` failure stands for a raised Python exception.
- `py_values.dfy`: the values and exceptions that cross the RPC boundary, and the two opaque collaborators.
  - `lazy_fns.maybe_make` is a `Maker` function.
  - The pickler is a pair of `dumps`/`loads` functions.
  - `RoundTrips` says that a pickler decodes what it encoded.
- `collaborators.dfy`: abstract records of the foreign objects the wrapper drives. They are `courier.Server` (`Endpoint`), `threading.Thread` and `iter_utils.IteratorQueue`. They keep only the flags the wrapper reads or sets.
- `heartbeat_loop.dfy`: the loop of `run_until_shutdown` as a pure function over a sequence of events, with lemmas on when it ends. An event is one of:
  - a wake of the condition variable at clock reading `now`;
  - a `heartbeat` handler call at `now`;
  - a `shutdown` handler call.
- `courier_server.dfy`: the wrapper class, its lifecycle methods and its RPC handlers.
- `scenarios.dfy`: three whole runs as a caller sees them, proved from the contracts alone.
  - A remote `shutdown` ends the run, and a later build makes a fresh endpoint.
  - A server that hears no heartbeat shuts itself down.
  - A built server stopped before its run ends at the loop's first test and releases its endpoint.

Time is an integer argument `now`. Nothing that happens on another thread runs
inside the model, such as the lifecycle thread that `start` launches or the
producer that fills the queue. `run_until_shutdown` is given the events that
reach the server while it waits. The loop's first test runs at the entry time,
before any of those events. The result says whether the loop ended. If the
events run out first, the model returns before the teardown, because the real
loop would still be waiting.

Notes on the code, all modelled as written:

- `heartbeat` takes no arguments and keeps no per-sender registry.
- `heartbeat` does not notify the condition variable.
- There is one class, not a base server plus a prefetching subclass.
- `start` launches a new thread whenever the endpoint has not started or no thread is recorded. So two `start` calls made before the first thread starts the endpoint launch two threads.

## Model

| member | source | states |
|---|---|---|
| `CourierServer.CourierServerWrapper.constructor` | ml_metrics/_src/chainables/courier_server.py:57-75 | keeps the configuration; no endpoint, thread or generator, heartbeat stamp 0, no shutdown requested |
| `CourierServer.CourierServerWrapper.Address` | ml_metrics/_src/chainables/courier_server.py:83-88 | a non-empty `server_name` is the address; otherwise the address is the built endpoint's, and reading it on an unbuilt server raises the "not built" assertion |
| `CourierServer.CourierServerWrapper.HasStarted` | ml_metrics/_src/chainables/courier_server.py:90-92 | holds exactly when an endpoint exists and has started |
| `CourierServer.CourierServerWrapper.SetUp` | ml_metrics/_src/chainables/courier_server.py:184-193 | binds the eight RPC methods on the endpoint, in source order, and does not start it |
| `CourierServer.PickledMaybeMake` | ml_metrics/_src/chainables/courier_server.py:97-116 | the error policy of `maybe_make`: without `return_exception` a failed computation is never a successful reply, and the caller sees that exception; with it, the exception object is the pickled reply when the log decoding succeeds, and the decoding error when it does not; `BaseException`s outside `Exception` always propagate; a pickling error never gives a successful reply; it is re-raised unless, on a `TypeError`, the log decoding raises first; with a round-tripping pickler a successful reply decodes to the value or the exception |
| `CourierServer.PickleReply` | ml_metrics/_src/chainables/courier_server.py:107-116 | the reply succeeds exactly when pickling succeeds, and is that pickle; a pickling error is re-raised, though the log decoding can raise first on a `TypeError` |
| `CourierServer.CourierServerWrapper.BuildServer` | ml_metrics/_src/chainables/courier_server.py:195-204 | the empty name raises and changes nothing; an existing endpoint is returned and nothing changes, not even the shutdown flag; otherwise the flag is cleared and a fresh, unstarted endpoint with the eight bindings is installed; after a successful build `address` resolves |
| `CourierServer.CourierServerWrapper.Start` | ml_metrics/_src/chainables/courier_server.py:226-236 | with a started endpoint and a recorded thread, returns that thread and changes nothing; otherwise builds the server (a new endpoint gets the name, port and bound address, unstarted, with the eight bindings) and records a fresh started thread that runs `run_until_shutdown` |
| `CourierServer.CourierServerWrapper.Stop` | ml_metrics/_src/chainables/courier_server.py:238-243 | raises the shutdown flag and returns the current lifecycle thread; no other field changes |
| `CourierServer.CourierServerWrapper.Shutdown` | ml_metrics/_src/chainables/courier_server.py:178-182 | the `shutdown` handler is `stop`: only the shutdown flag changes |
| `CourierServer.CourierServerWrapper.Heartbeat` | ml_metrics/_src/chainables/courier_server.py:175-176 | sets the heartbeat stamp to `now` and touches nothing else |
| `CourierServer.CourierServerWrapper.LoopStep` | ml_metrics/_src/chainables/courier_server.py:215-220 | one wake ends the loop iff shutdown was requested or `now - lastHeartbeat > timeout_secs`; the timeout branch raises the flag |
| `CourierServer.CourierServerWrapper.WaitForShutdown` | ml_metrics/_src/chainables/courier_server.py:214-220 | the loop over the events that reach the server ends, and leaves the flag and stamp, exactly as `HeartbeatLoop.RunLoop` says |
| `CourierServer.CourierServerWrapper.RunUntilShutdown` | ml_metrics/_src/chainables/courier_server.py:207-224 | builds (the empty name raises), starts the endpoint, stamps the heartbeat with the entry time and runs the loop, whose first test happens at the entry time before any event; once the loop ends the endpoint is stopped and released, so `has_started` is false and a later build makes a new endpoint |
| `CourierServer.CourierServerWrapper.InitGenerator` | ml_metrics/_src/chainables/courier_server.py:118-144 | a raising or non-iterable result (`TypeError`) leaves the slot unchanged; otherwise an unexhausted previous queue gets `stop_enqueue` and its thread is joined, an exhausted one is left alone, and a fresh queue of capacity `prefetch_size` with a started daemon thread takes the slot; a failing `address` after the cancellation raises and leaves the slot; apart from `enqueueStopped` and `joined` the old queue and thread are untouched |
| `CourierServer.CourierServerWrapper.FlushedBatch` | ml_metrics/_src/chainables/courier_server.py:159-166 | the flushed items unchanged, then one terminal element exactly when the queue reports it is done: the stored exception if there is one, else `StopIteration(*returned)` |
| `CourierServer.CourierServerWrapper.NextBatch` | ml_metrics/_src/chainables/courier_server.py:149-166 | raises the "generator is not set" assertion on an empty slot, re-raises a flush error, and otherwise returns the flushed batch with its terminal element |
| `CourierServer.CourierServerWrapper.NextBatchFromGenerator` | ml_metrics/_src/chainables/courier_server.py:168-170 | a failing batch-size resolution propagates; otherwise the reply is the pickle of the batch `NextBatch` computes |
| `CourierServer.CourierServerWrapper.NextFromGenerator` | ml_metrics/_src/chainables/courier_server.py:172-173 | the pickle of element 0 of a size-1 batch: the first item, or the terminal element when no item came; an empty batch raises `IndexError` |
| `HeartbeatLoop.RunLoop` | ml_metrics/_src/chainables/courier_server.py:213-220 | the loop consumes a prefix of the events; it stops early only at a wake and then has raised the flag; if it runs through every event, the flag is up exactly when it was on entry or a `shutdown` arrived |
| `HeartbeatLoop.RequestedShutdownEndsAtNextWake` | ml_metrics/_src/chainables/courier_server.py:238-243 | once shutdown is requested, before the loop or by a `shutdown` handler, the loop ends no later than the next wake |
| `HeartbeatLoop.SilenceEndsLoop` | ml_metrics/_src/chainables/courier_server.py:213-219 | with no heartbeat before it, a wake more than `timeout_secs` after the entry stamp ends the loop no later than that wake |
| `HeartbeatLoop.KeptAliveLoopRuns` | ml_metrics/_src/chainables/courier_server.py:213-220 | while heartbeats keep every wake within `timeout_secs` of the latest stamp and no `shutdown` arrives, the loop never ends and never raises the flag |
| `Scenarios.RemoteShutdownEndsRun` | ml_metrics/_src/chainables/courier_worker_test.py:89-99 | a remote `shutdown` on a running unnamed server ends the run; the endpoint is no longer started, and a rebuilt endpoint is not started |
| `Scenarios.StopBeforeRunEndsAtOnce` | ml_metrics/_src/chainables/courier_server.py:198-224 | a built server stopped before its run keeps its raised flag, leaves the loop at its first test with no event, and is no longer started |
| `Scenarios.SilentServerShutsDown` | ml_metrics/_src/chainables/courier_server.py:213-224 | a server that hears no heartbeat for more than `timeout_secs` ends its run with the shutdown flag raised |

## Left out

- Threads and the `threading.Condition` wait/notify machinery. Each wake of the loop is one event, and the RPCs other threads handle while the loop waits are events too. `notify_all` from `stop` and `init_generator` is simply the next wake. Calls to `build_server` or `start` made during a run are not in the event alphabet.
- The 30-second poll interval (`_INTERVAL_SECS`) only decides when wakes occur, so it is not a constant of the model. The wake times are inputs.
- Float timestamps and `time.time()` become integer seconds passed as `now`.
- The courier transport. The endpoint is an `Endpoint` object with an address, a started flag and its bindings. The address a new endpoint is bound to is a parameter.
- `pickler.dumps`/`loads` and `lazy_fns.maybe_make` are function-valued parameters. The `str()` of the decoded lazy object used in the log messages is taken to succeed; only the decoding itself can raise.
- The internals of `iter_utils.IteratorQueue`: `flush`, `stop_enqueue`, its truthiness and the producer thread.
  - `flush(batch_size, block=True)` is a function parameter.
  - Its effect on the queue is not modelled. The queue's `done`, `exception` and `returned` fields are what the queue reports after the flush.
  - Line 161's `not self._generator` is the abstract `done` field.
- NextBatchFromGenerator: the batch size arrives already resolved by `lazy_fns.maybe_make`, as a `Result<int, Exc>`. A resolved value that is not an integer is not modelled, because it would go to the unseen `flush`.
- RunUntilShutdown: when the events run out before the loop ends, the model returns without the teardown. The real call would still be blocked in its loop.
- Exception messages: the `TypeError` text of `init_generator` is abstracted, and logging is not modelled.
- `_cached_server` (an lru_cache singleton), `wait_until_alive` (it delegates to `courier_worker`, which is not part of this model), `__str__`, and the `clear_cache`/`cache_info` pass-throughs. The last two are bound by `SetUp`, but their handlers delegate to code that is not part of this model.
- The worker client, the worker pool, `IteratorPipe` and rebatching code that the two test files exercise. That code is not part of this model.
