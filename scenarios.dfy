/**
 * Whole-server runs, as a client of the wrapper's contracts sees them.
 */
module Scenarios {
  import opened Wrappers
  import opened PyValues
  import opened CourierServer
  import HeartbeatLoop

  /**
   * A server without a name is built and run; one wake finds it alive, a
   * remote `shutdown` arrives, and the next wake ends the run: the endpoint is
   * stopped and released, and building again gives a fresh, unstarted endpoint.
   */
  method RemoteShutdownEndsRun(boundAddress: string, rebindAddress: string, t0: int, t1: int)
    returns (ended: bool, startedAfter: bool, rebuiltStarted: bool)
    ensures ended && !startedAfter && !rebuiltStarted
  {
    var wrapper := new CourierServerWrapper(None, None, DefaultPrefetchSize, DefaultTimeoutSecs);
    var built := wrapper.BuildServer(boundAddress);
    var events := [HeartbeatLoop.ShutdownRpc, HeartbeatLoop.Wake(t1)];
    var observed := [HeartbeatLoop.Wake(t0)] + events;
    assert observed[1] == HeartbeatLoop.ShutdownRpc && observed[2] == HeartbeatLoop.Wake(t1);
    HeartbeatLoop.RequestedShutdownEndsAtNextWake(DefaultTimeoutSecs, HeartbeatLoop.Watch(false, t0), observed, 2);
    var run, _ := wrapper.RunUntilShutdown(boundAddress, t0, events);
    ended := run.Success? && run.value;
    startedAfter := wrapper.HasStarted();
    var rebuilt := wrapper.BuildServer(rebindAddress);
    rebuiltStarted := rebuilt.Success? && rebuilt.value.started;
  }

  /**
   * A started server that hears no heartbeat shuts itself down at the first
   * wake more than `timeout_secs` after it entered the loop.
   */
  method SilentServerShutsDown(boundAddress: string, t0: int, t1: int) returns (ended: bool, requested: bool)
    requires t1 - t0 > DefaultTimeoutSecs
    ensures ended && requested
  {
    var wrapper := new CourierServerWrapper(Some("worker"), None, DefaultPrefetchSize, DefaultTimeoutSecs);
    var events := [HeartbeatLoop.Wake(t1)];
    var observed := [HeartbeatLoop.Wake(t0)] + events;
    assert observed[1] == HeartbeatLoop.Wake(t1) && !observed[0].HeartbeatRpc?;
    HeartbeatLoop.SilenceEndsLoop(DefaultTimeoutSecs, HeartbeatLoop.Watch(false, t0), observed, 1);
    var run, _ := wrapper.RunUntilShutdown(boundAddress, t0, events);
    ended := run.Success? && run.value;
    requested := wrapper.shutdownRequested;
  }

  /**
   * A built server that is stopped before its run leaves the loop at the
   * loop's first test, with no event at all, and releases its endpoint.
   */
  method StopBeforeRunEndsAtOnce(boundAddress: string, now: int) returns (ended: bool, startedAfter: bool)
    ensures ended && !startedAfter
  {
    var wrapper := new CourierServerWrapper(None, None, DefaultPrefetchSize, DefaultTimeoutSecs);
    var built := wrapper.BuildServer(boundAddress);
    var _ := wrapper.Stop();
    HeartbeatLoop.RequestedShutdownEndsAtNextWake(DefaultTimeoutSecs, HeartbeatLoop.Watch(true, now),
                                                  [HeartbeatLoop.Wake(now)] + [], 0);
    var run, _ := wrapper.RunUntilShutdown(boundAddress, now, []);
    ended := run.Success? && run.value;
    startedAfter := wrapper.HasStarted();
  }
}
