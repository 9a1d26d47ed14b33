/**
 * The heartbeat-timeout loop of `run_until_shutdown`, seen as a sequence of
 * events: each wake of the condition variable reads the clock once, and
 * between two wakes the `heartbeat` and `shutdown` handlers may run on
 * other threads. Time is an integer number of seconds.
 */
module HeartbeatLoop {

  /** The part of the server state the loop reads and writes. */
  datatype Watch = Watch(shutdownRequested: bool, lastHeartbeat: int)

  datatype Event =
      /** The loop wakes (poll interval elapsed, or a `notify_all`) and the clock reads `now`. */
    | Wake(now: int)
      /** The `heartbeat` handler runs at time `now`. */
    | HeartbeatRpc(now: int)
      /** The `shutdown` handler runs, that is, `stop()`. */
    | ShutdownRpc

  /** Where the loop stands once it stops consuming events: the unconsumed events and whether it left. */
  datatype LoopEnd = LoopEnd(watch: Watch, rest: seq<Event>, exited: bool)

  /** One wake ends the loop when shutdown was requested or the last heartbeat is more than `timeoutSecs` old. */
  predicate WakeExits(timeoutSecs: int, w: Watch, now: int) {
    w.shutdownRequested || now - w.lastHeartbeat > timeoutSecs
  }

  /** The effect of an event that does not end the loop. */
  function Handle(w: Watch, e: Event): (next: Watch) {
    match e
    case Wake(_) => w
    case HeartbeatRpc(now) => w.(lastHeartbeat := now)
    case ShutdownRpc => w.(shutdownRequested := true)
  }

  /**
   * The loop run over `events` from `w`: it consumes events until a wake ends it
   * (the timeout branch raising the shutdown flag), or until no events are left.
   */
  function RunLoop(timeoutSecs: int, w: Watch, events: seq<Event>): (r: LoopEnd)
    ensures |r.rest| <= |events| && r.rest == events[|events| - |r.rest|..]
    ensures !r.exited ==> r.rest == []
    ensures r.exited ==> r.watch.shutdownRequested
    ensures r.exited ==> |r.rest| < |events| && events[|events| - |r.rest| - 1].Wake?
    ensures !r.exited ==> (r.watch.shutdownRequested <==> w.shutdownRequested || ShutdownRpc in events)
    decreases |events|
  {
    if events == [] then LoopEnd(w, [], false)
    else if events[0].Wake? && WakeExits(timeoutSecs, w, events[0].now) then
      LoopEnd(w.(shutdownRequested := true), events[1..], true)
    else
      RunLoop(timeoutSecs, Handle(w, events[0]), events[1..])
  }

  /**
   * Once shutdown is requested (before the loop starts or by a `shutdown`
   * handler), the next wake ends the loop: it exits at wake `k` or earlier.
   */
  lemma {:induction false} RequestedShutdownEndsAtNextWake(timeoutSecs: int, w: Watch, events: seq<Event>, k: nat)
    requires k < |events| && events[k].Wake?
    requires w.shutdownRequested || exists j :: 0 <= j < k && events[j] == ShutdownRpc
    ensures RunLoop(timeoutSecs, w, events).exited
    ensures |RunLoop(timeoutSecs, w, events).rest| >= |events| - k - 1
    decreases k
  {
    if events[0].Wake? && WakeExits(timeoutSecs, w, events[0].now) {
    } else {
      var w' := Handle(w, events[0]);
      if w.shutdownRequested {
        assert w'.shutdownRequested;
      } else {
        var j :| 0 <= j < k && events[j] == ShutdownRpc;
        if j == 0 {
          assert w'.shutdownRequested;
        } else {
          assert events[1..][j - 1] == ShutdownRpc;
        }
      }
      RequestedShutdownEndsAtNextWake(timeoutSecs, w', events[1..], k - 1);
    }
  }

  /**
   * With no heartbeat before it, a wake more than `timeoutSecs` after the
   * entry stamp ends the loop: it exits at wake `k` or earlier.
   */
  lemma {:induction false} SilenceEndsLoop(timeoutSecs: int, w: Watch, events: seq<Event>, k: nat)
    requires k < |events| && events[k].Wake? && events[k].now - w.lastHeartbeat > timeoutSecs
    requires forall j :: 0 <= j < k ==> !events[j].HeartbeatRpc?
    ensures RunLoop(timeoutSecs, w, events).exited
    ensures |RunLoop(timeoutSecs, w, events).rest| >= |events| - k - 1
    decreases k
  {
    if events[0].Wake? && WakeExits(timeoutSecs, w, events[0].now) {
    } else {
      var w' := Handle(w, events[0]);
      assert w'.lastHeartbeat == w.lastHeartbeat;
      assert events[1..][k - 1] == events[k];
      SilenceEndsLoop(timeoutSecs, w', events[1..], k - 1);
    }
  }

  /**
   * The events keep the server alive: no `shutdown` handler runs, and every
   * wake comes at most `timeoutSecs` after the latest heartbeat stamp `last`.
   */
  predicate KeptAlive(timeoutSecs: int, last: int, events: seq<Event>)
    decreases |events|
  {
    events == [] ||
    match events[0]
    case Wake(now) => now - last <= timeoutSecs && KeptAlive(timeoutSecs, last, events[1..])
    case HeartbeatRpc(now) => KeptAlive(timeoutSecs, now, events[1..])
    case ShutdownRpc => false
  }

  /** A loop whose heartbeats keep arriving in time never leaves and never raises the shutdown flag. */
  lemma {:induction false} KeptAliveLoopRuns(timeoutSecs: int, w: Watch, events: seq<Event>)
    requires !w.shutdownRequested && KeptAlive(timeoutSecs, w.lastHeartbeat, events)
    ensures !RunLoop(timeoutSecs, w, events).exited
    ensures !RunLoop(timeoutSecs, w, events).watch.shutdownRequested
    decreases |events|
  {
    if events != [] {
      KeptAliveLoopRuns(timeoutSecs, Handle(w, events[0]), events[1..]);
    }
  }
}
