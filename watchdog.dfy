/** The periodic liveness check and the reasons the supervisor restarts the server. */
module Watchdog {
  import opened Options

  /** MAX_IDLE: five minutes, in milliseconds. */
  const MaxIdle: int := 5 * 60 * 1000

  /** The argument `restartServer` is called with. */
  datatype RestartReason =
    | RconDisconnect   // an open session closed
    | RconTimeout      // no session opened within MaxIdle of startup
    | NoOutput         // no activity for more than MaxIdle

  /**
   * The watchdog's decision at time `now`: the connect-wait check comes first and
   * ends the run, so the inactivity check only matters when it does not fire.
   */
  function Alarm(now: int, rconConnected: bool, rconStartTime: int, lastOutputTime: int): Option<RestartReason> {
    if !rconConnected && now - rconStartTime > MaxIdle then Some(RconTimeout)
    else if now - lastOutputTime > MaxIdle then Some(NoOutput)
    else None
  }

  /**
   * A tick restarts exactly when (not connected and more than MaxIdle since startup)
   * or more than MaxIdle since the last activity; the reason is RconTimeout exactly
   * when the first condition holds.
   */
  lemma AlarmFiresIff(now: int, rconConnected: bool, rconStartTime: int, lastOutputTime: int)
    ensures var v := Alarm(now, rconConnected, rconStartTime, lastOutputTime);
            (v.Some? <==> (!rconConnected && now - rconStartTime > MaxIdle) || now - lastOutputTime > MaxIdle)
            && (v == Some(RconTimeout) <==> !rconConnected && now - rconStartTime > MaxIdle)
            && v != Some(RconDisconnect)
  {
  }

  /**
   * The comparisons are strict: when exactly MaxIdle has elapsed on both clocks the
   * tick does nothing, one millisecond later on the activity clock it restarts.
   */
  lemma ThresholdIsStrict(now: int, rconConnected: bool)
    ensures Alarm(now, rconConnected, now - MaxIdle, now - MaxIdle) == None
    ensures Alarm(now, rconConnected, now - MaxIdle, now - MaxIdle - 1).Some?
  {
  }
}
