/**
 * The supervisor script itself: its global variables as the fields of one object,
 * its top level as the constructor, and each callback it registers as a method
 * that runs to completion. Console output, latest.log, the requests written to the
 * sockets and the kill signals are ghost records of what the script does.
 */
module Wrapper {
  import opened Options
  import opened Text
  import opened Rcon
  import opened Progress
  import opened Watchdog
  import opened Supervision

  class Supervisor {
    var lastOutputTime: nat
    var rconStartTime: nat
    var rconConnected: bool
    var seenPercentage: set<string>
    var initialListenerAttached: bool
    var forwarders: seq<nat>
    var filterAttached: bool
    var gameProcess: Option<Child>
    var sockets: nat
    var retries: seq<nat>
    var exitCode: Option<int>
    ghost var console: seq<ConsoleLine>
    ghost var log: string
    ghost var sent: seq<Sent>
    ghost var kills: nat

    /** The object's state as a value of the state machine. */
    ghost function Snapshot(): State
      reads this
    {
      State(lastOutputTime := lastOutputTime, rconStartTime := rconStartTime, rconConnected := rconConnected,
            seen := seenPercentage, initialListener := initialListenerAttached, forwarders := forwarders,
            relaying := filterAttached, process := gameProcess, sockets := sockets, retries := retries,
            exitCode := exitCode, console := console, log := log, sent := sent, kills := kills)
    }

    ghost predicate Valid()
      reads this
    {
      Inv(Snapshot())
    }

    /**
     * The script's top level: read the clock, empty latest.log, check the arguments
     * (exit 1 without any), spawn the child with `filter` on its output, attach
     * `initialListener` to stdin and make the first connection attempt.
     */
    constructor Start(args: seq<string>, startTime: nat, spawnTime: nat)
      ensures Valid()
      ensures Snapshot() == Launched(args, startTime, spawnTime)
    {
      rconStartTime := startTime;
      lastOutputTime := startTime;
      seenPercentage := {};
      rconConnected := false;
      log := "";
      sent := [];
      kills := 0;
      retries := [];
      forwarders := [];
      if args == [] {
        console := [MissingStartupCommand];
        exitCode := Some(1);
        gameProcess := None;
        filterAttached := false;
        initialListenerAttached := false;
        sockets := 0;
      } else {
        var startupCmd := JoinSpaces(args);
        console := [StartingRust];
        exitCode := None;
        gameProcess := Some(Child(startupCmd, false));
        lastOutputTime := spawnTime;
        filterAttached := true;
        initialListenerAttached := true;
        sockets := 1;
      }
      new;
      LaunchedSatisfiesInv(args, startTime, spawnTime);
    }

    /** `restartServer`: report, SIGTERM a child that is not yet killed, exit with code 1. */
    method RestartServer(reason: RestartReason)
      requires Valid() && exitCode.None?
      modifies this
      ensures Valid()
      ensures Snapshot() == Restarted(old(Snapshot()), reason)
    {
      RestartedKeepsInv(Snapshot(), reason);
      console := console + [Restarting(reason)];
      if gameProcess.Some? && !gameProcess.value.killed {
        gameProcess := Some(gameProcess.value.(killed := true));
        kills := kills + 1;
      }
      exitCode := Some(1);
    }

    /** A chunk on the child's stdout or stderr, handled by `filter` while it is attached. */
    method ProcessOutput(chunk: string, now: nat)
      requires Valid()
      modifies this
      ensures Valid()
      ensures Snapshot() == Step(old(Snapshot()), Output(chunk, now))
    {
      ghost var s := Snapshot();
      if exitCode.Some? || !filterAttached {
        return;
      }
      OnOutput(s, chunk, now);
      lastOutputTime := now;
      if StartsWith(chunk, ProgressPrefix) {
        var pct := chunk[|ProgressPrefix|..];
        if pct in seenPercentage {
          assert Snapshot() == AfterOutput(s, chunk, now);
          return;
        }
        seenPercentage := seenPercentage + {pct};
      }
      console := console + [Relayed(chunk)];
      assert Snapshot() == AfterOutput(s, chunk, now);
    }

    /** The child's `exit` event: only reported. */
    method ChildExit(code: Option<int>, signal: Option<string>)
      requires Valid()
      modifies this
      ensures Valid()
      ensures Snapshot() == Step(old(Snapshot()), Event.ChildExit(code, signal))
    {
      ghost var s := Snapshot();
      if exitCode.Some? || gameProcess.None? {
        return;
      }
      OnChildExit(s, code, signal);
      console := console + [ChildExited(code, signal)];
      assert Snapshot() == AfterChildExit(s, code, signal);
    }

    /**
     * A chunk of operator input, delivered to the stdin listeners in the order they
     * were attached: `initialListener` before any session, a forwarding listener per
     * opened socket afterwards.
     */
    method StdinData(text: string, now: nat)
      requires Valid()
      modifies this
      ensures Valid()
      ensures Snapshot() == Step(old(Snapshot()), Stdin(text, now))
    {
      ghost var s := Snapshot();
      if exitCode.Some? {
        return;
      }
      OnStdin(s, text, now);
      if initialListenerAttached {
        var cmd := Trim(text);
        console := console + [UnableToRun(cmd)];
      }
      if forwarders != [] {
        lastOutputTime := now;
        sent := sent + Forwarded(forwarders, text);
      }
      assert Snapshot() == AfterStdin(s, text, now);
    }

    /** The `open` handler of socket `socket`. */
    method RconOpen(socket: nat, now: nat)
      requires Valid()
      modifies this
      ensures Valid()
      ensures Snapshot() == Step(old(Snapshot()), Open(socket, now))
    {
      ghost var s := Snapshot();
      if exitCode.Some? || socket >= sockets {
        return;
      }
      OnOpen(s, socket, now);
      console := console + [RconConnected];
      rconConnected := true;
      lastOutputTime := now;
      sent := sent + [Sent(socket, CommandPacket(StatusCommand))];
      initialListenerAttached := false;
      filterAttached := false;
      forwarders := forwarders + [socket];
      assert Snapshot() == AfterOpen(s, socket, now);
    }

    /** The `message` handler, given the push as decoded: None when parsing or reading `.Message` threw. */
    method RconMessage(socket: nat, payload: Payload, now: nat)
      requires Valid()
      modifies this
      ensures Valid()
      ensures Snapshot() == Step(old(Snapshot()), Message(socket, payload, now))
    {
      ghost var s := Snapshot();
      if exitCode.Some? || socket >= sockets {
        return;
      }
      OnMessage(s, socket, payload, now);
      match payload {
        case None =>
          console := console + [InvalidJson];
        case Some(None) =>
        case Some(Some(m)) =>
          if Truthy(m) {
            console := console + [RconText(m)];
            lastOutputTime := now;
            log := log + "\n" + m;
          }
      }
      assert Snapshot() == AfterMessage(s, payload, now);
    }

    /** The `error` handler: report and schedule `pollRcon` RetryDelay later. */
    method RconError(socket: nat, now: nat)
      requires Valid()
      modifies this
      ensures Valid()
      ensures Snapshot() == Step(old(Snapshot()), Error(socket, now))
    {
      ghost var s := Snapshot();
      if exitCode.Some? || socket >= sockets {
        return;
      }
      OnError(s, socket, now);
      console := console + [WaitingForRcon];
      retries := retries + [now + RetryDelay];
      assert Snapshot() == AfterError(s, now);
    }

    /** The `close` handler: fatal only once a session has been connected. */
    method RconClose(socket: nat)
      requires Valid()
      modifies this
      ensures Valid()
      ensures Snapshot() == Step(old(Snapshot()), Close(socket))
    {
      ghost var s := Snapshot();
      if exitCode.Some? || socket >= sockets {
        return;
      }
      OnClose(s, socket);
      if rconConnected {
        console := console + [RconClosedUnexpectedly];
        RestartServer(RconDisconnect);
      }
    }

    /** The oldest pending retry timer fires and `pollRcon` creates the next socket. */
    method RetryTimer(now: nat)
      requires Valid()
      modifies this
      ensures Valid()
      ensures Snapshot() == Step(old(Snapshot()), RetryDue(now))
    {
      ghost var s := Snapshot();
      if exitCode.Some? || retries == [] || retries[0] > now {
        return;
      }
      OnRetry(s, now);
      retries := retries[1..];
      sockets := sockets + 1;
      assert Snapshot() == AfterRetry(s);
    }

    /** The watchdog interval: connect-wait timeout first, then inactivity; either one ends the run. */
    method WatchdogTick(now: nat)
      requires Valid()
      modifies this
      ensures Valid()
      ensures Snapshot() == Step(old(Snapshot()), Tick(now))
    {
      ghost var s := Snapshot();
      if exitCode.Some? {
        return;
      }
      OnTick(s, now);
      if !rconConnected && now - rconStartTime > MaxIdle {
        RestartServer(RconTimeout);
        return;
      }
      if now - lastOutputTime > MaxIdle {
        RestartServer(NoOutput);
      }
    }
  }
}
