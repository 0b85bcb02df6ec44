/**
 * The supervisor of the Rust game server as a state machine over its global
 * variables: one record for the whole state, one event per callback the script
 * registers, and a step function that runs the callback to completion.
 */
module Supervision {
  import opened Options
  import opened Text
  import opened Rcon
  import opened Progress
  import opened Watchdog

  /** Delay before the next connection attempt after a socket error, in milliseconds. */
  const RetryDelay: nat := 5000

  /** The `exec` child: the command line it runs and Node's `killed` flag. */
  datatype Child = Child(command: string, killed: bool)

  /** A request written to one of the sockets; sockets are numbered by the `pollRcon` call that made them. */
  datatype Sent = Sent(socket: nat, packet: Packet)

  /** What the script writes to the operator's console (stdout or stderr), by kind. */
  datatype ConsoleLine =
    | MissingStartupCommand                                   // no arguments (stderr)
    | StartingRust
    | Relayed(chunk: string)                                  // game output passed through `filter`
    | ChildExited(code: Option<int>, signal: Option<string>)
    | UnableToRun(command: string)                            // operator input before any session
    | RconConnected
    | RconText(message: string)                               // a pushed message
    | InvalidJson                                             // an undecodable push (stderr)
    | WaitingForRcon
    | RconClosedUnexpectedly
    | Restarting(reason: RestartReason)                       // `restartServer` (stderr)

  /**
   * The script's globals and the listeners attached at a given moment, plus what it
   * has done so far: console lines, the text of latest.log, requests sent and the
   * number of kill signals sent.
   */
  datatype State = State(
    lastOutputTime: nat,
    rconStartTime: nat,
    rconConnected: bool,
    seen: set<string>,         // keys of `seenPercentage`
    initialListener: bool,     // `initialListener` attached to stdin
    forwarders: seq<nat>,      // sockets whose forwarding stdin listener is attached, in order
    relaying: bool,            // `filter` attached to the child's stdout and stderr
    process: Option<Child>,    // `gameProcess`
    sockets: nat,              // sockets created by `pollRcon` so far
    retries: seq<nat>,         // due times of the pending `setTimeout(pollRcon, 5000)` timers
    exitCode: Option<int>,     // set once `process.exit` has been called
    console: seq<ConsoleLine>,
    log: string,               // contents of latest.log
    sent: seq<Sent>,
    kills: nat)

  /** The startup command: None (a fatal configuration error) without arguments, else the arguments joined by spaces. */
  function StartupCommand(args: seq<string>): Option<string> {
    if args == [] then None else Some(JoinSpaces(args))
  }

  /**
   * No arguments is the only failure. Otherwise, when no argument contains a space,
   * the single-space split that undoes the join gives the arguments back.
   */
  lemma StartupCommandRecoversArgs(args: seq<string>)
    ensures StartupCommand(args).None? <==> args == []
    ensures args != [] && (forall k :: 0 <= k < |args| ==> ' ' !in args[k])
            ==> SplitSpaces(StartupCommand(args).value) == args
  {
    if args != [] && (forall k :: 0 <= k < |args| ==> ' ' !in args[k]) {
      SplitJoin(args);
    }
  }

  /**
   * The state once the script's top level has run: the clocks read at startup
   * (`startTime`) and when the child is spawned (`spawnTime`), latest.log emptied,
   * then either exit 1 for missing arguments, or the child spawned with `filter`
   * on its output, `initialListener` on stdin and the first socket created.
   */
  function Launched(args: seq<string>, startTime: nat, spawnTime: nat): State {
    match StartupCommand(args)
    case None =>
      State(lastOutputTime := startTime, rconStartTime := startTime, rconConnected := false,
            seen := {}, initialListener := false, forwarders := [], relaying := false,
            process := None, sockets := 0, retries := [], exitCode := Some(1),
            console := [MissingStartupCommand], log := "", sent := [], kills := 0)
    case Some(command) =>
      State(lastOutputTime := spawnTime, rconStartTime := startTime, rconConnected := false,
            seen := {}, initialListener := true, forwarders := [], relaying := true,
            process := Some(Child(command, false)), sockets := 1, retries := [], exitCode := None,
            console := [StartingRust], log := "", sent := [], kills := 0)
  }

  /** The callbacks of the script, each with the clock reading it would take. */
  datatype Event =
    | Output(chunk: string, now: nat)                               // a chunk on the child's stdout or stderr
    | ChildExit(code: Option<int>, signal: Option<string>)
    | Stdin(text: string, now: nat)                                 // a chunk of operator input
    | Open(socket: nat, now: nat)
    | Message(socket: nat, payload: Payload, now: nat)
    | Error(socket: nat, now: nat)
    | Close(socket: nat)
    | RetryDue(now: nat)                                            // the oldest retry timer fires
    | Tick(now: nat)                                                // the watchdog interval fires

  /** Whether an event can happen at all: nothing happens after exit, sockets must exist, timers must be due. */
  predicate Enabled(s: State, e: Event) {
    s.exitCode.None? &&
    match e
    case ChildExit(_, _) => s.process.Some?
    case Open(k, _) => k < s.sockets
    case Message(k, _, _) => k < s.sockets
    case Error(k, _) => k < s.sockets
    case Close(k) => k < s.sockets
    case RetryDue(now) => s.retries != [] && s.retries[0] <= now
    case _ => true
  }

  /** `restartServer`: report, send SIGTERM to a child that is there and not yet killed, exit with code 1. */
  function Restarted(s: State, reason: RestartReason): State {
    if s.process.Some? && !s.process.value.killed then
      s.(console := s.console + [Restarting(reason)], process := Some(s.process.value.(killed := true)),
         kills := s.kills + 1, exitCode := Some(1))
    else
      s.(console := s.console + [Restarting(reason)], exitCode := Some(1))
  }

  /**
   * `restartServer` on a running supervisor keeps Inv, exits with code 1, and leaves
   * exactly one kill signal sent when there is a child and none when there is not.
   */
  lemma RestartedKeepsInv(s: State, reason: RestartReason)
    requires Inv(s) && s.exitCode.None?
    ensures Inv(Restarted(s, reason))
    ensures Restarted(s, reason).exitCode == Some(1)
    ensures Restarted(s, reason).kills == (if s.process.Some? then 1 else 0)
  {
  }

  /** A chunk of child output: `filter` refreshes the clock first, then prints unless the chunk is a repeated progress line. */
  function AfterOutput(s: State, chunk: string, now: nat): State {
    if !s.relaying then s
    else
      var v := Filter(s.seen, chunk);
      s.(lastOutputTime := now, seen := v.seen,
         console := if v.printed then s.console + [Relayed(chunk)] else s.console)
  }

  /** The requests one operator chunk produces: one per attached forwarding listener, on its own socket. */
  function Forwarded(forwarders: seq<nat>, text: string): seq<Sent> {
    seq(|forwarders|, k requires 0 <= k < |forwarders| => Sent(forwarders[k], CommandPacket(text)))
  }

  /** The child exits: the exit is only reported. */
  function AfterChildExit(s: State, code: Option<int>, signal: Option<string>): State {
    s.(console := s.console + [ChildExited(code, signal)])
  }

  /** Operator input: `initialListener` prints the trimmed text; each forwarding listener refreshes the clock and sends it as is. */
  function AfterStdin(s: State, text: string, now: nat): State {
    var noticed := if s.initialListener then s.console + [UnableToRun(Trim(text))] else s.console;
    if s.forwarders == [] then s.(console := noticed)
    else s.(console := noticed, lastOutputTime := now, sent := s.sent + Forwarded(s.forwarders, text))
  }

  /** A socket opens: connected, clock refreshed, "status" sent, stdin switched to forwarding and `filter` detached. */
  function AfterOpen(s: State, socket: nat, now: nat): State {
    s.(console := s.console + [RconConnected], rconConnected := true, lastOutputTime := now,
       sent := s.sent + [Sent(socket, CommandPacket(StatusCommand))],
       initialListener := false, relaying := false, forwarders := s.forwarders + [socket])
  }

  /** A push: an undecodable one is reported, one with a message is printed, logged and refreshes the clock. */
  function AfterMessage(s: State, payload: Payload, now: nat): State {
    if payload.None? then s.(console := s.console + [InvalidJson])
    else match PushedText(payload)
      case None => s
      case Some(m) => s.(console := s.console + [RconText(m)], lastOutputTime := now, log := s.log + "\n" + m)
  }

  /** A socket error: report and schedule another `pollRcon` RetryDelay later; nothing else. */
  function AfterError(s: State, now: nat): State {
    s.(console := s.console + [WaitingForRcon], retries := s.retries + [now + RetryDelay])
  }

  /** A socket closes: fatal once connected, ignored before. */
  function AfterClose(s: State): State {
    if s.rconConnected then Restarted(s.(console := s.console + [RconClosedUnexpectedly]), RconDisconnect)
    else s
  }

  /** The oldest retry timer fires: `pollRcon` creates the next socket. */
  function AfterRetry(s: State): State
    requires s.retries != []
  {
    s.(retries := s.retries[1..], sockets := s.sockets + 1)
  }

  /** A watchdog tick: restart for the reason the alarm gives, if any. */
  function AfterTick(s: State, now: nat): State {
    match Alarm(now, s.rconConnected, s.rconStartTime, s.lastOutputTime)
    case None => s
    case Some(reason) => Restarted(s, reason)
  }

  /** One callback run to completion; an event that cannot happen changes nothing. */
  function Step(s: State, e: Event): State {
    if !Enabled(s, e) then s
    else match e
      case Output(chunk, now) => AfterOutput(s, chunk, now)
      case ChildExit(code, signal) => AfterChildExit(s, code, signal)
      case Stdin(text, now) => AfterStdin(s, text, now)
      case Open(socket, now) => AfterOpen(s, socket, now)
      case Message(_, payload, now) => AfterMessage(s, payload, now)
      case Error(_, now) => AfterError(s, now)
      case Close(_) => AfterClose(s)
      case RetryDue(_) => AfterRetry(s)
      case Tick(now) => AfterTick(s, now)
  }

  /** A sequence of callbacks, in order. */
  function Run(s: State, events: seq<Event>): State
    decreases |events|
  {
    if events == [] then s else Run(Step(s, events[0]), events[1..])
  }

  /**
   * What holds in every state the script can reach: the only exit code is 1; at most
   * one kill signal, and only as part of an exit; the child's `killed` flag records
   * it; without a child the run has already exited; `filter` is attached exactly
   * while `initialListener` is; `initialListener` and forwarding listeners are never
   * attached together, and while the child runs exactly one kind is; connected
   * exactly when some socket has opened.
   */
  predicate Inv(s: State) {
    && (s.exitCode.Some? ==> s.exitCode.value == 1)
    && s.kills <= 1
    && (s.kills == 1 ==> s.exitCode.Some?)
    && (s.process.Some? ==> (s.process.value.killed <==> s.kills == 1))
    && (s.process.None? ==> s.exitCode.Some? && s.kills == 0)
    && s.relaying == s.initialListener
    && (s.initialListener ==> s.forwarders == [])
    && (s.process.Some? ==> (s.initialListener <==> s.forwarders == []))
    && (s.rconConnected <==> s.forwarders != [])
  }

  /** Every launch, successful or not, starts in a state satisfying Inv; it exits with 1 exactly when there are no arguments. */
  lemma LaunchedSatisfiesInv(args: seq<string>, startTime: nat, spawnTime: nat)
    ensures Inv(Launched(args, startTime, spawnTime))
    ensures Launched(args, startTime, spawnTime).exitCode == (if args == [] then Some(1) else None)
    ensures args != [] ==> Launched(args, startTime, spawnTime).process == Some(Child(JoinSpaces(args), false))
  {
  }

  /*
   * One lemma per callback: when it is enabled in a state satisfying Inv, the step
   * is the callback's own update, and that update keeps Inv.
   */

  lemma OnOutput(s: State, chunk: string, now: nat)
    requires Inv(s) && Enabled(s, Output(chunk, now))
    ensures Step(s, Output(chunk, now)) == AfterOutput(s, chunk, now)
    ensures Inv(AfterOutput(s, chunk, now))
  {
  }

  lemma OnChildExit(s: State, code: Option<int>, signal: Option<string>)
    requires Inv(s) && Enabled(s, ChildExit(code, signal))
    ensures Step(s, ChildExit(code, signal)) == AfterChildExit(s, code, signal)
    ensures Inv(AfterChildExit(s, code, signal))
  {
  }

  lemma OnStdin(s: State, text: string, now: nat)
    requires Inv(s) && Enabled(s, Stdin(text, now))
    ensures Step(s, Stdin(text, now)) == AfterStdin(s, text, now)
    ensures Inv(AfterStdin(s, text, now))
  {
  }

  lemma OnOpen(s: State, socket: nat, now: nat)
    requires Inv(s) && Enabled(s, Open(socket, now))
    ensures Step(s, Open(socket, now)) == AfterOpen(s, socket, now)
    ensures Inv(AfterOpen(s, socket, now))
  {
  }

  lemma OnMessage(s: State, socket: nat, payload: Payload, now: nat)
    requires Inv(s) && Enabled(s, Message(socket, payload, now))
    ensures Step(s, Message(socket, payload, now)) == AfterMessage(s, payload, now)
    ensures Inv(AfterMessage(s, payload, now))
  {
  }

  lemma OnError(s: State, socket: nat, now: nat)
    requires Inv(s) && Enabled(s, Error(socket, now))
    ensures Step(s, Error(socket, now)) == AfterError(s, now)
    ensures Inv(AfterError(s, now))
  {
  }

  lemma OnClose(s: State, socket: nat)
    requires Inv(s) && Enabled(s, Close(socket))
    ensures Step(s, Close(socket)) == AfterClose(s)
    ensures Inv(AfterClose(s))
  {
  }

  lemma OnRetry(s: State, now: nat)
    requires Inv(s) && Enabled(s, RetryDue(now))
    ensures Step(s, RetryDue(now)) == AfterRetry(s)
    ensures Inv(AfterRetry(s))
  {
  }

  lemma OnTick(s: State, now: nat)
    requires Inv(s) && Enabled(s, Tick(now))
    ensures Step(s, Tick(now)) == AfterTick(s, now)
    ensures Inv(AfterTick(s, now))
  {
  }

  /** Every callback keeps Inv. */
  lemma StepPreservesInv(s: State, e: Event)
    requires Inv(s)
    ensures Inv(Step(s, e))
  {
    if Enabled(s, e) {
      match e
      case Output(chunk, now) => OnOutput(s, chunk, now);
      case ChildExit(code, signal) => OnChildExit(s, code, signal);
      case Stdin(text, now) => OnStdin(s, text, now);
      case Open(socket, now) => OnOpen(s, socket, now);
      case Message(socket, payload, now) => OnMessage(s, socket, payload, now);
      case Error(socket, now) => OnError(s, socket, now);
      case Close(socket) => OnClose(s, socket);
      case RetryDue(now) => OnRetry(s, now);
      case Tick(now) => OnTick(s, now);
    }
  }

  /** Any sequence of callbacks keeps Inv. */
  lemma {:induction false} RunPreservesInv(s: State, events: seq<Event>)
    requires Inv(s)
    ensures Inv(Run(s, events))
    decreases |events|
  {
    if events != [] {
      StepPreservesInv(s, events[0]);
      RunPreservesInv(Step(s, events[0]), events[1..]);
    }
  }

  /** Running two sequences one after the other is running their concatenation. */
  lemma {:induction false} RunAppend(s: State, a: seq<Event>, b: seq<Event>)
    ensures Run(s, a + b) == Run(Run(s, a), b)
    decreases |a|
  {
    if a != [] {
      assert (a + b)[0] == a[0];
      assert (a + b)[1..] == a[1..] + b;
      RunAppend(Step(s, a[0]), a[1..], b);
    } else {
      assert a + b == b;
    }
  }

  /** Running one more event after a sequence is one more step. */
  lemma RunSnoc(s: State, events: seq<Event>, e: Event)
    ensures Run(s, events + [e]) == Step(Run(s, events), e)
  {
    RunAppend(s, events, [e]);
    assert [e][1..] == [];
  }

  /** Once the script has exited, no callback has any effect. */
  lemma {:induction false} ExitIsTerminal(s: State, events: seq<Event>)
    requires s.exitCode.Some?
    ensures Run(s, events) == s
    decreases |events|
  {
    if events != [] {
      ExitIsTerminal(Step(s, events[0]), events[1..]);
    }
  }

  /** Over a whole run the child receives at most one kill signal, sent only when the run ends with exit code 1. */
  lemma AtMostOneKill(args: seq<string>, startTime: nat, spawnTime: nat, events: seq<Event>)
    ensures var t := Run(Launched(args, startTime, spawnTime), events);
            t.kills <= 1 && (t.kills == 1 ==> t.exitCode == Some(1))
  {
    LaunchedSatisfiesInv(args, startTime, spawnTime);
    RunPreservesInv(Launched(args, startTime, spawnTime), events);
  }

  /**
   * What only ever grows or switches one way: recorded tokens, console, log,
   * requests sent, forwarding listeners, kills and sockets grow; a session once
   * connected stays connected; `initialListener` and `filter` once detached stay
   * detached; the connect-wait start never moves; after exit nothing changes.
   */
  predicate Grows(s: State, t: State) {
    && s.seen <= t.seen
    && s.console <= t.console
    && s.log <= t.log
    && s.sent <= t.sent
    && s.forwarders <= t.forwarders
    && s.kills <= t.kills
    && s.sockets <= t.sockets
    && t.rconStartTime == s.rconStartTime
    && (s.rconConnected ==> t.rconConnected)
    && (!s.initialListener ==> !t.initialListener)
    && (!s.relaying ==> !t.relaying)
    && (s.exitCode.Some? ==> t == s)
  }

  /** Every callback only grows the state, in the sense of Grows. */
  lemma StepGrows(s: State, e: Event)
    ensures Grows(s, Step(s, e))
  {
    if Enabled(s, e) {
      if e.Output? || e.ChildExit? || e.Stdin? {
        ChildSideGrows(s, e);
      } else if e.Open? || e.Message? || e.Error? {
        SocketSideGrows(s, e);
      } else {
        FatalSideGrows(s, e);
      }
    }
  }

  lemma ChildSideGrows(s: State, e: Event)
    requires Enabled(s, e) && (e.Output? || e.ChildExit? || e.Stdin?)
    ensures Grows(s, Step(s, e))
  {
  }

  lemma SocketSideGrows(s: State, e: Event)
    requires Enabled(s, e) && (e.Open? || e.Message? || e.Error?)
    ensures Grows(s, Step(s, e))
  {
  }

  lemma FatalSideGrows(s: State, e: Event)
    requires Enabled(s, e) && (e.Close? || e.RetryDue? || e.Tick?)
    ensures Grows(s, Step(s, e))
  {
    if e.Close? && s.rconConnected {
      RestartedGrows(s.(console := s.console + [RconClosedUnexpectedly]), RconDisconnect);
    } else if e.Tick? && Alarm(e.now, s.rconConnected, s.rconStartTime, s.lastOutputTime).Some? {
      RestartedGrows(s, Alarm(e.now, s.rconConnected, s.rconStartTime, s.lastOutputTime).value);
    }
  }

  lemma RestartedGrows(s: State, reason: RestartReason)
    requires s.exitCode.None?
    ensures Grows(s, Restarted(s, reason))
  {
  }

  /** Every run only grows the append-only parts of the state, and the routing of stdin switches at most once. */
  lemma {:induction false} RunGrows(s: State, events: seq<Event>)
    ensures Grows(s, Run(s, events))
    decreases |events|
  {
    if events != [] {
      var next := Step(s, events[0]);
      StepGrows(s, events[0]);
      RunGrows(next, events[1..]);
      var t := Run(next, events[1..]);
      assert s.console <= next.console <= t.console;
      assert s.log <= next.log <= t.log;
      assert s.sent <= next.sent <= t.sent;
      assert s.forwarders <= next.forwarders <= t.forwarders;
    }
  }

  /** The clock reading an event carries, if it takes one. */
  function TimeOf(e: Event): Option<nat> {
    match e
    case Output(_, now) => Some(now)
    case Stdin(_, now) => Some(now)
    case Open(_, now) => Some(now)
    case Message(_, _, now) => Some(now)
    case Error(_, now) => Some(now)
    case RetryDue(now) => Some(now)
    case Tick(now) => Some(now)
    case _ => None
  }

  /** Every clock reading in `events` is at least `t`. */
  predicate NotBefore(t: nat, events: seq<Event>) {
    forall k :: 0 <= k < |events| && TimeOf(events[k]).Some? ==> t <= TimeOf(events[k]).value
  }

  /** The clock readings along `events` never go backwards. */
  predicate Chronological(events: seq<Event>) {
    forall i, j :: 0 <= i < j < |events| && TimeOf(events[i]).Some? && TimeOf(events[j]).Some?
      ==> TimeOf(events[i]).value <= TimeOf(events[j]).value
  }

  /** A callback sets the activity clock to its own reading or leaves it alone. */
  lemma StepClock(s: State, e: Event)
    ensures Step(s, e).lastOutputTime == s.lastOutputTime
            || (TimeOf(e).Some? && Step(s, e).lastOutputTime == TimeOf(e).value)
  {
  }

  /**
   * When the clock readings never go backwards and none is earlier than the activity
   * clock, the activity clock never goes backwards over a run.
   */
  lemma {:induction false} ClockNeverGoesBack(s: State, events: seq<Event>)
    requires Chronological(events)
    requires NotBefore(s.lastOutputTime, events)
    ensures s.lastOutputTime <= Run(s, events).lastOutputTime
    decreases |events|
  {
    if events != [] {
      var next := Step(s, events[0]);
      StepClock(s, events[0]);
      var rest := events[1..];
      assert Chronological(rest) by {
        forall i, j | 0 <= i < j < |rest| && TimeOf(rest[i]).Some? && TimeOf(rest[j]).Some?
          ensures TimeOf(rest[i]).value <= TimeOf(rest[j]).value
        {
          assert rest[i] == events[i + 1] && rest[j] == events[j + 1];
        }
      }
      assert NotBefore(next.lastOutputTime, rest) by {
        forall k | 0 <= k < |rest| && TimeOf(rest[k]).Some?
          ensures next.lastOutputTime <= TimeOf(rest[k]).value
        {
          assert rest[k] == events[k + 1];
        }
      }
      ClockNeverGoesBack(next, rest);
    }
  }

  /**
   * Monotonic activity clock: along a chronological run that starts no earlier than
   * the clock, the clock after any prefix is at most the clock after any longer prefix.
   */
  lemma ClockMonotone(s: State, events: seq<Event>, i: nat, j: nat)
    requires Chronological(events)
    requires NotBefore(s.lastOutputTime, events)
    requires i <= j <= |events|
    ensures Run(s, events[..i]).lastOutputTime <= Run(s, events[..j]).lastOutputTime
  {
    var mid := Run(s, events[..i]);
    assert events[..j] == events[..i] + events[i..j];
    RunAppend(s, events[..i], events[i..j]);
    ClockFromEvents(s, events[..i]);
    ChronologicalSlice(events, i, j);
    LaterReadingsNotBefore(s.lastOutputTime, mid.lastOutputTime, events, events[..i], j);
    ClockNeverGoesBack(mid, events[i..j]);
  }

  /** A slice of a chronological sequence of events is chronological. */
  lemma ChronologicalSlice(events: seq<Event>, i: nat, j: nat)
    requires Chronological(events) && i <= j <= |events|
    ensures Chronological(events[i..j])
  {
    var later := events[i..j];
    forall a, b | 0 <= a < b < |later| && TimeOf(later[a]).Some? && TimeOf(later[b]).Some?
      ensures TimeOf(later[a]).value <= TimeOf(later[b]).value
    {
      assert later[a] == events[i + a] && later[b] == events[i + b];
    }
  }

  /**
   * A clock that holds the starting reading or one taken from a prefix of a
   * chronological sequence is not after any reading that follows the prefix.
   */
  lemma LaterReadingsNotBefore(c0: nat, c: nat, events: seq<Event>, prefix: seq<Event>, j: nat)
    requires Chronological(events) && NotBefore(c0, events)
    requires |prefix| <= j <= |events| && prefix == events[..|prefix|]
    requires c == c0 || exists m :: 0 <= m < |prefix| && TimeOf(prefix[m]) == Some(c)
    ensures NotBefore(c, events[|prefix|..j])
  {
    var i := |prefix|;
    var later := events[i..j];
    forall k | 0 <= k < |later| && TimeOf(later[k]).Some?
      ensures c <= TimeOf(later[k]).value
    {
      assert later[k] == events[i + k];
      if c != c0 {
        var m :| 0 <= m < i && TimeOf(prefix[m]) == Some(c);
        assert prefix[m] == events[m];
      }
    }
  }

  /** After a run the activity clock holds its old value or the reading of one of the events. */
  lemma {:induction false} ClockFromEvents(s: State, events: seq<Event>)
    ensures var c := Run(s, events).lastOutputTime;
            c == s.lastOutputTime || exists m :: 0 <= m < |events| && TimeOf(events[m]) == Some(c)
    decreases |events|
  {
    if events != [] {
      var next := Step(s, events[0]);
      StepClock(s, events[0]);
      ClockFromEvents(next, events[1..]);
      var c := Run(s, events).lastOutputTime;
      if c != next.lastOutputTime {
        var m :| 0 <= m < |events[1..]| && TimeOf(events[1..][m]) == Some(c);
        assert events[1..][m] == events[m + 1];
      } else if c != s.lastOutputTime {
        assert TimeOf(events[0]) == Some(c);
      }
    }
  }
}
