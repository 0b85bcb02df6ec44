/**
 * What each callback of the supervisor does, stated against the state machine, and
 * the failure scenarios the supervisor exists to detect.
 */
module Properties {
  import opened Options
  import opened Text
  import opened Rcon
  import opened Progress
  import opened Watchdog
  import opened Supervision

  /** A live state: the script has not exited. */
  predicate Live(s: State) {
    s.exitCode.None?
  }

  /**
   * While `filter` is attached, every chunk, printed or suppressed, sets the
   * activity clock to its reading; it is printed exactly when it is not a progress
   * line or its token is new, and then it is the only line added; nothing but the
   * clock, the recorded tokens and the console changes.
   */
  lemma OutputRefreshesClock(s: State, chunk: string, now: nat)
    requires Live(s) && s.relaying
    ensures var t := Step(s, Output(chunk, now));
            t.lastOutputTime == now
            && (t.console == s.console + [Relayed(chunk)] <==> !IsProgress(chunk) || Token(chunk) !in s.seen)
            && (t.console == s.console || t.console == s.console + [Relayed(chunk)])
            && t.seen == (if IsProgress(chunk) then s.seen + {Token(chunk)} else s.seen)
            && t.sent == s.sent && t.exitCode == s.exitCode
            && t == s.(lastOutputTime := now, seen := t.seen, console := t.console)
  {
    FilterDecides(s.seen, chunk);
    assert s.console + [Relayed(chunk)] != s.console by {
      assert |s.console + [Relayed(chunk)]| == |s.console| + 1;
    }
  }

  /**
   * The same progress line twice: the second copy prints nothing but still counts as
   * activity; a line with a new token is printed the first time.
   */
  lemma RepeatedProgressPrintedOnce(s: State, chunk: string, first: nat, second: nat)
    requires Live(s) && s.relaying && IsProgress(chunk)
    ensures var t := Step(s, Output(chunk, first));
            var u := Step(t, Output(chunk, second));
            u.console == t.console && u.lastOutputTime == second
            && (Token(chunk) !in s.seen ==> t.console == s.console + [Relayed(chunk)])
  {
  }

  /** Once a session has opened, game output reaches nobody: not the console, not the clock. */
  lemma OutputIgnoredAfterOpen(s: State, chunk: string, now: nat)
    requires !s.relaying
    ensures Step(s, Output(chunk, now)) == s
  {
  }

  /**
   * Single delivery of operator input: before any session it is only acknowledged
   * on the console (trimmed) and nothing is sent; afterwards it is sent untrimmed,
   * once per forwarding listener (at least one), the clock is refreshed and the
   * console is untouched.
   */
  lemma StdinDeliveredOnce(s: State, text: string, now: nat)
    requires Inv(s) && Live(s)
    ensures var t := Step(s, Stdin(text, now));
            if s.initialListener then
              t == s.(console := s.console + [UnableToRun(Trim(text))])
            else
              && t == s.(lastOutputTime := now, sent := s.sent + Forwarded(s.forwarders, text))
              && |s.forwarders| >= 1
              && (forall k :: |s.sent| <= k < |t.sent| ==> t.sent[k].packet == Packet(-1, text, "WebRcon"))
  {
    var t := Step(s, Stdin(text, now));
    if !s.initialListener {
      var f := Forwarded(s.forwarders, text);
      assert t.sent == s.sent + f;
      forall k | |s.sent| <= k < |t.sent| ensures t.sent[k].packet == Packet(-1, text, "WebRcon") {
        var j := k - |s.sent|;
        assert t.sent[k] == f[j];
        assert f[j] == Sent(s.forwarders[j], CommandPacket(text));
      }
    }
  }

  /**
   * Opening a socket: connected, clock refreshed, exactly one "status" request on
   * that socket, `initialListener` and `filter` detached, a forwarding listener for
   * that socket attached; nothing is printed but the connection notice.
   */
  lemma OpenSwitchesRouting(s: State, socket: nat, now: nat)
    requires Live(s) && socket < s.sockets
    ensures var t := Step(s, Open(socket, now));
            t == s.(rconConnected := true, lastOutputTime := now,
                    sent := s.sent + [Sent(socket, Packet(-1, "status", "WebRcon"))],
                    initialListener := false, relaying := false,
                    forwarders := s.forwarders + [socket],
                    console := s.console + [RconConnected])
  {
  }

  /**
   * A push with a non-empty message is printed, appended to latest.log after a
   * newline and refreshes the clock; an undecodable push only reports an error; a
   * push without a message changes nothing.
   */
  lemma MessageEffects(s: State, socket: nat, payload: Payload, now: nat)
    requires Live(s) && socket < s.sockets
    ensures var t := Step(s, Message(socket, payload, now));
            match payload
            case None => t == s.(console := s.console + [InvalidJson])
            case Some(None) => t == s
            case Some(Some(m)) =>
              if m == "" then t == s
              else t == s.(console := s.console + [RconText(m)], lastOutputTime := now, log := s.log + "\n" + m)
  {
  }

  /** A socket error never ends the run and never changes the clocks: it only reports and schedules one retry 5 s later. */
  lemma ErrorOnlySchedulesRetry(s: State, socket: nat, now: nat)
    requires Live(s) && socket < s.sockets
    ensures Step(s, Error(socket, now))
            == s.(console := s.console + [WaitingForRcon], retries := s.retries + [now + 5000])
  {
  }

  /** A due retry timer creates exactly one new socket and changes nothing else. */
  lemma RetryCreatesSocket(s: State, now: nat)
    requires Live(s) && s.retries != [] && s.retries[0] <= now
    ensures Step(s, RetryDue(now)) == s.(retries := s.retries[1..], sockets := s.sockets + 1)
  {
  }

  /** A close before any session has opened changes nothing. */
  lemma CloseBeforeOpenIgnored(s: State, socket: nat)
    requires !s.rconConnected
    ensures Step(s, Close(socket)) == s
  {
  }

  /**
   * A close after a session opened is always fatal: the child is sent SIGTERM and the
   * run exits with code 1; nothing else changes but the two console lines.
   */
  lemma CloseAfterOpenIsFatal(s: State, socket: nat)
    requires Inv(s) && Live(s) && s.rconConnected && socket < s.sockets
    ensures var t := Step(s, Close(socket));
            t.exitCode == Some(1) && t.kills == 1 && t.process.Some? && t.process.value.killed
            && t.console == s.console + [RconClosedUnexpectedly, Restarting(RconDisconnect)]
            && t == s.(console := t.console, exitCode := Some(1), kills := 1,
                       process := Some(s.process.value.(killed := true)))
  {
  }

  /**
   * A tick ends the run exactly when the watchdog alarm fires, and then the child is
   * sent SIGTERM and nothing else changes but the console; otherwise it changes nothing.
   */
  lemma TickRestartsIff(s: State, now: nat)
    requires Inv(s) && Live(s)
    ensures var t := Step(s, Tick(now));
            var alarm := Alarm(now, s.rconConnected, s.rconStartTime, s.lastOutputTime);
            (alarm.None? ==> t == s)
            && (alarm.Some? ==> t.exitCode == Some(1) && t.kills == 1
                                && t.console == s.console + [Restarting(alarm.value)]
                                && t == s.(console := t.console, exitCode := Some(1), kills := 1,
                                           process := Some(s.process.value.(killed := true))))
  {
  }

  /** No console or remote-console activity for more than MaxIdle: the next tick kills the child and exits with 1. */
  lemma SilenceIsFatal(s: State, now: nat)
    requires Inv(s) && Live(s) && now - s.lastOutputTime > MaxIdle
    ensures Step(s, Tick(now)).exitCode == Some(1) && Step(s, Tick(now)).kills == 1
  {
  }

  /** Exactly MaxIdle of silence on a connected supervisor is not yet a restart. */
  lemma SilenceAtThresholdTolerated(s: State, now: nat)
    requires Live(s) && s.rconConnected && now - s.lastOutputTime == MaxIdle
    ensures Step(s, Tick(now)) == s
  {
  }

  /** Without an open event, a session that was not connected stays unconnected, and the connect-wait start never moves. */
  lemma {:induction false} NoOpenNoSession(s: State, events: seq<Event>)
    requires !s.rconConnected
    requires forall k :: 0 <= k < |events| ==> !events[k].Open?
    ensures !Run(s, events).rconConnected && Run(s, events).rconStartTime == s.rconStartTime
    decreases |events|
  {
    if events != [] {
      NoOpenNoSession(Step(s, events[0]), events[1..]);
    }
  }

  /**
   * A remote console that never comes up is fatal: after a launch and any callbacks
   * without an open event, the first tick more than MaxIdle after startup kills the
   * child and exits with code 1, however many retries are pending.
   */
  lemma UnreachableRconIsFatal(args: seq<string>, startTime: nat, spawnTime: nat, events: seq<Event>, now: nat)
    requires forall k :: 0 <= k < |events| ==> !events[k].Open?
    requires now - startTime > MaxIdle
    ensures var s := Run(Launched(args, startTime, spawnTime), events);
            var t := Step(s, Tick(now));
            t.exitCode == Some(1) && t.kills <= 1
            && (s.exitCode.None? ==> t.console == s.console + [Restarting(RconTimeout)] && t.kills == 1)
  {
    var s0 := Launched(args, startTime, spawnTime);
    LaunchedSatisfiesInv(args, startTime, spawnTime);
    RunPreservesInv(s0, events);
    NoOpenNoSession(s0, events);
    UnconnectedTickIsFatal(Run(s0, events), now);
  }

  /** A tick more than MaxIdle after the connect-wait start, with no session yet, ends the run. */
  lemma UnconnectedTickIsFatal(s: State, now: nat)
    requires Inv(s) && !s.rconConnected && now - s.rconStartTime > MaxIdle
    ensures var t := Step(s, Tick(now));
            t.exitCode == Some(1) && t.kills <= 1
            && (s.exitCode.None? ==> t.console == s.console + [Restarting(RconTimeout)] && t.kills == 1)
  {
  }

  /** The events delivering each chunk of game output in turn, all at the same reading. */
  function Outputs(chunks: seq<string>, now: nat): seq<Event> {
    seq(|chunks|, k requires 0 <= k < |chunks| => Output(chunks[k], now))
  }

  /** The console lines relaying each chunk in turn. */
  function RelayedLines(chunks: seq<string>): seq<ConsoleLine> {
    seq(|chunks|, k requires 0 <= k < |chunks| => Relayed(chunks[k]))
  }

  /** One chunk of game output while `filter` is attached, seen from the console and the recorded tokens. */
  lemma OutputStep(s: State, chunk: string, now: nat)
    requires Live(s) && s.relaying
    ensures var t := Step(s, Output(chunk, now));
            var v := Filter(s.seen, chunk);
            t.console == s.console + RelayedLines(if v.printed then [chunk] else [])
            && t.seen == v.seen && t.relaying && Live(t) && t.sent == s.sent && t.log == s.log
            && t == s.(lastOutputTime := now, seen := t.seen, console := t.console)
  {
    var v := Filter(s.seen, chunk);
    if v.printed {
      assert RelayedLines([chunk]) == [Relayed(chunk)];
    } else {
      assert RelayedLines([]) == [];
    }
  }

  lemma RelayedLinesAppend(a: seq<string>, b: seq<string>)
    ensures RelayedLines(a + b) == RelayedLines(a) + RelayedLines(b)
  {
  }

  /**
   * A burst of game output before any session: the console gains exactly the first
   * sightings of the burst (repeated progress lines dropped), the tokens of the
   * burst are recorded, the clock reads the burst's time once a chunk has arrived,
   * and nothing else changes.
   */
  lemma {:induction false} OutputBurstRelaysFirstSightings(s: State, chunks: seq<string>, now: nat)
    requires Live(s) && s.relaying
    ensures var t := Run(s, Outputs(chunks, now));
            t.console == s.console + RelayedLines(FirstSightings(s.seen, chunks))
            && t.seen == s.seen + TokensOf(chunks)
            && t.relaying && Live(t) && t.sent == s.sent && t.log == s.log
            && t.lastOutputTime == (if chunks == [] then s.lastOutputTime else now)
            && t == s.(lastOutputTime := t.lastOutputTime, seen := t.seen, console := t.console)
    decreases |chunks|
  {
    if chunks == [] {
      assert Outputs(chunks, now) == [];
      assert RelayedLines([]) == [];
      assert TokensOf(chunks) == {};
    } else {
      var earlier := chunks[..|chunks| - 1];
      OutputBurstRelaysFirstSightings(s, earlier, now);
      OutputsSnoc(s, chunks, now);
      BurstOneMore(s, Run(s, Outputs(earlier, now)), chunks, now);
    }
  }

  /** If the burst without its last chunk relayed its first sightings, the whole burst does too. */
  lemma BurstOneMore(s: State, mid: State, chunks: seq<string>, now: nat)
    requires chunks != []
    requires var earlier := chunks[..|chunks| - 1];
             && mid.console == s.console + RelayedLines(FirstSightings(s.seen, earlier))
             && mid.seen == s.seen + TokensOf(earlier)
             && mid.relaying && Live(mid) && mid.sent == s.sent && mid.log == s.log
             && mid == s.(lastOutputTime := mid.lastOutputTime, seen := mid.seen, console := mid.console)
    ensures var t := Step(mid, Output(chunks[|chunks| - 1], now));
            t.console == s.console + RelayedLines(FirstSightings(s.seen, chunks))
            && t.seen == s.seen + TokensOf(chunks)
            && t.relaying && Live(t) && t.sent == s.sent && t.log == s.log
            && t == s.(lastOutputTime := now, seen := t.seen, console := t.console)
  {
    var earlier := chunks[..|chunks| - 1];
    var last := chunks[|chunks| - 1];
    var t := Step(mid, Output(last, now));
    var shown := FirstSightings(s.seen, earlier);
    var extra := if Shown(s.seen, earlier, last) then [last] else [];
    RelayLastChunk(s.seen, chunks);
    OutputStep(mid, last, now);
    assert t.console == mid.console + RelayedLines(extra);
    RelayedLinesAppend(shown, extra);
    assert t.console == s.console + (RelayedLines(shown) + RelayedLines(extra));
  }

  /** Running the events for a burst is running those for all but its last chunk, then the last one. */
  lemma OutputsSnoc(s: State, chunks: seq<string>, now: nat)
    requires chunks != []
    ensures Run(s, Outputs(chunks, now))
            == Step(Run(s, Outputs(chunks[..|chunks| - 1], now)), Output(chunks[|chunks| - 1], now))
  {
    var earlier := chunks[..|chunks| - 1];
    var e := Output(chunks[|chunks| - 1], now);
    assert Outputs(chunks, now) == Outputs(earlier, now) + [e];
    RunSnoc(s, Outputs(earlier, now), e);
  }
}
