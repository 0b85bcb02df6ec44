# Rust server supervisor: a verified model

`games/rust/wrapper.js` is the Node script that a container runs to supervise a Rust
dedicated server. It does the following:

- starts the server from its own command-line arguments;
- relays the server's console output, dropping repeated "Loading Prefab Bundle …" progress lines;
- connects to the server's WebRcon remote console and retries every 5 s until a session opens;
- sends operator input to that session once it is open;
- writes pushed console messages to `latest.log`.

It keeps two millisecond timestamps: the startup time and the time of the last activity. A
watchdog calls `restartServer` when the remote console is still not connected more than
`MAX_IDLE` (5 minutes) after startup, or when there has been no activity for more than
`MAX_IDLE`. That function sends SIGTERM to the server and
exits with code 1, and the hosting platform then restarts the container.

The project models the script's supervisor state machine:

- `Supervision` (supervision.dfy) holds the specification. A `State` record stands for all the
  script's globals and attached listeners. An `Event` stands for each callback. `Step` runs one
  callback to completion, which is how the JavaScript event loop runs them. `Run` runs a
  sequence of callbacks.
- The observable effects are part of the state: console lines by kind, the text of
  `latest.log`, the requests written to each socket, and the number of kill signals.
- `Wrapper.Supervisor` (wrapper.dfy) is the script as an object. Its fields are the globals. The
  observable records are ghost fields. Its constructor is the top level of the script, and each
  callback is a method. Every callback method is proved to change the object exactly as `Step`
  changes the state, and `RestartServer` exactly as `Restarted` does.
- `Text` models `join(" ")` with its inverse split, and `trim`.
- `Rcon` models the `packet` request and decoded pushes.
- `Progress` models the deduplication done by `filter`.
- `Watchdog` models the interval check.
- `Properties` holds what each callback does and the failure scenarios, proved against `Step`
  and `Run`.

Clock readings (`Date.now()`) are parameters of the events. Timers are events:

- a due retry timer is `RetryDue`;
- a watchdog interval is `Tick`.

Sockets are numbered in the order `pollRcon` creates them. An event that cannot happen changes
nothing. That covers any event after exit, any event on a socket that was never created, and a
retry timer that is not due.

Apart from one deliberate correction, the model follows the script as written. The
correction: seen progress tokens are held as a set, where the script looks them up in a plain
object (see "## Findings" and "## Left out"). The model keeps these behaviours of the script,
which a cleaner design might do differently:

- `filter` refreshes `lastOutputTime` before the duplicate check, so a suppressed progress line
  still counts as activity.
- A socket error always schedules another attempt 5 s later. The error handler never checks
  elapsed time and never exits. The connect-wait limit is enforced only by the watchdog.
- `rconStartTime` is read once at startup and never reset or cleared. The connect-wait limit is
  therefore measured from startup, not from the first failed attempt.
- There is no special case for `quit` before a session opens. Before a session, every input is
  only acknowledged.
- A push that cannot be decoded is reported as an error. The same happens when it decodes to
  `null`, because reading `.Message` then throws inside the same `try`. The raw payload is not
  logged and the clock is not refreshed.
- Both watchdog comparisons are strict (`>`). Exactly `MAX_IDLE` of silence does not fire.
- After a session opens, `filter` is detached from the server's stdout and stderr. Game output
  then refreshes nothing.
- Exit with code 1 without a startup command happens before the child exists, so nothing is
  killed. `restartServer` is the only path that signals the child.

## Model

| member | source | states |
|---|---|---|
| Text.SplitSpaces | games/rust/wrapper.js:53 | splitting on spaces yields at least one part and no part contains a space (the inverse of the join) |
| Text.SplitJoin | games/rust/wrapper.js:53 | splitting the joined arguments on spaces gives the arguments back when none contains a space |
| Text.JoinSplit | games/rust/wrapper.js:53 | joining the split of any string gives the string back |
| Text.TrimStart | games/rust/wrapper.js:76 | the result is the suffix left after removing only trimmable characters, and it does not start with one |
| Text.TrimEnd | games/rust/wrapper.js:76 | the result is the prefix left after removing only trimmable characters, and it does not end with one |
| Text.TrimEndsKept | games/rust/wrapper.js:76 | the result of `trim` is empty or neither starts nor ends with a trimmable character |
| Text.TrimIdempotent | games/rust/wrapper.js:76 | trimming the acknowledged command twice is trimming it once |
| Rcon.CommandPacketCarriesCommand | games/rust/wrapper.js:85-89 | every request has Identifier -1 and Name "WebRcon" and carries the command text; two requests are equal exactly when their commands are |
| Progress.FilterDecides | games/rust/wrapper.js:32-43 | a chunk is printed exactly when it lacks the prefix or its token is new; a prefixed chunk's token is recorded and nothing else is |
| Progress.FilterTwicePrintsOnce | games/rust/wrapper.js:36-40 | the same progress chunk filtered twice is printed at most once, and exactly once if its token was new |
| Progress.RelayPrintsFirstSightings | games/rust/wrapper.js:31-43 | filtering a stream prints exactly the non-progress chunks and the first occurrence of each progress line whose token was not already recorded; the recorded tokens grow by every token in the stream |
| Progress.KnownTokenIffKnownLine | games/rust/wrapper.js:34-39 | a progress line's token has been recorded from a stream exactly when that very line occurred in it |
| Progress.InheritedKeySuppressedAsWritten | games/rust/wrapper.js:31-39 | as written, a first "Loading Prefab Bundle constructor" is dropped because the lookup reads an inherited property, while the set-based filter prints it |
| Progress.AsWrittenAgreesOffInheritedKeys | games/rust/wrapper.js:31-39 | away from the inherited property names, the as-written lookup and the set-based filter decide alike |
| Watchdog.AlarmFiresIff | games/rust/wrapper.js:142-153 | a tick restarts exactly when (not connected and more than MAX_IDLE since startup) or more than MAX_IDLE since the last activity; the reason is the connect timeout exactly when the first condition holds |
| Watchdog.ThresholdIsStrict | games/rust/wrapper.js:145-150 | exactly MAX_IDLE elapsed does not fire, one millisecond more on the activity clock does |
| Supervision.StartupCommandRecoversArgs | games/rust/wrapper.js:48-53 | no arguments is the only fatal case; otherwise the single-space split that undoes `join(" ")` gives the arguments back when none contains a space |
| Supervision.LaunchedSatisfiesInv | games/rust/wrapper.js:12-81 | startup reaches an invariant state; it exits with code 1 exactly when there are no arguments, otherwise it spawns the joined command, not yet killed |
| Supervision.RestartedKeepsInv | games/rust/wrapper.js:23-29 | `restartServer` on a running supervisor keeps the invariant, exits with code 1, and sends exactly one kill when there is a child and none otherwise |
| Supervision.StepPreservesInv | games/rust/wrapper.js:23-153 | every callback keeps the invariant: only exit code 1, at most one kill and only on exit, `killed` records it, `filter` attached exactly while `initialListener` is, never both stdin handlers, connected exactly when a socket opened |
| Supervision.RunPreservesInv | games/rust/wrapper.js:23-153 | any sequence of callbacks keeps that invariant |
| Supervision.ExitIsTerminal | games/rust/wrapper.js:28 | after exit no callback has any effect |
| Supervision.AtMostOneKill | games/rust/wrapper.js:23-29 | over any run from startup the child gets at most one SIGTERM, and only in a run that ended with exit code 1 |
| Supervision.StepGrows | games/rust/wrapper.js:32-137 | one callback only grows seen tokens, console, log, requests, listeners, kills and sockets; leaves `rconStartTime` alone; switches connection and listeners one way only |
| Supervision.RunGrows | games/rust/wrapper.js:17-137 | over any run `seenPercentage` only grows, stdin routing switches to forwarding at most once and never back, `filter` once detached stays detached, `rconStartTime` never changes |
| Supervision.StepClock | games/rust/wrapper.js:32-125 | a callback sets `lastOutputTime` to its own clock reading or leaves it alone |
| Supervision.ClockNeverGoesBack | games/rust/wrapper.js:32-125 | with a non-decreasing clock, `lastOutputTime` after a run is not earlier than before it |
| Supervision.ClockFromEvents | games/rust/wrapper.js:32-125 | after a run `lastOutputTime` is its old value or the reading of one of the callbacks |
| Supervision.ClockMonotone | games/rust/wrapper.js:32-125 | along a chronological run, `lastOutputTime` after any prefix is at most its value after any longer prefix |
| Properties.OutputRefreshesClock | games/rust/wrapper.js:32-43 | while attached, every chunk, suppressed or not, sets the clock to its reading; it is printed exactly when it lacks the prefix or has a new token; nothing else but the clock, the recorded tokens and the console changes |
| Properties.RepeatedProgressPrintedOnce | games/rust/wrapper.js:34-39 | a repeated progress chunk prints nothing but still refreshes the clock |
| Properties.OutputIgnoredAfterOpen | games/rust/wrapper.js:104-105 | once `filter` is detached, game output changes nothing |
| Properties.StdinDeliveredOnce | games/rust/wrapper.js:75-109 | before a session input is only acknowledged, trimmed, and nothing is sent; afterwards it is sent untrimmed, once per forwarding listener, refreshes the clock, and nothing else changes |
| Properties.OpenSwitchesRouting | games/rust/wrapper.js:96-110 | open: connected, clock refreshed, exactly one "status" request on that socket, `initialListener` and `filter` detached, forwarding attached, the connection notice printed, and nothing else changed |
| Properties.MessageEffects | games/rust/wrapper.js:112-125 | a push with a message is printed, appended to the log after "\n" and refreshes the clock; an undecodable push only reports an error; a push without a message does nothing |
| Properties.ErrorOnlySchedulesRetry | games/rust/wrapper.js:127-130 | an error only reports and schedules one retry 5000 ms later; it never exits |
| Properties.RetryCreatesSocket | games/rust/wrapper.js:84-130 | a due retry makes exactly one new connection attempt |
| Properties.CloseBeforeOpenIgnored | games/rust/wrapper.js:132-137 | a close before any session changes nothing |
| Properties.CloseAfterOpenIsFatal | games/rust/wrapper.js:132-137 | a close after a session opened always sends SIGTERM and exits with code 1; nothing else changes but the two console lines |
| Properties.TickRestartsIff | games/rust/wrapper.js:142-153 | a tick changes nothing unless the alarm fires, and then it kills and exits with code 1; nothing else changes but the console |
| Properties.SilenceIsFatal | games/rust/wrapper.js:150-152 | more than MAX_IDLE without activity: the next tick kills the child and exits with code 1 |
| Properties.SilenceAtThresholdTolerated | games/rust/wrapper.js:150 | exactly MAX_IDLE of silence on a connected supervisor is tolerated |
| Properties.NoOpenNoSession | games/rust/wrapper.js:96-110 | without an open event the supervisor stays unconnected and the connect-wait start never moves |
| Properties.UnreachableRconIsFatal | games/rust/wrapper.js:127-147 | if no session opens, the first tick more than MAX_IDLE after startup exits with code 1, however many retries are pending |
| Properties.OutputBurstRelaysFirstSightings | games/rust/wrapper.js:32-65 | a burst of game output before any session prints exactly its first sightings and records all its tokens; the clock reads the burst's time once a chunk arrived, and nothing else changes |
| Wrapper.Supervisor.Start | games/rust/wrapper.js:12-81 | the script's top level builds the startup state (exit 1 without arguments) |
| Wrapper.Supervisor.RestartServer | games/rust/wrapper.js:23-29 | on a running supervisor: reports, kills a child that is not yet killed, exits with code 1, and keeps the invariant |
| Wrapper.Supervisor.ProcessOutput | games/rust/wrapper.js:32-65 | updates the object exactly as the output step of the state machine does |
| Wrapper.Supervisor.ChildExit | games/rust/wrapper.js:67-70 | the child's exit is only reported |
| Wrapper.Supervisor.StdinData | games/rust/wrapper.js:75-109 | updates the object exactly as the stdin step does, keeping the invariant |
| Wrapper.Supervisor.RconOpen | games/rust/wrapper.js:96-110 | updates the object exactly as the open step does, keeping the invariant |
| Wrapper.Supervisor.RconMessage | games/rust/wrapper.js:112-125 | updates the object exactly as the message step does |
| Wrapper.Supervisor.RconError | games/rust/wrapper.js:127-130 | updates the object exactly as the error step does |
| Wrapper.Supervisor.RconClose | games/rust/wrapper.js:132-137 | updates the object exactly as the close step does |
| Wrapper.Supervisor.RetryTimer | games/rust/wrapper.js:84-130 | updates the object exactly as the retry step does |
| Wrapper.Supervisor.WatchdogTick | games/rust/wrapper.js:142-153 | updates the object exactly as the tick step does, keeping the invariant |

## Left out

- `child_process.exec` and the real child. The child is a handle with its command line and
  Node's `killed` flag. A kill is counted when `kill('SIGTERM')` is called, whether or not the
  signal reaches a live process. `exec` runs the command through a shell, and what SIGTERM to
  that shell does to the game process is not modelled. Nor is `exec`'s own `maxBuffer` kill:
  once the child's buffered output passes 1 MiB (the default), Node sends it SIGTERM, sets
  `killed` and closes its streams, without any call from the supervisor.
- The `ws` client, the connection URL built from `RCON_IP`, `RCON_PORT` and `RCON_PASS`, and the
  network. Socket events arrive in any order the environment chooses. Guarantees of the library
  such as "open at most once per socket" are not assumed, so the proved properties hold for
  every order.
- `JSON.parse` and `JSON.stringify`. A push arrives already decoded, with a `Message` that is a
  string. A push that fails to parse, or parses to `null` so that reading `.Message` throws,
  arrives as the error case. A non-string truthy `Message` is not modelled. A request is the record `packet`
  builds, not its text.
- `fs.writeFileSync` and `fs.appendFile`. The log is a string that starts empty and grows by
  appends in call order. A failed append, the out-of-order completion of asynchronous appends,
  and the "AppendFile error" line are not modelled.
- `setTimeout`, `setInterval` and `Date.now()`. Readings are event parameters. The 60 s
  `WATCHDOG_INTERVAL` is not modelled, because ticks happen at whatever readings the environment
  gives. Retry timers fire in the order they were scheduled.
- The wording of console messages. Lines are recorded by kind, with the relayed text, the pushed
  message and the trimmed command kept exactly.
- `process.argv` / `process.execArgv` slicing: the model starts from the argument list.
- How `/bin/sh` re-parses the joined startup command (runs of blanks, quotes, `;`, `|`, `&`,
  `$`, globbing) is not modelled. The model proves only that the single-space split undoes the
  join.
- ProcessOutput: the object, like `Step`, deduplicates progress lines with the set-based
  `Progress.Filter`. So a first "Loading Prefab Bundle constructor" line, or a line with any
  other of the twelve inherited `Object.prototype` names, is printed and recorded, where the
  script drops it. `Progress.AsWrittenAgreesOffInheritedKeys` proves that this is the only
  difference.
- OutputRefreshesClock: its printed-exactly-when-new clause describes the set-based filter.
  For the twelve inherited names it is not what the script does, as for ProcessOutput.
- RepeatedProgressPrintedOnce: its new-token-is-printed clause describes the set-based filter.
  For the twelve inherited names the script prints nothing, as for ProcessOutput.
- OutputBurstRelaysFirstSightings: the printed first sightings are those of the set-based
  filter. The script also drops a progress line whose token is one of the twelve inherited
  names, as for ProcessOutput.
- `process.stdin.resume` and `setEncoding`: input arrives as strings, in the chunks stdin
  delivers.

## Findings

| source | as written | input that shows it | evidently intended | confidence | as-written member | corrected member |
|---|---|---|---|---|---|---|
| games/rust/wrapper.js:31-39 | `seenPercentage` is a plain `{}`, so `seenPercentage[pct]` is truthy for the names every object inherits (`constructor`, `toString`, `__proto__`, …) | the chunk "Loading Prefab Bundle constructor" seen for the first time is dropped | a token is suppressed only after it has been seen once in this run | not executed; the game is unlikely to print such a line | Progress.InheritedKeySuppressedAsWritten | Progress.RelayPrintsFirstSightings |

The state machine uses the set-based `Progress.Filter`. `Progress.FilterAsWritten` is the lookup
as written. `Progress.AsWrittenAgreesOffInheritedKeys` proves that the two differ only on those
twelve names.
