# Sidecar port discovery: the `useSidecarPort` poll loop

The desktop application starts a Bun sidecar (a small HTTP server) that binds
an operating-system assigned port. The React hook `useSidecarPort` learns that
port by polling the host command `get_sidecar_port`. This project models that
hook's discovery loop in Dafny and proves what it promises.

The loop (`pollForPort`) works like this:
- each run issues one host query, while the consumer is mounted and fewer than
  30 attempts have been made;
- a truthy, positive answer is kept as `sidecarPort`. `isLoading` becomes false,
  `error` is cleared and nothing more is scheduled;
- a thrown query, a null answer or a non-positive number increments
  `attempts` and arms a 500 ms timer that runs `pollForPort` again;
- the run that finds the budget spent sets the timeout error and clears
  `isLoading`, without querying;
- after the effect's cleanup (unmount), every pending run returns at once.

The hook also returns a derived flag, `isReady`.

Files:
- `options.dfy` (module `Options`): the `Option` type used for the nullable state cells.
- `session.dfy` (module `PollSession`): the session as a pure state machine.
  `Session` holds the closure variables, a `scheduled` flag (one `pollForPort`
  run is due) and the three state cells. `Step` applies one event: a pending
  callback fires with the query's answer, or the cleanup runs. `Run` and
  `Queries` apply a sequence of events and count the host queries issued.
  `Session.Valid` is the invariant of every reachable session.
- `properties.dfy` (module `PollProperties`): the properties over whole event
  sequences.
- `hook.dfy` (module `SidecarPortHook`): the hook as the class `PortPoller`.
  Its fields are the closure variables and state cells. Its methods
  `PollStep`, `Unmount` and `RunEvents` are each proved equal to the pure
  machine. Two client methods replay a fast start and a sidecar that never answers.

Time is counted in callbacks: the 500 ms timer becomes "one more `PollStep`
is due". The query's answer is an unconstrained input (`Threw`, `Absent` or
`Value(n)`), because the answer comes from the host application, outside the hook.

Facts of the code that the model keeps:
- It issues at most 30 queries. After the 30th failure, the timeout error is
  raised by the next callback, about 500 ms later, and that callback issues no query.
- It accepts any positive number as a port, with no upper bound of 65535.
- It has no port-file fallback and no "channel unavailable" mode. It always
  calls `invoke`.
- There is no separate idle state: the effect starts polling at once.

## Model

| member | source | states |
|---|---|---|
| `PollSession.Step` | apps/desktop/src/hooks/useSidecarPort.ts:25-53 | One callback or cleanup keeps the invariant. It never sets `isLoading` back to true. It freezes the visible state once there is an outcome. It changes nothing visible after unmount. A failed query costs exactly one attempt and schedules one retry. A positive answer is kept and stops polling. A spent budget raises the timeout without querying. |
| `PollSession.Run` | apps/desktop/src/hooks/useSidecarPort.ts:49-57 | Over any event sequence, the invariant is preserved, `isLoading` never returns to true, `attempts` never decreases and a cleanup is never undone. |
| `PollSession.Queries` | apps/desktop/src/hooks/useSidecarPort.ts:36 | At most one host query per event. |
| `PollProperties.QueriesWithinBudget` | apps/desktop/src/hooks/useSidecarPort.ts:23-49 | From any valid session and under any interleaving, the queries issued never exceed the attempts left. The budget is counted only while mounted with a callback pending. |
| `PollProperties.AtMostThirtyQueries` | apps/desktop/src/hooks/useSidecarPort.ts:22-26 | At most 30 queries are issued per mount. |
| `PollProperties.QueriesCountAttempts` | apps/desktop/src/hooks/useSidecarPort.ts:36-49 | Each query issued is either one counted attempt or the single query that found the port. |
| `PollProperties.FinalIsStable` | apps/desktop/src/hooks/useSidecarPort.ts:38-43 | Once the session has a port or the timeout error, `sidecarPort`, `isLoading`, `error` and `attempts` never change again, and no more queries are issued. |
| `PollProperties.UnmountedIsInert` | apps/desktop/src/hooks/useSidecarPort.ts:26-32 | After unmount, no callback queries the host or changes a state cell or `attempts`. |
| `PollProperties.CancellationIsPrompt` | apps/desktop/src/hooks/useSidecarPort.ts:60-62 | A cleanup between two attempts stops every later attempt and every visible change. |
| `PollProperties.FailuresLookAlike` | apps/desktop/src/hooks/useSidecarPort.ts:38-47 | Replacing every unusable answer (null, zero, negative) by a thrown query changes neither the resulting session nor the query count. |
| `PollProperties.FailingRun` | apps/desktop/src/hooks/useSidecarPort.ts:45-53 | Failed attempts within the budget only increment `attempts`, one query each. The session stays loading with one retry pending, so there is no early abort. |
| `PollProperties.SettlesWithinBudget` | apps/desktop/src/hooks/useSidecarPort.ts:23-53 | While mounted, any run of more callbacks than attempts left ends with a port or the timeout. |
| `PollProperties.TimeoutAfterThirtyFailures` | apps/desktop/src/hooks/useSidecarPort.ts:26-31 | After 30 failed queries, the next callback raises the timeout error and clears `isLoading`, whatever the sidecar would now answer. Exactly 30 queries are issued and nothing more is scheduled. |
| `PollProperties.ReadyAfterFailures` | apps/desktop/src/hooks/useSidecarPort.ts:38-43 | After k < 30 failed attempts, a positive answer makes the hook ready with exactly that port, after k + 1 queries. |
| `SidecarPortHook.PortPoller.IsReady` | apps/desktop/src/hooks/useSidecarPort.ts:69 | `isReady` holds exactly when a port is known. The port is then positive, not loading and error-free. Otherwise the hook is loading or shows the timeout error. |
| `SidecarPortHook.PortPoller.constructor` | apps/desktop/src/hooks/useSidecarPort.ts:16-22 | Initially there is no port, the hook is loading, there is no error and `isReady` is false. The first run is due at once (line 57). |
| `SidecarPortHook.PortPoller.PollStep` | apps/desktop/src/hooks/useSidecarPort.ts:25-54 | One run of `pollForPort` leaves the fields equal to `Step` of the old state. It reports whether it queried the host. |
| `SidecarPortHook.PortPoller.Unmount` | apps/desktop/src/hooks/useSidecarPort.ts:60-62 | Clears the mounted flag and changes nothing else. |
| `SidecarPortHook.PortPoller.RunEvents` | apps/desktop/src/hooks/useSidecarPort.ts:51-57 | Delivering events one at a time from the event loop leaves the fields equal to `Run` of the old state. It counts exactly the queries given by `Queries`. |
| `SidecarPortHook.SecondQueryFindsPort` | apps/desktop/src/hooks/useSidecarPort.ts:36-43 | A null first answer followed by 54321 makes the hook ready with port 54321 after two queries. |
| `SidecarPortHook.NeverAnswers` | apps/desktop/src/hooks/useSidecarPort.ts:26-53 | A host that keeps throwing gets exactly 30 queries and then the timeout error, even if a port arrives on the 31st callback. |

## Left out

- `apps/server/src/index.ts`: binding the listener, the log lines, `process.exit` and the signal handlers are process I/O. Its line 16 (`SIDECAR_PORT:<port>`) produces the value the hook polls for. Here that value is an unconstrained input.
- `apps/desktop/src-tauri/src/main.rs`: spawning the sidecar and echoing its output are process I/O. It has no parsing and no port cache. It registers no command handler at all (no `invoke_handler` in lines 8-35), so as the host stands every `invoke('get_sidecar_port')` rejects: that is the `Threw`-only trace of `SidecarPortHook.NeverAnswers`. The model keeps the answer unconstrained so that it also covers a host that does answer.
- `apps/desktop/src/App.tsx`, `apps/desktop/src/services/api.ts`: HTTP requests to the sidecar (network I/O, and a wrapper over an HTTP client library).
- `apps/desktop/src/utils/cn.ts`, the components under `apps/desktop/src/components/ui/`, `eslint.config.mjs`: styling helpers, presentational components and lint configuration, with no discovery logic.
- Wall-clock time: the 500 ms delay and the roughly 15 s total. Time is counted in callbacks.
- `console` logging.
- Concurrency: an in-flight `invoke` that overlaps the cleanup is not modelled. Each callback is one atomic step, so the mounted re-check on line 38 always passes in the model. In the code, an answer that arrives after unmount counts as a failed attempt; the retry it arms then returns at once. This includes the first query: the effect's first `pollForPort()` (line 57) runs synchronously up to the `await` on line 36, so in the code the cleanup can never come before the first query is issued. A model trace that starts with `Unmount` (such as `Run(Init(), [Unmount, Fire(r)])`, which issues no query) stands for a cleanup during that first in-flight query, where the code has issued one query and discards its answer.
- React's development-mode double run of effects is not modelled. That run makes a second closure over the same state cells.
- JavaScript numbers are modelled as integers: `NaN`, fractions and non-numeric answers are not.
- There is no port-file fallback, no channel-unavailable mode and no check that the query's port matches a file, because the code has none of them.
