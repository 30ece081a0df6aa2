# Quiz realtime gateway: a Dafny model

This project models the in-memory session coordinator of a live-quiz backend's realtime gateway (`QuizGateway`) and its connection-authentication logic (`WebsocketAuthGuard`). One administrator drives a session from question to question. Team clients in the session's room get `question:started`, `time:up`, `session:ended` and scoreboard broadcasts.

The model has six modules:

- `Js`: the JavaScript semantics the code relies on. This covers `undefined`-or-string values, truthiness, `a || b`, `indexOf`, and `replace` with a string pattern, which removes the first occurrence only.
- `Credentials`: bearer-token extraction from the handshake, the two secrets (admin and team), and the claims of a verified token. It also holds the cascade that tries the admin secret first and the team secret second, where the first match wins. Signature checking is an abstract `Verifier` function passed in as a parameter.
- `Sockets`: the socket's handshake fields, its `teamId` and whether it is still connected.
- `Events`: the session-service results, the outbound wire payloads and the log entries.
- `QuizGateway`: the connection-time decision and the `Gateway` class. The class holds the timer table `timers: map<string, nat>`, the handle counter `nextHandle`, the `cancelled` and `fired` handle sets, and the event `log`. Its methods are the timer operations, the broadcasts and the four message handlers.
- `WebsocketAuthGuard`: the guard's decision and `CanActivate`, which writes `teamId` on the socket.

How the model represents state and effects:

- **Log.** Every observable effect is an entry appended to `log`. An entry is one of:
  - an event sent to the caller only (`Send(Caller(id), …)`) or broadcast to a room (`Send(Room(code), …)`);
  - a room join or leave;
  - the arming or cancelling of a question timer, recorded where the source logs "Timer started" and "Timer cleared".

  Because timer steps are in the log, the order "broadcast, then timer, then acknowledgement" can be stated as a postcondition.
- **Timer firing.** The timer callback is the explicit step `Fire(code, h)`. It is enabled only while `h` is the handle stored for `code`, which matches `clearTimeout` semantics.
- **Timer invariant.** `Valid()` states the timer life cycle. Every issued handle is in exactly one state: armed for exactly one session, cancelled, or fired. So a superseded or cleared handle can never fire.
- **Handlers.** Each handler is one atomic step. The session service's answer is a `Call` parameter: either a returned value or a thrown `Error` or non-`Error`.

Points where the code behaves differently from what its names, imports or event contract suggest. The model follows the code:

- The gateway imports `UseGuards` and `WebsocketAuthGuard` (quiz.gateway.ts:10-11) but attaches neither to a handler, so no inbound message passes the guard. So `CanActivate` is a standalone function, and nothing checks the role before the `admin:*` handlers run. `TeamEndsSessionScenario` shows a team-authenticated socket ending a session. This authorization gap is documented, not fixed.
- Connection time takes the identity as "team id if present, else admin id" for both secrets (quiz.gateway.ts:68). The guard does it only for the admin secret. For the team secret, the guard uses `teamId` with no fallback (websocket-auth.guard.ts:31). `GuardAgreesWithConnect` proves that this is the only point where the two differ.
- The header is meant to have the form `Authorization: Bearer <token>`, but the code removes the first `Bearer ` wherever it stands (`StripBearerNotOnlyPrefix`). A header with no `Bearer ` is used as the token unchanged.
- The timer callback broadcasts `time:up` first and only then deletes the session's entry (quiz.gateway.ts:187-191). Since each step is atomic in this model, the order makes no visible difference.
- `question:current` sends the stored question as returned, with all stored columns (quiz.gateway.ts:114-117). `question:started` sends exactly six fields.

## Model

| member | source | states |
|---|---|---|
| Js.Or | src/realtime/quiz.gateway.ts:68 | JavaScript logical or yields one of its operands; it is truthy iff either operand is; it is `a` when `a` is truthy and `b` otherwise |
| Js.IndexOf | src/realtime/quiz.gateway.ts:47 | the result is an occurrence of the pattern and no earlier position is one; None iff the pattern occurs nowhere |
| Js.RemoveFirst | src/realtime/quiz.gateway.ts:47 | with no occurrence the string is unchanged; otherwise it is one pattern shorter, and putting the pattern back at the first occurrence gives the input |
| Credentials.ExtractToken | src/realtime/quiz.gateway.ts:335-338 | a truthy `auth.token` wins; otherwise the header with its first `Bearer ` removed; undefined iff there is neither; truthy iff the handshake token is truthy or the stripped header is non-empty |
| Credentials.StripBearerPrefix | src/realtime/quiz.gateway.ts:47 | a `Bearer <token>` header yields exactly `<token>` |
| Credentials.StripBearerAbsent | src/realtime/quiz.gateway.ts:337 | a header with no `Bearer ` is the token unchanged |
| Credentials.StripBearerNotOnlyPrefix | src/realtime/quiz.gateway.ts:47 | a `Bearer ` that is not at the start is still removed (`xBearer y` becomes `xy`) |
| Credentials.FullyStrippedHeaderIsNoToken | src/realtime/quiz.gateway.ts:47-53 | when the handshake token is falsy, a bare `Bearer ` header gives an empty, hence missing, token |
| Credentials.Cascade | src/realtime/quiz.gateway.ts:56-66 | admin match iff the admin secret accepts; team match iff the admin secret rejects and the team secret accepts; no match iff both reject; the claims come from the secret that matched |
| Credentials.Tried | src/realtime/guards/websocket-auth.guard.ts:19-33 | the admin secret is always consulted first; the team secret is consulted iff the admin secret did not match |
| Events.ToDtoIgnoresRest | src/realtime/quiz.gateway.ts:145-158 | the broadcast question carries exactly id, text, type, choices, timeLimitSec and points of the stored question; no other stored column affects it |
| Events.ScoreboardRows | src/realtime/quiz.gateway.ts:233-244 | one row per leaderboard entry, in order, each holding exactly that entry's teamName, score and rank |
| QuizGateway.ConnectDecision | src/realtime/quiz.gateway.ts:44-75 | no token closes the connection and consults no secret; otherwise admin is tried before team, the team secret only after an admin rejection; closed iff both reject; identity is `teamId`, else `adminId`, of whichever secret matched |
| QuizGateway.GuardAgreesWithConnect | src/realtime/guards/websocket-auth.guard.ts:10-37 | the guard and connection-time check consult the same secrets in the same order and refuse the same handshakes; their identities differ only for a team-secret match with falsy `teamId`, where the connection uses `adminId` and the guard `teamId` |
| QuizGateway.IdentitiesDifferForTeamTokenWithoutTeamId | src/realtime/guards/websocket-auth.guard.ts:26-32 | a team token carrying only `adminId` gives the connection that admin id and the guard an undefined identity |
| QuizGateway.Gateway.constructor | src/realtime/quiz.gateway.ts:36 | the timer table starts empty with no handle issued, and the log is empty |
| QuizGateway.Gateway.ClearQuestionTimer | src/realtime/quiz.gateway.ts:198-205 | the session's entry is removed and its handle cancelled if present; absent, nothing changes; other sessions' entries, the fired set and the counter stay as they were; the invariant is kept |
| QuizGateway.Gateway.StartQuestionTimer | src/realtime/quiz.gateway.ts:180-196 | the previous handle of the session is cancelled first, then the session maps to a fresh handle scheduled `timeLimitSec * 1000` ms ahead; other sessions unchanged; the invariant is kept |
| QuizGateway.Gateway.Fire | src/realtime/quiz.gateway.ts:185-192 | enabled only for the session's current handle; emits exactly one `time:up {sessionCode}` to that session's room, then removes the entry and marks the handle fired |
| QuizGateway.Gateway.BroadcastSessionStarted | src/realtime/quiz.gateway.ts:126-132 | one `session:started` broadcast to the room |
| QuizGateway.Gateway.BroadcastSessionEnded | src/realtime/quiz.gateway.ts:134-142 | `session:ended` to the room, then the session's timer is cleared |
| QuizGateway.Gateway.BroadcastQuestionStarted | src/realtime/quiz.gateway.ts:145-168 | `question:started` to the room with index and question, then the timer is restarted for the question's time limit |
| QuizGateway.Gateway.BroadcastScoreboardUpdated | src/realtime/quiz.gateway.ts:233-244 | one `scoreboard:updated` broadcast with the projected leaderboard |
| QuizGateway.Gateway.HandleConnection | src/realtime/quiz.gateway.ts:44-75 | the secrets actually passed to the verifier are exactly those the decision consults, in order; a refused handshake disconnects the socket and leaves its identity; an admitted one records the decided identity; nothing is emitted |
| QuizGateway.Gateway.HandleDisconnect | src/realtime/quiz.gateway.ts:77-80 | the socket leaves its room |
| QuizGateway.Gateway.HandleJoinSession | src/realtime/quiz.gateway.ts:84-100 | a falsy code gives exactly one caller-only error and no join; otherwise the caller joins the room and then alone receives `join_success` |
| QuizGateway.Gateway.HandleGetCurrentQuestion | src/realtime/quiz.gateway.ts:104-123 | a falsy code or a failing service gives exactly one caller-only error: a thrown `Error` contributes its own message, any other thrown value the text "Failed to get current question"; otherwise the caller alone receives the current question or its absence; timers untouched |
| QuizGateway.Gateway.HandleAdminNextQuestion | src/realtime/quiz.gateway.ts:248-308 | falsy code, service failure, or unfinished result without a question or with an undefined index (index 0 is accepted): one caller error, timers unchanged; a thrown `Error` gives its own message and any other thrown value "Failed to advance question". Finished: `session:ended` to the room, timer cleared, ack `{success, finished: true, message}`. Otherwise `question:started` with the six fields, then the timer restarted for `timeLimitSec`, then ack `{success, finished: false, currentQuestionIndex, totalQuestions}` |
| QuizGateway.Gateway.HandleAdminEndSession | src/realtime/quiz.gateway.ts:311-333 | a falsy code gives one caller error and no timer change; otherwise `session:ended` to the room, the timer cleared, then ack `{success: true}`; the session service is not involved |
| QuizGateway.RetiredHandleNeverFires | src/realtime/quiz.gateway.ts:180-205 | a cancelled or already-fired handle is never the current handle of any session, so `Fire` can never run for it |
| QuizGateway.ArmedForOneSession | src/realtime/quiz.gateway.ts:36 | a handle is live for at most one session code |
| QuizGateway.ClearTwice | src/realtime/quiz.gateway.ts:198-205 | clearing twice has exactly the effect of clearing once (idempotence) |
| QuizGateway.SupersededTimerScenario | src/realtime/quiz.gateway.ts:180-196 | starting a session's timer twice cancels the first handle, and firing yields exactly one `time:up`, for the second |
| QuizGateway.AdvanceScenario | src/realtime/quiz.gateway.ts:281-300 | session `ABC123`, question 2 of 5: the room gets the question, a 20000 ms timer is armed, the admin alone gets the ack, and the room then gets `time:up` |
| QuizGateway.TeamEndsSessionScenario | src/realtime/quiz.gateway.ts:310-333 | a socket admitted with the team secret stays connected with identity `t1`, can end a session and is acknowledged: no handler checks the role |
| WebsocketAuthGuard.GuardDecision | src/realtime/guards/websocket-auth.guard.ts:10-37 | no token: throws "Authentication token not provided" and consults no secret; admin tried first, identity `teamId`, else `adminId`; team only after admin rejection, identity `teamId`; both reject: "Invalid authentication token" |
| WebsocketAuthGuard.CanActivate | src/realtime/guards/websocket-auth.guard.ts:10-37 | the secrets actually passed to the verifier are exactly those the decision consults, in order; throws the decision's message, or writes the decided identity on the socket and resolves to true; it never resolves to false and never disconnects |
| Sockets.Socket.Disconnect | src/realtime/quiz.gateway.ts:51 | the connection is closed and the identity untouched |

## Left out

- JWT signature checking and expiry (`verifyAsync`) belong to a library. They are the `Verifier` parameter: claims, or None where the library throws.
- The room registry (`WebsocketService`) is not part of this model. Joins, leaves and broadcasts are log entries, and delivery to individual members is not modelled.
- The session service (`SessionsService`) and its persistence are not part of this model. Their answers are `Call` parameters.
- Timestamps (`new Date().toISOString()`) are omitted from the `session:started`, `session:ended` and `scoreboard:updated` payloads, because they are clock readings.
- The elapsed time before a timer fires is not modelled. Firing is the nondeterministic `Fire` step, and the requested delay is recorded in the `TimerArmed` entry.
- Node's clamping of out-of-range `setTimeout` delays is not modelled: the recorded delay is exactly `timeLimitSec * 1000`.
- Asynchronous interleaving at the `await` points is not modelled. Each handler is one atomic step, so a timer firing during a service call is not represented.
- The `catch` in `broadcastQuestionStarted` (quiz.gateway.ts:163-166) and the fallback texts for join and end-session are not modelled. They are reachable only if the room broadcast throws, and the room registry is outside this model.
- JavaScript `null` and non-string values for the session code, the tokens and the claims are not modelled. Values are undefined or strings, and question indices are integers.
- Logging (`Logger`), CORS and namespace configuration and the Nest decorators are framework glue. The `WsThrottlerGuard` import (quiz.gateway.ts:12) is never used.
- The `WsLoggingInterceptor` wraps the `join_session` and `question:get-current` handlers (quiz.gateway.ts:82, 102). Its source is not part of this model, and its effect on those handlers is not modelled.
- The time-warning, question-ended, answer-submitted and answer-stats broadcasters each emit one broadcast and do nothing else, so they are not modelled.
- Process configuration (`src/config/configuration.ts`, `ecosystem.config.cjs`) is not part of this model.
