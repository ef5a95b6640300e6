# Question relay and scan-pulse control, modelled in Dafny

This project models two small pieces of logic from a real-time question relay.
The repository also ships a decorative grid-scan shader effect.

- **The question store** (`server.js`). The server keeps an in-memory list of
  question records. It polls a spreadsheet and appends only the rows beyond
  the list's current length. Each new record gets its index as `id` and the
  status `Pending`. Three admin handlers find a record by id and overwrite its
  status with `Approved`, `Rejected` or `Projected`. Each handler is a no-op
  when the id is absent. After every change the server broadcasts the
  `Pending` and `Approved` sub-lists.
- **The scan-pulse control logic** (`public/grid-scan.js`). A periodic timer
  (every 5 s) resets an eight-slot buffer of pulse start times to the sentinel
  -1000. It then writes the current time into slot 0, forces the active count
  to 1, and alternates the direction uniform between forward (0) and backward
  (1). A one-off initial timer does the same reset but does not touch the
  direction. The shader turns a pulse's start time into a phase clamped to
  [0, 1], maps it forward, backward or ping-pong, and fades it with the
  quintic `smoother01` taper. The scalar critically damped spring
  `smoothDampFloat` is called once per frame, for the tilt only (line 455); its
  target stays 0 and its result feeds no uniform, since the tilt and yaw
  uniforms come from `lookCurrent` (lines 465-466).

Files:

- `wrappers.dfy`: module `Wrappers`, the `Option` type.
- `real_math.dfy`: module `RealMath`, the `Math.max/min/abs/sign` and GLSL
  `clamp` helpers over `real`, plus small multiplication lemmas.
- `question_store.dfy`: module `QuestionStore`. It holds the record datatypes,
  the pure specification functions (`Find`, `Filter`, `Broadcast`, `Sync`,
  `WithStatus`) and their lemmas. The class `Store` holds the list as a `seq`
  field and has one method per handler.
- `scan_scheduler.dfy`: module `ScanScheduler`. The class `Scheduler` keeps
  the start-time buffer as an `array<real>` of 8 slots, beside the count, the
  direction and the timer's `loopState`. The functions `Toggle` and
  `Directions` give the direction sequence that the timer produces.
- `scan_phase.dfy`: module `ScanPhase`, the phase, the direction mapping, the
  scan depth, `smoother01` and the head/tail fade window.
- `smooth_damp.dfy`: module `SmoothDamp`, `smoothDampFloat` and the lemmas
  about it.

Modelling decisions:

- Sheet rows are an input sequence of `(name, question)` pairs. The network
  fetch is gone, so `CheckSheet` takes the rows as a parameter.
- Every `io.emit` becomes a returned value. `refresh_data` is an
  `Option<Lists>` and is `None` when nothing is broadcast. `project_live` is
  the record as it was before the status write, because the emit on line 93
  comes before the write on line 95.
- Handler ids are `int`, and `find` compares them with `===`.
- GPU and JavaScript floats are modelled as mathematical `real`. The exp
  approximation on line 292 is kept exactly as written.
- `maxSpeed` is a `MaxSpeed` value. `Unbounded` stands for the live
  configuration's `Infinity` (line 354), where `Math.min(|change|, Infinity)`
  is `|change|`. `Limited(m)` is a finite cap.
- `smoothDampFloat` requires `deltaTime >= 0`. Its only caller clamps `dt` to
  [0, 0.1] (line 445), which keeps the denominator of the exp approximation at
  least 1.
- The direction uniform stays a `real`, so the shader's comparisons
  `> 0.5 && < 1.5` and `> 1.5` are modelled literally.
- Each timer firing is a method call that takes the current time `now` as a
  parameter.

Two details of the scan timers shape the model:

- The initial timer (lines 504-509) resets the buffer but does **not** toggle
  the direction. So the first pulse runs with the initial direction 2
  (ping-pong), and the first scheduled reset picks forward.
- Before the first reset, every slot holds -100, not the sentinel -1000, and
  all 8 slots are active (lines 389-390).

## Model

| member | source | states |
|---|---|---|
| `QuestionStore.Find` | server.js:74 | `find` by id: the result is the first position holding that id, or `None` exactly when no record has it |
| `QuestionStore.FindInStore` | server.js:74-75 | when ids count up from a base with the position, an id is found exactly at its offset and is absent outside the range |
| `QuestionStore.FindDependsOnlyOnIds` | server.js:74 | two lists with the same ids at every position find the same record, whatever their statuses |
| `QuestionStore.Filter` | server.js:63-64 | `filter` by status: a record is in the result iff it is in the list with that status; never longer than the list |
| `QuestionStore.FilterAppend` | server.js:63-64 | filtering distributes over concatenation, so records keep their relative order |
| `QuestionStore.FilterKeepsOrder` | server.js:63-64 | if ids increase along the list they increase along the filtered list |
| `QuestionStore.PositionsIncrease` | server.js:47-49 | ids equal to positions are strictly increasing |
| `QuestionStore.Broadcast` | server.js:62-66 | `pending` and `approved` hold exactly the records with those statuses; they are disjoint; `Rejected` and `Projected` records are in neither; in a valid store both lists are in id order |
| `QuestionStore.NewRecord` | server.js:48-53 | the record made from row i has id i, status `Pending`, and row i's name and question |
| `QuestionStore.Sync` | server.js:42-54 | with more sheet rows than records, the list grows to the row count, keeps its old records as a prefix, and appends `NewRecord(rows, i)` at each new index i; otherwise it is unchanged; the id invariant is kept |
| `QuestionStore.SyncIdempotent` | server.js:42-47 | syncing twice against the same rows gives the same list as syncing once |
| `QuestionStore.SyncIgnoresKnownRows` | server.js:47-53 | the sync result depends only on the rows beyond the current length, so edits to rows already stored are never picked up |
| `QuestionStore.WithStatus` | server.js:74-76 | a transition sets the status of the record `find` reaches, changes no id and no other record, and is the identity when the id is absent |
| `QuestionStore.WithStatusInStore` | server.js:73-97 | in a valid store, a present id gets the new status whatever its prior status; every other record is unchanged; an absent id changes nothing; ids stay equal to positions |
| `QuestionStore.LastTransitionWins` | server.js:76 | applying two transitions to one id equals applying only the second: the prior status never matters |
| `QuestionStore.Store.constructor` | server.js:25 | the store starts empty and valid |
| `QuestionStore.Store.Snapshot` | server.js:70-71 | the lists broadcast to every connected client (`io.emit`, line 65) when a client connects: exactly the pending and the approved records of the store |
| `QuestionStore.Store.CheckSheet` | server.js:35-56 | the new list is `Sync(old list, rows)` and the id invariant holds; a broadcast of the new lists happens iff the sheet had more rows; otherwise nothing changes |
| `QuestionStore.Store.SetStatus` | server.js:74-76 | the in-place status write after `find`: the new list is `WithStatus(old list, id, status)`; returns the record found, as it was before the write, or None for an absent id |
| `QuestionStore.Store.Approve` | server.js:73-79 | a present id becomes `Approved` and the lists are broadcast; an absent id changes nothing and broadcasts nothing |
| `QuestionStore.Store.Decline` | server.js:81-87 | a present id becomes `Rejected` and the lists are broadcast; an absent id changes nothing and broadcasts nothing |
| `QuestionStore.Store.Project` | server.js:89-98 | a present id is emitted live as it was, then becomes `Projected`, and the lists are broadcast; an absent id emits nothing and changes nothing |
| `RealMath.Max` | public/grid-scan.js:192 | GLSL `max` / `Math.max`: the result is one of the two arguments and at least both |
| `RealMath.Min` | public/grid-scan.js:298 | `Math.min`: the result is one of the two arguments and at most both |
| `RealMath.Abs` | public/grid-scan.js:298 | `Math.abs`: the result is non-negative and is x or -x |
| `RealMath.Clamp` | public/grid-scan.js:212 | GLSL `clamp`: the result lies in [lo, hi], equals x inside it, and equals the nearer bound outside it |
| `RealMath.Sign` | public/grid-scan.js:298 | `Math.sign`: -1, 0 or 1 with the sign of x, and `Sign(x) * Abs(x) == x` |
| `ScanPhase.Phase` | public/grid-scan.js:211-212 | the phase lies in [0, 1]; it is 0 up to the start and 1 once the elapsed time reaches the duration floored at 0.05 (line 192); in between, phase times the floored duration is the elapsed time |
| `ScanPhase.PhaseMonotone` | public/grid-scan.js:211-212 | the phase never decreases as time advances |
| `ScanPhase.PingPong` | public/grid-scan.js:216 | the fold is 2p on the first half and 2(1 - p) on the second, and stays in [0, 1] |
| `ScanPhase.PingPongSymmetric` | public/grid-scan.js:216 | the fold is symmetric about the middle; it is 0 at both ends and 1 at the middle |
| `ScanPhase.MapDirection` | public/grid-scan.js:213-217 | identity, reflection `1 - p` or the ping-pong fold, chosen by the direction's range; the result stays in [0, 1] |
| `ScanPhase.BackwardMirrorsForward` | public/grid-scan.js:213-214 | the backward mapping is the reflection of the forward one |
| `ScanPhase.ScanDepth` | public/grid-scan.js:218 | the band depth lies in [0, 2]; before its start a forward pulse sits at depth 0 and a backward one at depth 2 |
| `ScanPhase.Taper` | public/grid-scan.js:45 | the quintic taper fixes 0, 1/2 and 1 |
| `ScanPhase.TaperBounds` | public/grid-scan.js:45 | the quintic taper maps [0, 1] into [0, 1] |
| `ScanPhase.TaperSymmetric` | public/grid-scan.js:45 | `Taper(1 - t) == 1 - Taper(t)`: the fade-in mirrors the fade-out |
| `ScanPhase.Smoother01` | public/grid-scan.js:43-46 | the result lies in [0, 1]; it is 0 for x at or below a, and 1 for x at or above b when b - a is at least the 1e-5 floor |
| `ScanPhase.PhaseWindow` | public/grid-scan.js:221-223 | the head-times-tail window lies in [0, 1]; it is 0 at phase 0, and 0 at phase 1 once the taper (clamped to [0, 0.49], line 205) is at least 1e-5 |
| `SmoothDamp.ExpApprox` | public/grid-scan.js:292 | for x >= 0 the approximation lies in (0, 1], and equals 1 exactly at x = 0 |
| `SmoothDamp.LimitChange` | public/grid-scan.js:297-298 | an unbounded cap keeps the change; a cap m >= 0 gives magnitude `min(abs(change), m * smoothTime)`, at most the cap, with the sign of the change, and leaves a change inside the cap untouched |
| `SmoothDamp.Overshoots` | public/grid-scan.js:306-308 | the product test holds exactly when `out` lies strictly beyond the target on the far side from `current` |
| `SmoothDamp.Spring` | public/grid-scan.js:300-304 | with no elapsed time and an exp factor of 1, the value and velocity are unchanged |
| `SmoothDamp.Snap` | public/grid-scan.js:306-311 | a step that lands beyond the target becomes exactly the target with velocity 0; any other step is kept; the result never lies beyond the target |
| `SmoothDamp.SpringFromRest` | public/grid-scan.js:300-304 | from rest, the step moves back by the change times `1 - (1 + omega*dt) * exp` |
| `SmoothDamp.SpringStep` | public/grid-scan.js:289-304 | the unsnapped step; a step of zero length returns the current value and velocity |
| `SmoothDamp.SmoothDampFloat` | public/grid-scan.js:288-313 | the step floors `smoothTime` at 0.0001; if the spring step would overshoot the target, the result is exactly the target with velocity 0, otherwise it is the spring step's value and velocity `(v - omega*temp) * exp`; the result never lies beyond the target |
| `SmoothDamp.RestIsFixedPoint` | public/grid-scan.js:288-313 | a value at rest on its target stays there with velocity 0 |
| `SmoothDamp.ZeroStepIsIdentity` | public/grid-scan.js:288-313 | a step with `deltaTime == 0` changes neither the value nor the velocity |
| `SmoothDamp.CoveredFraction` | public/grid-scan.js:292 | the share `1 - (1 + x) * exp` of the change that a step from rest covers lies in [0, 1] |
| `SmoothDamp.SpringStepFromRest` | public/grid-scan.js:300-304 | from rest, the step moves the value by the capped change times the covered fraction |
| `SmoothDamp.FromRestStaysBetween` | public/grid-scan.js:288-313 | from rest, with a non-negative or unbounded cap, one step lands between the current value and the target |
| `ScanScheduler.ResetSlots` | public/grid-scan.js:483-485 | a reset buffer has 8 slots, slot 0 holds `now`, and slots 1 to 7 hold the sentinel -1000 |
| `ScanScheduler.Toggle` | public/grid-scan.js:491-499 | loop state 0 picks forward and moves to 1; state 1 picks backward and moves to 0 |
| `ScanScheduler.Directions` | public/grid-scan.js:475-499 | n scheduled resets yield n directions; starting from loop state s (0 or 1), the k-th picks forward iff k + s is even, so from the initial state 0 it is 0, 1, 0, 1, ... |
| `ScanScheduler.NeighboursDiffer` | public/grid-scan.js:491-499 | two consecutive scheduled resets never pick the same direction |
| `ScanScheduler.ScheduledPulseSweeps` | public/grid-scan.js:477-501 | a forward pulse starts at depth 0 and reaches depth 2 after its duration, and a backward pulse does the opposite |
| `ScanScheduler.Scheduler.constructor` | public/grid-scan.js:387-390 | the uniforms start with 8 slots at -100, count 8, direction 2 (ping-pong), and the timer's loop state starts at 0 (line 475) |
| `ScanScheduler.Scheduler.ResetBuffer` | public/grid-scan.js:479-488 | the in-place fill: the same array now holds `ResetSlots(now)` and the count is 1; the direction and the loop state are unchanged |
| `ScanScheduler.Scheduler.ScheduledReset` | public/grid-scan.js:477-501 | the buffer is `ResetSlots(now)`, the count is 1, and `(direction, loopState)` is `Toggle(old loopState)` |
| `ScanScheduler.Scheduler.InitialReset` | public/grid-scan.js:504-509 | the buffer is `ResetSlots(now)` and the count is 1; the direction and the loop state are untouched |

## Left out

- Spreadsheet access (`doc.loadInfo`, `getRows`), credential loading, JWT auth, the 5-second poll timer and the express/socket.io plumbing. These are network and host code. Sheet rows are an input and broadcasts are return values.
- The `catch` branch of `checkSheet` (server.js:57-59). It only logs a failed fetch and leaves the list unchanged.
- The cell values `rows[i].get('Name')` and `rows[i].get('Question')` are taken as strings. A missing cell (JavaScript `undefined`) is not modelled.
- Console logging (server.js:44, 92) is left out: it is output only.
- Handler ids that are not integers are not modelled: a string, a fraction such as 2.5 or NaN never equals a record's integer id under `===` (server.js:74). Such an id behaves like an absent id.
- `smoothDampVec2` (public/grid-scan.js:259-286) is left out. It is built on Three.js `Vector2` methods that are not part of this model.
- The fragment shader apart from the phase, direction, depth and taper arithmetic is left out: ray/plane intersection, line masks, antialiasing, Gaussian bands and noise. These are GPU float numerics with derivatives.
- Colour conversion, renderer and post-processing setup, the resize listener, and the `requestAnimationFrame` loop with its `dt` clamp are left out. They are host and library code.
- The yaw smoothing state (public/grid-scan.js:344-345) is declared but never passed to `smoothDampFloat`, so it has no counterpart here. The tilt call's result is not followed further, since it feeds no uniform.
- `triggerScan` (public/grid-scan.js:512-514) is left out: it does nothing.
- Wall-clock reads (`performance.now()`) are left out. The time is the `now` parameter of each reset.
- Floating-point rounding, NaN and infinities are left out: every quantity is a mathematical real.
- Convergence of repeated damping steps is not modelled. Only the single-step structure is proved: the clamp, the snap and staying between the value and the target from rest.
- `SmoothDamp.LimitChange`: its bound and sign guarantees are stated only for a non-negative cap and smoothing time. With a negative finite `maxSpeed` the source flips the sign of the change.
