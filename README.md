# Game-controller server: movement session model

This project models the movement controller of a small remote-control server
(`Server/server.js`). A client sends `movement` messages over a socket. Each
message carries an angle in degrees, an `isActive` flag and an optional
intensity. For every connection the server keeps the set of logical keys
(`w`, `a`, `s`, `d`) it treats as pressed and at most one repeating interval.
Each firing of that interval nudges the host's mouse pointer and logs the held
keys. The model has five modules:

- `Wrappers`: an `Option` type and JavaScript's two-argument `Math.max` / `Math.min`.
- `Motion`: the pure translator. It holds the two-stage direction classifier,
  the tick period, and the plan an active sample turns into.
- `Pointer`: the per-tick pointer step. The step is a quarter of the plan's
  displacement, clamped to the screen.
- `Trace`: the log notices a session emits, and the key protocol they follow.
  A key is pressed only when it is not held and released only when it is.
  This module has the inductive lemmas about appending press, release and
  continuation notices, and the lemma that no key is left stuck.
- `Controller`: the per-connection `Session` class. Its fields are the pressed
  keys, the interval variable, the connection's live interval handles, a
  handle counter and the log. The pressed keys are a sequence without
  repeats, because a JavaScript `Set` iterates in insertion order. Its
  methods are the `movement` handler, the interval callback (`Tick`) and the
  `disconnect` handler.

Two behaviours of the code differ from what one might expect, and the model
follows the code:

- One might expect only the angle's residue in [0, 360) to matter. The code
  compares the raw angle and never reduces it. A negative angle, or one of 360
  or more, falls into the first base band (`Right`), and the model keeps those
  literal comparisons (`Motion.RightExactlyOutsideDiagonals`).
- One might expect a disconnect to reset all of the session's state. The code
  clears the interval with `clearInterval` but leaves the `movementInterval`
  variable holding the old handle. The model does the same: after
  `OnDisconnect` the `timer` field is unchanged, and the set of live handles
  is empty. The session is then marked closed, because the transport delivers
  no further event on that connection.

## Model

| member | source | states |
|---|---|---|
| `Motion.BaseBand` | Server/server.js:80-92 | The first stage always picks exactly one of Right, Down, Left or Up, with the single matching key. No angle escapes the four base bands. |
| `Motion.Classify` | Server/server.js:80-107 | Every angle gets a non-empty label. Its 1 or 2 keys are distinct, drawn from w/a/s/d and equal to the label's keys. There are two keys exactly when the angle lies in a diagonal band. Outside those bands the base result stands. |
| `Motion.ClassifyIsNearestCompassPoint` | Server/server.js:80-107 | On [0,360) the two-stage classifier agrees with an independent definition: the nearest of the eight compass points, 45 degrees apart, with ties going clockwise. So diagonal bands win over base bands exactly at their shared boundaries. |
| `Motion.RightExactlyOutsideDiagonals` | Server/server.js:80-107 | The result is Right/`d` if and only if the raw angle is below 22.5 or at least 337.5. This includes negative angles and angles of 360 or more. |
| `Motion.KeyWindows` | Server/server.js:80-107 | Each key is held over one 135-degree window, in both directions: `d` on angle < 67.5 or angle >= 292.5; `s` on [22.5,157.5); `a` on [112.5,247.5); `w` on [202.5,337.5). |
| `Motion.ClassifyExamples` | Server/server.js:80-107 | 0, 90, 180 and 270 give Right/d, Down/s, Left/a and Up/w. 45 gives Down-Right/[s,d]. 315 gives Up-Right/[w,d]. 360 and -90 give Right/d. |
| `Motion.TickPeriod` | Server/server.js:120-129 | The period is the maximum of 16 and 50 - movementSpeed*intensity*20. It is never below 16, and it equals the linear value whenever that value is at least 16. |
| `Motion.TickPeriodExamples` | Server/server.js:20-25 | With the default configuration (movementSpeed 1), intensity 1 gives 30 ms. A speed of 2.5, or intensity 2.5, gives the 16 ms floor. |
| `Motion.TickPeriodAntitone` | Server/server.js:120-129 | For a non-negative speed, a larger intensity never gives a longer period. |
| `Motion.Plan` | Server/server.js:56-129 | A plan exists if and only if the sample is active and its angle is a number. A plan's label and keys are those `Classify` gives for the angle, and its period is `TickPeriod` at the sample's intensity. So the label is non-empty, there are 1 or 2 distinct keys from w/a/s/d, and the period is at least 16 ms. An absent intensity gives 30 ms under the default configuration. |
| `Motion.IntensityOf` | Server/server.js:56 | An absent intensity defaults to 1.0. A present one is used as given. |
| `Wrappers.Max` | Server/server.js:129 | `Math.max` of two reals: the result is at least both arguments and equals one of them. |
| `Wrappers.Min` | Server/server.js:38-39 | `Math.min` of two reals: the result is at most both arguments and equals one of them. |
| `Pointer.Clamp` | Server/server.js:38-39 | The clamped value is never negative and never above a non-negative bound. A value already in range is unchanged. |
| `Pointer.ClampIsNearest` | Server/server.js:38-39 | The clamp returns the point of [0,hi] nearest the unclamped value. |
| `Pointer.NextPointer` | Server/server.js:36-40 | After a step the pointer lies in [0,width] x [0,height], however large dx and dy are. When no clamping occurs, each axis equals the old position plus d/4. |
| `Trace.ReleasesClear` | Server/server.js:63-66 | Releasing distinct held keys in order keeps the key protocol and removes exactly those keys from the outstanding set. |
| `Trace.PressesOpen` | Server/server.js:114-117 | Pressing distinct keys, none of them held, keeps the key protocol and adds exactly those keys to the outstanding set. |
| `Trace.ContinuationsNeutral` | Server/server.js:125-128 | Continuation notices neither break the protocol nor change which keys are outstanding. |
| `Trace.PressIsReleasedOrOutstanding` | Server/server.js:55-141 | In a protocol-respecting log, every press is followed by a release of the same key or that key is still outstanding at the end. |
| `Trace.EveryPressReleased` | Server/server.js:133-141 | Once no key is outstanding, every press in the log has a later release of the same key. |
| `Controller.Session.constructor` | Server/server.js:48-53 | A new connection holds no key, has no interval and no live handle, and has logged one connect notice. It is not closed. |
| `Controller.Session.AtMostOneInterval` | Server/server.js:53-61 | In every valid state at most one interval is live, and it is the one held in the interval variable. |
| `Controller.Session.OnMovement` | Server/server.js:55-131 | The previous interval is no longer live, and the log shows a release for every previously held key before anything else. For an inactive or non-numeric update: no interval, no live handle, no held key. For an active update: exactly one new live interval under a fresh handle, carrying the plan's period, displacement and keys; the held keys equal the plan's keys; the log adds the direction notice and one press per key. |
| `Controller.Session.Stop` | Server/server.js:58-66 | Clearing the interval and releasing every held key, in insertion order, leaves the session idle: no interval, no held key, nothing outstanding. |
| `Controller.Session.Start` | Server/server.js:109-129 | From an idle session, announcing a plan, pressing its keys and arming its interval gives a valid session. The held keys are the plan's keys and exactly one handle, the fresh one, is live. |
| `Controller.Session.ReleaseHeld` | Server/server.js:63-66 | The release-and-delete loop logs one release per held key, in insertion order, and leaves the held keys empty with nothing outstanding. |
| `Controller.Session.PressKeys` | Server/server.js:114-117 | The press loop logs one press per plan key and leaves the held keys equal to the plan's keys, which are then exactly the outstanding keys. |
| `Controller.Session.Tick` | Server/server.js:121-129 | Only a live interval can fire, and it is the session's interval. When the pointer library answers, the pointer is sent to the clamped step; the target lies within the screen. When it fails, a move-failed notice is logged instead and the interval stays armed. Either way one continuation notice per key follows. Held keys, interval and handles are unchanged. |
| `Controller.Session.AnnounceContinuations` | Server/server.js:125-128 | The callback's loop logs one continuation notice per key and leaves the key protocol unchanged. |
| `Controller.Session.OnDisconnect` | Server/server.js:133-145 | No interval is live afterwards, so no further tick can fire. Every held key gets a release notice and the held keys are empty. Every press ever logged in the session has a later matching release. The interval variable keeps its old value, as in the code. The session is closed, and no handler accepts an event on a closed session. |
| `Controller.Session.AnnounceReleases` | Server/server.js:138-140 | The disconnect loop logs a release for every held key, in insertion order, and leaves nothing outstanding. |
| `Controller.RepeatedUpdate` | Server/server.js:55-131 | The same active update sent twice leaves the same held keys and exactly one live interval, the second one. The log shows one more release-and-press round, not a second timer. |

## Left out

- HTTP setup, static file serving, the `/` route and `server.listen` (Server/server.js:1-17, 148-151): these are web-server plumbing with no movement logic.
- The socket transport and the broadcast of every log message to all connected clients. Each session's notices are kept in its own `log`; the fan-out to other clients is network I/O.
- Console logging, and the text of the log messages with their `toFixed` formatting. Notices are modelled as `Event` values that carry the raw angle and intensity.
- The host pointer library (`getMousePos`, `getScreenSize`, `moveMouse`). `Tick` takes what the first two report as a parameter and returns the point passed to `moveMouse`. `None` stands for any exception in the `try` block, which the code logs and then carries on.
- The cosine and sine of the angle. They are floating-point trigonometry, so `OnMovement` takes them as the parameters `cosA` and `sinA`. The model then multiplies them by 10, the intensity and the sensitivity as the code does.
- Timer semantics of `setInterval` / `clearInterval`. A handle is an abstract number from a counter, the period is recorded in the interval, and each firing is an explicit call to `Tick`.
- Floating-point NaN and infinities, and JavaScript truthiness: `isActive` is a boolean, a non-number angle is `None`, and an absent intensity is `None`, which defaults to 1.0. Other non-number intensities are not modelled.
- Several connections racing on the one host pointer: each `Session` is independent, as in the code.
- The configuration's `maxMovementSpeed` and `minMovementSpeed` are carried in `Config` but unused, as in the code.
- Motion.Plan: its contract does not restate the displacement formula `dx = cos * 10 * intensity * mouseSensitivity`. The body computes it and `OnMovement` records it in the armed interval.
