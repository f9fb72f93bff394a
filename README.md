# Qween Mirror: the AR session lifecycle and beauty-parameter sync, in Dafny

This project models the controller behind the `QweenMirror` view: a live
camera mirror with fifteen face-beautification sliders driven through the
Tencent Cloud Web AR SDK. It models three things:

- the **beauty-parameter store**: fifteen integer sliders, a default
  profile (whiten 30, dermabrasion 50, the rest 0) and an `enabled` switch;
- the **push rule**: each of `updateBeauty`, `handleToggle` and
  `handleReset` changes the store and may push a copy divided by 100, or
  fifteen zeros, to the live AR session;
- the **initialization state machine**: the credential check, the
  re-entry latch `initRef`, camera-resolution negotiation with a 640x480
  fallback, session construction, the `ready`/`error` handlers, the
  classification of construction errors into user-facing messages, and
  the teardown.

Modules, one per concern:

- `Wrappers` (wrappers.dfy): `Option`, standing for JavaScript's undefined or null.
- `Beauty` (beauty.dfy): the `BeautySettings` record (`Profile<int>`) and the
  config sent to the SDK (`Profile<real>`), plus `With`, `Default`, `Scale`,
  `Zeros`, `ResetConfig` and the effective view `Effective`.
- `Messages` (messages.dfy): JavaScript truthiness of the credentials, how
  construction exceptions are classified, and the text shown for an SDK error.
- `Negotiation` (negotiation.dfy): the probe result and the `Negotiate`
  method, which reassigns `cameraWidth`/`cameraHeight` step by step as the
  source does.
- `Sdk` (sdk.dfy): the `ArSdk` constructor config and a log of
  `setBeautify` calls. `LastSent` gives what a session was last told to show.
- `Mirror` (mirror.dfy): the class `MirrorController`. Its fields are the two
  refs and four pieces of state the handlers use (`videoRef` and
  `isPanelVisible` are presentation, see Left out), plus the logs of sessions
  constructed and of pushes made. Each handler is a method with a `modifies`
  clause.
- `Scenarios` (scenarios.dfy): runs through the lifecycle that show what
  the handlers' contracts imply.

The environment, the camera and the SDK become inputs:

- the three credentials are a `Credentials` value;
- the camera probe is a `Probe`;
- what `new ArSdk` does is a `Construction`: it either returns a session
  or throws a `Thrown`;
- the SDK's events are calls to `OnReady`/`OnError`, with the browser's
  user-agent string as an opaque parameter.

Pushed values are exact reals: `Hundredths(v) = v / 100`. Because of that,
`ResetConfig() == Scale(Default())` holds exactly.

The central invariant is `MirrorController.InSync()`: the live session was
last told to show `Effective(settings, isEnabled)`. Three facts keep it:

- every handler preserves it;
- `HandleToggle` establishes it whenever a session exists;
- construction establishes it when the effects are enabled.

Behaviours of the code worth noting:

- **Pushes are gated on construction, not on readiness.** `arRef` is set
  right after `new ArSdk` returns (line 139), not on `ready`.
- **Reset's push is gated on `isEnabled`** (line 301). Reset does not
  always push the default.
- **Handlers have no staleness guard.** A `ready` or `error` event still
  updates the loading and error state after teardown, and both events may
  update it, in either order.
- **A failed construction leaves the latch set.** A second `initAR` in the
  same mount is therefore a no-op.
- **The latch does not stop strict mode's double initialization.** The
  comment at line 65 gives "Prevent double initialization in React Strict
  Mode" as the latch's purpose, but the cleanup clears it (line 200) before
  strict mode runs the effect a second time, so the second run constructs
  its own session (`Scenarios.StrictModeRemount`). The latch only stops a
  second `initAR` within one effect run.
- **The session's initial config ignores `isEnabled`.** It is always the
  stored settings divided by 100 (lines 120-136).

## Model

| member | source | states |
|---|---|---|
| `Beauty.With` | src/components/QweenMirror.tsx:207-209 | the updated record has `value` at `key` and every other field unchanged |
| `Beauty.WithSameValue` | src/components/QweenMirror.tsx:209 | writing back a field's own value leaves the record equal |
| `Beauty.WithOverwrite` | src/components/QweenMirror.tsx:209 | a second update of the same key overrides the first |
| `Beauty.WithCommutes` | src/components/QweenMirror.tsx:209 | updates of two different keys commute |
| `Beauty.Default` | src/components/QweenMirror.tsx:35-51 | default profile: whiten 30, dermabrasion 50, every other slider 0 |
| `Beauty.Hundredths` | src/components/QweenMirror.tsx:121 | a slider value as the SDK reads it: 100 times the result is the value, and 0..100 maps into 0..1 |
| `Beauty.Scale` | src/components/QweenMirror.tsx:120-136 | every field of the pushed config is the stored field divided by 100 |
| `Beauty.ScaleInjective` | src/components/QweenMirror.tsx:213-229 | two stores that push the same scaled config are equal (scaling loses nothing) |
| `Beauty.ScaleInUnitRange` | src/components/QweenMirror.tsx:382-383 | settings inside the sliders' 0..100 range scale into 0..1 |
| `Beauty.Zeros` | src/components/QweenMirror.tsx:260-276 | the switch-off config is zero on every field |
| `Beauty.ResetConfig` | src/components/QweenMirror.tsx:302-318 | the reset config: whiten 0.3, dermabrasion 0.5, every other field 0 |
| `Beauty.ResetConfigIsScaledDefault` | src/components/QweenMirror.tsx:281-320 | the literal config reset pushes equals the default profile divided by 100 |
| `Beauty.Effective` | src/components/QweenMirror.tsx:240-277 | disabled gives zero on every field whatever is stored; enabled gives each stored field divided by 100 |
| `Beauty.DisabledIgnoresStore` | src/components/QweenMirror.tsx:259-276 | while disabled the effective view is the same for any store |
| `Beauty.EnabledDeterminesStore` | src/components/QweenMirror.tsx:241-258 | while enabled the effective view determines the store |
| `Messages.Classify` | src/components/QweenMirror.tsx:180-192 | each of `NotAllowedError`, `NotFoundError` and `NotReadableError` maps to its camera outcome if and only if the value is an `Error` with that name; otherwise the outcome is generic, with the error's message as detail, or "Unknown error" for a non-Error |
| `Messages.Describe` | src/components/QweenMirror.tsx:181-191 | a generic failure reads "Initialization failed: " followed by its detail |
| `Messages.DescribeInjective` | src/components/QweenMirror.tsx:180-192 | two outcomes show the same message if and only if they are the same outcome, generic details included |
| `Messages.NonErrorIsUnknown` | src/components/QweenMirror.tsx:186-191 | a thrown non-Error shows "Initialization failed: Unknown error" whatever its name property is |
| `Messages.ConstructionIsNotMissingCredentials` | src/components/QweenMirror.tsx:58-62 | no construction failure message equals the missing-credentials message |
| `Messages.SdkReason` | src/components/QweenMirror.tsx:165 | the reason shown is never empty: the `|| "Unknown error"` fallback replaces an absent or empty message and keeps a non-empty one |
| `Messages.SdkErrorMessage` | src/components/QweenMirror.tsx:164-168 | the message starts with "AR SDK Error: " and continues with the reason, ". Browser: " and the user agent |
| `Messages.MissingCredentialsText` | src/components/QweenMirror.tsx:59 | the missing-credentials message equals the source's text character for character |
| `Messages.DeniedTextIsSource` | src/components/QweenMirror.tsx:181 | the camera-denied message equals the source's text character for character |
| `Messages.BusyTextIsSource` | src/components/QweenMirror.tsx:185 | the camera-busy message equals the source's text character for character |
| `Messages.SdkErrorIsDistinct` | src/components/QweenMirror.tsx:164-168 | an SDK error message never equals a construction-failure message or the missing-credentials message |
| `Negotiation.Negotiate` | src/components/QweenMirror.tsx:71-103 | the reported width and height when both are present and nonzero; 640x480 when either is missing or zero, or when probing throws |
| `Sdk.LastSentAppend` | src/components/QweenMirror.tsx:212-213 | after a push, its own session shows its config and every other session shows what it showed before |
| `Sdk.LastSentOthers` | src/components/QweenMirror.tsx:199-204 | pushes to other sessions never change what a session shows, so a session dropped at teardown is unaffected by later pushes |
| `Mirror.MirrorController.constructor` | src/components/QweenMirror.tsx:27-51 | initial state: default profile, enabled, loading, no error, latch clear, no session |
| `Mirror.MirrorController.InitAR` | src/components/QweenMirror.tsx:64-195 | no-op when latched; otherwise sets the latch and then (a) records exactly one new session, built from the credentials, the negotiated profile with mirror on, loading on with line width 4, and the settings divided by 100, as the live one, or (b) shows the classified construction message and clears loading; never pushes and never changes the store; keeps `InSync` when enabled |
| `Mirror.MirrorController.Mount` | src/components/QweenMirror.tsx:53-62 | any missing credential sets the configuration message and clears loading, leaving latch, session, store and pushes untouched; all three present runs `initAR` |
| `Mirror.MirrorController.OnReady` | src/components/QweenMirror.tsx:145-154 | loading is cleared and nothing else changes |
| `Mirror.MirrorController.OnError` | src/components/QweenMirror.tsx:156-170 | with a payload, sets the SDK error message with the user agent and clears loading; with none, nothing changes; store, refs and pushes are untouched |
| `Mirror.MirrorController.Teardown` | src/components/QweenMirror.tsx:199-204 | clears the latch and drops the session reference; nothing else changes |
| `Mirror.MirrorController.UpdateBeauty` | src/components/QweenMirror.tsx:207-234 | only `key` changes, and it becomes `value`; the new settings divided by 100 are pushed to the live session exactly when one exists and the switch is on, otherwise nothing is pushed; preserves `InSync` and the 0..100 range |
| `Mirror.MirrorController.HandleToggle` | src/components/QweenMirror.tsx:236-279 | negates the switch and keeps the store; with a live session, pushes the settings divided by 100 when turning on and zeros when turning off, and nothing without one; afterwards the live session is in sync |
| `Mirror.MirrorController.HandleReset` | src/components/QweenMirror.tsx:281-320 | store becomes the default profile and the switch is kept; the literal default config is pushed exactly when a live session exists and the switch is on; preserves `InSync` |
| `Mirror.MirrorController.Send` | src/components/QweenMirror.tsx:213 | one `setBeautify` call is appended to the log, addressed to the live session, which then shows that config |
| `Scenarios.DoubleInitWithinOneMount` | src/components/QweenMirror.tsx:65-67 | a second `initAR` in the same mount constructs nothing: one session in all |
| `Scenarios.StrictModeRemount` | src/components/QweenMirror.tsx:199-204 | mount, cleanup, mount: the cleared latch lets each mount construct a session, two in all, and the second is live |
| `Scenarios.WithoutCredentials` | src/components/QweenMirror.tsx:58-62 | missing credentials: message set, loading cleared, latch clear, no session |
| `Scenarios.FailedConstructionIsNotRetried` | src/components/QweenMirror.tsx:64-194 | after a failed construction the classified message stays and a later `initAR` constructs nothing |
| `Scenarios.FirstSessionConfig` | src/components/QweenMirror.tsx:105-137 | the first session starts from the default profile divided by 100 with the negotiated camera profile, mirrored |
| `Scenarios.ReadyAfterError` | src/components/QweenMirror.tsx:145-170 | a `ready` after an `error` clears loading and keeps the error message |
| `Scenarios.LateErrorAfterTeardown` | src/components/QweenMirror.tsx:156-204 | after teardown, a late `error` event still sets the message, and no handler pushes anything |
| `Scenarios.MoveWhileDisabled` | src/components/QweenMirror.tsx:207-279 | switching off pushes zeros; a slider moved while off pushes nothing; switching on pushes the moved value divided by 100 |
| `Scenarios.ResetWhileDisabled` | src/components/QweenMirror.tsx:281-320 | reset while off restores the default store, pushes nothing, and the session keeps showing zeros |

## Left out

- The JSX markup, the slider panel, `isPanelVisible` and `videoRef` (lines 27, 33, 322-595): presentation only.
- The `created` handler and every `console.*` call: logging only.
- `getUserMedia`, stopping the probe's tracks, the 1920x1080 ideal constraint as a device request, `ar.getOutput()`, and setting the video's `srcObject` and calling `play()`: camera and media I/O. The probe's outcome is the `Probe` input.
- The `ready` handler's retrieval of the output stream is not modelled, for the same reason.
- `navigator.userAgent` is an opaque string parameter.
- src/utils/auth.ts (`getSignature`, SHA-256 over the timestamp, secret, app id and timestamp): hashing and the system clock. The construction config records only the app id, license key and secret that the signature callback is bound to. The SDK calls that callback, not the view.
- Floating-point division by 100 is modelled as exact real division.
- React's scheduling of state updates: the `isEnabled` read inside the `setBeautySettings` updater (line 212) is taken as the current switch.
- The async interleaving of `initAR` with user input and with the effect's cleanup is not modelled. Each handler, `InitAR` included, runs as one sequential step, so a cleanup always runs after the `initAR` it follows has finished.
- Scenarios.StrictModeRemount: in React's strict mode the cleanup runs while the first `initAR` is still suspended on the camera probe (line 77), so that run's assignment of the session reference (line 139) happens after the cleanup. Which session ends up live then depends on which probe resolves last; the scenario shows only the sequential order, in which the second is live.
- Mirror.MirrorController.InitAR: the effect's closure captures `beautySettings` from the first render (its dependency list is empty, line 205), while the model builds the session from the store's value when `InitAR` runs. The two coincide whenever the store still equals `Default()`, the first render's value, at each `Mount` that constructs a session, e.g. when no `UpdateBeauty` runs before the last `Mount`. That covers every run the view allows, because the control panel is only rendered once loading has ended without an error (line 346). Nothing in the model forces that order: in `UpdateBeauty; Mount` or in `Mount; UpdateBeauty; Teardown; Mount` the moved slider is reflected in the constructed session's initial config, where the source would still use the first render's store.
- Exceptions thrown by `ar.on(...)` registration are not modelled; only the constructor is treated as able to throw.
- Negotiation.Negotiate: a `NaN` dimension, which JavaScript also treats as false, is not representable; dimensions are integers, and only an absent value or 0 counts as unreported.
- Messages.SdkReason: an `e.message` that is a non-string truthy value is not representable; the message is an optional string.
