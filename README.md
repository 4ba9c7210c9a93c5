# Flood and fire detection dashboard — sensor state and camera payload model

This project models the two pieces of state-changing logic in the
flood-monitoring dashboard's front end, in Dafny:

- **The sensor state and its log** (`src/App.tsx`, module `App` in `app.dfy`).
  The dashboard holds three independent cells: smoke detected, rainfall
  detected, and a water level that is one of `Low`, `Caution` or `DANGER`. It
  also holds a log that starts as the single entry "System initialized". The
  log grows only by prepending one timestamped entry (`addLog`). One effect
  watches each cell. An effect runs once on mount, in declaration order
  (smoke, rainfall, water level). After that it runs only when its cell's
  value differs from the previous one, and it logs a fixed-format message for
  the new value. The pure function `Apply` states one setter call followed by
  its effect. The class `Monitor` holds the cells as fields and has one setter
  method per cell, each proved against `Apply`. Lemmas about `Run` (a sequence
  of setter calls) state three things. The log is never truncated or edited.
  The last value set for each field wins. After mount, the newest log entry
  about each field names that field's current value (`Consistent`).
- **The camera card** (`src/components/WebCameraCard.tsx`, module
  `WebCameraCard` in `web_camera_card.dfy`). The `camera_data` handler
  accepts two payload shapes: a flat `image` field, and a legacy `frame` that
  is either a string or an object carrying `image`. It updates three cells:
  the picture, the fire flag and the error. `Decode` is the tagged-union
  reading of a payload, and `Step` is the handler's effect on the cells. The
  class `CameraCard` runs the handler as an imperative method with the same
  branches as the source. The model also covers the missing-socket guard and
  the badge colour of the water level.

`js_values.dfy` holds `Option` (null or undefined) and JavaScript truthiness
of strings, which both modules use.

JavaScript truthiness is modelled explicitly. An empty-string `image` counts
as absent, so the handler falls through to the `frame` branch. An empty
string `frame` is ignored. An object `frame` is always truthy, even when it
has no `image`. `fire_detected` is modelled only as "truthy or not".
Timestamps (`new Date()`) are an abstract `Instant` parameter.

The code implements no water-level threshold classification, no cap on the
log's length, no connection manager and no suppression of log entries while
disconnected. The water level is set directly as one of three tiers, and the
log is unbounded. Each effect also logs its cell's initial value once on
mount, so the mounted log holds four entries before any setter is called.
In `src/App.tsx:52-56` the camera card is rendered without a `socket`. In this
version the card therefore always takes the missing-socket path
(`CameraCard.Connect(false)`), and the handler is never registered.

## Model

| member | source | states |
|---|---|---|
| `App.ParseLevel` | src/App.tsx:9 | Exactly the three labels "Low", "Caution" and "DANGER" name a tier, and each names the tier whose label it is |
| `App.LevelLabelRoundTrip` | src/App.tsx:9 | The water level has three distinct tiers; reading a tier's label gives the tier back |
| `App.Initial` | src/App.tsx:17-24 | Initial state: smoke and rainfall clear, water level Low, log of exactly one entry, "System initialized" |
| `App.Monitor.constructor` | src/App.tsx:17-24 | The component starts in the initial state, not yet mounted, with the object invariant established |
| `App.Monitor.AddLog` | src/App.tsx:27-29 | The new entry goes to index 0 and the previous log is left intact as the tail |
| `App.MessageRoundTrip` | src/App.tsx:32-42 | Each effect's message ("Smoke detector: …", "Rainfall detector: …", "Water level changed to: …") reads back as exactly the change that produced it |
| `App.InitMessageReportsNothing` | src/App.tsx:23 | The initial entry reports no sensor value |
| `App.Apply` | src/App.tsx:32-42 | A setter call stores its value and leaves the other two cells unchanged; setting a cell to its current value leaves the whole state, log included, unchanged; a different value prepends exactly one entry carrying the change's message |
| `App.MountEffects` | src/App.tsx:32-42 | On mount the three effects prepend one message each, all stamped with the mount instant, in declaration order: the newest entry reports the water level, the next the rainfall, the third the smoke value; the cells are unchanged and afterwards the log agrees with every cell |
| `App.Monitor.Mount` | src/App.tsx:32-42 | The component's first effect run produces exactly `MountEffects` of its state and establishes log/state agreement |
| `App.Monitor.SetSmokeDetected` | src/App.tsx:32-34 | The smoke setter plus its effect behave as `Apply`, and log/state agreement is kept |
| `App.Monitor.SetRainfallDetected` | src/App.tsx:36-38 | The rainfall setter plus its effect behave as `Apply`, and log/state agreement is kept |
| `App.Monitor.SetWaterLevel` | src/App.tsx:40-42 | The water-level setter plus its effect behave as `Apply`, and log/state agreement is kept |
| `App.ApplyPreservesConsistent` | src/App.tsx:26-42 | If the newest entry about each field names its current value, that stays true after any setter call |
| `App.ApplyIdempotent` | src/App.tsx:31-42 | Repeating a setter call with the same value changes nothing and logs nothing |
| `App.RunKeepsHistory` | src/App.tsx:27-29 | Over any sequence of setter calls the log never shrinks, grows by at most one entry per call, and keeps the earlier log as its tail |
| `App.RunLastValueWins` | src/App.tsx:31-42 | After any sequence of setter calls each cell holds the value of the last call that set it, or its earlier value if no call did |
| `App.RunPreservesConsistent` | src/App.tsx:26-42 | Log/state agreement holds through any sequence of setter calls |
| `WebCameraCard.CameraCard.constructor` | src/components/WebCameraCard.tsx:33-35 | The card starts with no picture, no fire flag, no error and no handler registered |
| `WebCameraCard.CameraCard.Connect` | src/components/WebCameraCard.tsx:37-41 | Without a socket the error becomes "Camera feed unavailable: No connection to server" and no handler is registered; with one the cells are untouched and the handler is registered |
| `WebCameraCard.Decode` | src/components/WebCameraCard.tsx:44-65 | A null payload, or one with neither a truthy `image` nor a truthy `frame`, is ignored; otherwise the fire flag is taken from the payload; a truthy `image` is the picture used; any picture is non-empty and comes from `image` or from the frame |
| `WebCameraCard.Step` | src/components/WebCameraCard.tsx:44-65 | Processing a payload either leaves the card as it was or clears the error; a picture it installs is never empty |
| `WebCameraCard.CameraCard.HandleCameraData` | src/components/WebCameraCard.tsx:44-65 | The handler's branches produce exactly `Step` of the old cells, and a stored picture is never empty |
| `WebCameraCard.ImageTakesPrecedence` | src/components/WebCameraCard.tsx:48-55 | A truthy `image` sets the picture, the fire flag and clears the error, and the result is the same whatever the `frame` is |
| `WebCameraCard.LegacyFrameSetsImage` | src/components/WebCameraCard.tsx:55-60 | Without a truthy `image`, a non-empty string frame or an object frame's truthy `image` becomes the picture |
| `WebCameraCard.PicturelessFrameStillUpdates` | src/components/WebCameraCard.tsx:55-63 | A truthy frame that carries no picture keeps the old picture but still sets the fire flag and clears the error |
| `WebCameraCard.UnrecognisedIgnored` | src/components/WebCameraCard.tsx:48-55 | A null payload or one with neither truthy `image` nor truthy `frame` changes no cell |
| `WebCameraCard.StepIdempotent` | src/components/WebCameraCard.tsx:50-63 | The handler only overwrites, so the same payload twice leaves the state it leaves once |
| `WebCameraCard.ReplayFollowsNewestFrame` | src/components/WebCameraCard.tsx:44-65 | Frames are never deduplicated: after a stream, the picture is the newest one any payload brought (the old one if none did), the fire flag is the newest recognised payload's and the error is cleared; a stream with no recognised payload changes nothing |
| `WebCameraCard.WaterLevelColor` | src/components/WebCameraCard.tsx:81-92 | Red exactly for "DANGER", yellow exactly for "Caution", green for "Low" and for every other string |
| `WebCameraCard.TierColors` | src/components/WebCameraCard.tsx:81-92 | Low is green, Caution yellow, DANGER red |

## Left out

- Rendering: the JSX of both components, cards, badges, icons and layout are presentation only.
- `src/components/SensorControl.tsx` and `src/components/SensorLogs.tsx` are not part of this model. They bind switches, a radio group and a list to the parent's state. `formatTimestamp` is a wrapper over the platform's locale formatting.
- Socket registration and cleanup (`socket.on` and `socket.off`) and the `camera_alert` listener belong to an event library outside the model. Only the handler body is modelled, and registration is modelled as the `subscribed` flag.
- `console.log` output is left out.
- Wall-clock reads (`new Date()`) are modelled as `Instant` parameters.
- App.Monitor.Mount: gives the three mount entries one shared timestamp, although the source reads the clock once per entry.
- React scheduling, batching and StrictMode double invocation are left out. An effect is modelled as running once on mount, in declaration order, and then after each setter call that changes its cell.
- WebCameraCard.Decode: payload `image` fields are modelled as strings. A truthy non-string `image` is not modelled, even though the source would store it as the picture.
