# Ring alarm bridge for Node-RED: a Dafny model of its decision logic

`src/ring-alarm.ts` registers the Node-RED nodes of the Ring bridge. These are the
`ring-config` credential node, the `Alarm Mode Listener`, `Camera Motion`,
`Device Listener`, `Alarm Mode` and `Alarm Status` nodes, and a `Camera` capture node. Most of the file is
host plumbing around the Ring client library. This project models the decisions
inside that plumbing. Every remote call is an input, `Call<T> = Resolved(value) | Rejected`.
The statuses the nodes show, the envelopes they send and the lines they log through `RED.log.error` are recorded as values.

Modules:

- `RingTypes` (`ring_types.dfy`): the remote outcome, JavaScript truthiness of
  optional strings and flags, locations, devices, cameras, statuses, envelopes and log kinds.
- `Session` (`session.dfy`): class `ConfigNode` models the `ring-config` node.
  Its fields are the context slot `token`, the client built from it, `this.api`,
  the rotation subscription, the close handler and a pending probe. An `effects`
  sequence records, in order, every act of the node on its slot, the client and the host, and every `RED.log.error` line. This is how "the new token is stored before
  `this.api` is assigned and before token-fetched is emitted" becomes a checked postcondition.
- `AlarmMode` (`alarm_mode.dfy`): covers the raw mode mapped to `arm`/`home`/`disarm`,
  the status colour and text, and the read that falls back to the legacy location mode. It also covers
  the re-read on a security-panel update, the location lookup and the
  "Location not found" report with its list of choices.
- `Command` (`command.dfy`): the `Alarm Mode` input handler. It covers payload aliases,
  the bypass list computed from a fresh device read, and the primary command followed by one
  legacy `setLocationMode` fallback. It also models the `done()` calls exactly as the promise
  chain makes them: two on primary success, one on fallback success, none when both
  reject or the payload is invalid.
- `Router` (`router.dfy`): the listener filters, the topic templates, the camera-motion join,
  the alarm-status join, and the streams each listener subscribes to. Topics are built by
  joining levels with `/`. `SegmentsOfPath` proves that splitting at `/` gives the levels
  back when no level contains `/`.
- `Registry` (`registry.dfy`): class `CloseRegistry` models the close handlers
  of a listener node. Each `subscribe` adds one handler that unsubscribes it.
  `SubscribeAll` is the `forEach` over locations or cameras. `Close` runs every
  handler, and afterwards no subscription is live.

Behaviour of the code that the model keeps as written:

- When neither a stored nor an initial token exists, the config node builds no client and
  never emits token-fetched. The listener nodes therefore never run their handler and show
  no status at all. Their "no credentials" branch runs only if the signal fires
  without `this.api`. The code never emits it that way, because `RotateToken` assigns the API before emitting.
- The close handler of the config node calls `this.api.disconnect()`. `this.api` is assigned
  only by a rotation event, so closing before any rotation throws. The model records this as the effect `CloseFault`.
- A falsy payload logs "Invalid Mode" before the lookup, and the remote reads happen anyway.
  The switch's default branch logs it a second time, but only when the location is found by `id`
  and the device read fulfils; otherwise the chain stops earlier.
- The input path finds the location by `id`, while the attach path uses `locationId`.
  The input handler is registered even when the attach path reported "Location not found".
- `Device Listener` forwards an update whose `tamperStatus` is any non-empty string,
  including `"ok"`. It reads the devices even for updates it then drops.
- The legacy read's result goes through the same comparison as the primary read. Anything
  other than `"all"` or `"some"` shows as `disarm` (`NamesAreNotRaw` shows this for the presentation names themselves).

## Model

| member | source | states |
|---|---|---|
| `Session.SeedToken` | src/ring-alarm.ts:28-30 | A truthy stored token is kept. Otherwise a truthy initial token replaces it. The result is truthy exactly when one of the two is. |
| `Session.SeedTokenIdempotent` | src/ring-alarm.ts:28-30 | Seeding again with the same initial token changes nothing. |
| `Session.StartEffects` | src/ring-alarm.ts:28-61 | With no truthy token the only act is logging "No Token!", and no client is built. With a token a client is built from it. A seeded initial token is stored first. If construction succeeds the start ends with building the client, sending the probe and subscribing rotation, in that order. If it throws, the start ends with building the client and a logged error. The trace holds exactly these acts and no others. Start never assigns the API or emits token-fetched. |
| `Session.ConfigNode.constructor` | src/ring-alarm.ts:13-61 | The slot holds the seeded token. The client exists exactly when that token is truthy and `new RingApi` returns rather than throws. The rotation subscription, the close handler and the pending probe exist exactly when the client exists. |
| `Session.ConfigNode.ProbeSettled` | src/ring-alarm.ts:38-41 | A rejected probe logs and then sets the slot to undefined. A fulfilled probe changes nothing. |
| `Session.ConfigNode.RotateToken` | src/ring-alarm.ts:44-50 | The new token is stored, then the API is assigned, then token-fetched is emitted, in that order. Nothing else changes. |
| `Session.FirstRotation` | src/ring-alarm.ts:44-48 | After a start with a truthy token and the first rotation, the API is set and the slot holds the new token. The recorded acts are the start acts followed by store, assign and emit. |
| `Session.ConfigNode.Close` | src/ring-alarm.ts:53-56 | If a handler was registered, it unsubscribes rotation and then disconnects. It throws (`CloseFault`) when the API was never assigned. |
| `AlarmMode.FromRaw` | src/ring-alarm.ts:365 | The map is total with three results: `arm` iff the raw mode is `"all"`, `home` iff `"some"`, `disarm` for every other value. |
| `AlarmMode.NamesAreNotRaw` | src/ring-alarm.ts:365 | Re-mapping any of the presentation names gives `disarm`, so the map is only meaningful on raw values. |
| `AlarmMode.StatusOf` | src/ring-alarm.ts:366-369 | The fill is grey, yellow or red exactly for disarm, home or arm. The text is the location name, `": "`, then the mode name. |
| `AlarmMode.StatusTextDeterminesMode` | src/ring-alarm.ts:366-369 | For the same location name, two equal status texts mean the same mode and the same status. |
| `AlarmMode.ReadAndShow` | src/ring-alarm.ts:362-371 | `getLocationMode` is read only after `getAlarmMode` rejects. The status comes from whichever read fulfilled. When both reject, no status is shown and an error is logged. |
| `AlarmMode.OnDeviceUpdate` | src/ring-alarm.ts:382-396 | Only a security-panel update triggers a new read and status. Any other update makes no read. |
| `AlarmMode.Find` | src/ring-alarm.ts:359 | Returns the first location whose key equals the configured id, or none when no location matches. |
| `AlarmMode.JoinSnoc` | src/ring-alarm.ts:409 | Joining one more item appends `", "` and the item. |
| `AlarmMode.ChoicesSmall` | src/ring-alarm.ts:409 | The list of choices is empty for no location and is `"<id> (<name>)"` for one location. |
| `AlarmMode.ChoicesSnoc` | src/ring-alarm.ts:409 | One more location extends the list by `", <id> (<name>)"`, keeping location order. |
| `AlarmMode.Attach` | src/ring-alarm.ts:358-413 | No location matching by `locationId` gives a red "Location not found" and one log listing the choices, with no read and no subscription. A match shows that location's status from the fallback read, keeps that read's logs and subscribes its device stream. |
| `Command.ParseIntent` | src/ring-alarm.ts:435-481 | `some`/`home` give arm-home, `all`/`arm` give arm-away and `none`/`disarm` give disarm, in both directions. Every other payload gives no intent. |
| `Command.FalsyPayloadIsInvalid` | src/ring-alarm.ts:419-421 | An undefined or empty payload names no intent. |
| `Command.LegacyModeInjective` | src/ring-alarm.ts:442 | Each intent has its own fallback mode (`home`, `away`, `disarmed`). |
| `Command.FaultedZids` | src/ring-alarm.ts:428-429 | A zid is in the list iff some device with truthy `faulted` has it. The list is no longer than the device list. |
| `Command.FaultedZidsAppend` | src/ring-alarm.ts:428-429 | The list keeps device order: the list for `a + b` is the list for `a` followed by the list for `b`. |
| `Command.FaultedZidsExtremes` | src/ring-alarm.ts:428-429 | With no device faulted the list is empty. With all devices faulted it is every zid in order. |
| `Command.BypassFor` | src/ring-alarm.ts:426-430 | A zid list is passed iff the bypass flag is truthy, and it is the faulted zids of the devices read for this input. Otherwise the falsy flag itself is passed. |
| `Command.PrimaryCommand` | src/ring-alarm.ts:438-466 | Arm-home calls `armHome(bypass)`, arm-away calls `armAway(bypass)`, and disarm calls `disarm()` with no bypass. |
| `Command.RunIntent` | src/ring-alarm.ts:435-477 | The primary command is made first. The single `setLocationMode` fallback is made only when the primary rejects. `done()` runs 2 times on primary success, 1 time on fallback success and 0 times when both reject. |
| `Command.HandleInput` | src/ring-alarm.ts:415-487 | An invalid payload makes no command and no `done()`. A falsy payload is logged first. A command happens only after the locations and devices are read and the location is found by `id`. The command's bypass comes from that device read, and the done counts and logs are as in `RunIntent`, after the falsy-payload log if any. No command means no `done()`. A rejected `getLocations` is logged as an error after the falsy-payload log if any. `getDevices` is read whenever the location is found by `id`. A location missing by `id` ends in a logged error, a rejected device read in an unhandled rejection, and a found location with an invalid payload in a logged invalid mode. |
| `Router.SegmentsOfPath` | src/ring-alarm.ts:92 | Splitting a topic at `/` gives back the levels it was built from, when no level contains `/`. |
| `Router.PanelTopicSegments` | src/ring-alarm.ts:92 | The panel topic reads back as `ring`, location id, `security-panel`, zid, `security-mode`. |
| `Router.DeviceTopicSegments` | src/ring-alarm.ts:188 | The device topic reads back as `ring`, location id, `device`, zid. |
| `Router.MotionTopicSegments` | src/ring-alarm.ts:139 | The motion topic reads back as `ring`, location id, `camera`, camera id, `motion`. |
| `Router.DeviceTopicInjective` | src/ring-alarm.ts:188 | For ids without `/`, equal device topics mean the same location and device. |
| `Router.FirstPanel` | src/ring-alarm.ts:90 | Returns the first device of type security-panel, or none when there is no such device. |
| `Router.FirstWithZid` | src/ring-alarm.ts:185 | Returns the first device with the update's zid, or none when no device has it. |
| `Router.PanelReaction` | src/ring-alarm.ts:87-99 | A non-panel update is dropped. A panel update sends the first panel's data on the panel topic iff the device read fulfils and finds a panel. Otherwise an error is logged. A sent message comes with no log. |
| `Router.DeviceReaction` | src/ring-alarm.ts:183-197 | An update is sent only if its `faulted` is defined or its `tamperStatus` is truthy. It goes on the device topic with the location's `locationId` and the matching device's data. A forwarded update with no matching device, or a rejected read, ends in one logged error. A sent message comes with no log. |
| `Router.MotionEnvelope` | src/ring-alarm.ts:137-145 | Every motion event is sent on the motion topic with the camera data held at the time of the event. |
| `Router.TriggeredDevices` | src/ring-alarm.ts:521-522 | Exactly the data of the devices whose `id` is in `alarmInfo.faultedDevices`. |
| `Router.TriggeredDevicesAppend` | src/ring-alarm.ts:521-522 | The join keeps device order. |
| `Router.AlarmStatusEnvelope` | src/ring-alarm.ts:519-531 | A message is sent iff `alarmInfo` is present. It holds the location id and name, the alarm state and the triggered devices' data. |
| `Router.DeviceStreams` | src/ring-alarm.ts:85-87 | One device stream per location, in location order. |
| `Router.CameraStreams` | src/ring-alarm.ts:136-137 | One motion stream per camera of the location, in camera order, and nothing else. |
| `Router.MotionStreams` | src/ring-alarm.ts:135-137 | Every camera of every location has its motion stream, and every stream is the motion stream of some camera of some location. |
| `Router.MotionStreamsAppend` | src/ring-alarm.ts:135-137 | The streams of two runs of locations are those of the first followed by those of the second, so location order is kept. |
| `Router.MotionStreamsSingle` | src/ring-alarm.ts:135-137 | One location contributes exactly its camera streams. |
| `Router.ListenerAttach` | src/ring-alarm.ts:79-121 | Without a client the node shows "no credentials". With a client and the locations read, it subscribes each stream and shows "connected". A rejected read changes nothing. |
| `Router.PanelStreams` | src/ring-alarm.ts:516-538 | A location's panel stream is subscribed iff its device read fulfils with a panel. |
| `Router.PanelStreamsAppend` | src/ring-alarm.ts:516-538 | The panel streams of two runs of locations are those of the first followed by those of the second, so location order is kept. |
| `Router.PanelStreamsSingle` | src/ring-alarm.ts:516-538 | One location is subscribed once when its device read finds a panel, and not at all otherwise; with the append lemma no stream is duplicated. |
| `Router.AlarmStatusAttach` | src/ring-alarm.ts:512-545 | "connected" is shown iff there is a location. The panel streams are subscribed. Without a client nothing happens. |
| `Registry.CloseRegistry.Subscribe` | src/ring-alarm.ts:87-105 | A fresh handle is live and gets its own close handler. Nothing else changes. |
| `Registry.CloseRegistry.Unsubscribe` | src/ring-alarm.ts:104 | Only that handle stops being live. A second call changes nothing. |
| `Registry.CloseRegistry.SubscribeAll` | src/ring-alarm.ts:85-106 | One subscription and one handler per source, in order, and all new handles are live. |
| `Registry.CloseRegistry.Close` | src/ring-alarm.ts:146-148 | Running every close handler leaves no subscription live. |
| `Registry.AttachThenClose` | src/ring-alarm.ts:103-105 | The live streams after attaching are exactly the planned streams, subscribed with one close handler each as at lines 103-105, 146-148, 199-201 and 534-537. After the close, none are live. |

## Left out

- Node-RED registration, `createNode`, the context object, `setMaxListeners` and the `once` listener mechanism are host runtime; `status`, `send` and `RED.log.error` lines are recorded values.
- The `console.log` output at src/ring-alarm.ts:46, 352, 417, 432 and 510 is not modelled; among it, line 46 prints the whole rotation event, refresh token included, between storing the token and assigning `this.api`, and `RotateToken`'s trace holds no such act.
- A status shown several times in a row with the same value is recorded once: `Alarm Status` shows "connected" once per location (line 540), while `Plan.status` holds it once.
- The Ring client library (HTTP, websocket, refresh) is foreign code: each remote call is an input outcome, and a value it resolves with is a parameter.
- The `Camera` capture node (recording, snapshots, `/tmp` files, base64) is file and media I/O over the client library; `sleep` is timing.
- Promise scheduling and interleaving between locations are not modelled: each chain is one sequential outcome.
- `msg.payload` and `config.bypass` are modelled as strings (possibly undefined for the payload); non-string values are not modelled.
- A payload key of `device.data` that is also spelled `locationId` would override the added field in the Device Listener payload; device data is modelled without such a key.
- The extra fields of `alarmInfo` that the alarm-status payload copies are represented by its `state`.
- The catch blocks around synchronous code (`new RingApi` throwing, the try around `getLocations`) are the `constructs` input of `ConfigNode` or are not reachable in the model.
