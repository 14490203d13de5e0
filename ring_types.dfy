/**
 * Values shared by the nodes of the Ring bridge: the outcome of a remote call,
 * JavaScript truthiness of the optional values the nodes test, the remote
 * entities (locations, devices, cameras) as the nodes see them, and the
 * recorded outputs of a node (status, sent envelopes, log lines).
 */
module RingTypes {

  datatype Option<+T> = None | Some(value: T)

  /** The settled outcome of one remote promise: fulfilled with a value or rejected. */
  datatype Call<+T> = Resolved(value: T) | Rejected

  /** JavaScript truthiness of a possibly undefined string: undefined and "" are falsy. */
  predicate TruthyText(s: Option<string>) {
    s.Some? && s.value != ""
  }

  /** JavaScript truthiness of a possibly undefined boolean flag. */
  predicate TruthyFlag(b: Option<bool>) {
    b == Some(true)
  }

  /** The part of `alarmInfo` the alarm-status node reads; `state` stands for the fields it copies. */
  datatype AlarmInfo = AlarmInfo(state: string, faultedDevices: seq<string>)

  /** A device's data blob, which is also what a device-data update carries. */
  datatype DeviceData = DeviceData(
    zid: string,
    deviceType: string,
    faulted: Option<bool>,
    tamperStatus: Option<string>,
    alarmInfo: Option<AlarmInfo>)

  datatype Device = Device(id: string, zid: string, deviceType: string, data: DeviceData)

  /** The camera's static data is an opaque key/value blob to the bridge. */
  type CameraData = map<string, string>

  datatype Camera = Camera(id: string, data: CameraData)

  datatype Location = Location(id: string, locationId: string, name: string, cameras: seq<Camera>)

  const SecurityPanel: string := "security-panel"

  datatype Fill = Green | Red | Yellow | Grey

  /** What a node shows under its icon in the flow editor. */
  datatype Status = Status(fill: Fill, text: string)

  const Connected: Status := Status(Green, "connected")
  const NoCredentials: Status := Status(Red, "no credentials")

  /** The payloads the listener nodes send. */
  datatype Payload =
    | PanelPayload(data: DeviceData)
    | DevicePayload(locationId: string, data: DeviceData)
    | MotionPayload(cameraData: CameraData, motion: bool)
    | AlarmPayload(locationId: string, locationName: string, state: string, faultedDevices: seq<DeviceData>)

  /** A message sent by a node; `topic` is None when the node sets none. */
  datatype Envelope = Envelope(topic: Option<string>, payload: Payload)

  /** Log lines, abstracted to their kind. */
  datatype Log =
    | NoToken                            // "No Token!"
    | RemoteError                        // a rejected remote call or a TypeError, caught and logged
    | InvalidMode(payload: Option<string>)
    | SelectLocation(choices: string)    // "Select one location to filter: <choices>"
    | UnhandledRejection                 // not a node log: a rejection no handler catches, left to the runtime
}
