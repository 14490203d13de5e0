/**
 * The listener nodes: which updates they forward, the topic and payload of
 * what they send, the alarm-status join, and which streams each node
 * subscribes to when the token-fetched signal reaches it.
 */
module Router {
  import opened RingTypes

  /** Topic levels joined by '/'. */
  function Path(levels: seq<string>): string
    requires |levels| > 0
    decreases |levels|
  {
    if |levels| == 1 then levels[0] else levels[0] + "/" + Path(levels[1..])
  }

  /** `ring/${location.id}/security-panel/${zid}/security-mode` */
  function PanelTopic(locationId: string, zid: string): string {
    Path(["ring", locationId, "security-panel", zid, "security-mode"])
  }

  /** `ring/${location.id}/device/${zid}` */
  function DeviceTopic(locationId: string, zid: string): string {
    Path(["ring", locationId, "device", zid])
  }

  /** `ring/${location.id}/camera/${cam.id}/motion` */
  function MotionTopic(locationId: string, cameraId: string): string {
    Path(["ring", locationId, "camera", cameraId, "motion"])
  }

  /** A topic split at every '/', as a subscriber matching on topic levels reads it. */
  function Segments(s: string): (r: seq<string>)
    ensures |r| >= 1
    decreases |s|
  {
    if |s| == 0 then [""]
    else
      var rest := Segments(s[1..]);
      if s[0] == '/' then [""] + rest else [[s[0]] + rest[0]] + rest[1..]
  }

  /** A text without '/' is a single segment. */
  lemma {:induction false} SegmentsPlain(a: string)
    requires '/' !in a
    ensures Segments(a) == [a]
    decreases |a|
  {
    if |a| > 0 {
      assert forall k :: 0 <= k < |a| - 1 ==> a[1..][k] == a[k + 1];
      SegmentsPlain(a[1..]);
      assert [a[0]] + a[1..] == a;
    }
  }

  /** Splitting `a + "/" + b` with `a` free of '/' peels `a` off as the first segment. */
  lemma {:induction false} SegmentsCons(a: string, b: string)
    requires '/' !in a
    ensures Segments(a + "/" + b) == [a] + Segments(b)
    decreases |a|
  {
    var s := a + "/" + b;
    if |a| == 0 {
      assert s == "/" + b;
      assert s[1..] == b;
    } else {
      assert s[0] == a[0];
      assert s[1..] == a[1..] + "/" + b;
      assert '/' !in a[1..] by {
        assert forall k :: 0 <= k < |a| - 1 ==> a[1..][k] == a[k + 1];
      }
      SegmentsCons(a[1..], b);
      assert [a[0]] + a[1..] == a;
    }
  }

  /** Levels free of '/' are read back from the topic they make: splitting inverts joining. */
  lemma {:induction false} SegmentsOfPath(levels: seq<string>)
    requires |levels| > 0
    requires forall i :: 0 <= i < |levels| ==> '/' !in levels[i]
    ensures Segments(Path(levels)) == levels
    decreases |levels|
  {
    if |levels| == 1 {
      SegmentsPlain(levels[0]);
    } else {
      SegmentsCons(levels[0], Path(levels[1..]));
      SegmentsOfPath(levels[1..]);
      assert [levels[0]] + levels[1..] == levels;
    }
  }

  lemma DeviceTopicSegments(locationId: string, zid: string)
    requires '/' !in locationId && '/' !in zid
    ensures Segments(DeviceTopic(locationId, zid)) == ["ring", locationId, "device", zid]
  {
    SegmentsOfPath(["ring", locationId, "device", zid]);
  }

  lemma PanelTopicSegments(locationId: string, zid: string)
    requires '/' !in locationId && '/' !in zid
    ensures Segments(PanelTopic(locationId, zid)) == ["ring", locationId, "security-panel", zid, "security-mode"]
  {
    SegmentsOfPath(["ring", locationId, "security-panel", zid, "security-mode"]);
  }

  lemma MotionTopicSegments(locationId: string, cameraId: string)
    requires '/' !in locationId && '/' !in cameraId
    ensures Segments(MotionTopic(locationId, cameraId)) == ["ring", locationId, "camera", cameraId, "motion"]
  {
    SegmentsOfPath(["ring", locationId, "camera", cameraId, "motion"]);
  }

  /** For '/'-free ids, equal device topics name the same (location, device) pair. */
  lemma DeviceTopicInjective(l1: string, z1: string, l2: string, z2: string)
    requires '/' !in l1 && '/' !in z1 && '/' !in l2 && '/' !in z2
    requires DeviceTopic(l1, z1) == DeviceTopic(l2, z2)
    ensures l1 == l2 && z1 == z2
  {
    DeviceTopicSegments(l1, z1);
    DeviceTopicSegments(l2, z2);
  }

  /** What a listener does with one event: at most one envelope, or a log line. */
  datatype Reaction = Reaction(sent: Option<Envelope>, logs: seq<Log>)

  const Ignored: Reaction := Reaction(None, [])

  function FirstPanel(devices: seq<Device>): (r: Option<nat>)
    ensures r.Some? ==> r.value < |devices| && devices[r.value].deviceType == SecurityPanel
    ensures r.Some? ==> forall j :: 0 <= j < r.value ==> devices[j].deviceType != SecurityPanel
    ensures r.None? ==> forall j :: 0 <= j < |devices| ==> devices[j].deviceType != SecurityPanel
    decreases |devices|
  {
    if |devices| == 0 then None
    else if devices[0].deviceType == SecurityPanel then Some(0)
    else match FirstPanel(devices[1..])
      case None => None
      case Some(i) => Some(i + 1)
  }

  function FirstWithZid(devices: seq<Device>, zid: string): (r: Option<nat>)
    ensures r.Some? ==> r.value < |devices| && devices[r.value].zid == zid
    ensures r.Some? ==> forall j :: 0 <= j < r.value ==> devices[j].zid != zid
    ensures r.None? ==> forall j :: 0 <= j < |devices| ==> devices[j].zid != zid
    decreases |devices|
  {
    if |devices| == 0 then None
    else if devices[0].zid == zid then Some(0)
    else match FirstWithZid(devices[1..], zid)
      case None => None
      case Some(i) => Some(i + 1)
  }

  /**
   * `Alarm Mode Listener`: a security-panel update triggers a device read and
   * sends the data of the first security-panel device; other updates are
   * dropped without a read. No panel device makes `device.data` throw, which
   * the catch logs.
   */
  function PanelReaction(location: Location, update: DeviceData, devices: Call<seq<Device>>): (r: Reaction)
    ensures update.deviceType != SecurityPanel ==> r == Ignored
    ensures r.sent.Some? ==>
              && update.deviceType == SecurityPanel && devices.Resolved?
              && r.sent.value.topic == Some(PanelTopic(location.id, update.zid))
              && FirstPanel(devices.value).Some?
              && r.sent.value.payload == PanelPayload(devices.value[FirstPanel(devices.value).value].data)
    ensures update.deviceType == SecurityPanel ==>
              (r.sent.Some? <==> devices.Resolved? && FirstPanel(devices.value).Some?)
    ensures update.deviceType == SecurityPanel && r.sent.None? ==> r.logs == [RemoteError]
    ensures r.sent.Some? ==> r.logs == []
  {
    if update.deviceType != SecurityPanel then Ignored
    else match devices
      case Rejected => Reaction(None, [RemoteError])
      case Resolved(ds) =>
        match FirstPanel(ds)
        case None => Reaction(None, [RemoteError])
        case Some(i) => Reaction(Some(Envelope(Some(PanelTopic(location.id, update.zid)), PanelPayload(ds[i].data))), [])
  }

  /** The Device Listener's filter: a fault indicator is present or the tamper status is truthy. */
  predicate DeviceForwards(update: DeviceData) {
    update.faulted.Some? || TruthyText(update.tamperStatus)
  }

  /**
   * `Device Listener`: every update triggers a device read; the update is
   * forwarded only when it passes the filter, with the data of the device
   * whose zid it names and the location's `locationId`.
   */
  function DeviceReaction(location: Location, update: DeviceData, devices: Call<seq<Device>>): (r: Reaction)
    ensures !DeviceForwards(update) ==> r.sent.None?
    ensures !DeviceForwards(update) && devices.Resolved? ==> r == Ignored
    ensures r.sent.Some? ==>
              && DeviceForwards(update) && devices.Resolved?
              && FirstWithZid(devices.value, update.zid).Some?
              && r.sent.value.topic == Some(DeviceTopic(location.id, update.zid))
              && r.sent.value.payload ==
                   DevicePayload(location.locationId, devices.value[FirstWithZid(devices.value, update.zid).value].data)
    ensures DeviceForwards(update) && devices.Resolved? ==>
              (r.sent.Some? <==> FirstWithZid(devices.value, update.zid).Some?)
    ensures devices.Rejected? ==> r == Reaction(None, [RemoteError])
    ensures DeviceForwards(update) && r.sent.None? ==> r.logs == [RemoteError]
    ensures r.sent.Some? ==> r.logs == []
  {
    match devices
    case Rejected => Reaction(None, [RemoteError])
    case Resolved(ds) =>
      if !DeviceForwards(update) then Ignored
      else match FirstWithZid(ds, update.zid)
        case None => Reaction(None, [RemoteError])
        case Some(i) => Reaction(Some(Envelope(Some(DeviceTopic(location.id, update.zid)), DevicePayload(location.locationId, ds[i].data))), [])
  }

  /**
   * `Camera Motion`: every motion event is sent, joined with the camera data
   * the camera object holds when the event arrives.
   */
  function MotionEnvelope(location: Location, camAtEvent: Camera, motion: bool): (e: Envelope)
    ensures e.topic == Some(MotionTopic(location.id, camAtEvent.id))
    ensures e.payload.MotionPayload? && e.payload.cameraData == camAtEvent.data && e.payload.motion == motion
  {
    Envelope(Some(MotionTopic(location.id, camAtEvent.id)), MotionPayload(camAtEvent.data, motion))
  }

  /** `devices.filter(d => alarmInfo.faultedDevices.includes(d.id)).map(d => d.data)`. */
  function TriggeredDevices(devices: seq<Device>, faultedIds: seq<string>): (r: seq<DeviceData>)
    ensures |r| <= |devices|
    ensures forall x :: x in r ==> exists d :: d in devices && d.id in faultedIds && d.data == x
    ensures forall d :: d in devices && d.id in faultedIds ==> d.data in r
    decreases |devices|
  {
    if |devices| == 0 then []
    else
      var rest := TriggeredDevices(devices[1..], faultedIds);
      assert forall d :: d in devices[1..] ==> d in devices;
      assert forall d :: d in devices ==> d == devices[0] || d in devices[1..];
      if devices[0].id in faultedIds then [devices[0].data] + rest else rest
  }

  /** The join keeps device order: it distributes over concatenation. */
  lemma {:induction false} TriggeredDevicesAppend(a: seq<Device>, b: seq<Device>, faultedIds: seq<string>)
    ensures TriggeredDevices(a + b, faultedIds) == TriggeredDevices(a, faultedIds) + TriggeredDevices(b, faultedIds)
    decreases |a|
  {
    if |a| == 0 {
      assert a + b == b;
    } else {
      assert (a + b)[0] == a[0];
      assert (a + b)[1..] == a[1..] + b;
      TriggeredDevicesAppend(a[1..], b, faultedIds);
    }
  }

  /**
   * `Alarm Status`: panel data with alarm info is sent with the location and
   * the data of the devices the info names as faulted (its own list of ids
   * is overwritten); panel data without alarm info is dropped.
   */
  function AlarmStatusEnvelope(location: Location, devices: seq<Device>, panelData: DeviceData): (r: Option<Envelope>)
    ensures r.Some? <==> panelData.alarmInfo.Some?
    ensures r.Some? ==> r.value.topic.None?
    ensures r.Some? ==>
              r.value.payload ==
                AlarmPayload(location.locationId, location.name, panelData.alarmInfo.value.state,
                             TriggeredDevices(devices, panelData.alarmInfo.value.faultedDevices))
  {
    match panelData.alarmInfo
    case None => None
    case Some(info) =>
      Some(Envelope(None, AlarmPayload(location.locationId, location.name, info.state,
                                       TriggeredDevices(devices, info.faultedDevices))))
  }

  /** The streams the nodes subscribe to; each subscription gets a close handler. */
  datatype Source =
    | DeviceStream(locationId: string)                  // location.onDeviceDataUpdate
    | MotionStream(locationId: string, cameraId: string) // cam.onMotionDetected
    | PanelStream(locationId: string)                   // the security panel's onData

  /** One device stream per location, in location order (panel and device listeners). */
  function DeviceStreams(locations: seq<Location>): (r: seq<Source>)
    ensures |r| == |locations|
    ensures forall i :: 0 <= i < |locations| ==> r[i] == DeviceStream(locations[i].id)
  {
    seq(|locations|, i requires 0 <= i < |locations| => DeviceStream(locations[i].id))
  }

  /** One motion stream per camera of the location, in camera order. */
  function CameraStreams(location: Location): (r: seq<Source>)
    ensures |r| == |location.cameras|
    ensures forall i :: 0 <= i < |r| ==> r[i] == MotionStream(location.id, location.cameras[i].id)
    ensures forall s :: s in r ==> exists c :: c in location.cameras && s == MotionStream(location.id, c.id)
  {
    var r := seq(|location.cameras|, i requires 0 <= i < |location.cameras| => MotionStream(location.id, location.cameras[i].id));
    assert forall s :: s in r ==> exists c :: c in location.cameras && s == MotionStream(location.id, c.id) by {
      forall s | s in r
        ensures exists c :: c in location.cameras && s == MotionStream(location.id, c.id)
      {
        var k :| 0 <= k < |r| && r[k] == s;
        assert location.cameras[k] in location.cameras;
      }
    }
    r
  }

  /** One motion stream per camera of each location, locations and cameras in order. */
  function MotionStreams(locations: seq<Location>): (r: seq<Source>)
    ensures forall s :: s in r ==> s.MotionStream?
    ensures forall l, c :: l in locations && c in l.cameras ==> MotionStream(l.id, c.id) in r
    ensures forall s :: s in r ==> exists l, c :: l in locations && c in l.cameras && s == MotionStream(l.id, c.id)
    decreases |locations|
  {
    if |locations| == 0 then []
    else
      var rest := MotionStreams(locations[1..]);
      assert forall l :: l in locations[1..] ==> l in locations;
      assert forall l :: l in locations ==> l == locations[0] || l in locations[1..];
      assert forall c :: c in locations[0].cameras ==> MotionStream(locations[0].id, c.id) in CameraStreams(locations[0]) by {
        forall c | c in locations[0].cameras
          ensures MotionStream(locations[0].id, c.id) in CameraStreams(locations[0])
        {
          var k :| 0 <= k < |locations[0].cameras| && locations[0].cameras[k] == c;
          assert CameraStreams(locations[0])[k] == MotionStream(locations[0].id, c.id);
        }
      }
      CameraStreams(locations[0]) + rest
  }

  /** The streams of two runs of locations are those of the first run followed by those of the second. */
  lemma {:induction false} MotionStreamsAppend(a: seq<Location>, b: seq<Location>)
    ensures MotionStreams(a + b) == MotionStreams(a) + MotionStreams(b)
    decreases |a|
  {
    if |a| == 0 {
      assert a + b == b;
    } else {
      assert (a + b)[0] == a[0];
      assert (a + b)[1..] == a[1..] + b;
      MotionStreamsAppend(a[1..], b);
    }
  }

  /** The streams of one location are exactly its camera streams. */
  lemma MotionStreamsSingle(l: Location)
    ensures MotionStreams([l]) == CameraStreams(l)
  {
    assert [l][1..] == [];
  }

  /** The listener kinds that fan out over the streams of every location. */
  datatype Listener = PanelListener | DeviceListener | MotionListener

  /** What a listener does on the token-fetched signal. */
  datatype Plan = Plan(streams: seq<Source>, status: Option<Status>)

  /**
   * With a client: read the locations, subscribe to each stream and show
   * "connected" (a rejected read is unhandled and leaves the status as it
   * was); without one: show "no credentials".
   */
  function ListenerAttach(kind: Listener, hasApi: bool, locations: Call<seq<Location>>): (p: Plan)
    ensures !hasApi ==> p == Plan([], Some(NoCredentials))
    ensures hasApi && locations.Rejected? ==> p == Plan([], None)
    ensures hasApi && locations.Resolved? ==> p.status == Some(Connected)
    ensures hasApi && locations.Resolved? && kind != MotionListener ==> p.streams == DeviceStreams(locations.value)
    ensures hasApi && locations.Resolved? && kind == MotionListener ==> p.streams == MotionStreams(locations.value)
  {
    if !hasApi then Plan([], Some(NoCredentials))
    else match locations
      case Rejected => Plan([], None)
      case Resolved(ls) =>
        Plan(if kind == MotionListener then MotionStreams(ls) else DeviceStreams(ls), Some(Connected))
  }

  /** The panel-data streams `Alarm Status` subscribes to: one per location whose device read finds a panel. */
  function PanelStreams(locations: seq<Location>, devices: seq<Call<seq<Device>>>): (r: seq<Source>)
    requires |devices| == |locations|
    ensures |r| <= |locations|
    ensures forall i :: 0 <= i < |locations| && devices[i].Resolved? && FirstPanel(devices[i].value).Some? ==>
              PanelStream(locations[i].id) in r
    ensures forall s :: s in r ==>
              exists i :: 0 <= i < |locations| && devices[i].Resolved? && FirstPanel(devices[i].value).Some?
                          && s == PanelStream(locations[i].id)
    decreases |locations|
  {
    if |locations| == 0 then []
    else
      var rest := PanelStreams(locations[1..], devices[1..]);
      assert forall s :: s in rest ==>
               exists i :: 1 <= i < |locations| && devices[i].Resolved? && FirstPanel(devices[i].value).Some?
                           && s == PanelStream(locations[i].id) by {
        forall s | s in rest
          ensures exists i :: 1 <= i < |locations| && devices[i].Resolved? && FirstPanel(devices[i].value).Some?
                              && s == PanelStream(locations[i].id)
        {
          var j :| 0 <= j < |locations| - 1 && devices[1..][j].Resolved? && FirstPanel(devices[1..][j].value).Some?
                   && s == PanelStream(locations[1..][j].id);
          assert devices[j + 1] == devices[1..][j] && locations[j + 1] == locations[1..][j];
        }
      }
      assert forall i :: 1 <= i < |locations| ==> devices[i] == devices[1..][i - 1] && locations[i] == locations[1..][i - 1];
      if devices[0].Resolved? && FirstPanel(devices[0].value).Some? then [PanelStream(locations[0].id)] + rest
      else rest
  }

  /** The panel streams of two runs of locations are those of the first run followed by those of the second. */
  lemma {:induction false} PanelStreamsAppend(a: seq<Location>, b: seq<Location>, da: seq<Call<seq<Device>>>, db: seq<Call<seq<Device>>>)
    requires |da| == |a| && |db| == |b|
    ensures PanelStreams(a + b, da + db) == PanelStreams(a, da) + PanelStreams(b, db)
    decreases |a|
  {
    if |a| == 0 {
      assert a + b == b && da + db == db;
    } else {
      assert (a + b)[0] == a[0] && (da + db)[0] == da[0];
      assert (a + b)[1..] == a[1..] + b && (da + db)[1..] == da[1..] + db;
      PanelStreamsAppend(a[1..], b, da[1..], db);
    }
  }

  /** One location contributes its panel stream exactly once when its device read finds a panel, and nothing otherwise. */
  lemma PanelStreamsSingle(l: Location, d: Call<seq<Device>>)
    ensures PanelStreams([l], [d]) == if d.Resolved? && FirstPanel(d.value).Some? then [PanelStream(l.id)] else []
  {
    assert [l][1..] == [] && [d][1..] == [];
  }

  /**
   * `Alarm Status` on token-fetched: with a client, "connected" is shown for
   * every location (whatever its device read does) and each location's panel
   * data is subscribed; a location with no panel makes `.onData` throw in an
   * unhandled chain, so it gets no subscription. Without a client the node
   * does nothing: it has no "no credentials" branch.
   */
  function AlarmStatusAttach(hasApi: bool, locations: Call<seq<Location>>, devices: seq<Call<seq<Device>>>): (p: Plan)
    requires locations.Resolved? ==> |devices| == |locations.value|
    ensures !hasApi || locations.Rejected? ==> p == Plan([], None)
    ensures hasApi && locations.Resolved? ==>
              && p.streams == PanelStreams(locations.value, devices)
              && (p.status == Some(Connected) <==> |locations.value| > 0)
              && (p.status.None? <==> |locations.value| == 0)
  {
    if !hasApi then Plan([], None)
    else match locations
      case Rejected => Plan([], None)
      case Resolved(ls) =>
        Plan(PanelStreams(ls, devices), if |ls| > 0 then Some(Connected) else None)
  }
}
