/**
 * The presentation side of the `Alarm Mode` node: the raw remote mode mapped
 * to arm/home/disarm, the status it shows, the mode read that falls back to
 * the legacy location mode, the location lookup and the "not found" report.
 */
module AlarmMode {
  import opened RingTypes

  datatype Mode = Arm | Home | Disarm

  /** The raw mode read from the remote side, mapped by strict comparison. */
  function FromRaw(raw: string): (m: Mode)
    ensures m == Arm <==> raw == "all"
    ensures m == Home <==> raw == "some"
    ensures m == Disarm <==> raw != "all" && raw != "some"
  {
    if raw == "all" then Arm else if raw == "some" then Home else Disarm
  }

  function Name(m: Mode): string {
    match m
    case Arm => "arm"
    case Home => "home"
    case Disarm => "disarm"
  }

  function FillOf(m: Mode): Fill {
    if m == Disarm then Grey else if m == Home then Yellow else Red
  }

  /** The status shown for a location whose raw mode was read as `raw`. */
  function StatusOf(locationName: string, raw: string): (s: Status)
    ensures s.fill == Grey <==> raw != "all" && raw != "some"
    ensures s.fill == Yellow <==> raw == "some"
    ensures s.fill == Red <==> raw == "all"
    ensures |s.text| > |locationName| + 2 && s.text[..|locationName|] == locationName
    ensures s.text[|locationName|..|locationName| + 2] == ": "
    ensures s.text[|locationName| + 2..] == Name(FromRaw(raw))
  {
    var m := FromRaw(raw);
    Status(FillOf(m), locationName + ": " + Name(m))
  }

  /**
   * The status text alone tells which mode a location is in: two reads
   * with the same text under the same name map to the same mode.
   */
  lemma StatusTextDeterminesMode(locationName: string, raw1: string, raw2: string)
    requires StatusOf(locationName, raw1).text == StatusOf(locationName, raw2).text
    ensures FromRaw(raw1) == FromRaw(raw2)
    ensures StatusOf(locationName, raw1) == StatusOf(locationName, raw2)
  {
  }

  /**
   * Mapping is not meant to be re-applied: each presentation name, mapped
   * again as if it were raw, reads as disarm.
   */
  lemma NamesAreNotRaw(m: Mode)
    ensures FromRaw(Name(m)) == Disarm
  {
  }

  /** The remote reads the node makes, in the order it makes them. */
  datatype Read = GetAlarmMode | GetLocationMode

  /** What one read-and-show of the mode does. */
  datatype Refresh = Refresh(made: seq<Read>, status: Option<Status>, logs: seq<Log>)

  /**
   * `getAlarmMode().catch(getLocationMode).then(show).catch(log)`: the legacy
   * read is made only when the primary one rejects, and the status is shown
   * from whichever read fulfilled.
   */
  function ReadAndShow(locationName: string, primary: Call<string>, legacy: Call<string>): (r: Refresh)
    ensures primary.Resolved? ==> r.made == [GetAlarmMode] && r.logs == []
    ensures primary.Rejected? ==> r.made == [GetAlarmMode, GetLocationMode]
    ensures r.status.Some? <==> primary.Resolved? || legacy.Resolved?
    ensures primary.Resolved? ==> r.status == Some(StatusOf(locationName, primary.value))
    ensures primary.Rejected? && legacy.Resolved? ==>
              r.status == Some(StatusOf(locationName, legacy.value)) && r.logs == []
    ensures r.status.None? ==> r.logs == [RemoteError]
  {
    var settled: Call<string> := if primary.Resolved? then primary else legacy;
    var made := if primary.Resolved? then [GetAlarmMode] else [GetAlarmMode, GetLocationMode];
    match settled
    case Resolved(mode) => Refresh(made, Some(StatusOf(locationName, mode)), [])
    case Rejected => Refresh(made, None, [RemoteError])
  }

  /** A device-data update re-runs the read only for a security-panel update. */
  function OnDeviceUpdate(locationName: string, update: DeviceData, primary: Call<string>, legacy: Call<string>): (r: Refresh)
    ensures update.deviceType != SecurityPanel ==> r == Refresh([], None, [])
    ensures update.deviceType == SecurityPanel ==> r == ReadAndShow(locationName, primary, legacy)
  {
    if update.deviceType == SecurityPanel then ReadAndShow(locationName, primary, legacy)
    else Refresh([], None, [])
  }

  /** Which field a lookup compares with the configured id. */
  datatype Key = ByLocationId | ById

  function KeyOf(l: Location, k: Key): string {
    match k
    case ByLocationId => l.locationId
    case ById => l.id
  }

  /** `locations.find(l => key(l) === want)`, as the index of the first match. */
  function Find(locations: seq<Location>, k: Key, want: string): (r: Option<nat>)
    ensures r.Some? ==> r.value < |locations| && KeyOf(locations[r.value], k) == want
    ensures r.Some? ==> forall j :: 0 <= j < r.value ==> KeyOf(locations[j], k) != want
    ensures r.None? ==> forall j :: 0 <= j < |locations| ==> KeyOf(locations[j], k) != want
    decreases |locations|
  {
    if |locations| == 0 then None
    else if KeyOf(locations[0], k) == want then Some(0)
    else match Find(locations[1..], k, want)
      case None => None
      case Some(i) => Some(i + 1)
  }

  /** One entry of the "not found" report: `"<id> (<name>)"`. */
  function Choice(l: Location): string {
    l.id + " (" + l.name + ")"
  }

  /** `items.join(", ")`. */
  function Join(items: seq<string>): string
    decreases |items|
  {
    if |items| == 0 then ""
    else if |items| == 1 then items[0]
    else items[0] + ", " + Join(items[1..])
  }

  /** Joining one more item appends the separator and the item. */
  lemma {:induction false} JoinSnoc(items: seq<string>, x: string)
    requires |items| > 0
    ensures Join(items + [x]) == Join(items) + ", " + x
    decreases |items|
  {
    if |items| == 1 {
      assert items + [x] == [items[0], x];
      assert Join([x]) == x;
    } else {
      assert (items + [x])[1..] == items[1..] + [x];
      JoinSnoc(items[1..], x);
    }
  }

  function Entries(locations: seq<Location>): (e: seq<string>)
    ensures |e| == |locations| && forall i :: 0 <= i < |locations| ==> e[i] == Choice(locations[i])
  {
    seq(|locations|, i requires 0 <= i < |locations| => Choice(locations[i]))
  }

  /** The text listing the locations: each as `"<id> (<name>)"`, separated by ", ". */
  function Choices(locations: seq<Location>): string {
    Join(Entries(locations))
  }

  /** The report names no location when there is none, and exactly the one when there is one. */
  lemma ChoicesSmall(locations: seq<Location>)
    ensures |locations| == 0 ==> Choices(locations) == ""
    ensures |locations| == 1 ==> Choices(locations) == Choice(locations[0])
  {
  }

  /** The report for one more location is the old report, the separator and the new entry. */
  lemma ChoicesSnoc(locations: seq<Location>, l: Location)
    requires |locations| > 0
    ensures Choices(locations + [l]) == Choices(locations) + ", " + Choice(l)
  {
    assert Entries(locations + [l]) == Entries(locations) + [Choice(l)];
    JoinSnoc(Entries(locations), Choice(l));
  }

  /** What attaching the node to its location does. */
  datatype Attached = Attached(
    statuses: seq<Status>,
    made: seq<Read>,
    logs: seq<Log>,
    subscribed: Option<string>)  // the id of the location whose device stream is subscribed

  const LocationNotFound: Status := Status(Red, "Location not found")

  /**
   * On token-fetched: find the configured location by `locationId`; show its
   * mode and subscribe to its device stream, or report it not found, listing
   * the choices, with no read and no subscription.
   */
  function Attach(configured: string, locations: Call<seq<Location>>, primary: Call<string>, legacy: Call<string>): (a: Attached)
    ensures locations.Rejected? ==> a == Attached([], [], [RemoteError], None)
    ensures locations.Resolved? && Find(locations.value, ByLocationId, configured).None? ==>
              a == Attached([LocationNotFound], [], [SelectLocation(Choices(locations.value))], None)
    ensures locations.Resolved? && Find(locations.value, ByLocationId, configured).Some? ==>
              var l := locations.value[Find(locations.value, ByLocationId, configured).value];
              && l.locationId == configured
              && a.subscribed == Some(l.id)
              && a.made == ReadAndShow(l.name, primary, legacy).made
              && a.logs == ReadAndShow(l.name, primary, legacy).logs
              && a.statuses == (match ReadAndShow(l.name, primary, legacy).status
                                case Some(s) => [s]
                                case None => [])
  {
    match locations
    case Rejected => Attached([], [], [RemoteError], None)
    case Resolved(ls) =>
      match Find(ls, ByLocationId, configured)
      case None => Attached([LocationNotFound], [], [SelectLocation(Choices(ls))], None)
      case Some(i) =>
        var r := ReadAndShow(ls[i].name, primary, legacy);
        Attached(if r.status.Some? then [r.status.value] else [], r.made, r.logs, Some(ls[i].id))
  }
}
