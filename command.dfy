/**
 * The input side of the `Alarm Mode` node: a message payload is mapped to an
 * intent, the bypass list is computed from a fresh device list, the primary
 * command is issued and, when it rejects, one legacy `setLocationMode`
 * fallback; `done()` is called as the promise chain of the node calls it.
 */
module Command {
  import opened RingTypes
  import AlarmMode

  datatype Intent = ArmHome | ArmAway | DisarmAll

  /** The payload aliases of the switch statement; anything else is no intent. */
  function ParseIntent(payload: Option<string>): (i: Option<Intent>)
    ensures i == Some(ArmHome) <==> payload == Some("some") || payload == Some("home")
    ensures i == Some(ArmAway) <==> payload == Some("all") || payload == Some("arm")
    ensures i == Some(DisarmAll) <==> payload == Some("none") || payload == Some("disarm")
  {
    match payload
    case None => None
    case Some(p) =>
      if p == "some" || p == "home" then Some(ArmHome)
      else if p == "all" || p == "arm" then Some(ArmAway)
      else if p == "none" || p == "disarm" then Some(DisarmAll)
      else None
  }

  /** A falsy payload names no intent. */
  lemma FalsyPayloadIsInvalid(payload: Option<string>)
    requires !TruthyText(payload)
    ensures ParseIntent(payload).None?
  {
  }

  /** The argument of `setLocationMode` used as the fallback for an intent. */
  function LegacyMode(i: Intent): string {
    match i
    case ArmHome => "home"
    case ArmAway => "away"
    case DisarmAll => "disarmed"
  }

  /** The three fallback modes are distinct. */
  lemma LegacyModeInjective(a: Intent, b: Intent)
    ensures LegacyMode(a) == LegacyMode(b) ==> a == b
  {
  }

  /**
   * The value passed as `devicesToIgnore`: the list of zids when bypass is
   * configured (truthy); otherwise `config.bypass && ...` evaluates to the
   * falsy flag itself, which is passed in place of a list.
   */
  datatype Bypass = Zids(zids: seq<string>) | FalsyFlag(flag: string)

  predicate Faulted(d: Device) {
    TruthyFlag(d.data.faulted)
  }

  /** `devices.filter(d => d.data.faulted).map(d => d.data.zid)`. */
  function FaultedZids(devices: seq<Device>): (r: seq<string>)
    ensures |r| <= |devices|
    ensures forall z :: z in r <==> exists d :: d in devices && Faulted(d) && d.data.zid == z
    decreases |devices|
  {
    if |devices| == 0 then []
    else
      var rest := FaultedZids(devices[1..]);
      assert forall d :: d in devices[1..] ==> d in devices;
      assert forall d :: d in devices ==> d == devices[0] || d in devices[1..];
      if Faulted(devices[0]) then [devices[0].data.zid] + rest else rest
  }

  /** The list keeps device order: it distributes over concatenation. */
  lemma {:induction false} FaultedZidsAppend(a: seq<Device>, b: seq<Device>)
    ensures FaultedZids(a + b) == FaultedZids(a) + FaultedZids(b)
    decreases |a|
  {
    if |a| == 0 {
      assert a + b == b;
    } else {
      assert (a + b)[0] == a[0];
      assert (a + b)[1..] == a[1..] + b;
      FaultedZidsAppend(a[1..], b);
    }
  }

  /** With no device faulted nothing is bypassed, and with every device faulted every zid is. */
  lemma {:induction false} FaultedZidsExtremes(devices: seq<Device>)
    ensures (forall d :: d in devices ==> !Faulted(d)) ==> FaultedZids(devices) == []
    ensures (forall d :: d in devices ==> Faulted(d)) ==>
              FaultedZids(devices) == seq(|devices|, i requires 0 <= i < |devices| => devices[i].data.zid)
    decreases |devices|
  {
    if |devices| > 0 {
      FaultedZidsExtremes(devices[1..]);
      assert forall d :: d in devices[1..] ==> d in devices;
      var all := seq(|devices|, i requires 0 <= i < |devices| => devices[i].data.zid);
      var tail := seq(|devices| - 1, i requires 0 <= i < |devices| - 1 => devices[1..][i].data.zid);
      assert all == [devices[0].data.zid] + tail;
    }
  }

  /** `config.bypass && devices.filter(...).map(...)`, computed from the devices of this input. */
  function BypassFor(flag: string, devices: seq<Device>): (b: Bypass)
    ensures b.Zids? <==> flag != ""
    ensures b.Zids? ==> b.zids == FaultedZids(devices)
    ensures b.FalsyFlag? ==> b.flag == flag
  {
    if flag != "" then Zids(FaultedZids(devices)) else FalsyFlag(flag)
  }

  /** The remote commands the node can issue. */
  datatype Command =
    | ArmHomeCmd(bypass: Bypass)   // location.armHome(devicesToIgnore)
    | ArmAwayCmd(bypass: Bypass)   // location.armAway(devicesToIgnore)
    | DisarmCmd                    // location.disarm()
    | SetLocationMode(mode: string)

  function PrimaryCommand(i: Intent, bypass: Bypass): (c: Command)
    ensures i == ArmHome <==> c == ArmHomeCmd(bypass)
    ensures i == ArmAway <==> c == ArmAwayCmd(bypass)
    ensures i == DisarmAll <==> c == DisarmCmd
  {
    match i
    case ArmHome => ArmHomeCmd(bypass)
    case ArmAway => ArmAwayCmd(bypass)
    case DisarmAll => DisarmCmd
  }

  /**
   * One case of the switch:
   * `primary.then(done).catch(e => { log; return setLocationMode(m) }).then(done).catch(log)`.
   * `settled` holds whether the chain's current promise is fulfilled.
   */
  method RunIntent(i: Intent, bypass: Bypass, primary: Call<()>, fallback: Call<()>)
    returns (commands: seq<Command>, done: nat, logs: seq<Log>)
    ensures |commands| >= 1 && commands[0] == PrimaryCommand(i, bypass)
    ensures primary.Resolved? ==> commands == [PrimaryCommand(i, bypass)] && done == 2 && logs == []
    ensures primary.Rejected? ==> commands == [PrimaryCommand(i, bypass), SetLocationMode(LegacyMode(i))]
    ensures primary.Rejected? && fallback.Resolved? ==> done == 1 && logs == [RemoteError]
    ensures primary.Rejected? && fallback.Rejected? ==> done == 0 && logs == [RemoteError, RemoteError]
  {
    commands := [PrimaryCommand(i, bypass)];
    done := 0;
    logs := [];
    var settled := primary.Resolved?;
    // .then(res => done())
    if settled {
      done := done + 1;
    }
    // .catch(e => { log; return location.setLocationMode(...) })
    if !settled {
      logs := logs + [RemoteError];
      commands := commands + [SetLocationMode(LegacyMode(i))];
      settled := fallback.Resolved?;
    }
    // .then(res => done())
    if settled {
      done := done + 1;
    }
    // .catch(e => log)
    if !settled {
      logs := logs + [RemoteError];
    }
  }

  /** The node's reads on the way to a command. */
  datatype Query = GetLocations | GetDevices(locationId: string)

  /**
   * One input message. The location is looked up by `id` (the attach path
   * uses `locationId`); a missing location makes `location.getDevices()`
   * throw inside the chain, which the outer catch logs. A rejected device
   * read is not caught by any handler.
   */
  method HandleInput(
    configured: string, bypassFlag: string, payload: Option<string>,
    locations: Call<seq<Location>>, devices: Call<seq<Device>>,
    primary: Call<()>, fallback: Call<()>)
    returns (queries: seq<Query>, commands: seq<Command>, done: nat, logs: seq<Log>)
    ensures |commands| <= 2 && done <= 2
    ensures queries != [] && queries[0] == GetLocations
    ensures !TruthyText(payload) ==> logs != [] && logs[0] == InvalidMode(payload)
    ensures ParseIntent(payload).None? ==> commands == [] && done == 0
    ensures commands != [] ==>
              && locations.Resolved? && devices.Resolved?
              && AlarmMode.Find(locations.value, AlarmMode.ById, configured).Some?
              && ParseIntent(payload).Some?
              && commands[0] == PrimaryCommand(ParseIntent(payload).value, BypassFor(bypassFlag, devices.value))
    ensures locations.Resolved? && devices.Resolved? && ParseIntent(payload).Some?
            && AlarmMode.Find(locations.value, AlarmMode.ById, configured).Some? ==>
              && queries == [GetLocations, GetDevices(configured)]
              && (primary.Resolved? ==> |commands| == 1 && done == 2)
              && (primary.Rejected? ==> |commands| == 2 && commands[1] == SetLocationMode(LegacyMode(ParseIntent(payload).value)))
              && (primary.Rejected? && fallback.Resolved? ==> done == 1)
              && (primary.Rejected? && fallback.Rejected? ==> done == 0)
              && logs == (if TruthyText(payload) then [] else [InvalidMode(payload)])
                         + (if primary.Resolved? then []
                            else if fallback.Resolved? then [RemoteError]
                            else [RemoteError, RemoteError])
    ensures locations.Rejected? ==>
              queries == [GetLocations] && commands == [] && done == 0
              && logs == (if TruthyText(payload) then [] else [InvalidMode(payload)]) + [RemoteError]
    ensures commands == [] ==> done == 0
    ensures locations.Resolved? && AlarmMode.Find(locations.value, AlarmMode.ById, configured).None? ==>
              queries == [GetLocations] && commands == [] && logs == (if TruthyText(payload) then [] else [InvalidMode(payload)]) + [RemoteError]
    ensures locations.Resolved? && AlarmMode.Find(locations.value, AlarmMode.ById, configured).Some? ==>
              queries == [GetLocations, GetDevices(configured)]
    ensures locations.Resolved? && AlarmMode.Find(locations.value, AlarmMode.ById, configured).Some? && devices.Rejected? ==>
              commands == [] && done == 0 && logs == (if TruthyText(payload) then [] else [InvalidMode(payload)]) + [UnhandledRejection]
    ensures locations.Resolved? && devices.Resolved? && AlarmMode.Find(locations.value, AlarmMode.ById, configured).Some?
            && ParseIntent(payload).None? ==>
              logs == (if TruthyText(payload) then [] else [InvalidMode(payload)]) + [InvalidMode(payload)]
  {
    queries := [GetLocations];
    commands := [];
    done := 0;
    logs := [];
    if !TruthyText(payload) {
      logs := logs + [InvalidMode(payload)];
    }
    if locations.Rejected? {
      logs := logs + [RemoteError];
      return;
    }
    var found := AlarmMode.Find(locations.value, AlarmMode.ById, configured);
    if found.None? {
      // location.getDevices() on undefined: a TypeError caught by the outer catch
      logs := logs + [RemoteError];
      return;
    }
    var location := locations.value[found.value];
    queries := queries + [GetDevices(location.id)];
    if devices.Rejected? {
      logs := logs + [UnhandledRejection];
      return;
    }
    var bypass := BypassFor(bypassFlag, devices.value);
    var intent := ParseIntent(payload);
    if intent.None? {
      logs := logs + [InvalidMode(payload)];
      return;
    }
    var c, d, l := RunIntent(intent.value, bypass, primary, fallback);
    commands, done, logs := c, d, logs + l;
  }
}
