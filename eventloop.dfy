/**
 * One iteration of the dispatch loop (switch-input.py, main_loop) and the
 * built-in configuration (populate_devices). A report read from the
 * receiver is decoded by every peripheral of every device group bound to
 * the self channel; each peripheral that names another channel triggers
 * that group's switch_channel, with no early exit.
 */
module EventLoop {
  import opened Protocol
  import opened Host
  import opened Peripheral
  import opened Monitors
  import opened Coordinator

  /** One call of Device.switch_channel: the group, the channel, the slot it came from. */
  datatype Request = Request(group: Group, channel: int, origin: int)

  /** What peripheral j of `g` decodes `report` to. */
  function Decoded(g: Group, j: int, report: seq<int>): int
    requires 0 <= j < |g.peripherals|
  {
    var p := g.peripherals[j];
    Decode(p.kind, p.detect, p.keys, report)
  }

  /** Peripheral j of `g` raises request q for `report`. */
  predicate Fires(g: Group, j: int, selfChannel: int, report: seq<int>, q: Request)
  {
    0 <= j < |g.peripherals| && Decoded(g, j, report) >= 0 && Decoded(g, j, report) != selfChannel
    && q == Request(g, Decoded(g, j, report), g.peripherals[j].slotId)
  }

  /** The requests the first k peripherals of `g` raise for `report`, in order. */
  function Detections(g: Group, k: nat, selfChannel: int, report: seq<int>): (r: seq<Request>)
    requires k <= |g.peripherals|
    ensures forall q :: q in r ==> q.group == g && q.channel >= 0 && q.channel != selfChannel
  {
    if k == 0 then []
    else
      Detections(g, k - 1, selfChannel, report)
      + (if Fires(g, k - 1, selfChannel, report, Request(g, Decoded(g, k - 1, report), g.peripherals[k - 1].slotId))
         then [Request(g, Decoded(g, k - 1, report), g.peripherals[k - 1].slotId)] else [])
  }

  /** The requests the loop body raises over the first k groups, in order. */
  function Planned(gs: seq<Group>, k: nat, selfChannel: int, report: seq<int>): (r: seq<Request>)
    requires k <= |gs|
    ensures forall q :: q in r ==>
      q.group in gs && q.group.unifyingChannel == selfChannel && q.channel >= 0 && q.channel != selfChannel
  {
    if k == 0 then []
    else
      var g := gs[k - 1];
      Planned(gs, k - 1, selfChannel, report)
      + (if g.unifyingChannel == selfChannel then Detections(g, |g.peripherals|, selfChannel, report) else [])
  }

  /** The effect of serving a list of requests one after another. */
  function Run(rs: seq<Request>, e: Env): (r: Env)
    requires forall q :: q in rs ==> GroupAttached(q.group, e.inputs.Keys)
    ensures r.inputs.Keys == e.inputs.Keys
  {
    if rs == [] then e
    else
      var q := rs[|rs| - 1];
      Dispatch(q.group, q.channel, q.origin, Run(rs[..|rs| - 1], e))
  }

  /** Serving one more request is one more Dispatch. */
  lemma RunSnoc(rs: seq<Request>, q: Request, e: Env)
    requires forall r :: r in rs + [q] ==> GroupAttached(r.group, e.inputs.Keys)
    ensures Run(rs + [q], e) == Dispatch(q.group, q.channel, q.origin, Run(rs, e))
  {
    assert (rs + [q])[..|rs|] == rs;
  }

  /** Peripheral j's contribution to Detections. */
  lemma DetectionsStep(g: Group, j: nat, selfChannel: int, report: seq<int>)
    requires j < |g.peripherals|
    ensures Detections(g, j + 1, selfChannel, report)
      == Detections(g, j, selfChannel, report)
         + (if Decoded(g, j, report) >= 0 && Decoded(g, j, report) != selfChannel
            then [Request(g, Decoded(g, j, report), g.peripherals[j].slotId)] else [])
  {
  }

  lemma {:induction false} RunAppend(a: seq<Request>, b: seq<Request>, e: Env)
    requires forall q :: q in a + b ==> GroupAttached(q.group, e.inputs.Keys)
    ensures Run(a + b, e) == Run(b, Run(a, e))
  {
    if b == [] {
      assert a + b == a;
    } else {
      var n := |b| - 1;
      var q := b[n];
      assert a + b == (a + b[..n]) + [q];
      assert b == b[..n] + [q];
      RunAppend(a, b[..n], e);
      RunSnoc(a + b[..n], q, e);
      RunSnoc(b[..n], q, Run(a, e));
    }
  }

  /** The first k peripherals of `g` raise q exactly when one of them fires it. */
  lemma {:induction false} DetectionsExactly(g: Group, k: nat, selfChannel: int, report: seq<int>, q: Request)
    requires k <= |g.peripherals|
    ensures q in Detections(g, k, selfChannel, report) <==> exists j :: 0 <= j < k && Fires(g, j, selfChannel, report, q)
  {
    if k > 0 {
      DetectionsExactly(g, k - 1, selfChannel, report, q);
    }
  }

  /**
   * A request is raised exactly when some peripheral of a group bound to
   * the self channel decodes the report to a channel that is neither
   * negative nor the self channel; its origin is that peripheral's slot.
   */
  lemma {:induction false} PlannedExactly(gs: seq<Group>, k: nat, selfChannel: int, report: seq<int>, q: Request)
    requires k <= |gs|
    ensures q in Planned(gs, k, selfChannel, report) <==>
      exists gi, j :: 0 <= gi < k && gs[gi].unifyingChannel == selfChannel && Fires(gs[gi], j, selfChannel, report, q)
  {
    if k > 0 {
      PlannedExactly(gs, k - 1, selfChannel, report, q);
      var g := gs[k - 1];
      DetectionsExactly(g, |g.peripherals|, selfChannel, report, q);
      if exists gi, j :: 0 <= gi < k && gs[gi].unifyingChannel == selfChannel && Fires(gs[gi], j, selfChannel, report, q) {
        var gi, j :| 0 <= gi < k && gs[gi].unifyingChannel == selfChannel && Fires(gs[gi], j, selfChannel, report, q);
        if gi == k - 1 {
          assert q in Detections(g, |g.peripherals|, selfChannel, report);
        }
      }
    }
  }

  /** A report that no peripheral of a self-channel group decodes to another channel raises nothing. */
  lemma QuietReport(gs: seq<Group>, selfChannel: int, report: seq<int>)
    requires forall gi, j :: 0 <= gi < |gs| && gs[gi].unifyingChannel == selfChannel && 0 <= j < |gs[gi].peripherals| ==>
      Decoded(gs[gi], j, report) < 0 || Decoded(gs[gi], j, report) == selfChannel
    ensures forall q :: q !in Planned(gs, |gs|, selfChannel, report)
  {
    forall q ensures q !in Planned(gs, |gs|, selfChannel, report) {
      PlannedExactly(gs, |gs|, selfChannel, report, q);
    }
  }

  /** Every group bound to the self channel has its monitors attached. */
  predicate AttachedGroups(gs: seq<Group>, selfChannel: int, ids: set<int>)
  {
    forall g :: g in gs && g.unifyingChannel == selfChannel ==> GroupAttached(g, ids)
  }

  /** All peripherals of all groups, group by group. */
  function AllDevices(devices: seq<Device>): (r: seq<UnifyingDevice>)
    ensures forall dev, d :: dev in devices && d in dev.unifyingDevices ==> d in r
  {
    if devices == [] then []
    else AllDevices(devices[..|devices| - 1]) + devices[|devices| - 1].unifyingDevices
  }

  /** A device outside `ds` never shares a command buffer with one of `ds`. */
  lemma OutsideBuffers(all: seq<UnifyingDevice>, ds: seq<UnifyingDevice>, e: UnifyingDevice)
    requires SeparateBuffers(all) && e in all && e !in ds
    requires forall d :: d in ds ==> d in all
    ensures e.switchMessage !in Buffers(ds)
  {
  }

  /** The groups as values. */
  ghost function Views(devices: seq<Device>): (gs: seq<Group>)
    ensures |gs| == |devices| && forall i :: 0 <= i < |devices| ==> gs[i] == devices[i].View()
  {
    seq(|devices|, i requires 0 <= i < |devices| => devices[i].View())
  }

  /** What peripheral j of `g` does when `report` arrives: switch the group if it names another channel. */
  function Serve(g: Group, j: nat, selfChannel: int, report: seq<int>, e: Env): (r: Env)
    requires j < |g.peripherals| && GroupAttached(g, e.inputs.Keys)
    ensures r.inputs.Keys == e.inputs.Keys
  {
    var c := Decoded(g, j, report);
    if c >= 0 && c != selfChannel then Dispatch(g, c, g.peripherals[j].slotId, e) else e
  }

  /** Running the detections of one more peripheral is serving that peripheral. */
  lemma RunDetectionsStep(g: Group, j: nat, selfChannel: int, report: seq<int>, e: Env)
    requires j < |g.peripherals| && GroupAttached(g, e.inputs.Keys)
    ensures Run(Detections(g, j + 1, selfChannel, report), e)
      == Serve(g, j, selfChannel, report, Run(Detections(g, j, selfChannel, report), e))
  {
    var before := Detections(g, j, selfChannel, report);
    var c := Decoded(g, j, report);
    DetectionsStep(g, j, selfChannel, report);
    if c >= 0 && c != selfChannel {
      RunSnoc(before, Request(g, c, g.peripherals[j].slotId), e);
    } else {
      assert Detections(g, j + 1, selfChannel, report) == before;
    }
  }

  /** What a group does when `report` arrives: nothing unless it is bound to the self channel. */
  function Handle(g: Group, selfChannel: int, report: seq<int>, e: Env): (r: Env)
    requires g.unifyingChannel == selfChannel ==> GroupAttached(g, e.inputs.Keys)
    ensures r.inputs.Keys == e.inputs.Keys
  {
    if g.unifyingChannel == selfChannel then Run(Detections(g, |g.peripherals|, selfChannel, report), e) else e
  }

  /** Running the requests of one more group is handling that group. */
  lemma RunPlannedStep(gs: seq<Group>, i: nat, selfChannel: int, report: seq<int>, e: Env)
    requires i < |gs| && AttachedGroups(gs, selfChannel, e.inputs.Keys)
    ensures gs[i] in gs
    ensures Run(Planned(gs, i + 1, selfChannel, report), e)
      == Handle(gs[i], selfChannel, report, Run(Planned(gs, i, selfChannel, report), e))
  {
    var before := Planned(gs, i, selfChannel, report);
    var g := gs[i];
    if g.unifyingChannel == selfChannel {
      RunAppend(before, Detections(g, |g.peripherals|, selfChannel, report), e);
    } else {
      assert Planned(gs, i + 1, selfChannel, report) == before;
    }
  }

  /** The body of main_loop's inner loop for peripheral j: decode, and switch on a detection. */
  method ServePeripheral(device: Device, j: nat, selfChannel: int, readBytes: seq<int>, env: Environment)
    requires j < |device.unifyingDevices|
    requires device.Valid() && GroupAttached(device.View(), env.inputs.Keys)
    modifies env, Buffers(device.unifyingDevices)
    ensures device.Valid()
    ensures env.State() == Serve(device.View(), j, selfChannel, readBytes, old(env.State()))
  {
    var unifyingDevice := device.unifyingDevices[j];
    assert unifyingDevice.Valid() && device.View().peripherals[j] == unifyingDevice.view;
    var channelNumber := Decode(unifyingDevice.kind, unifyingDevice.switchDetectMessage, unifyingDevice.easySwitchKeys, readBytes);
    if channelNumber >= 0 {
      if channelNumber != selfChannel {
        device.SwitchChannel(channelNumber, unifyingDevice.slotId, env);
      }
    }
  }

  /**
   * The inner loop of main_loop for one group bound to the self channel:
   * decode the report with each peripheral and dispatch every detection.
   */
  method HandleGroup(device: Device, selfChannel: int, readBytes: seq<int>, env: Environment)
    requires device.Valid() && GroupAttached(device.View(), env.inputs.Keys)
    modifies env, Buffers(device.unifyingDevices)
    ensures device.Valid()
    ensures env.State() == Run(Detections(device.View(), |device.unifyingDevices|, selfChannel, readBytes), old(env.State()))
  {
    ghost var g := device.View();
    ghost var e0 := env.State();
    var j := 0;
    while j < |device.unifyingDevices|
      invariant 0 <= j <= |device.unifyingDevices|
      invariant device.Valid()
      invariant env.inputs.Keys == e0.inputs.Keys
      invariant env.State() == Run(Detections(g, j, selfChannel, readBytes), e0)
    {
      ServePeripheral(device, j, selfChannel, readBytes, env);
      RunDetectionsStep(g, j, selfChannel, readBytes, e0);
      j := j + 1;
    }
  }

  /** main_loop's outer loop body for group i: a group bound to the self channel handles the report. */
  method ServeGroup(devices: seq<Device>, i: nat, selfChannel: int, readBytes: seq<int>, env: Environment)
    requires i < |devices|
    requires forall dev :: dev in devices ==> dev.Valid()
    requires AttachedGroups(Views(devices), selfChannel, env.inputs.Keys)
    requires SeparateBuffers(AllDevices(devices))
    modifies env, Buffers(AllDevices(devices))
    ensures forall dev :: dev in devices ==> dev.Valid()
    ensures env.State() == Handle(devices[i].View(), selfChannel, readBytes, old(env.State()))
  {
    var device := devices[i];
    assert Views(devices)[i] == device.View() && Views(devices)[i] in Views(devices);
    if device.unifyingChannel == selfChannel {
      HandleGroup(device, selfChannel, readBytes, env);
      forall dev | dev in devices ensures dev.Valid() {
        forall e | e in dev.unifyingDevices ensures e.Valid() {
          if e !in device.unifyingDevices {
            OutsideBuffers(AllDevices(devices), device.unifyingDevices, e);
          }
        }
      }
    }
  }

  /** One pass of main_loop's `while True` body over an already read report. */
  method MainLoopStep(devices: seq<Device>, selfChannel: int, readBytes: seq<int>, env: Environment)
    requires forall dev :: dev in devices ==> dev.Valid()
    requires AttachedGroups(Views(devices), selfChannel, env.inputs.Keys)
    requires SeparateBuffers(AllDevices(devices))
    modifies env, Buffers(AllDevices(devices))
    ensures forall dev :: dev in devices ==> dev.Valid()
    ensures env.State() == Run(Planned(Views(devices), |devices|, selfChannel, readBytes), old(env.State()))
  {
    ghost var gs := Views(devices);
    var i := 0;
    while i < |devices|
      invariant 0 <= i <= |devices|
      invariant forall dev :: dev in devices ==> dev.Valid()
      invariant env.inputs.Keys == old(env.inputs).Keys
      invariant env.State() == Run(Planned(gs, i, selfChannel, readBytes), old(env.State()))
    {
      ServeGroup(devices, i, selfChannel, readBytes, env);
      RunPlannedStep(gs, i, selfChannel, readBytes, old(env.State()));
      i := i + 1;
    }
  }

  /**
   * The groups populate_devices builds: channel 0 and channel 1 share one
   * MX Keys at slot 1, one MX Ergo at slot 2 and the main monitor.
   */
  function FixtureGroups(): (gs: seq<Group>)
    ensures |gs| == 2 && gs[0].unifyingChannel == 0 && gs[1].unifyingChannel == 1
    ensures gs[0].peripherals == gs[1].peripherals && DistinctSlots(gs[0].peripherals)
    ensures gs[0].monitors == gs[1].monitors == [MainMonitor()]
  {
    var ps := [FromTable(MXKeys, 1), FromTable(MXErgo, 2)];
    [Group(0, ps, [MainMonitor()]), Group(1, ps, [MainMonitor()])]
  }

  /** Two devices built as populate_devices builds them have the fixture's groups as views. */
  lemma FixtureViews(pc: Device, laptop: Device, mxKeys: UnifyingDevice, mxErgo: UnifyingDevice, mainMonitor: Monitor)
    requires pc.unifyingChannel == 0 && laptop.unifyingChannel == 1
    requires pc.unifyingDevices == [mxKeys, mxErgo] && laptop.unifyingDevices == [mxKeys, mxErgo]
    requires pc.monitors == [mainMonitor] && laptop.monitors == [mainMonitor]
    requires mainMonitor.virtualMonitors == MainMonitor()
    requires mxKeys.view == FromTable(MXKeys, 1) && mxErgo.view == FromTable(MXErgo, 2)
    ensures Views([pc, laptop]) == FixtureGroups()
  {
    assert pc.View().peripherals == [mxKeys.view, mxErgo.view];
    assert laptop.View().peripherals == [mxKeys.view, mxErgo.view];
    assert pc.View().monitors == [MainMonitor()];
    assert laptop.View().monitors == [MainMonitor()];
  }

  /** The two fixture groups list the same two peripherals, so all peripherals are those two, twice. */
  lemma FixtureAllDevices(pc: Device, laptop: Device, mxKeys: UnifyingDevice, mxErgo: UnifyingDevice)
    requires pc.unifyingDevices == [mxKeys, mxErgo] && laptop.unifyingDevices == [mxKeys, mxErgo]
    ensures AllDevices([pc, laptop]) == [mxKeys, mxErgo, mxKeys, mxErgo]
  {
    assert [pc, laptop][..1] == [pc];
    assert AllDevices([pc]) == [mxKeys, mxErgo] by {
      assert [pc][..0] == [];
    }
  }

  /** The first two lines of populate_devices: an MX Ergo at slot 2 and an MX Keys at slot 1. */
  method FixturePeripherals() returns (mxErgo: UnifyingDevice, mxKeys: UnifyingDevice)
    ensures mxErgo.devType == "MX Ergo" && mxErgo.view == FromTable(MXErgo, 2)
    ensures mxKeys.devType == "MX Keys" && mxKeys.view == FromTable(MXKeys, 1)
    ensures mxErgo.Valid() && mxKeys.Valid()
    ensures fresh(mxErgo.switchMessage) && fresh(mxKeys.switchMessage) && mxErgo.switchMessage != mxKeys.switchMessage
  {
    KindOfOthers();
    KindOfMXKeys();
    mxErgo := new UnifyingDevice("MX Ergo", 2, MXErgo);
    mxKeys := new UnifyingDevice("MX Keys", 1, MXKeys);
  }

  /** The two groups of populate_devices, on channels 0 and 1, sharing their peripherals and monitor. */
  method FixtureDevices() returns (pc: Device, laptop: Device)
    ensures Views([pc, laptop]) == FixtureGroups()
    ensures pc.Valid() && laptop.Valid()
    ensures SeparateBuffers(AllDevices([pc, laptop]))
    ensures forall d :: d in AllDevices([pc, laptop]) ==> fresh(d.switchMessage)
  {
    var mxErgo, mxKeys := FixturePeripherals();
    var mainMonitor := new Monitor(MainMonitor());
    pc := new Device(0, [mxKeys, mxErgo], [mainMonitor]);
    laptop := new Device(1, [mxKeys, mxErgo], [mainMonitor]);
    FixtureViews(pc, laptop, mxKeys, mxErgo, mainMonitor);
    FixtureAllDevices(pc, laptop, mxKeys, mxErgo);
  }

  /**
   * populate_devices: appends the two groups to `devicesList`. Both groups
   * hold the same peripheral and monitor objects; the peripherals' command
   * buffers are new and distinct.
   */
  method PopulateDevices(devicesList: seq<Device>, selfChannel: int) returns (r: seq<Device>)
    ensures |r| == |devicesList| + 2 && r[..|devicesList|] == devicesList
    ensures Views(r[|devicesList|..]) == FixtureGroups()
    ensures forall dev :: dev in r[|devicesList|..] ==> dev.Valid()
    ensures SeparateBuffers(AllDevices(r[|devicesList|..]))
    ensures forall d :: d in AllDevices(r[|devicesList|..]) ==> fresh(d.switchMessage)
  {
    var pc, laptop := FixtureDevices();
    r := devicesList + [pc, laptop];
    assert r[|devicesList|..] == [pc, laptop];
  }

  /** main_loop up to its first pass: build the configuration, then handle one report. */
  method MainLoopOnce(selfChannel: int, readBytes: seq<int>, env: Environment)
    requires AttachedGroups(FixtureGroups(), selfChannel, env.inputs.Keys)
    modifies env
    ensures env.State() == Run(Planned(FixtureGroups(), 2, selfChannel, readBytes), old(env.State()))
  {
    var devices := PopulateDevices([], selfChannel);
    assert devices[0..] == devices;
    MainLoopStep(devices, selfChannel, readBytes, env);
  }

  /** The report MX Keys at slot 1 sends when its second Easy-Switch key (channel 1) is pressed. */
  const KeyTwoReport: seq<int> := [0x11, 0x01, 0x08, 0x20, 0x00, 0xD2, 0x01]

  /** The same key press for the first Easy-Switch key (channel 0). */
  const KeyOneReport: seq<int> := [0x11, 0x01, 0x08, 0x20, 0x00, 0xD1, 0x01]

  /** In the fixture, MX Keys reads the key presses as their channels; MX Ergo never signals. */
  lemma FixtureDecodes(gi: nat)
    requires gi < 2
    ensures Decoded(FixtureGroups()[gi], 0, KeyTwoReport) == 1
    ensures Decoded(FixtureGroups()[gi], 0, KeyOneReport) == 0
    ensures Decoded(FixtureGroups()[gi], 1, KeyTwoReport) == NotApplicable
    ensures Decoded(FixtureGroups()[gi], 1, KeyOneReport) == NotApplicable
  {
    var p := FixtureGroups()[gi].peripherals[0];
    assert p == FromTable(MXKeys, 1);
    assert KeyTwoReport[..4] == p.detect[..4] && KeyOneReport[..4] == p.detect[..4];
  }

  /** On the host of channel 0, MX Keys' channel-1 key raises one request: group 0 to channel 1, from slot 1. */
  lemma KeyTwoPlanned()
    ensures Planned(FixtureGroups(), 2, 0, KeyTwoReport) == [Request(FixtureGroups()[0], 1, 1)]
  {
    var gs := FixtureGroups();
    var q := Request(gs[0], 1, 1);
    FixtureDecodes(0);
    assert Detections(gs[0], 1, 0, KeyTwoReport) == [q];
    assert Detections(gs[0], 2, 0, KeyTwoReport) == [q];
    assert Planned(gs, 1, 0, KeyTwoReport) == [q];
  }

  /**
   * Group 0 switching to channel 1 on behalf of slot 1 sets the main
   * monitor from HDMI2 to HDMI1, then sends the channel-1 command to MX
   * Ergo only: MX Keys is the origin and switches itself.
   */
  lemma GroupZeroToChannelOne(laptopInput: string)
    ensures Dispatch(FixtureGroups()[0], 1, 1, Env(map[2 := "HDMI2", 1 := laptopInput], []))
      == Env(map[2 := "HDMI1", 1 := laptopInput], [InputSet(2, "HDMI1"), HidWrite([0x10, 0x02, 0x15, 0x1b, 0x01, 0x00, 0x00])])
  {
    var g := FixtureGroups()[0];
    var e := Env(map[2 := "HDMI2", 1 := laptopInput], []);
    ReconcileScenario(laptopInput);
    assert ReconcileAll(g.monitors, 1, 0, 1, e) == Reconcile(MainMonitor(), 2, 0, 1, e);
    assert g.peripherals[1] == FromTable(MXErgo, 2);
    assert Command(g.peripherals[1], 1) == [0x10, 0x02, 0x15, 0x1b, 0x01, 0x00, 0x00];
    assert Commands(g.peripherals, 1, 1, 1) == [];
    assert Commands(g.peripherals, 2, 1, 1) == [HidWrite([0x10, 0x02, 0x15, 0x1b, 0x01, 0x00, 0x00])];
  }

  /** The whole pass for that key press on the host of channel 0. */
  lemma KeyTwoOnChannelZero(laptopInput: string)
    ensures Run(Planned(FixtureGroups(), 2, 0, KeyTwoReport), Env(map[2 := "HDMI2", 1 := laptopInput], []))
      == Env(map[2 := "HDMI1", 1 := laptopInput], [InputSet(2, "HDMI1"), HidWrite([0x10, 0x02, 0x15, 0x1b, 0x01, 0x00, 0x00])])
  {
    var q := Request(FixtureGroups()[0], 1, 1);
    var e := Env(map[2 := "HDMI2", 1 := laptopInput], []);
    KeyTwoPlanned();
    GroupZeroToChannelOne(laptopInput);
    RunSnoc([], q, e);
    assert [] + [q] == [q];
  }

  /** Pressing the key of the channel the host already is on dispatches nothing. */
  lemma OwnChannelKeyIgnored()
    ensures Planned(FixtureGroups(), 2, 0, KeyOneReport) == []
    ensures Planned(FixtureGroups(), 2, 1, KeyTwoReport) == []
  {
    FixtureDecodes(0);
    FixtureDecodes(1);
  }

  /** A report shorter than the detect pattern dispatches nothing, on either host. */
  lemma ShortReportIgnored(selfChannel: int)
    ensures Planned(FixtureGroups(), 2, selfChannel, [0x11, 0x01, 0x08, 0x20, 0x00]) == []
  {
    var r := [0x11, 0x01, 0x08, 0x20, 0x00];
    var gs := FixtureGroups();
    assert Decoded(gs[0], 0, r) == NoMatch && Decoded(gs[0], 1, r) == NotApplicable;
    assert Decoded(gs[1], 0, r) == NoMatch && Decoded(gs[1], 1, r) == NotApplicable;
    assert Detections(gs[0], 1, selfChannel, r) == [];
    assert Detections(gs[0], 2, selfChannel, r) == [];
    assert Detections(gs[1], 1, selfChannel, r) == [];
    assert Detections(gs[1], 2, selfChannel, r) == [];
    assert Planned(gs, 1, selfChannel, r) == [];
  }

  /**
   * There is no early exit: two peripherals of one group that both decode
   * a report each dispatch it, in list order.
   */
  lemma NoEarlyExit()
    ensures var g := Group(0, [FromTable(MXKeys, 1), FromTable(MXMaster3, 1)], []);
      Detections(g, 2, 0, KeyTwoReport) == [Request(g, 1, 1), Request(g, 1, 1)]
  {
    var g := Group(0, [FromTable(MXKeys, 1), FromTable(MXMaster3, 1)], []);
    assert KeyTwoReport[..4] == g.peripherals[0].detect[..4];
    assert KeyTwoReport[..4] == g.peripherals[1].detect[..4];
    assert Decoded(g, 0, KeyTwoReport) == 1 && Decoded(g, 1, KeyTwoReport) == 1;
  }
}
