/**
 * The switch coordinator (switch-input.py, class Device): a group of
 * peripherals and monitors for one self channel, and switch_channel,
 * which fans one detected request out to all monitors and then to every
 * peripheral except the one the request came from.
 */
module Coordinator {
  import opened Protocol
  import opened Host
  import opened Peripheral
  import opened Monitors

  /** A Device as a value: its channel, its peripherals in order, its monitors' bindings. */
  datatype Group = Group(unifyingChannel: int, peripherals: seq<PeripheralView>, monitors: seq<seq<VirtualMonitor>>)

  /** Every monitor the group's switch_channel touches is attached. */
  predicate GroupAttached(g: Group, ids: set<int>)
  {
    forall m :: m in g.monitors ==> Attached(m, g.unifyingChannel, ids)
  }

  /** The effect of running switch_input on the first k monitors, in order. */
  function ReconcileAll(ms: seq<seq<VirtualMonitor>>, k: nat, selfChannel: int, channel: int, e: Env): (r: Env)
    requires k <= |ms| && forall m :: m in ms ==> Attached(m, selfChannel, e.inputs.Keys)
    ensures r.inputs.Keys == e.inputs.Keys
  {
    if k == 0 then e
    else Reconcile(ms[k - 1], |ms[k - 1]|, selfChannel, channel, ReconcileAll(ms, k - 1, selfChannel, channel, e))
  }

  /** Handling the monitors only appends input changes to the log. */
  lemma {:induction false} ReconcileAllOnlySets(ms: seq<seq<VirtualMonitor>>, k: nat, selfChannel: int, channel: int, e: Env)
    requires k <= |ms| && forall m :: m in ms ==> Attached(m, selfChannel, e.inputs.Keys)
    ensures var r := ReconcileAll(ms, k, selfChannel, channel, e);
      |e.log| <= |r.log| && r.log[..|e.log|] == e.log
      && forall i :: |e.log| <= i < |r.log| ==> r.log[i].InputSet?
  {
    if k > 0 {
      ReconcileAllOnlySets(ms, k - 1, selfChannel, channel, e);
      var s := ReconcileAll(ms, k - 1, selfChannel, channel, e);
      ReconcileOnlySets(ms[k - 1], |ms[k - 1]|, selfChannel, channel, s);
      var r := ReconcileAll(ms, k, selfChannel, channel, e);
      assert r.log[..|s.log|] == s.log;
      assert forall i :: |e.log| <= i < |s.log| ==> r.log[i] == s.log[i];
    }
  }

  /** What switch_channel writes for one peripheral: its command, unless it sits on slot `origin`. */
  function CommandOf(p: PeripheralView, origin: int, channel: int): (r: seq<Event>)
    ensures |r| <= 1 && (r == [] <==> p.slotId == origin)
    ensures forall w :: w in r ==> w == HidWrite(Command(p, channel))
  {
    if p.slotId != origin then [HidWrite(Command(p, channel))] else []
  }

  /** The HID writes that switch the first k peripherals, skipping those on slot `origin`. */
  function Commands(ps: seq<PeripheralView>, k: nat, origin: int, channel: int): (r: seq<Event>)
    requires k <= |ps|
    ensures |r| <= k
  {
    if k == 0 then []
    else
      Commands(ps, k - 1, origin, channel) + CommandOf(ps[k - 1], origin, channel)
  }

  /**
   * Every command of a fan-out is a 7-byte HID write carrying the
   * requested channel, and none is addressed to the origin slot.
   */
  lemma {:induction false} CommandsShape(ps: seq<PeripheralView>, k: nat, origin: int, channel: int)
    requires k <= |ps|
    ensures forall w :: w in Commands(ps, k, origin, channel) ==>
      w.HidWrite? && |w.report| == 7 && w.report[1] != origin && w.report[ChannelByte] == channel
  {
    if k > 0 {
      CommandsShape(ps, k - 1, origin, channel);
    }
  }

  /** The effect of Device.switch_channel(channel, origin): all monitors first, then the peripherals. */
  function Dispatch(g: Group, channel: int, origin: int, e: Env): (r: Env)
    requires GroupAttached(g, e.inputs.Keys)
    ensures r.inputs.Keys == e.inputs.Keys
  {
    var m := ReconcileAll(g.monitors, |g.monitors|, g.unifyingChannel, channel, e);
    m.(log := m.log + Commands(g.peripherals, |g.peripherals|, origin, channel))
  }

  /** How many HID writes in `log` are addressed to receiver slot `slotId`. */
  function WritesTo(log: seq<Event>, slotId: int): nat
  {
    if log == [] then 0
    else
      var ev := log[|log| - 1];
      WritesTo(log[..|log| - 1], slotId) + (if ev.HidWrite? && |ev.report| > 1 && ev.report[1] == slotId then 1 else 0)
  }

  /** No two peripherals of a list share a slot. */
  predicate DistinctSlots(ps: seq<PeripheralView>)
  {
    forall i, j :: 0 <= i < j < |ps| ==> ps[i].slotId != ps[j].slotId
  }

  lemma {:induction false} WritesToAppend(a: seq<Event>, b: seq<Event>, slotId: int)
    ensures WritesTo(a + b, slotId) == WritesTo(a, slotId) + WritesTo(b, slotId)
  {
    if b != [] {
      var n := |b| - 1;
      assert (a + b)[..|a| + n] == a + b[..n];
      WritesToAppend(a, b[..n], slotId);
    } else {
      assert a + b == a;
    }
  }

  /** A single command counts for exactly the slot it is addressed to. */
  lemma WritesToCommand(p: PeripheralView, channel: int, slotId: int)
    ensures WritesTo([HidWrite(Command(p, channel))], slotId) == if p.slotId == slotId then 1 else 0
  {
    assert [HidWrite(Command(p, channel))][..0] == [];
  }

  /** The writes for one peripheral count once for its slot, and not at all when it is the origin. */
  lemma WritesToCommandOf(p: PeripheralView, origin: int, channel: int, slotId: int)
    ensures WritesTo(CommandOf(p, origin, channel), slotId) == if p.slotId != origin && p.slotId == slotId then 1 else 0
  {
    if p.slotId != origin {
      WritesToCommand(p, channel, slotId);
    }
  }

  /** Commands grows by one peripheral's writes at a time. */
  lemma CommandsStep(ps: seq<PeripheralView>, k: nat, origin: int, channel: int)
    requires k < |ps|
    ensures Commands(ps, k + 1, origin, channel) == Commands(ps, k, origin, channel) + CommandOf(ps[k], origin, channel)
  {
  }

  /** One more peripheral adds one write for its slot, unless it sits on the origin slot. */
  lemma WritesToCommandsStep(ps: seq<PeripheralView>, k: nat, origin: int, channel: int, slotId: int)
    requires 0 < k <= |ps|
    ensures WritesTo(Commands(ps, k, origin, channel), slotId)
      == WritesTo(Commands(ps, k - 1, origin, channel), slotId)
         + (if ps[k - 1].slotId != origin && ps[k - 1].slotId == slotId then 1 else 0)
  {
    WritesToAppend(Commands(ps, k - 1, origin, channel), CommandOf(ps[k - 1], origin, channel), slotId);
    WritesToCommandOf(ps[k - 1], origin, channel, slotId);
  }

  /** The origin slot receives no command. */
  lemma {:induction false} CommandsSkipOrigin(ps: seq<PeripheralView>, k: nat, origin: int, channel: int)
    requires k <= |ps|
    ensures WritesTo(Commands(ps, k, origin, channel), origin) == 0
  {
    if k > 0 {
      CommandsSkipOrigin(ps, k - 1, origin, channel);
      WritesToCommandsStep(ps, k, origin, channel, origin);
    }
  }

  /** With slots unique, peripheral i off the origin slot gets one command once the loop has passed it. */
  lemma {:induction false} CommandsReach(ps: seq<PeripheralView>, k: nat, origin: int, channel: int, i: int)
    requires k <= |ps| && DistinctSlots(ps)
    requires 0 <= i < |ps| && ps[i].slotId != origin
    ensures WritesTo(Commands(ps, k, origin, channel), ps[i].slotId) == if i < k then 1 else 0
  {
    if k > 0 {
      CommandsReach(ps, k - 1, origin, channel, i);
      WritesToCommandsStep(ps, k, origin, channel, ps[i].slotId);
      if i < k - 1 {
        assert ps[i].slotId != ps[k - 1].slotId;
      } else if i > k - 1 {
        assert ps[k - 1].slotId != ps[i].slotId;
      }
    }
  }

  /**
   * With slots unique, each peripheral off the origin slot gets exactly one
   * command and the origin slot gets none.
   */
  lemma CommandsExactlyOnce(ps: seq<PeripheralView>, k: nat, origin: int, channel: int)
    requires k <= |ps| && DistinctSlots(ps)
    ensures WritesTo(Commands(ps, k, origin, channel), origin) == 0
    ensures forall i :: 0 <= i < |ps| && ps[i].slotId != origin ==>
      WritesTo(Commands(ps, k, origin, channel), ps[i].slotId) == if i < k then 1 else 0
  {
    CommandsSkipOrigin(ps, k, origin, channel);
    forall i | 0 <= i < |ps| && ps[i].slotId != origin
      ensures WritesTo(Commands(ps, k, origin, channel), ps[i].slotId) == if i < k then 1 else 0
    {
      CommandsReach(ps, k, origin, channel, i);
    }
  }

  /**
   * Device.switch_channel's ordering: the log only grows, and after the
   * first HID write no monitor is set any more.
   */
  lemma DispatchOrder(g: Group, channel: int, origin: int, e: Env)
    requires GroupAttached(g, e.inputs.Keys)
    ensures var r := Dispatch(g, channel, origin, e);
      |e.log| <= |r.log| && r.log[..|e.log|] == e.log
      && forall i, j :: |e.log| <= i < j < |r.log| && r.log[i].HidWrite? ==> r.log[j].HidWrite?
  {
    var m := ReconcileAll(g.monitors, |g.monitors|, g.unifyingChannel, channel, e);
    var c := Commands(g.peripherals, |g.peripherals|, origin, channel);
    var r := Dispatch(g, channel, origin, e);
    ReconcileAllOnlySets(g.monitors, |g.monitors|, g.unifyingChannel, channel, e);
    CommandsShape(g.peripherals, |g.peripherals|, origin, channel);
    assert r.log == m.log + c;
    forall i | |m.log| <= i < |r.log| ensures r.log[i].HidWrite? {
      assert r.log[i] == c[i - |m.log|];
    }
  }

  class Device {
    const unifyingChannel: int
    const unifyingDevices: seq<UnifyingDevice>
    const monitors: seq<Monitor>

    constructor (unifyingChannel: int, unifyingDevices: seq<UnifyingDevice>, monitors: seq<Monitor>)
      ensures this.unifyingChannel == unifyingChannel
      ensures this.unifyingDevices == unifyingDevices && this.monitors == monitors
    {
      this.unifyingChannel := unifyingChannel;
      this.unifyingDevices := unifyingDevices;
      this.monitors := monitors;
    }

    ghost function View(): (g: Group)
      ensures g.unifyingChannel == unifyingChannel
      ensures |g.peripherals| == |unifyingDevices| && |g.monitors| == |monitors|
      ensures forall i :: 0 <= i < |unifyingDevices| ==> g.peripherals[i] == unifyingDevices[i].view
      ensures forall i :: 0 <= i < |monitors| ==> g.monitors[i] == monitors[i].virtualMonitors
    {
      Group(unifyingChannel,
            seq(|unifyingDevices|, i requires 0 <= i < |unifyingDevices| => unifyingDevices[i].view),
            seq(|monitors|, i requires 0 <= i < |monitors| => monitors[i].virtualMonitors))
    }

    ghost predicate Valid()
      reads Buffers(unifyingDevices)
    {
      forall d :: d in unifyingDevices ==> d.Valid()
    }

    /**
     * switch_input on every monitor, then the command for `channelNumber`
     * to every peripheral whose slot is not `detectionSlot`.
     */
    method SwitchChannel(channelNumber: int, detectionSlot: int, env: Environment)
      requires Valid() && GroupAttached(View(), env.inputs.Keys)
      modifies env, Buffers(unifyingDevices)
      ensures Valid()
      ensures env.State() == Dispatch(View(), channelNumber, detectionSlot, old(env.State()))
    {
      ghost var g := View();
      var i := 0;
      while i < |monitors|
        modifies env
        invariant 0 <= i <= |monitors|
        invariant env.inputs.Keys == old(env.inputs).Keys
        invariant env.State() == ReconcileAll(g.monitors, i, unifyingChannel, channelNumber, old(env.State()))
      {
        assert monitors[i].virtualMonitors in g.monitors;
        monitors[i].SwitchInput(unifyingChannel, channelNumber, env);
        i := i + 1;
      }
      SendCommands(channelNumber, detectionSlot, env);
    }

    /** The second loop of switch_channel: the command to every peripheral off `detectionSlot`. */
    method SendCommands(channelNumber: int, detectionSlot: int, env: Environment)
      requires Valid()
      modifies env, Buffers(unifyingDevices)
      ensures Valid()
      ensures env.State() == old(env.State()).(log := old(env.log) + Commands(View().peripherals, |unifyingDevices|, detectionSlot, channelNumber))
    {
      ghost var ps := View().peripherals;
      ghost var e0 := env.State();
      var i := 0;
      while i < |unifyingDevices|
        invariant 0 <= i <= |unifyingDevices|
        invariant Valid()
        invariant env.State() == e0.(log := e0.log + Commands(ps, i, detectionSlot, channelNumber))
      {
        SendCommand(i, channelNumber, detectionSlot, env);
        CommandsStep(ps, i, detectionSlot, channelNumber);
        assert e0.log + Commands(ps, i + 1, detectionSlot, channelNumber)
          == e0.log + Commands(ps, i, detectionSlot, channelNumber) + CommandOf(ps[i], detectionSlot, channelNumber);
        i := i + 1;
      }
    }

    /** One iteration of the second loop: peripheral i is switched unless it sits on `detectionSlot`. */
    method SendCommand(i: nat, channelNumber: int, detectionSlot: int, env: Environment)
      requires i < |unifyingDevices| && Valid()
      modifies env, Buffers(unifyingDevices)
      ensures Valid()
      ensures env.State() == old(env.State()).(log := old(env.log) + CommandOf(View().peripherals[i], detectionSlot, channelNumber))
    {
      var d := unifyingDevices[i];
      assert View().peripherals[i] == d.view;
      assert d in unifyingDevices && d.Valid() && d.view.slotId == d.slotId;
      if d.slotId != detectionSlot {
        label before:
        d.SwitchChannel(channelNumber, env);
        forall e | e in unifyingDevices ensures e.Valid() {
          if e.switchMessage == d.switchMessage {
            FitsAfterChannelWrite(e, old@before(e.switchMessage[..]), channelNumber);
          }
        }
      }
    }
  }
}
