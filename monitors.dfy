/**
 * Displays (switch-input.py, classes VirtualMonitor and Monitor). A
 * Monitor is a list of virtual monitors, each binding a Unifying channel
 * to a physical monitor index and the input source that channel's host
 * is connected to. switch_input brings every monitor bound to the self
 * channel to the input of the requested channel.
 */
module Monitors {
  import opened Host

  /** One (channel, monitor, input) binding; never changed after construction. */
  datatype VirtualMonitor = VirtualMonitor(unifyingChannel: int, monitorId: int, inputValue: string, vcpMessageNumber: int)

  /** VirtualMonitor(...) with the default VCP message number 60. */
  function NewVirtualMonitor(unifyingChannel: int, monitorId: int, inputValue: string): (vm: VirtualMonitor)
    ensures vm.unifyingChannel == unifyingChannel && vm.monitorId == monitorId && vm.inputValue == inputValue
    ensures vm.vcpMessageNumber == 60
  {
    VirtualMonitor(unifyingChannel, monitorId, inputValue, 60)
  }

  /**
   * The input chosen for `channel`: that of the last binding for `channel`,
   * or `fallback` when there is none (the inner loop of switch_input).
   */
  function LastInput(vms: seq<VirtualMonitor>, channel: int, fallback: string): (r: string)
    ensures r == fallback || exists j :: 0 <= j < |vms| && vms[j].unifyingChannel == channel && r == vms[j].inputValue
  {
    if vms == [] then fallback
    else if vms[|vms| - 1].unifyingChannel == channel then vms[|vms| - 1].inputValue
    else LastInput(vms[..|vms| - 1], channel, fallback)
  }

  /** Every monitor bound to `selfChannel` is attached, i.e. has a current input. */
  predicate Attached(vms: seq<VirtualMonitor>, selfChannel: int, ids: set<int>)
  {
    forall j :: 0 <= j < |vms| && vms[j].unifyingChannel == selfChannel ==> vms[j].monitorId in ids
  }

  /** No two bindings of the self channel name the same physical monitor. */
  predicate DistinctSelfMonitors(vms: seq<VirtualMonitor>, selfChannel: int)
  {
    forall i, j :: 0 <= i < j < |vms| && vms[i].unifyingChannel == selfChannel && vms[j].unifyingChannel == selfChannel
      ==> vms[i].monitorId != vms[j].monitorId
  }

  /** The input the j-th binding drives its monitor to when `channel` is requested. */
  function TargetOf(vms: seq<VirtualMonitor>, j: int, channel: int): string
    requires 0 <= j < |vms|
  {
    LastInput(vms, channel, vms[j].inputValue)
  }

  /**
   * The effect of switch_input on the environment after its outer loop has
   * handled the first k bindings: each self-channel binding reads its
   * monitor's input and sets it to the target when `SwitchStep` says so,
   * i.e. only when it differs.
   */
  function Reconcile(vms: seq<VirtualMonitor>, k: nat, selfChannel: int, channel: int, e: Env): (r: Env)
    requires k <= |vms| && Attached(vms, selfChannel, e.inputs.Keys)
    ensures r.inputs.Keys == e.inputs.Keys
  {
    if k == 0 then e
    else
      var s := Reconcile(vms, k - 1, selfChannel, channel, e);
      var vm := vms[k - 1];
      if vm.unifyingChannel == selfChannel && SwitchStep(s.inputs[vm.monitorId], TargetOf(vms, k - 1, channel)).Switched? then
        Env(s.inputs[vm.monitorId := TargetOf(vms, k - 1, channel)], s.log + [InputSet(vm.monitorId, TargetOf(vms, k - 1, channel))])
      else s
  }

  /** switch_input only appends input changes to the log: no HID write, nothing removed. */
  lemma {:induction false} ReconcileOnlySets(vms: seq<VirtualMonitor>, k: nat, selfChannel: int, channel: int, e: Env)
    requires k <= |vms| && Attached(vms, selfChannel, e.inputs.Keys)
    ensures var r := Reconcile(vms, k, selfChannel, channel, e);
      |e.log| <= |r.log| && r.log[..|e.log|] == e.log
      && forall i :: |e.log| <= i < |r.log| ==> r.log[i].InputSet?
  {
    if k > 0 {
      ReconcileOnlySets(vms, k - 1, selfChannel, channel, e);
      var s := Reconcile(vms, k - 1, selfChannel, channel, e);
      var r := Reconcile(vms, k, selfChannel, channel, e);
      if r != s {
        assert r.log == s.log + [r.log[|r.log| - 1]];
        assert forall i :: |e.log| <= i < |s.log| ==> r.log[i] == s.log[i];
      }
    }
  }

  /** The last binding for the requested channel decides; without one the fallback does. */
  lemma {:induction false} LastInputChoice(vms: seq<VirtualMonitor>, channel: int, fallback: string, k: int)
    ensures (forall j :: 0 <= j < |vms| ==> vms[j].unifyingChannel != channel) ==> LastInput(vms, channel, fallback) == fallback
    ensures 0 <= k < |vms| && vms[k].unifyingChannel == channel
      && (forall j :: k < j < |vms| ==> vms[j].unifyingChannel != channel)
      ==> LastInput(vms, channel, fallback) == vms[k].inputValue
  {
    if vms != [] {
      var n := |vms| - 1;
      LastInputChoice(vms[..n], channel, fallback, k);
      if 0 <= k < n && vms[k].unifyingChannel == channel {
        assert vms[..n][k] == vms[k];
      }
    }
  }

  /**
   * After switch_input every monitor bound to the self channel shows its
   * target input (when no two such bindings share a monitor).
   */
  lemma {:induction false} ReconcileReachesTargets(vms: seq<VirtualMonitor>, k: nat, selfChannel: int, channel: int, e: Env)
    requires k <= |vms| && Attached(vms, selfChannel, e.inputs.Keys)
    requires DistinctSelfMonitors(vms, selfChannel)
    ensures forall j :: 0 <= j < k && vms[j].unifyingChannel == selfChannel ==>
      Reconcile(vms, k, selfChannel, channel, e).inputs[vms[j].monitorId] == TargetOf(vms, j, channel)
  {
    if k > 0 {
      ReconcileReachesTargets(vms, k - 1, selfChannel, channel, e);
    }
  }

  /** When every self-channel monitor already shows its target, nothing is set. */
  lemma {:induction false} ReconcileNoWriteWhenSet(vms: seq<VirtualMonitor>, k: nat, selfChannel: int, channel: int, e: Env)
    requires k <= |vms| && Attached(vms, selfChannel, e.inputs.Keys)
    requires forall j :: 0 <= j < k && vms[j].unifyingChannel == selfChannel ==>
      e.inputs[vms[j].monitorId] == TargetOf(vms, j, channel)
    ensures Reconcile(vms, k, selfChannel, channel, e) == e
  {
    if k > 0 {
      ReconcileNoWriteWhenSet(vms, k - 1, selfChannel, channel, e);
    }
  }

  /**
   * A monitor keeps its input and receives no set when every self-channel
   * binding that names it targets the input it already shows. In
   * particular a monitor that no self-channel binding names is never
   * touched.
   */
  lemma {:induction false} ReconcileLeavesMonitor(vms: seq<VirtualMonitor>, k: nat, selfChannel: int, channel: int, e: Env, id: int)
    requires k <= |vms| && Attached(vms, selfChannel, e.inputs.Keys) && id in e.inputs
    requires forall j :: 0 <= j < k && vms[j].unifyingChannel == selfChannel && vms[j].monitorId == id ==>
      TargetOf(vms, j, channel) == e.inputs[id]
    ensures var r := Reconcile(vms, k, selfChannel, channel, e);
      r.inputs[id] == e.inputs[id]
      && forall i :: |e.log| <= i < |r.log| ==> !(r.log[i].InputSet? && r.log[i].monitorId == id)
  {
    if k > 0 {
      ReconcileLeavesMonitor(vms, k - 1, selfChannel, channel, e, id);
      var s := Reconcile(vms, k - 1, selfChannel, channel, e);
      var r := Reconcile(vms, k, selfChannel, channel, e);
      if r != s {
        assert r.log == s.log + [r.log[|r.log| - 1]];
        assert forall i :: |e.log| <= i < |s.log| ==> r.log[i] == s.log[i];
      }
    }
  }

  /** `ev` sets the monitor of one of the first k self-channel bindings to that binding's target. */
  predicate SetByBinding(vms: seq<VirtualMonitor>, k: nat, selfChannel: int, channel: int, ev: Event)
    requires k <= |vms|
  {
    exists j :: 0 <= j < k && vms[j].unifyingChannel == selfChannel
      && ev == InputSet(vms[j].monitorId, TargetOf(vms, j, channel))
  }

  /**
   * Each binding issues at most one set, and every set in the log is a
   * self-channel binding's monitor going to that binding's target.
   */
  lemma {:induction false} ReconcileSetsTargets(vms: seq<VirtualMonitor>, k: nat, selfChannel: int, channel: int, e: Env)
    requires k <= |vms| && Attached(vms, selfChannel, e.inputs.Keys)
    ensures |Reconcile(vms, k, selfChannel, channel, e).log| <= |e.log| + k
    ensures forall i :: |e.log| <= i < |Reconcile(vms, k, selfChannel, channel, e).log| ==>
      SetByBinding(vms, k, selfChannel, channel, Reconcile(vms, k, selfChannel, channel, e).log[i])
  {
    if k > 0 {
      ReconcileSetsTargets(vms, k - 1, selfChannel, channel, e);
      var s := Reconcile(vms, k - 1, selfChannel, channel, e);
      var r := Reconcile(vms, k, selfChannel, channel, e);
      if r != s {
        assert r.log == s.log + [InputSet(vms[k - 1].monitorId, TargetOf(vms, k - 1, channel))];
      }
      forall i | |e.log| <= i < |r.log|
        ensures SetByBinding(vms, k, selfChannel, channel, r.log[i])
      {
        if i < |s.log| {
          assert r.log[i] == s.log[i];
          var j :| 0 <= j < k - 1 && vms[j].unifyingChannel == selfChannel
            && s.log[i] == InputSet(vms[j].monitorId, TargetOf(vms, j, channel));
        } else {
          assert r.log[i] == InputSet(vms[k - 1].monitorId, TargetOf(vms, k - 1, channel));
        }
      }
    }
  }

  /** A second identical switch_input issues no write and changes nothing. */
  lemma ReconcileIdempotent(vms: seq<VirtualMonitor>, selfChannel: int, channel: int, e: Env)
    requires Attached(vms, selfChannel, e.inputs.Keys)
    requires DistinctSelfMonitors(vms, selfChannel)
    ensures var once := Reconcile(vms, |vms|, selfChannel, channel, e);
      Reconcile(vms, |vms|, selfChannel, channel, once) == once
  {
    var once := Reconcile(vms, |vms|, selfChannel, channel, e);
    ReconcileReachesTargets(vms, |vms|, selfChannel, channel, e);
    ReconcileNoWriteWhenSet(vms, |vms|, selfChannel, channel, once);
  }

  /** The monitor of the fixture: channel 0 on monitor 2 via HDMI2, channel 1 on monitor 1 via HDMI1. */
  function MainMonitor(): (vms: seq<VirtualMonitor>)
    ensures |vms| == 2 && forall vm :: vm in vms ==> vm.vcpMessageNumber == 60
    ensures forall c :: DistinctSelfMonitors(vms, c)
  {
    [NewVirtualMonitor(0, 2, "HDMI2"), NewVirtualMonitor(1, 1, "HDMI1")]
  }

  /**
   * On the host of channel 0 with monitor 2 showing HDMI2: requesting
   * channel 0 writes nothing; requesting channel 1 sets HDMI1 once.
   */
  lemma ReconcileScenario(other: string)
    ensures var e := Env(map[2 := "HDMI2", 1 := other], []);
      Reconcile(MainMonitor(), 2, 0, 0, e) == e
      && Reconcile(MainMonitor(), 2, 0, 1, e) == Env(map[2 := "HDMI1", 1 := other], [InputSet(2, "HDMI1")])
  {
    var e := Env(map[2 := "HDMI2", 1 := other], []);
    assert MainMonitor()[..1] == [NewVirtualMonitor(0, 2, "HDMI2")];
    assert TargetOf(MainMonitor(), 0, 0) == "HDMI2";
    assert TargetOf(MainMonitor(), 0, 1) == "HDMI1";
    assert Reconcile(MainMonitor(), 1, 0, 0, e) == e;
    assert MainMonitor()[..1] == [NewVirtualMonitor(0, 2, "HDMI2")];
    assert Reconcile(MainMonitor(), 1, 0, 1, e) == Env(map[2 := "HDMI1", 1 := other], [InputSet(2, "HDMI1")]);
  }

  /** What one pass of switch_input's body does with the monitor it has read. */
  datatype Outcome = Switched(input: string) | AlreadySet | Raised(exception: string)

  /**
   * The compare-and-set step as written: the branch for an input that is
   * already correct formats a debug line with `vm.display_id`, an attribute
   * VirtualMonitor does not have, so it raises AttributeError.
   */
  function SwitchStepAsWritten(oldInput: string, targetInput: string): (r: Outcome)
    ensures r.Raised? <==> oldInput == targetInput
    ensures r.Switched? ==> r.input == targetInput
  {
    if oldInput != targetInput then Switched(targetInput) else Raised("AttributeError")
  }

  /** The step as intended: a monitor already on the target is left alone. */
  function SwitchStep(oldInput: string, targetInput: string): (r: Outcome)
    ensures r.AlreadySet? <==> oldInput == targetInput
    ensures r.Switched? ==> r.input == targetInput
  {
    if oldInput != targetInput then Switched(targetInput) else AlreadySet
  }

  /**
   * Repeating the fixture's request for channel 1 reaches the
   * already-set branch, where the code as written raises.
   */
  lemma RepeatedSwitchRaisesAsWritten(other: string)
    ensures var e1 := Reconcile(MainMonitor(), 2, 0, 1, Env(map[2 := "HDMI2", 1 := other], []));
      SwitchStepAsWritten(e1.inputs[2], TargetOf(MainMonitor(), 0, 1)).Raised?
      && SwitchStep(e1.inputs[2], TargetOf(MainMonitor(), 0, 1)) == AlreadySet
  {
    ReconcileScenario(other);
  }

  class Monitor {
    const virtualMonitors: seq<VirtualMonitor>

    constructor (virtualMonitors: seq<VirtualMonitor>)
      ensures this.virtualMonitors == virtualMonitors
    {
      this.virtualMonitors := virtualMonitors;
    }

    /**
     * For each binding of `selfChannel`: choose the target input (the last
     * binding of `channelNumber`, else the binding's own input), read the
     * monitor's input and set it only when it differs.
     */
    method SwitchInput(selfChannel: int, channelNumber: int, env: Environment)
      requires Attached(virtualMonitors, selfChannel, env.inputs.Keys)
      modifies env
      ensures env.State() == Reconcile(virtualMonitors, |virtualMonitors|, selfChannel, channelNumber, old(env.State()))
    {
      var vms := virtualMonitors;
      var i := 0;
      while i < |vms|
        invariant 0 <= i <= |vms|
        invariant old(env.inputs).Keys == env.inputs.Keys
        invariant env.State() == Reconcile(vms, i, selfChannel, channelNumber, old(env.State()))
      {
        var vm := vms[i];
        if vm.unifyingChannel == selfChannel {
          var targetInput := vm.inputValue;
          var j := 0;
          while j < |vms|
            invariant 0 <= j <= |vms|
            invariant targetInput == LastInput(vms[..j], channelNumber, vm.inputValue)
          {
            assert vms[..j + 1][..j] == vms[..j];
            if vms[j].unifyingChannel == channelNumber {
              targetInput := vms[j].inputValue;
            }
            j := j + 1;
          }
          assert vms[..j] == vms;
          var oldInput := env.GetInputSource(vm.monitorId);
          var step := SwitchStep(oldInput, targetInput);
          if step.Switched? {
            env.SetInputSource(vm.monitorId, step.input);
          }
        }
        i := i + 1;
      }
    }
  }
}
