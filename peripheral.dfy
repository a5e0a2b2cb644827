/**
 * A Logitech Unifying peripheral paired on one receiver slot
 * (switch-input.py, class UnifyingDevice): its constructor, which fills
 * the protocol fields from the table, and switch_channel, which writes the
 * channel into the stored command and sends it.
 */
module Peripheral {
  import opened Results
  import opened Protocol
  import opened Host

  /**
   * The constants that fix a peripheral's behaviour: its model, its slot,
   * the detection pattern and channel keys decode uses, and the switch
   * command with an unset channel byte.
   */
  datatype PeripheralData = PeripheralData(kind: Kind, slotId: int, detect: seq<int>, keys: seq<int>, template: seq<int>, maxChannels: nat)

  /** The shape every constructed peripheral has: decode can read its pattern, the command is 7 bytes to its slot. */
  predicate Shaped(p: PeripheralData)
  {
    (p.kind == MXErgo || |p.detect| == 7) && |p.template| == 7 && p.template[1] == p.slotId
  }

  type PeripheralView = p: PeripheralData | Shaped(p)
    witness PeripheralData(MXErgo, 0, [], [], [0x10, 0x00, 0x15, 0x1b, 0xFF, 0x00, 0x00], 2)

  /** The constants the constructor takes from the table for a model on a slot. */
  function FromTable(kind: Kind, slotId: int): (p: PeripheralView)
    ensures p.kind == kind && p.slotId == slotId
  {
    var t := Table(kind, slotId);
    PeripheralData(kind, slotId, t.detect, t.keys, t.template, t.maxChannels)
  }

  /** The command that switches `p` to `channel`: its template with byte 4 set. */
  function Command(p: PeripheralView, channel: int): (m: seq<int>)
    ensures |m| == 7 && m[1] == p.slotId && m[ChannelByte] == channel
    ensures forall i :: 0 <= i < 7 && i != ChannelByte ==> m[i] == p.template[i]
  {
    p.template[ChannelByte := channel]
  }

  /** The command buffers of a list of devices: what switching them may modify. */
  function Buffers(ds: seq<UnifyingDevice>): set<array<int>>
  {
    set d | d in ds :: d.switchMessage
  }

  /** Distinct devices never share a command buffer (each constructor allocates its own). */
  predicate SeparateBuffers(ds: seq<UnifyingDevice>)
  {
    forall d, e :: d in ds && e in ds && d != e ==> d.switchMessage != e.switchMessage
  }

  class UnifyingDevice {
    const slotId: int
    const devType: string
    const kind: Kind
    const switchDetectMessage: seq<int>
    const easySwitchKeys: seq<int>
    const maxChannels: nat
    /** The stored 7-byte switch command; byte 4 holds the last channel sent. */
    const switchMessage: array<int>
    /** The device's protocol constants as a value, as the table gives them. */
    ghost const view: PeripheralView

    /** The fields agree with the table for the device's model and slot. */
    ghost predicate Valid()
      reads switchMessage
    {
      Configured() && FitsTemplate(switchMessage[..])
    }

    /** The constant fields are the table's row for the device's model and slot. */
    ghost predicate Configured()
    {
      view == FromTable(kind, slotId)
      && switchDetectMessage == view.detect && easySwitchKeys == view.keys && maxChannels == view.maxChannels
    }

    /** `m` is the model's switch command with some value in the channel byte. */
    ghost predicate FitsTemplate(m: seq<int>)
    {
      |m| == 7 && m[ChannelByte := 0xFF] == view.template
    }

    constructor (devType: string, slotId: int, kind: Kind)
      requires KindOf(devType) == Some(kind)
      ensures Valid() && fresh(switchMessage)
      ensures this.devType == devType && this.slotId == slotId && this.kind == kind
      ensures switchMessage[..] == view.template
    {
      var p := Table(kind, slotId);
      this.slotId := slotId;
      this.devType := devType;
      this.kind := kind;
      switchDetectMessage := p.detect;
      easySwitchKeys := p.keys;
      maxChannels := p.maxChannels;
      view := FromTable(kind, slotId);
      var m := new int[7];
      m[0], m[1], m[2], m[3], m[4], m[5], m[6] :=
        p.template[0], p.template[1], p.template[2], p.template[3], p.template[4], p.template[5], p.template[6];
      switchMessage := m;
    }

    /** Overwrites the channel byte of the stored command and sends the command. */
    method SwitchChannel(channelNumber: int, env: Environment)
      requires Valid()
      modifies switchMessage, env
      ensures Valid()
      ensures switchMessage[..] == old(switchMessage[..])[ChannelByte := channelNumber]
      ensures switchMessage[..] == Command(view, channelNumber)
      ensures env.State() == old(env.State()).(log := old(env.log) + [HidWrite(Command(view, channelNumber))])
    {
      FitsAfterChannelWrite(this, switchMessage[..], channelNumber);
      switchMessage[ChannelByte] := channelNumber;
      assert switchMessage[..] == Command(view, channelNumber);
      env.Write(switchMessage[..]);
    }
  }

  /** Overwriting the channel byte keeps a command a command of the same template. */
  lemma FitsAfterChannelWrite(d: UnifyingDevice, m: seq<int>, channel: int)
    requires d.FitsTemplate(m)
    ensures d.FitsTemplate(m[ChannelByte := channel])
  {
    assert m[ChannelByte := channel][ChannelByte := 0xFF] == m[ChannelByte := 0xFF];
  }

  /**
   * UnifyingDevice(dev_type, slot_id, ...): a device for a known model, or
   * the ValueError the source raises for any other type string.
   */
  method NewUnifyingDevice(devType: string, slotId: int) returns (r: Result<UnifyingDevice, string>)
    ensures r.Err? <==> KindOf(devType).None?
    ensures r.Err? ==> r.error == "Invalid Unifying device type"
    ensures r.Ok? ==> fresh(r.value) && fresh(r.value.switchMessage) && r.value.Valid()
    ensures r.Ok? ==> r.value.devType == devType && r.value.slotId == slotId
    ensures r.Ok? ==> Some(r.value.kind) == KindOf(devType)
    ensures r.Ok? ==> r.value.view == FromTable(r.value.kind, slotId)
    ensures r.Ok? ==> r.value.switchMessage[..] == r.value.view.template
  {
    match KindOf(devType)
    case None =>
      r := Err("Invalid Unifying device type");
    case Some(kind) =>
      var d := new UnifyingDevice(devType, slotId, kind);
      r := Ok(d);
  }
}
