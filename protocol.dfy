/**
 * The per-model protocol table of Logitech Unifying peripherals and the
 * decoder that recognises an Easy-Switch key press in an HID++ report
 * (switch-input.py, class UnifyingDevice).
 *
 * Bytes are Python integers: the slot id and the channel number are
 * stored into the byte lists unchanged, so they are modelled as `int`.
 */
module Protocol {
  import opened Results

  /** The device models the constructor accepts. */
  datatype Kind = MXKeys | MXErgo | MXMaster3

  /** Result of decoding for a report that matches nothing. */
  const NoMatch: int := -1
  /** Result of decoding for a model that cannot signal a channel switch. */
  const NotApplicable: int := -2

  /** Index of the channel placeholder in the switch-command template. */
  const ChannelByte: nat := 4

  /** The Kelvin sign, which Python's `str.lower` maps to the ASCII letter k. */
  const KelvinSign: char := '\U{212A}'

  /**
   * Lower-casing of one character, for every character whose lower case is
   * a single ASCII letter: A-Z and the Kelvin sign.
   */
  function LowerChar(c: char): char
  {
    if 'A' <= c <= 'Z' then (c as int + 32) as char
    else if c == KelvinSign then 'k'
    else c
  }

  /** Lower-casing of a string, character by character. */
  function Lower(s: string): (r: string)
    ensures |r| == |s|
    ensures forall i :: 0 <= i < |s| ==> r[i] == LowerChar(s[i])
  {
    if s == [] then [] else [LowerChar(s[0])] + Lower(s[1..])
  }

  /** Two strings that differ only in letter case. */
  predicate SameIgnoringCase(s: string, t: string)
  {
    |s| == |t| && forall i :: 0 <= i < |s| ==> LowerChar(s[i]) == LowerChar(t[i])
  }

  /**
   * The model named by a device-type string, compared case-insensitively
   * against "MX Keys", "MX Ergo" and "MX Master 3"; None for any other
   * string (where the source raises ValueError).
   */
  function KindOf(devType: string): (r: Option<Kind>)
    ensures r.None? <==> Lower(devType) !in ["mx keys", "mx ergo", "mx master 3"]
  {
    var t := Lower(devType);
    if t == "mx keys" then Some(MXKeys)
    else if t == "mx ergo" then Some(MXErgo)
    else if t == "mx master 3" then Some(MXMaster3)
    else None
  }

  /** The protocol constants of one model, for a device paired at `slotId`. */
  datatype Protocol = Protocol(
    detect: seq<int>,     // switch_detect_message; empty: the model sends no switch event
    keys: seq<int>,       // easy_switch_keys; position = logical channel
    template: seq<int>,   // switch_message; byte 4 is the channel placeholder
    maxChannels: nat)

  /** The constructor's table of per-model constants. */
  function Table(kind: Kind, slotId: int): (p: Protocol)
    ensures |p.template| == 7 && p.template[1] == slotId && p.template[ChannelByte] == 0xFF
    ensures p.detect == [] <==> kind == MXErgo
    ensures kind != MXErgo ==> |p.detect| == 7 && p.detect[1] == slotId
  {
    match kind
    case MXKeys =>
      Protocol([0x11, slotId, 0x08, 0x20, 0x00, 0xFF, 0x01], [0xD1, 0xD2, 0xD3],
               [0x10, slotId, 0x09, 0x1e, 0xFF, 0x00, 0x00], 3)
    case MXErgo =>
      Protocol([], [], [0x10, slotId, 0x15, 0x1b, 0xFF, 0x00, 0x00], 2)
    case MXMaster3 =>
      // the author marks this row as unverified against the hardware
      Protocol([0x11, slotId, 0x08, 0x20, 0x00, 0xFF, 0x01], [0xD1, 0xD2, 0xD3],
               [0x10, slotId, 0x0A, 0x11, 0xFF, 0x00, 0x00], 3)
  }

  /** The Easy-Switch keys of a model are distinct, one per channel it can switch to. */
  lemma TableKeys(kind: Kind, slotId: int)
    ensures var p := Table(kind, slotId);
      (kind != MXErgo ==> |p.keys| == p.maxChannels)
      && forall i, j :: 0 <= i < j < |p.keys| ==> p.keys[i] != p.keys[j]
  {
  }

  /**
   * What the key loop of the decoder leaves in `target_channel`: every key
   * equal to `b` assigns `keys.index(b)`, the position of the first such
   * key; with no equal key the initial -1 stays.
   */
  function FirstIndex(keys: seq<int>, b: int): (r: int)
    ensures -1 <= r < |keys|
    ensures r == -1 <==> b !in keys
    ensures r >= 0 ==> keys[r] == b && forall j :: 0 <= j < r ==> keys[j] != b
  {
    if keys == [] then -1
    else if keys[0] == b then 0
    else
      var t := FirstIndex(keys[1..], b);
      if t == -1 then -1 else t + 1
  }

  /**
   * decode_target_channel_number: a channel index, NoMatch or NotApplicable.
   * Only bytes 0-3 and byte 6 of the report are compared with the
   * pattern; byte 5 is looked up among the keys.
   */
  function Decode(kind: Kind, detect: seq<int>, keys: seq<int>, report: seq<int>): (r: int)
    requires kind == MXErgo || |detect| == 7
    ensures r == NotApplicable <==> kind == MXErgo && |detect| <= |report|
  {
    if |detect| <= |report| then
      match kind
      case MXKeys | MXMaster3 =>
        if report[..4] == detect[..4] && report[6] == detect[6] then FirstIndex(keys, report[5])
        else NoMatch
      case MXErgo => NotApplicable
    else NoMatch
  }

  /** Decode with the constants the table gives a device of `kind` at `slotId`. */
  function DecodeFor(kind: Kind, slotId: int, report: seq<int>): int
  {
    var p := Table(kind, slotId);
    Decode(kind, p.detect, p.keys, report)
  }

  /** Upper- and lower-case spellings of a device type select the same model. */
  lemma {:induction false} KindOfIgnoresCase(s: string, t: string)
    requires SameIgnoringCase(s, t)
    ensures KindOf(s) == KindOf(t)
  {
    assert Lower(s) == Lower(t) by {
      forall i | 0 <= i < |s| ensures Lower(s)[i] == Lower(t)[i] { }
    }
  }

  /** A string equals the lower-casing of another when they agree letter by letter. */
  lemma LowerIs(s: string, t: string)
    requires |s| == |t| && forall i :: 0 <= i < |s| ==> LowerChar(s[i]) == t[i]
    ensures Lower(s) == t
  {
  }

  /** "MX Keys" in any letter case selects MX Keys. */
  lemma KindOfMXKeys()
    ensures KindOf("MX Keys") == Some(MXKeys) && KindOf("MX KEYS") == Some(MXKeys)
  {
    LowerIs("MX Keys", "mx keys");
    LowerIs("MX KEYS", "mx keys");
  }

  /** "MX Ergo" and "MX Master 3" select their models. */
  lemma KindOfOthers()
    ensures KindOf("MX Ergo") == Some(MXErgo) && KindOf("MX Master 3") == Some(MXMaster3)
  {
    LowerIs("MX Ergo", "mx ergo");
    LowerIs("MX Master 3", "mx master 3");
  }

  /** The Kelvin sign lower-cases to k, so "MX \u212Aeys" selects MX Keys as well. */
  lemma KindOfKelvin()
    ensures KindOf("MX " + [KelvinSign] + "eys") == Some(MXKeys)
  {
    LowerIs("MX " + [KelvinSign] + "eys", "mx keys");
  }

  /** A model missing from the table is refused. */
  lemma KindOfUnknown()
    ensures KindOf("MX Anywhere 3") == None
  {
    LowerIs("MX Anywhere 3", "mx anywhere 3");
  }

  /** MX Ergo answers NotApplicable to every report, the empty one included. */
  lemma DecodeErgo(slotId: int, report: seq<int>)
    ensures DecodeFor(MXErgo, slotId, report) == NotApplicable
  {
  }

  /** A report shorter than the detect pattern matches nothing. */
  lemma DecodeShortReport(kind: Kind, slotId: int, report: seq<int>)
    requires |report| < |Table(kind, slotId).detect|
    ensures DecodeFor(kind, slotId, report) == NoMatch
  {
  }

  /**
   * For the models with a detect pattern: the decoder returns channel `i`
   * exactly when bytes 0-3 and 6 agree with the pattern and byte 5 is the
   * i-th Easy-Switch key; every channel it returns is below maxChannels.
   */
  lemma {:induction false} DecodeChannel(kind: Kind, slotId: int, report: seq<int>, i: int)
    requires kind != MXErgo
    ensures var p := Table(kind, slotId);
      DecodeFor(kind, slotId, report) == i && i >= 0
      <==>
      |report| >= 7 && report[..4] == p.detect[..4] && report[6] == p.detect[6]
      && 0 <= i < |p.keys| && report[5] == p.keys[i]
    ensures DecodeFor(kind, slotId, report) >= 0 || DecodeFor(kind, slotId, report) == NoMatch
    ensures DecodeFor(kind, slotId, report) < Table(kind, slotId).maxChannels
  {
    var p := Table(kind, slotId);
    TableKeys(kind, slotId);
    if |report| >= 7 && report[..4] == p.detect[..4] && report[6] == p.detect[6]
       && 0 <= i < |p.keys| && report[5] == p.keys[i]
    {
      var r := FirstIndex(p.keys, report[5]);
      assert r >= 0 && p.keys[r] == p.keys[i];
    }
  }

  /** A report that does not carry the device's slot id in byte 1 never selects a channel. */
  lemma {:induction false} DecodeNeedsSlot(kind: Kind, slotId: int, report: seq<int>)
    requires |report| > 1 && report[1] != slotId
    ensures DecodeFor(kind, slotId, report) < 0
  {
    var p := Table(kind, slotId);
    if kind != MXErgo && |report| >= 7 {
      assert report[..4][1] != p.detect[..4][1];
    }
  }

  /** Byte 4 of the report is never compared: changing it never changes the result. */
  lemma {:induction false} DecodeIgnoresByte4(kind: Kind, slotId: int, report: seq<int>, x: int)
    requires |report| > 4
    ensures DecodeFor(kind, slotId, report[4 := x]) == DecodeFor(kind, slotId, report)
  {
    assert report[4 := x][..4] == report[..4];
  }
}
