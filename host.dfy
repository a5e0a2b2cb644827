/**
 * What the program observes of the outside world: the HID output of the
 * Unifying receiver and the input source of every attached monitor.
 * The HID transport (`unifying_write`) and the monitorcontrol calls are
 * foreign; they are modelled as an append-only event log and a map from
 * monitor index to current input source.
 */
module Host {

  /** One externally visible action. */
  datatype Event =
    | HidWrite(report: seq<int>)              // unifying_write(data)
    | InputSet(monitorId: int, input: string) // monitor.set_input_source(input)

  /** The environment as a value: current monitor inputs and everything written so far. */
  datatype Env = Env(inputs: map<int, string>, log: seq<Event>)

  class Environment {
    /** Input source of each attached monitor, by its index in get_monitors(). */
    var inputs: map<int, string>
    /** Every HID write and every input change, in order. */
    ghost var log: seq<Event>

    ghost function State(): Env
      reads this
    {
      Env(inputs, log)
    }

    constructor (attached: map<int, string>)
      ensures State() == Env(attached, [])
    {
      inputs := attached;
      log := [];
    }

    /** Sends one report through the receiver's output interface. */
    method Write(report: seq<int>)
      modifies this
      ensures State() == old(State()).(log := old(log) + [HidWrite(report)])
    {
      log := log + [HidWrite(report)];
    }

    /** Reads a monitor's current input source. */
    method GetInputSource(monitorId: int) returns (input: string)
      requires monitorId in inputs
      ensures input == inputs[monitorId]
    {
      input := inputs[monitorId];
    }

    /** Selects a monitor's input source. */
    method SetInputSource(monitorId: int, input: string)
      requires monitorId in inputs
      modifies this
      ensures State() == Env(old(inputs)[monitorId := input], old(log) + [InputSet(monitorId, input)])
    {
      inputs := inputs[monitorId := input];
      log := log + [InputSet(monitorId, input)];
    }
  }
}
