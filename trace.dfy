/**
 * The log of lifecycle steps the service takes: setting its running flag,
 * wiring and starting the MQTT connector and the Modbus reader, registering
 * registers with the reader, stopping both, and waking the waiting thread.
 * The state flags of the service are functions of this log.
 */
module Trace {
  import opened Registers

  datatype Event =
    | RunningSet(running: bool)
    | CommandListenerAdded(topic: string)
    | MqttStarted
    | DataListenerAdded
    | ModbusStarted
    | RegisterAdded(register: Descriptor)
    | MqttStopped
    | ModbusStopped
    | Notified

  /** The running flag as last set in the log; false before it is ever set. */
  function RunningIn(t: seq<Event>): bool
  {
    if t == [] then false
    else if t[|t| - 1].RunningSet? then t[|t| - 1].running
    else RunningIn(t[..|t| - 1])
  }

  /** Whether the last call on the MQTT connector started it. */
  function MqttUp(t: seq<Event>): bool
  {
    if t == [] then false
    else if t[|t| - 1] == MqttStarted then true
    else if t[|t| - 1] == MqttStopped then false
    else MqttUp(t[..|t| - 1])
  }

  /** Whether the last call on the Modbus reader started it. */
  function ModbusUp(t: seq<Event>): bool
  {
    if t == [] then false
    else if t[|t| - 1] == ModbusStarted then true
    else if t[|t| - 1] == ModbusStopped then false
    else ModbusUp(t[..|t| - 1])
  }

  /** The registers handed to the Modbus reader, in the order they were added. */
  function Added(t: seq<Event>): seq<Descriptor>
  {
    if t == [] then []
    else if t[|t| - 1].RegisterAdded? then Added(t[..|t| - 1]) + [t[|t| - 1].register]
    else Added(t[..|t| - 1])
  }

  /** The log entries of adding registers, one per register, in order. */
  function Registrations(ds: seq<Descriptor>): (t: seq<Event>)
    ensures |t| == |ds|
  {
    seq(|ds|, i requires 0 <= i < |ds| => RegisterAdded(ds[i]))
  }

  /** Registering one more descriptor logs one more entry. */
  lemma RegistrationsSnoc(ds: seq<Descriptor>, d: Descriptor)
    ensures Registrations(ds + [d]) == Registrations(ds) + [RegisterAdded(d)]
  {
  }

  /** start: set the running flag, wire and start MQTT, then wire and start Modbus. */
  function StartEvents(commandTopic: string): seq<Event>
  {
    [RunningSet(true), CommandListenerAdded(commandTopic), MqttStarted, DataListenerAdded, ModbusStarted]
  }

  /** start when the Modbus reader cannot be opened: the flag is set and MQTT is already running. */
  function FailedStartEvents(commandTopic: string): seq<Event>
  {
    [RunningSet(true), CommandListenerAdded(commandTopic), MqttStarted]
  }

  /** stop: stop MQTT, then Modbus, then clear the running flag and wake the waiting thread. */
  function StopEvents(): seq<Event>
  {
    [MqttStopped, ModbusStopped, RunningSet(false), Notified]
  }

  /** stop's log, step by step: each connection's stop, then the flag and the wake-up. */
  lemma StopSteps(t: seq<Event>)
    ensures t + [MqttStopped] + [ModbusStopped] + [RunningSet(false), Notified] == t + StopEvents()
  {
    assert [MqttStopped] + [ModbusStopped] + [RunningSet(false), Notified] == StopEvents();
  }

  /** How one more log entry changes the state read from the log. */
  lemma Extend(t: seq<Event>, e: Event)
    ensures RunningIn(t + [e]) == if e.RunningSet? then e.running else RunningIn(t)
    ensures MqttUp(t + [e]) == if e == MqttStarted then true else if e == MqttStopped then false else MqttUp(t)
    ensures ModbusUp(t + [e]) == if e == ModbusStarted then true else if e == ModbusStopped then false else ModbusUp(t)
    ensures Added(t + [e]) == if e.RegisterAdded? then Added(t) + [e.register] else Added(t)
  {
  }

  /** Logging one more registration onto a log that already holds a run of them. */
  lemma LogSnoc(t: seq<Event>, ds: seq<Descriptor>, d: Descriptor)
    ensures t + Registrations(ds + [d]) == (t + Registrations(ds)) + [RegisterAdded(d)]
  {
    RegistrationsSnoc(ds, d);
  }

  /** Adding one register adds exactly that register and changes no flag. */
  lemma RegisterStep(u: seq<Event>, d: Descriptor)
    ensures Added(u + [RegisterAdded(d)]) == Added(u) + [d]
    ensures RunningIn(u + [RegisterAdded(d)]) == RunningIn(u)
    ensures MqttUp(u + [RegisterAdded(d)]) == MqttUp(u)
    ensures ModbusUp(u + [RegisterAdded(d)]) == ModbusUp(u)
  {
    Extend(u, RegisterAdded(d));
  }

  /** Adding a run of registers adds exactly those registers and changes no flag. */
  lemma {:induction false} AddedRegistrations(t: seq<Event>, ds: seq<Descriptor>)
    ensures Added(t + Registrations(ds)) == Added(t) + ds
    ensures RunningIn(t + Registrations(ds)) == RunningIn(t)
    ensures MqttUp(t + Registrations(ds)) == MqttUp(t)
    ensures ModbusUp(t + Registrations(ds)) == ModbusUp(t)
  {
    if ds == [] {
      assert t + Registrations(ds) == t;
    } else {
      var ds', d := ds[..|ds| - 1], ds[|ds| - 1];
      assert ds == ds' + [d];
      AddedRegistrations(t, ds');
      LogSnoc(t, ds', d);
      RegisterStep(t + Registrations(ds'), d);
    }
  }

  /** Whatever came before, a completed start leaves the flag set and both connections started. */
  lemma AfterStart(t: seq<Event>, commandTopic: string)
    ensures RunningIn(t + StartEvents(commandTopic))
    ensures MqttUp(t + StartEvents(commandTopic)) && ModbusUp(t + StartEvents(commandTopic))
    ensures Added(t + StartEvents(commandTopic)) == Added(t)
  {
    var t1 := t + [RunningSet(true)];
    var t2 := t1 + [CommandListenerAdded(commandTopic)];
    var t3 := t2 + [MqttStarted];
    var t4 := t3 + [DataListenerAdded];
    assert t + StartEvents(commandTopic) == t4 + [ModbusStarted];
    Extend(t, RunningSet(true));
    Extend(t1, CommandListenerAdded(commandTopic));
    Extend(t2, MqttStarted);
    Extend(t3, DataListenerAdded);
    Extend(t4, ModbusStarted);
  }

  /** Whatever came before, a stop leaves the flag clear and both connections stopped. */
  lemma AfterStop(t: seq<Event>)
    ensures !RunningIn(t + StopEvents())
    ensures !MqttUp(t + StopEvents()) && !ModbusUp(t + StopEvents())
    ensures Added(t + StopEvents()) == Added(t)
  {
    var t1 := t + [MqttStopped];
    var t2 := t1 + [ModbusStopped];
    var t3 := t2 + [RunningSet(false)];
    assert t + StopEvents() == t3 + [Notified];
    Extend(t, MqttStopped);
    Extend(t1, ModbusStopped);
    Extend(t2, RunningSet(false));
    Extend(t3, Notified);
  }
}
