/**
 * The service itself (WattNodeService): its running flag, its MQTT connector
 * and Modbus reader reduced to whether they exist and whether they are
 * started, the registers it has handed to the reader, the log of its
 * lifecycle steps, and what it has published.
 */
module Lifecycle {
  import opened Registers
  import opened Dispatch
  import opened Trace

  /** The parts of the configuration the core reads. */
  datatype Configuration = Configuration(commandTopic: string, dataTopic: string, registers: seq<RegisterConfig>)

  class Service {
    const config: Configuration
    var running: bool
    /** Whether the connector has been created (the field `mqtt` is set). */
    var hasConnector: bool
    /** Whether a reader has been opened (the field `mbus` is set). */
    var hasReader: bool
    var mqttStarted: bool
    var modbusStarted: bool
    var registered: seq<Descriptor>
    var trace: seq<Event>
    /** The messages handed to the MQTT connector to publish, in order. */
    ghost var published: seq<Publication>

    /** The flags and the registered list always agree with the log. */
    ghost predicate Valid()
      reads this
    {
      && running == RunningIn(trace)
      && mqttStarted == MqttUp(trace)
      && modbusStarted == ModbusUp(trace)
      && registered == Added(trace)
    }

    /** The configured service, before start. */
    constructor (config: Configuration)
      ensures Valid() && this.config == config
      ensures !running && !hasConnector && !hasReader && !mqttStarted && !modbusStarted
      ensures registered == [] && trace == [] && published == []
    {
      this.config := config;
      running, hasConnector, hasReader := false, false, false;
      mqttStarted, modbusStarted := false, false;
      registered, trace := [], [];
      published := [];
    }

    /** Append one lifecycle step to the log. */
    method Log(e: Event)
      modifies this`trace
      ensures trace == old(trace) + [e]
    {
      trace := trace + [e];
    }

    /** startMqtt: listen on the command topic, then start the connector. */
    method StartMqtt()
      requires Valid()
      modifies this
      ensures Valid() && hasConnector && mqttStarted
      ensures trace == old(trace) + [CommandListenerAdded(config.commandTopic), MqttStarted]
      ensures running == old(running) && modbusStarted == old(modbusStarted) && hasReader == old(hasReader)
      ensures registered == old(registered) && published == old(published)
    {
      hasConnector := true;
      ghost var t0 := trace;
      assert t0 + [CommandListenerAdded(config.commandTopic)] + [MqttStarted]
          == t0 + [CommandListenerAdded(config.commandTopic), MqttStarted];
      Extend(trace, CommandListenerAdded(config.commandTopic));
      Log(CommandListenerAdded(config.commandTopic));
      Extend(trace, MqttStarted);
      Log(MqttStarted);
      mqttStarted := true;
    }

    /**
     * startModbus: open the reader, listen for polled values, then start it.
     * Whether the reader can be opened is decided by the serial line, a
     * parameter here; when it cannot, nothing of the reader is touched and a
     * reader opened by an earlier start, if any, stays the service's reader.
     */
    method StartModbus(opens: bool) returns (ok: bool)
      requires Valid()
      modifies this
      ensures Valid() && ok == opens
      ensures trace == old(trace) + (if ok then [DataListenerAdded, ModbusStarted] else [])
      ensures hasReader == (ok || old(hasReader)) && modbusStarted == (ok || old(modbusStarted))
      ensures running == old(running) && mqttStarted == old(mqttStarted) && hasConnector == old(hasConnector)
      ensures registered == old(registered) && published == old(published)
    {
      ok := opens;
      if ok {
        hasReader := true;
        Extend(trace, DataListenerAdded);
        Log(DataListenerAdded);
        Extend(trace, ModbusStarted);
        Log(ModbusStarted);
        modbusStarted := true;
      }
    }

    /**
     * start: set the running flag first, then start MQTT, then Modbus. When the
     * reader cannot be opened the error leaves the flag set and MQTT started.
     */
    method Start(modbusOpens: bool) returns (ok: bool)
      requires Valid()
      modifies this
      ensures Valid() && ok == modbusOpens
      ensures running && hasConnector && mqttStarted
      ensures trace == old(trace) + if ok then StartEvents(config.commandTopic) else FailedStartEvents(config.commandTopic)
      ensures hasReader == (ok || old(hasReader)) && modbusStarted == (ok || old(modbusStarted))
      ensures registered == old(registered) && published == old(published)
    {
      Extend(trace, RunningSet(true));
      Log(RunningSet(true));
      running := true;
      StartMqtt();
      ok := StartModbus(modbusOpens);
    }

    /**
     * stopMqtt: stop the connector. It is only called from the command
     * listener, which exists only once the connector does.
     */
    method StopMqtt()
      requires Valid() && hasConnector
      modifies this`mqttStarted, this`trace
      ensures Valid() && !mqttStarted
      ensures trace == old(trace) + [MqttStopped]
      ensures running == old(running) && modbusStarted == old(modbusStarted)
      ensures hasConnector == old(hasConnector) && hasReader == old(hasReader)
      ensures registered == old(registered) && published == old(published)
    {
      Extend(trace, MqttStopped);
      Log(MqttStopped);
      mqttStarted := false;
    }

    /**
     * stopModbus: stop the reader. When no reader was ever opened the call
     * dereferences an absent reader: it fails (`ok` is false) and changes
     * nothing.
     */
    method StopModbus() returns (ok: bool)
      requires Valid()
      modifies this`modbusStarted, this`trace
      ensures Valid() && ok == hasReader
      ensures ok ==> !modbusStarted && trace == old(trace) + [ModbusStopped]
      ensures !ok ==> modbusStarted == old(modbusStarted) && trace == old(trace)
      ensures running == old(running) && mqttStarted == old(mqttStarted)
      ensures hasConnector == old(hasConnector) && hasReader == old(hasReader)
      ensures registered == old(registered) && published == old(published)
    {
      ok := hasReader;
      if !ok {
        return;
      }
      Extend(trace, ModbusStopped);
      Log(ModbusStopped);
      modbusStarted := false;
    }

    /**
     * stop: MQTT first, then Modbus, then clear the flag and wake the thread
     * waiting in Run. Nothing guards against a second call: each call stops
     * both connections again. After a start whose reader never opened, the
     * call fails once MQTT is stopped (`ok` is false): it neither clears the
     * flag nor notifies.
     */
    method Stop() returns (ok: bool)
      requires Valid() && hasConnector
      modifies this`mqttStarted, this`modbusStarted, this`running, this`trace
      ensures Valid() && ok == hasReader && !mqttStarted
      ensures ok ==> trace == old(trace) + StopEvents() && !running && !modbusStarted
      ensures !ok ==> trace == old(trace) + [MqttStopped]
                      && running == old(running) && modbusStarted == old(modbusStarted)
      ensures hasConnector == old(hasConnector) && hasReader == old(hasReader)
      ensures registered == old(registered) && published == old(published)
    {
      ghost var t0 := trace;
      StopMqtt();
      ok := StopModbus();
      if !ok {
        return;
      }
      Halt();
      StopSteps(t0);
    }

    /** The end of stop: clear the running flag, then wake the thread waiting in Run. */
    method Halt()
      requires Valid()
      modifies this`running, this`trace
      ensures Valid() && !running
      ensures trace == old(trace) + [RunningSet(false), Notified]
    {
      Extend(trace, RunningSet(false));
      Log(RunningSet(false));
      running := false;
      Extend(trace, Notified);
      Log(Notified);
    }

    /**
     * The command listener, registered on the connector: "quit" stops the
     * service, and fails as stop does when no reader was ever opened; any
     * other payload changes nothing.
     */
    method OnCommand(msg: string) returns (ok: bool)
      requires Valid() && hasConnector
      modifies this
      ensures Valid()
      ensures ok <==> ParseCommand(msg) != Quit || hasReader
      ensures ParseCommand(msg) == Quit ==>
                && !mqttStarted
                && (ok ==> trace == old(trace) + StopEvents() && !running && !modbusStarted)
                && (!ok ==> trace == old(trace) + [MqttStopped]
                            && running == old(running) && modbusStarted == old(modbusStarted))
                && hasConnector == old(hasConnector) && hasReader == old(hasReader)
                && registered == old(registered) && published == old(published)
      ensures ParseCommand(msg) != Quit ==> unchanged(this)
    {
      match ParseCommand(msg)
      case Quit => ok := Stop();
      case Ignored(_) => ok := true;
    }

    /**
     * The Modbus listener: one polled value of a register, already decoded to
     * text, is published once on the register's data topic; nothing else changes.
     */
    method OnData(register: Descriptor, value: string)
      requires Valid() && hasConnector && hasReader
      modifies this`published
      ensures Valid()
      ensures published == old(published) + [Publication(Topic(config.dataTopic, register.Name()), value)]
    {
      published := published + [Publication(Topic(config.dataTopic, register.Name()), value)];
    }

    /**
     * One delivery reaches the listener it is for. The listeners exist only
     * once both connections have been created, as after a completed start.
     */
    method Deliver(d: Delivery)
      requires Valid() && hasConnector && hasReader
      modifies this
      ensures Valid() && hasConnector && hasReader
      ensures published == old(published) + Published(config.dataTopic, d)
      ensures registered == old(registered)
      ensures IsQuit(d) ==> trace == old(trace) + StopEvents() && !running && !mqttStarted && !modbusStarted
      ensures !IsQuit(d) ==> trace == old(trace) && running == old(running)
                             && mqttStarted == old(mqttStarted) && modbusStarted == old(modbusStarted)
    {
      match d
      case CommandMessage(msg) =>
        var ok := OnCommand(msg);
      case Poll(register, value) => OnData(register, value);
    }

    /** mbus.addRegister: hand one register to the Modbus reader. */
    method AddRegister(d: Descriptor)
      modifies this`registered, this`trace
      ensures registered == old(registered) + [d]
      ensures trace == old(trace) + [RegisterAdded(d)]
    {
      Log(RegisterAdded(d));
      registered := registered + [d];
    }

    /** run's first loop: hand every configured register to the reader, in configuration order. */
    method RegisterAll()
      requires Valid() && hasReader
      modifies this`registered, this`trace
      ensures Valid()
      ensures registered == old(registered) + Catalog(config.registers)
      ensures trace == old(trace) + Registrations(Catalog(config.registers))
    {
      var regs := config.registers;
      ghost var r0, t0 := registered, trace;
      for i := 0 to |regs|
        invariant registered == r0 + Catalog(regs[..i])
        invariant trace == t0 + Registrations(Catalog(regs[..i]))
      {
        var d := MakeRegister(regs[i]);
        CatalogSnoc(regs, i);
        RegistrationsSnoc(Catalog(regs[..i]), d);
        AddRegister(d);
      }
      assert regs[..|regs|] == regs;
      AddedRegistrations(t0, Catalog(regs));
    }

    /** The state of the wait after the first `i` deliveries were handled. */
    ghost predicate Waited(ds: seq<Delivery>, i: nat, quit: bool, wasRunning: bool,
                           t0: seq<Event>, p0: seq<Publication>, r0: seq<Descriptor>)
      reads this
    {
      && i <= |ds|
      && Valid() && hasConnector && hasReader
      && (wasRunning || i == 0)
      && registered == r0
      && published == p0 + Publications(config.dataTopic, ds[..i])
      && (quit ==> i > 0 && IsQuit(ds[i - 1]) && QuitFree(ds[..i - 1]))
      && (!quit ==> QuitFree(ds[..i]))
      && running == (wasRunning && !quit)
      && trace == t0 + (if quit then StopEvents() else [])
    }

    /** One turn of the wait: the next delivery reaches its listener. */
    method HandleNext(ds: seq<Delivery>, i: nat, ghost wasRunning: bool,
                      ghost t0: seq<Event>, ghost p0: seq<Publication>, ghost r0: seq<Descriptor>)
      returns (ghost quit: bool)
      requires Waited(ds, i, false, wasRunning, t0, p0, r0) && running && i < |ds|
      modifies this
      ensures Waited(ds, i + 1, quit, wasRunning, t0, p0, r0)
    {
      PublicationsSnoc(config.dataTopic, ds, i);
      assert ds[..i + 1][..i] == ds[..i];
      Deliver(ds[i]);
      quit := IsQuit(ds[i]);
    }

    /**
     * run's second loop: wait while the service is running. The deliveries
     * that reach the listeners meanwhile are a parameter; the wait ends once a
     * "quit" has been handled. `exited` is false when the deliveries ran out
     * with the service still running, that is, when the real thread would
     * still be waiting. It is reached only after a completed start, so both
     * connections exist.
     */
    method AwaitStop(deliveries: seq<Delivery>) returns (exited: bool)
      requires Valid() && hasConnector && hasReader
      modifies this
      ensures Valid() && hasConnector && hasReader && registered == old(registered)
      ensures published == old(published)
                           + Publications(config.dataTopic, if old(running) then UntilQuit(deliveries) else [])
      ensures trace == old(trace) + (if old(running) && !QuitFree(deliveries) then StopEvents() else [])
      ensures running == (old(running) && QuitFree(deliveries))
      ensures exited == !running
    {
      ghost var wasRunning, t0, p0, r0 := running, trace, published, registered;
      var i := 0;
      ghost var quit := false;
      while running && i < |deliveries|
        invariant Waited(deliveries, i, quit, wasRunning, t0, p0, r0)
      {
        quit := HandleNext(deliveries, i, wasRunning, t0, p0, r0);
        i := i + 1;
      }
      exited := !running;
      if !wasRunning {
        assert deliveries[..i] == [];
      } else if quit {
        UntilFirstQuit(deliveries, i - 1);
        assert IsQuit(deliveries[i - 1]);
      } else {
        assert deliveries[..i] == deliveries;
        UntilQuitAll(deliveries);
      }
    }

    /**
     * run: register every configured register, in configuration order, then
     * wait until a "quit" stops the service. Like AwaitStop, it is reached only
     * after a completed start.
     */
    method Run(deliveries: seq<Delivery>) returns (exited: bool)
      requires Valid() && hasConnector && hasReader
      modifies this
      ensures Valid() && hasConnector && hasReader
      ensures registered == old(registered) + Catalog(config.registers)
      ensures published == old(published)
                           + Publications(config.dataTopic, if old(running) then UntilQuit(deliveries) else [])
      ensures trace == old(trace) + Registrations(Catalog(config.registers))
                       + (if old(running) && !QuitFree(deliveries) then StopEvents() else [])
      ensures running == (old(running) && QuitFree(deliveries))
      ensures exited == !running
    {
      RegisterAll();
      exited := AwaitStop(deliveries);
    }
  }

  /**
   * main after the configuration is read: start the service and, if it started,
   * run it until a "quit" among the deliveries has been handled.
   */
  method Session(config: Configuration, modbusOpens: bool, deliveries: seq<Delivery>)
    returns (started: bool, exited: bool, registered: seq<Descriptor>, trace: seq<Event>,
             ghost published: seq<Publication>)
    ensures started == modbusOpens
    ensures started ==> registered == Catalog(config.registers)
    ensures started ==> published == Publications(config.dataTopic, UntilQuit(deliveries))
    ensures started ==> (exited <==> !QuitFree(deliveries))
    ensures started ==> trace == StartEvents(config.commandTopic) + Registrations(Catalog(config.registers))
                                 + (if exited then StopEvents() else [])
    ensures !started ==> !exited && registered == [] && published == []
                         && trace == FailedStartEvents(config.commandTopic)
  {
    var s := new Service(config);
    started := s.Start(modbusOpens);
    if !started {
      exited, registered, trace, published := false, s.registered, s.trace, s.published;
      return;
    }
    assert s.running && s.trace == StartEvents(config.commandTopic) && s.registered == [] && s.published == [];
    exited := s.Run(deliveries);
    registered, trace, published := s.registered, s.trace, s.published;
  }

  /**
   * A second "quit" is not ignored: it stops both connections again, so the
   * log shows two complete stop sequences.
   */
  method QuitTwice(config: Configuration) returns (trace: seq<Event>)
    ensures trace == StartEvents(config.commandTopic) + StopEvents() + StopEvents()
  {
    var s := new Service(config);
    var started := s.Start(true);
    var ok1 := s.OnCommand("quit");
    var ok2 := s.OnCommand("quit");
    trace := s.trace;
  }

  /**
   * main gives up when the reader cannot be opened, but the connector started
   * before it keeps listening. A "quit" arriving then stops MQTT and fails at
   * the absent reader: the running flag stays set and nobody is woken.
   */
  method QuitAfterFailedStart(config: Configuration) returns (ok: bool, running: bool, trace: seq<Event>)
    ensures !ok && running
    ensures trace == FailedStartEvents(config.commandTopic) + [MqttStopped]
  {
    var s := new Service(config);
    var started := s.Start(false);
    ok := s.OnCommand("quit");
    running, trace := s.running, s.trace;
  }
}
