# WattNode Modbus-to-MQTT bridge: a Dafny model of the service core

`WattNodeService` polls registers of a power meter over Modbus and publishes
each polled value on an MQTT topic. It also listens on a command topic for
`"quit"`. This project models the logic under that I/O wiring and proves
properties of it:

- **Register descriptors** (`registers.dfy`, module `Registers`).
  `makeRegister` wraps a configuration entry in a descriptor. The descriptor
  reports the entry's name, address and length unchanged. `getType` maps
  `"float"` and `"int"` to the two register types and rejects every other
  string. `getTransform` builds the entry's expression over the variable `_`,
  binds `_` to 0 and validates it. A text the library cannot build fails with
  the library's own error; a failed validation is the service's
  "invalid transform" error. Both checks run every time the getter is called,
  not when the descriptor is made. The expression library's two verdicts are a
  parameter, `Library`.
- **Listeners** (`dispatch.dfy`, module `Dispatch`). The command listener's
  switch treats only `"quit"` as a command. The Modbus listener makes one
  publish per polled value, on the topic `dataTopic + "/" + name`. Topics are
  inverted by `NameOfTopic`, so distinct names give distinct topics.
  `Publications` is what a run of deliveries publishes. `UntilQuit` is the part
  of a run of deliveries the service handles before the first `"quit"` stops it.
- **Lifecycle log** (`trace.dfy`, module `Trace`). This is the ordered record of
  lifecycle steps: setting the running flag, adding listeners, starting and
  stopping the two connections, adding registers, and waking the waiting
  thread. The running flag, the two "started" flags and the list of registered
  descriptors are functions of this log.
- **The service** (`lifecycle.dfy`, module `Lifecycle`). Class `Service` has
  the fields `running`, `mqttStarted`, `modbusStarted`, `registered`, `trace`
  and a ghost `published`. Its invariant `Valid()` says that `running`,
  `mqttStarted`, `modbusStarted` and `registered` agree with the log. `Start`, `Stop`, the two listeners and `Run` each state
  their whole new state. Two more fields record whether the connector and the
  reader exist at all (the Java fields `mqtt` and `mbus` are set).
  `Session` is `main` after the configuration is read. `QuitTwice` shows that
  a second `"quit"` stops both connections again. `QuitAfterFailedStart`
  shows what a `"quit"` does after the reader failed to open.

Where the code differs from what one would expect of the bridge, the model
follows the code:

- A transform is validated lazily, on each `getTransform` call. It is not
  compiled once at startup.
- Nothing guards `stop` against a second `"quit"`, so `stop` is not idempotent.
  `Lifecycle.QuitTwice` proves the log then holds two full stop sequences.
- `start` sets `running` before it connects. If the Modbus reader cannot be
  opened, the error leaves `running` true and MQTT started.
  `Lifecycle.Service.Start` states this.
- After such a failed start, `main` returns but the MQTT connector still
  listens. A `"quit"` then stops MQTT and fails at `stopModbus`, which
  dereferences the absent reader: `stop` neither clears `running` nor
  notifies. `Lifecycle.Service.Stop` and `Lifecycle.QuitAfterFailedStart`
  state this.
- The Modbus listener does not catch exceptions from decoding. It just
  publishes. Decoding is not part of this model.

One difference the model does not follow: the wake-up at the end of `run` can
be lost. `run` tests `running` (`WattNodeService.java` line 182) outside the
monitor it waits on (lines 184-186), and `stop` clears `running` (line 118)
outside the monitor it notifies on (lines 119-121). A `"quit"` handled after
the test and before `wait()` notifies no thread, and `run` then waits forever
with `running` false. The model handles each delivery completely between two
tests of `running`, so in it every handled `"quit"` ends the wait; see the
`Lifecycle.Service.AwaitStop` line under "## Left out".

## Model

| member | source | states |
|---|---|---|
| `Registers.ParseType` | src/main/java/me/legrange/bridge/WattNodeService.java:220-230 | Succeeds exactly for `"float"` and `"int"`. A success spells back to the input through `TypeName`. Every other string is `UnknownType` naming it, and no register type spells it. |
| `Registers.ParseTypeName` | src/main/java/me/legrange/bridge/WattNodeService.java:222-226 | Every register type is accepted back from its configuration spelling (`FLOAT` from `"float"`, `INT` from `"int"`). |
| `Registers.BuildTransform` | src/main/java/me/legrange/bridge/WattNodeService.java:210-218 | Succeeds iff the library builds the text and validates the result. A success keeps the text, uses the variable `_` and binds it to 0. A text that does not build fails with `BuildFailed`, and with nothing else. A text that builds but does not validate is `InvalidTransform` with the text and the library's problems. |
| `Registers.MakeRegister` | src/main/java/me/legrange/bridge/WattNodeService.java:193-232 | Never fails. The descriptor reports the entry's name, address and length. Its type succeeds iff the entry's type is `"float"` or `"int"`. For every expression library, its transform succeeds iff that library builds and validates the entry's expression. |
| `Registers.Catalog` | src/main/java/me/legrange/bridge/WattNodeService.java:178-181 | One descriptor per configuration entry. The descriptor at each position is made from the entry at that position. |
| `Dispatch.TopicRoundTrip` | src/main/java/me/legrange/bridge/WattNodeService.java:155 | The data topic of a register name reads back as that name under the data topic. |
| `Dispatch.TopicOfName` | src/main/java/me/legrange/bridge/WattNodeService.java:155 | Every topic that reads as a name under the data topic is that name's topic. |
| `Dispatch.TopicInjective` | src/main/java/me/legrange/bridge/WattNodeService.java:155 | Two register names with the same data topic are the same name. |
| `Dispatch.CatalogTopicsDistinct` | src/main/java/me/legrange/bridge/WattNodeService.java:155-181 | When the configured entries have pairwise distinct names, the registers handed to the reader publish on pairwise distinct data topics. |
| `Dispatch.ParseCommand` | src/main/java/me/legrange/bridge/WattNodeService.java:133-136 | The payload is the quit command iff it is `"quit"`. Any other payload is ignored and kept as it was. |
| `Dispatch.Published` | src/main/java/me/legrange/bridge/WattNodeService.java:153-156 | A polled value publishes exactly once, a command not at all. That publish is on a topic that reads back as the register's name, and it carries the value. |
| `Dispatch.PublicationsAppend` | src/main/java/me/legrange/bridge/WattNodeService.java:153-156 | Two runs of deliveries, one after the other, publish what the first publishes followed by what the second publishes. |
| `Dispatch.PublicationsOfPolls` | src/main/java/me/legrange/bridge/WattNodeService.java:153-156 | A run of polled values publishes one message per value, in the same order. Each goes to `dataTopic/name` of its own register and carries its own value. |
| `Dispatch.PublicationsOfCommands` | src/main/java/me/legrange/bridge/WattNodeService.java:130-141 | Command messages publish nothing. |
| `Dispatch.PublicationsOnDataTopic` | src/main/java/me/legrange/bridge/WattNodeService.java:155 | Every message the service publishes goes to a topic under the data topic. |
| `Dispatch.UntilQuit` | src/main/java/me/legrange/bridge/WattNodeService.java:182-189 | The deliveries handled during the wait are a prefix of all deliveries. |
| `Dispatch.UntilQuitAll` | src/main/java/me/legrange/bridge/WattNodeService.java:182-189 | With no `"quit"` among the deliveries, every delivery is handled. |
| `Dispatch.UntilFirstQuit` | src/main/java/me/legrange/bridge/WattNodeService.java:182-189 | The handled deliveries end exactly at the first `"quit"`. |
| `Trace.Registrations` | src/main/java/me/legrange/bridge/WattNodeService.java:178-181 | Registering descriptors logs exactly one entry per descriptor; `AddedRegistrations` shows these entries add the descriptors in order. |
| `Trace.AddedRegistrations` | src/main/java/me/legrange/bridge/WattNodeService.java:178-181 | Logging a run of registrations adds exactly those descriptors, in order. It changes neither the running flag nor either connection. |
| `Trace.AfterStart` | src/main/java/me/legrange/bridge/WattNodeService.java:107-113 | Whatever came before, a completed start leaves the running flag set and MQTT and Modbus started. The registered list is unchanged. |
| `Trace.AfterStop` | src/main/java/me/legrange/bridge/WattNodeService.java:115-123 | Whatever came before, a stop leaves the running flag clear and both connections stopped. The registered list is unchanged. |
| `Lifecycle.Service.constructor` | src/main/java/me/legrange/bridge/WattNodeService.java:88-89 | A new service is not running, has no connection started, nothing registered, an empty log and nothing published. |
| `Lifecycle.Service.StartMqtt` | src/main/java/me/legrange/bridge/WattNodeService.java:128-143 | Creates the connector, adds the command listener on the command topic, then starts the connector. Nothing else changes. |
| `Lifecycle.Service.StartModbus` | src/main/java/me/legrange/bridge/WattNodeService.java:145-166 | When the reader opens, it becomes the service's reader, the data listener is added, then the reader starts. When it does not open, nothing changes (an earlier reader stays) and the result reports the failure. |
| `Lifecycle.Service.Start` | src/main/java/me/legrange/bridge/WattNodeService.java:107-113 | The log grows by exactly: running set, command listener, MQTT started, then (if the reader opens) data listener and Modbus started. Afterwards `running` and MQTT are up even on failure. Registrations and publishes are unchanged. |
| `Lifecycle.Service.StopMqtt` | src/main/java/me/legrange/bridge/WattNodeService.java:168-170 | Logs the MQTT stop and clears the MQTT flag. Nothing else changes. |
| `Lifecycle.Service.StopModbus` | src/main/java/me/legrange/bridge/WattNodeService.java:172-174 | With a reader, logs the Modbus stop and clears the Modbus flag. Without one, fails and changes nothing. Nothing else changes. |
| `Lifecycle.Service.Stop` | src/main/java/me/legrange/bridge/WattNodeService.java:115-123 | With a reader, the log grows by exactly: MQTT stopped, Modbus stopped, running cleared, waiter notified, and afterwards nothing runs. There is no guard, so a repeated stop logs all four steps again. Without a reader, it fails after MQTT stopped: the log grows by that step only and `running` keeps its value. |
| `Lifecycle.Service.Halt` | src/main/java/me/legrange/bridge/WattNodeService.java:118-121 | Clears the running flag, then wakes the waiting thread. Nothing else changes. |
| `Lifecycle.Service.OnCommand` | src/main/java/me/legrange/bridge/WattNodeService.java:130-141 | `"quit"` performs exactly `stop`'s effect and fails exactly when `stop` does. Any other payload succeeds and leaves the whole service unchanged. |
| `Lifecycle.Service.OnData` | src/main/java/me/legrange/bridge/WattNodeService.java:152-156 | Appends exactly one publish, with the value as payload, to `dataTopic + "/" + name`. Only the publish record may change. |
| `Lifecycle.Service.Deliver` | src/main/java/me/legrange/bridge/WattNodeService.java:130-156 | A delivery reaches its listener. It publishes what `Published` says. It performs a stop iff it is `"quit"`, and otherwise changes neither the log nor any flag. |
| `Lifecycle.Service.AddRegister` | src/main/java/me/legrange/bridge/WattNodeService.java:179 | Appends the descriptor to the reader's registers and logs it. |
| `Lifecycle.Service.RegisterAll` | src/main/java/me/legrange/bridge/WattNodeService.java:178-181 | Registers the catalog of the configured entries, one per entry in configuration order, and logs each. The flags are unchanged and the invariant holds. |
| `Lifecycle.Service.AwaitStop` | src/main/java/me/legrange/bridge/WattNodeService.java:182-189 | If running, handles the deliveries up to and including the first `"quit"` and publishes what they publish. It stops exactly when a `"quit"` came. It exits iff `running` is false. |
| `Lifecycle.Service.Run` | src/main/java/me/legrange/bridge/WattNodeService.java:176-191 | Registers every configured entry in order before waiting. Then, while running, handles deliveries until the first `"quit"`. When it exits, `running` is false. |
| `Lifecycle.Session` | src/main/java/me/legrange/bridge/WattNodeService.java:50-53 | Start then run. On success, the registers are the catalog, and the service exits iff a `"quit"` arrives. The log is the start steps, the registrations, then the stop steps if it exited. Publishes are those of the deliveries before the quit. On a failed start, the log holds only the partial start and nothing is registered or published. |
| `Lifecycle.QuitAfterFailedStart` | src/main/java/me/legrange/bridge/WattNodeService.java:50-57 | After a start whose reader did not open, a `"quit"` fails: the log holds the partial start and the MQTT stop only, and `running` stays true. |
| `Lifecycle.QuitTwice` | src/main/java/me/legrange/bridge/WattNodeService.java:115-136 | After a start and two `"quit"` messages, the log holds the start steps and then two complete stop sequences. |

## Left out

- Process bootstrap is not modelled: `main`'s argument check and `System.exit`, `configure` and the parsing of the configuration file, the logging helpers, `getName`, the `COMMAND` constant and `submit` with its thread pool. The model starts from an already parsed `Configuration`.
- The connector and reader constructors are not modelled. That covers the broker URL formatting, the serial port, speed, device id and zero-based flag, and `setPollInterval`. These are network and serial I/O. Each connection is reduced to a "started" flag and log entries.
- `Lifecycle.Service.StartModbus`: a failure to open the reader is modelled as happening before the data listener is added. `startModbus` declares `ModbusReaderException` but does not say whether the `ModbusReader` constructor or `mbus.start()` raises it.
- `ModbusRegister.decode` lives in the modbus package and is outside this model, as is `Double.toString`; both involve IEEE-754 floating point. A polled value reaches the listener as an opaque text payload. Exceptions the decoder may throw inside the listener are not modelled.
- The expression library is not part of this model: building, validating and evaluating expressions. Whether a text builds and how it validates are the `Library` parameter; which of the library's exceptions a failed build raises is reduced to `BuildFailed`. `WattNodeService` itself never evaluates a transform, so evaluation is not modelled.
- The listeners, `stop` and `run` are modelled with the precondition that the connector (and, for the data listener and `run`, the reader) exists. In the code the command listener is registered on the connector itself, and `run` is only reached after `start` returned normally.
- Lifecycle.Service.AwaitStop, and with it `Lifecycle.Service.Run` and `Lifecycle.Session`: `exited == !running` and "the service exits iff a `"quit"` arrives" assume the notify always reaches the waiting thread. The code can lose that wake-up (the race between lines 182 and 185 described above), and the model does not capture it.
- Concurrency is not modelled: `synchronized`, `wait`/`notify`, `InterruptedException` and the threads of the MQTT and Modbus libraries. Everything that arrives while `run` waits is one ordered list of deliveries. Each delivery is handled completely before the next.
- Register addresses and lengths are unbounded integers rather than Java `int`. They are only copied, never computed with.
- Nothing in the model forbids publishing after MQTT was stopped. The code has no such guard either.

