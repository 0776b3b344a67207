/** Values and effects shared by the tuya-local node model.

    The device library, the host runtime and the timers are not executed:
    every interaction with them is recorded as an `Effect` in an effect log,
    and the helpers of `lib/utils` appear as symbolic terms (`KeyRenamed`,
    `Filtered`) whose meaning this model does not fix. */
module Types {

  datatype Option<+T> = None | Some(value: T)

  /** A JavaScript value stored in a field of a command object or a device
      record; `Opaque` stands for any value whose structure the node never
      inspects (nested objects, arrays, ...). */
  datatype Value =
    | Undefined
    | Null
    | Num(n: int)
    | Bool(b: bool)
    | Str(s: string)
    | Opaque(tag: nat)

  /** The `msg.payload` handed to `setDevice`.
      `Text` is any string, `Flag` a boolean, `Obj` a plain object given by its
      own fields, and `OtherPrim` any other primitive (a number, a Symbol,
      `null` or `undefined`), on which the `in` operator throws a TypeError. */
  datatype Payload =
    | Text(s: string)
    | Flag(b: bool)
    | Obj(fields: map<string, Value>)
    | OtherPrim

  /** The field map of an object, or `undefined` for a missing key. */
  function Field(fields: map<string, Value>, key: string): Value
  {
    if key in fields then fields[key] else Undefined
  }

  /** The work a pending `setTimeout` callback will do when it fires. */
  datatype Job =
    | Reconnect(timeout: int)   // connectToDevice(timeout, …)
    | AutoOff                   // setDevice({dps: 20, set: false})

  /** The `dps` record of a data event: as the device sent it, or passed
      through `keyRename` with the parsed rename schema. */
  datatype Dps = RawDps(raw: Value) | KeyRenamed(inner: Dps, schema: string)

  /** The `dev_info` object at the moment a message is sent. `available` is
      `None` until the first `disconnected` or `data` event sets it. */
  datatype DevInfo = DevInfo(name: string, ip: string, id: string, available: Option<bool>)

  /** A message handed to `node.send`. */
  datatype Message =
    | Availability(info: DevInfo)                                     // {data: dev_info}
    | Reading(info: DevInfo, commandByte: Value, dps: Dps, extra: Value) // {data, commandByte, payload}
    | Filtered(msg: Message, filterCB: string)                         // filterCommandByte(msg, filterCB)

  /** One observable interaction of the node with the outside world. */
  datatype Effect =
    | DeviceGet(options: map<string, Value>)
    | DeviceSet(request: map<string, Value>)
    | DeviceToggle
    | DeviceDisconnect
    | Discover(timeout: int)        // connectToDevice(timeout, …) starts device.find
    | DeviceConnect                 // device.connect() after a successful find
    | Wait(ms: int)                 // await wait(ms) in the command drain
    | Schedule(id: nat, delay: int, job: Job)
    | Cancel(id: nat)               // clearTimeout(timeout)
    | Send(msg: Message)

  /** The node's configuration, fixed at deploy time. `schemaIsJson` is the
      verdict of `checkValidJSON(renameSchema)`. */
  datatype Config = Config(
    name: string, ip: string, id: string,
    renameSchema: string, schemaIsJson: bool,
    filterCB: string, timerOFF: int)
}
