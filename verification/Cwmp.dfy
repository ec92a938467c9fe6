/** Tasks, messages and the store the ACS keeps for its devices. */
module Cwmp {
  import opened Wrappers
  import opened Identity

  datatype TaskKind = GPV | SPV | GPN | Reboot

  datatype Param = Param(name: string, value: string)

  datatype Task = Task(kind: TaskKind, paths: seq<string>, writes: seq<Param>, cmdKey: string, commandId: string)

  datatype TaskResult = TaskResult(commandId: string, kind: TaskKind, params: map<string, string>, names: seq<string>, status: int, err: string)

  /** A decoded message of a device; Other is an envelope the ACS does not model. */
  datatype Message =
    | Inform(id: DeviceId, params: seq<Param>)
    | GetRPCMethods
    | Atc(file: string, fault: int)
    | TransferComplete
    | GPVResponse(values: seq<Param>)
    | SPVResponse(status: int)
    | GPNResponse(names: seq<string>)
    | RebootResponse
    | Fault(err: string)
    | Other

  /** A POST: empty, or an envelope with its header id. */
  datatype Post = EmptyPost | Envelope(msgId: string, msg: Message)

  /** What the ACS answers; NoContent ends the session. */
  datatype Reply =
    | NoContent
    | InformResponse
    | RPCMethods
    | AtcResponse
    | TransferCompleteResponse
    | CallGPV(paths: seq<string>)
    | CallSPV(writes: seq<Param>, key: string)
    | CallGPN(path: string)
    | CallReboot(key: string)

  function Call(t: Task): Reply {
    match t.kind
    case GPV => CallGPV(t.paths)
    case SPV => CallSPV(t.writes, t.cmdKey)
    case GPN => CallGPN(if t.paths != [] then t.paths[0] else "Device.")
    case Reboot => CallReboot(t.cmdKey)
  }

  /** A request of the ACS, as opposed to an answer of its. */
  predicate IsCall(r: Reply) {
    r.CallGPV? || r.CallSPV? || r.CallGPN? || r.CallReboot?
  }

  function ParamMap(values: seq<Param>): map<string, string> {
    if values == [] then map[]
    else
      var k := |values| - 1;
      ParamMap(values[..k])[values[k].name := values[k].value]
  }

  // ---------------------------------------------------------------- the store

  datatype Device = Device(ip: string, productClass: string, serial: string)

  /** An event of a device to report: a transfer it announced. */
  datatype StoredEvent = StoredEvent(deviceId: string, severity: string, file: string, fault: int)

  function Transfer(id: string, file: string, fault: int): StoredEvent {
    StoredEvent(id, if fault != 0 then "major" else "info", file, fault)
  }

  /** The device table, the parameter cache, the devices whose writability is known, and the events to report. */
  datatype Cache = Cache(devices: map<string, Device>, params: map<(string, string), string>, loaded: set<string>, events: seq<StoredEvent>)

  function Cached(c: Cache, id: string, values: seq<Param>): Cache
    decreases |values|
  {
    if values == [] then c
    else Cached(c.(params := c.params[(id, values[0].name) := values[0].value]), id, values[1..])
  }

  /** The store's part of handling a message in the session of device id, reached from ip. */
  function Stored(c: Cache, id: string, ip: string, msg: Message): Cache {
    match msg
    case Inform(d, params) =>
      var key := CanonicalID(d);
      Cached(c.(devices := c.devices[key := Device(ip, d.productClass, d.serial)]), key, params)
    case GPVResponse(values) => Cached(c, id, values)
    case GPNResponse(_) => if id in c.devices then c.(loaded := c.loaded + {id}) else c
    case Atc(file, fault) => c.(events := c.events + [Transfer(id, file, fault)])
    case _ => c
  }

  class Store {
    var cache: Cache

    constructor ()
      ensures cache == Cache(map[], map[], {}, [])
    {
      cache := Cache(map[], map[], {}, []);
    }

    method UpsertDevice(id: string, d: Device)
      modifies this
      ensures cache == old(cache).(devices := old(cache).devices[id := d])
    {
      cache := cache.(devices := cache.devices[id := d]);
    }

    method CacheParams(id: string, values: seq<Param>)
      modifies this
      ensures cache == Cached(old(cache), id, values)
    {
      var i := 0;
      while i < |values|
        invariant 0 <= i <= |values|
        invariant Cached(old(cache), id, values) == Cached(cache, id, values[i..])
      {
        assert values[i..][1..] == values[i + 1..];
        cache := cache.(params := cache.params[(id, values[i].name) := values[i].value]);
        i := i + 1;
      }
    }

    method SaveWritability(id: string, names: seq<string>)
      modifies this
      ensures cache == Stored(old(cache), id, "", GPNResponse(names))
    {
      if id in cache.devices {
        cache := cache.(loaded := cache.loaded + {id});
      }
    }

    method EmitEvent(ev: StoredEvent)
      modifies this
      ensures cache == old(cache).(events := old(cache).events + [ev])
    {
      cache := cache.(events := cache.events + [ev]);
    }
  }

  /** Only the named device's own entries change when values are cached under it. */
  lemma {:induction false} CachedUnderOneId(c: Cache, id: string, values: seq<Param>, other: string, path: string)
    requires other != id
    ensures (other, path) in Cached(c, id, values).params <==> (other, path) in c.params
    ensures (other, path) in c.params ==> Cached(c, id, values).params[(other, path)] == c.params[(other, path)]
    ensures Cached(c, id, values).devices == c.devices && Cached(c, id, values).loaded == c.loaded
    decreases |values|
  {
    if values != [] {
      CachedUnderOneId(c.(params := c.params[(id, values[0].name) := values[0].value]), id, values[1..], other, path);
    }
  }
}
