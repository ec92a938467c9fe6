/**
 What the ACS learns of its devices: the row an Inform leaves, the values a device reports,
 the transfers it announces, and the way from an upload's name back to its row.
 */
module Inventory {
  import opened Wrappers
  import opened Identity
  import opened Cwmp
  import opened Server
  import opened Fleet
  import opened Traffic

  // ---------------------------------------------------------------- one message

  lemma {:induction false} CachedTablesStay(c: Cache, id: string, values: seq<Param>)
    ensures Cached(c, id, values).devices == c.devices && Cached(c, id, values).loaded == c.loaded && Cached(c, id, values).events == c.events
    decreases |values|
  {
    if values != [] {
      CachedTablesStay(c.(params := c.params[(id, values[0].name) := values[0].value]), id, values[1..]);
    }
  }

  /** An Inform records its device at the address it came from, and touches no other device's row. */
  lemma InformRecordsItsDevice(c: Cache, id: string, ip: string, d: DeviceId, params: seq<Param>)
    ensures var after := Stored(c, id, ip, Inform(d, params));
      && CanonicalID(d) in after.devices
      && after.devices[CanonicalID(d)].ip == ip
      && after.devices[CanonicalID(d)].productClass == d.productClass
      && after.devices[CanonicalID(d)].serial == d.serial
      && (forall k | k != CanonicalID(d) :: k in after.devices <==> k in c.devices)
      && (forall k | k in c.devices && k != CanonicalID(d) :: after.devices[k] == c.devices[k])
      && after.loaded == c.loaded && after.events == c.events
  {
    CachedTablesStay(c.(devices := c.devices[CanonicalID(d) := Device(ip, d.productClass, d.serial)]), CanonicalID(d), params);
  }

  /** A reported value is kept under the device: the last one of each name. */
  lemma {:induction false} LastValueIsKept(c: Cache, id: string, values: seq<Param>, i: nat)
    requires i < |values| && forall j | i < j < |values| :: values[j].name != values[i].name
    ensures (id, values[i].name) in Cached(c, id, values).params
    ensures Cached(c, id, values).params[(id, values[i].name)] == values[i].value
    decreases |values|
  {
    var next := c.(params := c.params[(id, values[0].name) := values[0].value]);
    if i == 0 {
      UnnamedStays(next, id, values[1..], values[0].name);
    } else {
      LastValueIsKept(next, id, values[1..], i - 1);
    }
  }

  lemma {:induction false} UnnamedStays(c: Cache, id: string, values: seq<Param>, name: string)
    requires forall j | 0 <= j < |values| :: values[j].name != name
    ensures (id, name) in Cached(c, id, values).params <==> (id, name) in c.params
    ensures (id, name) in c.params ==> Cached(c, id, values).params[(id, name)] == c.params[(id, name)]
    decreases |values|
  {
    if values != [] {
      UnnamedStays(c.(params := c.params[(id, values[0].name) := values[0].value]), id, values[1..], name);
    }
  }

  /** The values a message reports, and the device they are kept for. */
  function Reported(id: string, msg: Message): Option<(string, seq<Param>)> {
    match msg
    case Inform(d, params) => Some((CanonicalID(d), params))
    case GPVResponse(values) => Some((id, values))
    case _ => None
  }

  /** What an Inform or a read answer reports is kept afterwards, for the device that informed or whose session answered. */
  lemma ReportedValuesAreKept(c: Cache, id: string, ip: string, msg: Message, i: nat)
    requires Reported(id, msg).Some? && i < |Reported(id, msg).value.1|
    requires var values := Reported(id, msg).value.1; forall j | i < j < |values| :: values[j].name != values[i].name
    ensures var key := Reported(id, msg).value.0; var p := Reported(id, msg).value.1[i];
      (key, p.name) in Stored(c, id, ip, msg).params && Stored(c, id, ip, msg).params[(key, p.name)] == p.value
  {
    match msg {
      case Inform(d, params) =>
        LastValueIsKept(c.(devices := c.devices[CanonicalID(d) := Device(ip, d.productClass, d.serial)]), CanonicalID(d), params, i);
      case GPVResponse(values) => LastValueIsKept(c, id, values, i);
    }
  }

  /** A name answer makes a known device's tree known; a transfer is reported as major exactly when it failed; nothing else of the kind happens. */
  lemma OtherTablesFollow(c: Cache, id: string, ip: string, msg: Message)
    ensures var after := Stored(c, id, ip, msg);
      && after.loaded == (if msg.GPNResponse? && id in c.devices then c.loaded + {id} else c.loaded)
      && |after.events| == |c.events| + (if msg.Atc? then 1 else 0) && c.events <= after.events
      && (msg.Atc? ==> var ev := after.events[|c.events|];
            && ev.deviceId == id && ev.file == msg.file && ev.fault == msg.fault
            && (ev.severity == "major" <==> msg.fault != 0) && (ev.severity == "info" <==> msg.fault == 0))
      && (!msg.Inform? ==> after.devices == c.devices)
  {
    match msg {
      case Inform(d, params) => InformRecordsItsDevice(c, id, ip, d, params);
      case GPVResponse(values) => CachedTablesStay(c, id, values);
      case Atc(file, fault) => assert "major"[0] != "info"[0];
      case _ =>
    }
  }

  // ---------------------------------------------------------------- every run

  /** The last Inform handled for a key. */
  function LastSaid(said: seq<Said>, key: string): Option<Said> {
    if said == [] then None
    else
      var k := |said| - 1;
      if IsInform(said[k].post) && CanonicalID(said[k].post.msg.id) == key then Some(said[k]) else LastSaid(said[..k], key)
  }

  lemma LastSaidSnoc(said: seq<Said>, x: Said, key: string)
    ensures LastSaid(said + [x], key)
      == if IsInform(x.post) && CanonicalID(x.post.msg.id) == key then Some(x) else LastSaid(said, key)
  {
    assert (said + [x])[..|said|] == said;
  }

  /** The row kept for a key is that of the last Inform handled for it, or the one found at the start. */
  ghost predicate RowFollows(before: Cache, w: World, key: string) {
    var after := w.acs.cache.devices;
    match LastSaid(w.said, key)
    case None => (key in after <==> key in before.devices) && (key in after ==> after[key] == before.devices[key])
    case Some(x) =>
      && IsInform(x.post) && CanonicalID(x.post.msg.id) == key && key in after
      && after[key].productClass == x.post.msg.id.productClass && after[key].serial == x.post.msg.id.serial
      && (x.host != "" ==> after[key].ip == x.host)
  }

  lemma HandleFollows(before: Cache, w: World, s: Step, key: string)
    requires RowFollows(before, w, key) && s.Handle? && Enabled(w, s)
    ensures RowFollows(before, AfterHandling(w, s.r, s.received, s.before, s.amid), key)
  {
    var q := w.routed[s.r];
    var found := Found(w.acs, q);
    var d := AfterHandling(w, s.r, s.received, s.before, s.amid);
    LastSaidSnoc(w.said, Said(q.dev, q.host, q.post), key);
    assert d.acs.cache == CacheAfter(w.acs, q);
    assert q.host != "" ==> found.ip == q.host;
    if q.post.Envelope? {
      OtherTablesFollow(w.acs.cache, found.deviceId, found.ip, q.post.msg);
      if q.post.msg.Inform? {
        InformRecordsItsDevice(w.acs.cache, found.deviceId, found.ip, q.post.msg.id, q.post.msg.params);
      }
    }
  }

  lemma StepFollows(before: Cache, w: World, s: Step, key: string)
    requires RowFollows(before, w, key) && Enabled(w, s)
    ensures RowFollows(before, Do(w, s), key)
  {
    match s {
      case Queue(k, t) => QueueOutcome(w, k, t);
      case Arrive(d, host, cookie, post) => RoutedSessions(w.acs, host, cookie, post);
      case Handle(r, received, b, a) => HandleFollows(before, w, s, key);
      case LoseCookie(d) =>
    }
  }

  lemma {:induction false} RunFollows(before: Cache, w: World, steps: seq<Step>, key: string)
    requires RowFollows(before, w, key) && Legal(w, steps)
    ensures RowFollows(before, Exec(w, steps), key)
    decreases |steps|
  {
    if steps != [] {
      StepFollows(before, w, steps[0], key);
      RunFollows(before, Do(w, steps[0]), steps[1..], key);
    }
  }

  /** Over every run, whatever devices send: a device whose Inform was handled has the row of its last one. */
  lemma EveryInformedDeviceHasItsRow(cache: Cache, firstContact: seq<string>, jars: map<nat, string>, steps: seq<Step>, key: string)
    requires Legal(Start(cache, firstContact, jars), steps)
    ensures RowFollows(cache, Exec(Start(cache, firstContact, jars), steps), key)
  {
    RunFollows(cache, Start(cache, firstContact, jars), steps, key);
  }

  // ---------------------------------------------------------------- from an upload back to the row

  /** The table as a listing returns it, in any order. */
  ghost predicate Lists(c: Cache, rows: seq<DeviceRecord>) {
    && (forall k | 0 <= k < |rows| :: rows[k].deviceId in c.devices
          && rows[k].productClass == c.devices[rows[k].deviceId].productClass
          && rows[k].serialNumber == c.devices[rows[k].deviceId].serial)
    && (forall j, k | 0 <= j < k < |rows| :: rows[j].deviceId != rows[k].deviceId)
    && (forall key | key in c.devices :: exists k :: 0 <= k < |rows| && rows[k].deviceId == key)
  }

  /** The identity of the last Inform handled for a key. */
  function LastIdentity(said: seq<Said>, key: string): DeviceId {
    match LastSaid(said, key)
    case Some(x) => if IsInform(x.post) then x.post.msg.id else DeviceId("", "", "")
    case None => DeviceId("", "", "")
  }

  /** A device can be told by OUI and serial: both are such as names can carry, and no other device kept has the same two. */
  ghost predicate Tellable(w: World, id: DeviceId) {
    && id.oui != "" && '-' !in id.oui && '_' !in id.oui && '.' !in id.oui && EscapeFree(id.oui)
    && id.serial != "" && '_' !in id.serial
    && forall key | key in w.acs.cache.devices && key != CanonicalID(id) ::
         LastIdentity(w.said, key).oui != id.oui || LastIdentity(w.said, key).serial != id.serial
  }

  lemma ListedDevice(c: Cache, rows: seq<DeviceRecord>, key: string) returns (i: nat)
    requires Lists(c, rows) && key in c.devices
    ensures i < |rows| && rows[i].deviceId == key
  {
    i :| 0 <= i < |rows| && rows[i].deviceId == key;
  }

  /**
   Over every run from an empty store: the uploads of a device whose Inform was handled resolve,
   through the table its Inform left, to exactly that device.
   */
  lemma UploadOfInformedDeviceResolves(firstContact: seq<string>, jars: map<nat, string>, steps: seq<Step>, rows: seq<DeviceRecord>,
                                       id: DeviceId, prefix: string, when: string)
    requires Legal(Start(Cache(map[], map[], {}, []), firstContact, jars), steps)
    requires var w := Exec(Start(Cache(map[], map[], {}, []), firstContact, jars), steps);
      Lists(w.acs.cache, rows) && LastSaid(w.said, CanonicalID(id)).Some? && LastIdentity(w.said, CanonicalID(id)) == id && Tellable(w, id)
    requires prefix == "Log_" || prefix == "ErrorLog_"
    ensures Resolve(rows, LogName(prefix, when, id.oui, id.serial)) == Some(CanonicalID(id))
  {
    var none := Cache(map[], map[], {}, []);
    var w := Exec(Start(none, firstContact, jars), steps);
    var ids := seq(|rows|, k requires 0 <= k < |rows| => LastIdentity(w.said, rows[k].deviceId));
    forall k | 0 <= k < |rows|
      ensures rows[k] == DeviceRecord(CanonicalID(ids[k]), ids[k].productClass, ids[k].serial)
    {
      EveryInformedDeviceHasItsRow(none, firstContact, jars, steps, rows[k].deviceId);
    }
    EveryInformedDeviceHasItsRow(none, firstContact, jars, steps, CanonicalID(id));
    var i := ListedDevice(w.acs.cache, rows, CanonicalID(id));
    UploadResolvesToItsDevice(rows, ids, i, prefix, when);
  }
}
