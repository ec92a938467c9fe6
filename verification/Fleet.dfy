/**
 Devices talking to one ACS during one lifetime of the server. Any number of requests may be
 routed but not yet handled, and they are handled in any order. A step by itself puts no
 condition on what a device sends, from where, or with which cookie.
 */
module Fleet {
  import opened Identity
  import opened Cwmp
  import opened Server
  import S = Session

  /** A device, the address its requests come from, and whether it keeps cookies. */
  datatype Dev = Dev(id: DeviceId, host: string, cookies: bool)

  /** A request of a device as it arrived, and the key of the session it was routed to. */
  datatype Routing = Routing(dev: nat, host: string, cookie: string, key: string, post: Post)

  datatype Asked = Asked(key: string, task: Task)
  datatype Said = Said(dev: nat, host: string, post: Post)
  datatype Sent = Sent(dev: nat, key: string, reply: Reply)

  /**
   jars hold the devices' cookies and routed the requests still to be handled; arrived, asked,
   said and sent record all requests, the tasks queued, the requests handled and the calls answered.
   */
  datatype World = World(acs: Acs, jars: map<nat, string>, routed: seq<Routing>, arrived: seq<Routing>,
                         asked: seq<Asked>, said: seq<Said>, sent: seq<Sent>)

  /**
   The agent queues a task; a request arrives; a routed request is handled and answered, while
   the agent may queue tasks for its session; a device loses its cookie.
   */
  datatype Step =
    | Queue(key: string, task: Task)
    | Arrive(dev: nat, host: string, cookie: string, post: Post)
    | Handle(r: nat, received: bool, before: seq<Task>, amid: seq<Task>)
    | LoseCookie(dev: nat)

  /** The server starts without sessions; devices may still hold cookies of an earlier lifetime. */
  function Start(cache: Cache, firstContact: seq<string>, jars: map<nat, string>): World {
    World(Acs(map[], map[], cache, firstContact), jars, [], [], [], [], [])
  }

  predicate Enabled(w: World, s: Step) {
    s.Handle? ==> s.r < |w.routed| && w.routed[s.r].key in w.acs.sessions
  }

  function AskedOf(key: string, ts: seq<Task>): seq<Asked> {
    seq(|ts|, i requires 0 <= i < |ts| => Asked(key, ts[i]))
  }

  /** The session a request finds, and what handling it gives. */
  function Found(v: Acs, q: Routing): S.Sess
    requires q.key in v.sessions
  {
    if q.host != "" then v.sessions[q.key].(ip := q.host) else v.sessions[q.key]
  }

  function Outcome(v: Acs, q: Routing, before: seq<Task>, amid: seq<Task>): (S.Sess, Reply)
    requires q.key in v.sessions
  {
    S.HandledAmid(Found(v, q), q.post, S.Knows(v.cache, q.post), before, amid)
  }

  function CacheAfter(v: Acs, q: Routing): Cache
    requires q.key in v.sessions
  {
    if q.post.EmptyPost? then v.cache else Stored(v.cache, Found(v, q).deviceId, Found(v, q).ip, q.post.msg)
  }

  function AfterHandling(w: World, r: nat, received: bool, before: seq<Task>, amid: seq<Task>): World
    requires Enabled(w, Handle(r, received, before, amid))
  {
    var q := w.routed[r];
    var o := Outcome(w.acs, q, before, amid);
    w.(acs := w.acs.(sessions := w.acs.sessions[q.key := o.0], cache := CacheAfter(w.acs, q)),
       jars := if received && o.0.deviceId != "" then w.jars[q.dev := o.0.deviceId] else w.jars,
       routed := w.routed[..r] + w.routed[r + 1..],
       asked := w.asked + AskedOf(q.key, before + amid),
       said := w.said + [Said(q.dev, q.host, q.post)],
       sent := if IsCall(o.1) then w.sent + [Sent(q.dev, q.key, o.1)] else w.sent)
  }

  function AfterArrival(w: World, d: nat, host: string, cookie: string, post: Post): World {
    var q := Routing(d, host, cookie, KeyFor(w.acs, host, cookie, post), post);
    w.(acs := Routed(w.acs, host, cookie, post), routed := w.routed + [q], arrived := w.arrived + [q])
  }

  function AfterQueue(w: World, key: string, t: Task): World {
    w.(acs := Queued(w.acs, key, t), asked := w.asked + [Asked(key, t)])
  }

  function Do(w: World, s: Step): World
    requires Enabled(w, s)
  {
    match s
    case Queue(key, t) => AfterQueue(w, key, t)
    case Arrive(d, host, cookie, post) => AfterArrival(w, d, host, cookie, post)
    case Handle(r, received, before, amid) => AfterHandling(w, r, received, before, amid)
    case LoseCookie(d) => w.(jars := w.jars - {d})
  }

  predicate Legal(w: World, steps: seq<Step>)
    decreases |steps|
  {
    steps == [] || (Enabled(w, steps[0]) && Legal(Do(w, steps[0]), steps[1..]))
  }

  function Exec(w: World, steps: seq<Step>): World
    requires Legal(w, steps)
    decreases |steps|
  {
    if steps == [] then w else Exec(Do(w, steps[0]), steps[1..])
  }

  /** When the agent queues nothing meanwhile, handling a request is what the server does under the session's lock. */
  lemma HandlingIsServing(v: Acs, q: Routing)
    requires q.key in v.sessions
    ensures Served(v, q.key, q.host, q.post)
      == (v.(sessions := v.sessions[q.key := Outcome(v, q, [], []).0], cache := CacheAfter(v, q)), Outcome(v, q, [], []).1)
  {
    var none: seq<Task> := [];
    assert none + none == none;
    assert S.EnqueueAll(Found(v, q), []) == Found(v, q);
  }
}
