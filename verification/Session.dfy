/**
 The CWMP session of one device: a bounded task queue, one task in flight, and the routing
 of results to whoever awaits them. A log remembers what became of every accepted task.
 */
module Session {
  import opened Wrappers
  import opened Identity
  import opened Cwmp

  const QUEUE_CAP: nat := 256
  const RESULTS_CAP: nat := 256

  // ---------------------------------------------------------------- results and their waiters

  /** Private channels of capacity one, by number; the registered waiters; and the shared channel. */
  datatype Mail = Mail(waiters: map<string, nat>, chans: seq<seq<TaskResult>>, shared: seq<TaskResult>)

  const NO_MAIL := Mail(map[], [], [])

  function Lookup(m: Mail, id: string): Option<nat> {
    if id in m.waiters && m.waiters[id] < |m.chans| then Some(m.waiters[id]) else None
  }

  /** A non-blocking send: into the waiter's channel, else into the shared one, else dropped. */
  function Offer(m: Mail, ch: Option<nat>, res: TaskResult): Mail {
    if ch.Some? && ch.value < |m.chans| && m.chans[ch.value] == [] then m.(chans := m.chans[ch.value := [res]])
    else if |m.shared| < RESULTS_CAP then m.(shared := m.shared + [res])
    else m
  }

  function Deliver(m: Mail, res: TaskResult): Mail {
    Offer(m, Lookup(m, res.commandId), res)
  }

  function Register(m: Mail, id: string): Mail {
    m.(waiters := m.waiters[id := |m.chans|], chans := m.chans + [[]])
  }

  function Release(m: Mail, id: string): Mail {
    m.(waiters := m.waiters - {id})
  }

  // ---------------------------------------------------------------- the state as a value

  /** A task given up on, and how many tasks were queued at that moment. */
  datatype Discard = Discard(task: Task, queued: nat)

  /**
   The fate of tasks. pushes and pops are the queue's traffic; requeued are the orphans put
   back; overwritten are tasks replaced in flight by the next hand-out.
   */
  datatype Log = Log(accepted: seq<Task>, pushes: seq<Task>, pops: seq<Task>, requeued: seq<Task>,
                     finished: seq<Task>, published: seq<TaskResult>, discarded: seq<Discard>, overwritten: seq<Task>)

  const EMPTY_LOG := Log([], [], [], [], [], [], [], [])

  datatype Sess = Sess(deviceId: string, msgId: string, ip: string, queue: seq<Task>, inflight: Option<Task>,
                       mail: Mail, firstContact: seq<string>, log: Log)

  function NewSess(firstContact: seq<string>): Sess {
    Sess("", "", "", [], None, NO_MAIL, firstContact, EMPTY_LOG)
  }

  function Enqueue(s: Sess, t: Task): Sess {
    if |s.queue| < QUEUE_CAP then
      s.(queue := s.queue + [t], log := s.log.(accepted := s.log.accepted + [t], pushes := s.log.pushes + [t]))
    else s
  }

  function InFlight(s: Sess): seq<Task> {
    if s.inflight.Some? then [s.inflight.value] else []
  }

  function Pop(s: Sess): Sess
    requires s.queue != []
  {
    s.(queue := s.queue[1..], inflight := Some(s.queue[0]),
       log := s.log.(pops := s.log.pops + [s.queue[0]], overwritten := s.log.overwritten + InFlight(s)))
  }

  function NextTask(s: Sess): (Sess, Reply) {
    if s.queue == [] then (s, NoContent) else (Pop(s), Call(s.queue[0]))
  }

  /** The answered task leaves flight; its result is published when someone may be waiting for it. */
  function Answered(s: Sess, res: TaskResult): Sess {
    if s.inflight.None? then s
    else
      var t := s.inflight.value;
      var s1 := s.(inflight := None, log := s.log.(finished := s.log.finished + [t]));
      if t.commandId == "" then s1
      else
        var r := res.(commandId := t.commandId);
        s1.(mail := Deliver(s.mail, r), log := s1.log.(published := s.log.published + [r]))
  }

  function FinishInflight(s: Sess, res: TaskResult): (Sess, Reply) {
    NextTask(Answered(s, res))
  }

  /** An unanswered task goes back to the tail, unless it is a reboot, anonymous, or the queue is full. */
  function RequeueOrphan(s: Sess): Sess {
    if s.inflight.None? then s
    else
      var t := s.inflight.value;
      var s1 := s.(inflight := None);
      if t.commandId == "" || t.kind == Reboot then
        s1.(log := s.log.(discarded := s.log.discarded + [Discard(t, |s.queue|)]))
      else if |s.queue| < QUEUE_CAP then
        s1.(queue := s.queue + [t], log := s.log.(pushes := s.log.pushes + [t], requeued := s.log.requeued + [t]))
      else s1.(log := s.log.(discarded := s.log.discarded + [Discard(t, |s.queue|)]))
  }

  const WALK := Task(GPN, ["Device."], [], "", "")

  function EnqueueAll(s: Sess, ts: seq<Task>): Sess
    decreases |ts|
  {
    if ts == [] then s else EnqueueAll(Enqueue(s, ts[0]), ts[1..])
  }

  /** The catalogue read is queued if there is a catalogue. */
  function Catalogued(s: Sess): Sess {
    if s.firstContact == [] then s else Enqueue(s, Task(GPV, s.firstContact, [], "", ""))
  }

  /**
   The Inform names the device; on first contact its tree walk and catalogue read are queued.
   The agent's own queueing does not wait for the session: before and amid are the tasks it
   queues just before the walk and between the two.
   */
  function InformedAmid(s: Sess, id: DeviceId, known: bool, before: seq<Task>, amid: seq<Task>): Sess {
    var s1 := EnqueueAll(s, before).(deviceId := CanonicalID(id));
    if known then EnqueueAll(s1, amid) else Catalogued(EnqueueAll(Enqueue(s1, WALK), amid))
  }

  function Informed(s: Sess, id: DeviceId, known: bool): Sess {
    InformedAmid(s, id, known, [], [])
  }

  function Result(kind: TaskKind, params: map<string, string>, names: seq<string>, status: int, err: string): TaskResult {
    TaskResult("", kind, params, names, status, err)
  }

  /** One request of the device; known says whether its writability map is loaded when the Inform is processed. */
  function Handled(s: Sess, post: Post, known: bool): (Sess, Reply) {
    match post
    case EmptyPost => NextTask(s)
    case Envelope(msgId, msg) =>
      var s := s.(msgId := msgId);
      match msg
      case Inform(id, _) => (Informed(RequeueOrphan(s), id, known), InformResponse)
      case GetRPCMethods => (s, RPCMethods)
      case Atc(_, _) => (s, AtcResponse)
      case TransferComplete => (s, TransferCompleteResponse)
      case GPVResponse(values) => FinishInflight(s, Result(GPV, ParamMap(values), [], 0, ""))
      case SPVResponse(status) => FinishInflight(s, Result(SPV, map[], [], status, ""))
      case GPNResponse(names) => FinishInflight(s, Result(GPN, map[], names, 0, ""))
      case RebootResponse => FinishInflight(s, Result(Reboot, map[], [], 0, ""))
      case Fault(err) =>
        if s.inflight.Some? then FinishInflight(s, Result(s.inflight.value.kind, map[], [], 0, err)) else (s, NoContent)
      case Other => NextTask(s)
  }

  /** A request during which the agent queues tasks for the session: only an Inform gives it the time to. */
  function HandledAmid(s: Sess, post: Post, known: bool, before: seq<Task>, amid: seq<Task>): (Sess, Reply) {
    if post.Envelope? && post.msg.Inform? then
      (InformedAmid(RequeueOrphan(s.(msgId := post.msgId)), post.msg.id, known, before, amid), InformResponse)
    else Handled(EnqueueAll(s, before + amid), post, known)
  }

  // ---------------------------------------------------------------- the session

  class Session {
    var ip: string
    var deviceId: string
    var msgId: string
    var taskQueue: seq<Task>
    var results: seq<TaskResult>
    var waiters: map<string, nat>
    var chans: seq<seq<TaskResult>>
    var inflight: Option<Task>
    var firstContactGPV: seq<string>
    ghost var log: Log
    const store: Store

    ghost function State(): Sess
      reads this
    {
      Sess(deviceId, msgId, ip, taskQueue, inflight, Mail(waiters, chans, results), firstContactGPV, log)
    }

    constructor (store: Store, firstContact: seq<string>)
      ensures State() == NewSess(firstContact) && this.store == store
    {
      this.store := store;
      deviceId, msgId, ip, taskQueue, inflight, firstContactGPV := "", "", "", [], None, firstContact;
      waiters, chans, results, log := map[], [], [], EMPTY_LOG;
    }

    method SetIP(host: string)
      modifies this`ip
      ensures State() == old(State()).(ip := host)
    {
      ip := host;
    }

    method SetDevice(id: string, host: string)
      modifies this`deviceId, this`ip
      ensures State() == old(State()).(deviceId := id, ip := host)
    {
      deviceId, ip := id, host;
    }

    method EnqueueTask(t: Task)
      modifies this
      ensures State() == Enqueue(old(State()), t)
    {
      if |taskQueue| < QUEUE_CAP {
        taskQueue := taskQueue + [t];
        log := log.(accepted := log.accepted + [t], pushes := log.pushes + [t]);
      }
    }

    method DeliverResult(res: TaskResult)
      modifies this
      ensures State() == old(State()).(mail := Deliver(old(State()).mail, res))
    {
      if res.commandId in waiters && waiters[res.commandId] < |chans| {
        var ch := waiters[res.commandId];
        if chans[ch] == [] {
          chans := chans[ch := [res]];
          return;
        }
      }
      if |results| < RESULTS_CAP {
        results := results + [res];
      }
    }

    method WaitFor(commandId: string) returns (ch: nat)
      modifies this
      ensures State() == old(State()).(mail := Register(old(State()).mail, commandId))
      ensures ch == |old(chans)|
    {
      ch := |chans|;
      chans := chans + [[]];
      waiters := waiters[commandId := ch];
    }

    method ReleaseWaiter(commandId: string)
      modifies this
      ensures State() == old(State()).(mail := Release(old(State()).mail, commandId))
    {
      waiters := waiters - {commandId};
    }

    method Next() returns (r: Reply)
      modifies this
      ensures (State(), r) == NextTask(old(State()))
    {
      if |taskQueue| == 0 {
        return NoContent;
      }
      var t := taskQueue[0];
      taskQueue := taskQueue[1..];
      log := log.(pops := log.pops + [t], overwritten := log.overwritten + if inflight.Some? then [inflight.value] else []);
      inflight := Some(t);
      match t.kind {
        case GPV => r := CallGPV(t.paths);
        case SPV => r := CallSPV(t.writes, t.cmdKey);
        case GPN =>
          var path := "Device.";
          if |t.paths| > 0 {
            path := t.paths[0];
          }
          r := CallGPN(path);
        case Reboot => r := CallReboot(t.cmdKey);
      }
    }

    method Finish(res: TaskResult) returns (r: Reply)
      modifies this
      ensures (State(), r) == FinishInflight(old(State()), res)
    {
      if inflight.Some? {
        var t := inflight.value;
        if t.commandId != "" {
          var named := res.(commandId := t.commandId);
          DeliverResult(named);
          log := log.(published := log.published + [named]);
        }
        log := log.(finished := log.finished + [t]);
        inflight := None;
      }
      assert State() == Answered(old(State()), res);
      r := Next();
    }

    method RequeueOrphanedTask()
      modifies this
      ensures State() == RequeueOrphan(old(State()))
    {
      var t := inflight;
      inflight := None;
      if t.None? {
        return;
      }
      if t.value.commandId == "" || t.value.kind == Reboot {
        log := log.(discarded := log.discarded + [Discard(t.value, |taskQueue|)]);
        return;
      }
      if |taskQueue| < QUEUE_CAP {
        taskQueue := taskQueue + [t.value];
        log := log.(pushes := log.pushes + [t.value], requeued := log.requeued + [t.value]);
      } else {
        log := log.(discarded := log.discarded + [Discard(t.value, |taskQueue|)]);
      }
    }

    method OnInform(id: DeviceId, params: seq<Param>) returns (r: Reply)
      modifies this, store
      ensures State() == Informed(old(State()), id, CanonicalID(id) in old(store.cache).loaded) && r == InformResponse
      ensures store.cache == Stored(old(store.cache), old(deviceId), old(ip), Inform(id, params))
    {
      deviceId := CanonicalID(id);
      store.UpsertDevice(deviceId, Device(ip, id.productClass, id.serial));
      ghost var known := deviceId in store.cache.loaded;
      ghost var before := store.cache;
      store.CacheParams(deviceId, params);
      LoadedUntouched(before, deviceId, params);
      if deviceId !in store.cache.loaded {
        EnqueueTask(WALK);
        if |firstContactGPV| > 0 {
          EnqueueTask(Task(GPV, firstContactGPV, [], "", ""));
        }
      }
      r := InformResponse;
    }

    /** Handles one request while the caller holds the session's lock. */
    method Handle(post: Post) returns (r: Reply)
      modifies this, store
      ensures (State(), r) == Handled(old(State()), post, Knows(old(store.cache), post))
      ensures store.cache == if post.EmptyPost? then old(store.cache) else Stored(old(store.cache), old(deviceId), old(ip), post.msg)
    {
      if post.EmptyPost? {
        r := Next();
        return;
      }
      msgId := post.msgId;
      match post.msg {
        case Inform(id, params) =>
          RequeueOrphanedTask();
          r := OnInform(id, params);
        case GetRPCMethods => r := RPCMethods;
        case Atc(file, fault) =>
          var severity := "info";
          if fault != 0 {
            severity := "major";
          }
          store.EmitEvent(StoredEvent(deviceId, severity, file, fault));
          r := AtcResponse;
        case TransferComplete => r := TransferCompleteResponse;
        case GPVResponse(values) =>
          store.CacheParams(deviceId, values);
          r := Finish(Result(GPV, ParamMap(values), [], 0, ""));
        case SPVResponse(status) => r := Finish(Result(SPV, map[], [], status, ""));
        case GPNResponse(names) =>
          store.SaveWritability(deviceId, names);
          r := Finish(Result(GPN, map[], names, 0, ""));
        case RebootResponse => r := Finish(Result(Reboot, map[], [], 0, ""));
        case Fault(err) =>
          if inflight.Some? {
            r := Finish(Result(inflight.value.kind, map[], [], 0, err));
          } else {
            r := NoContent;
          }
        case Other => r := Next();
      }
    }
  }

  /** Whether the store holds the writability map of the device an Inform names. */
  predicate Knows(c: Cache, post: Post) {
    post.Envelope? && post.msg.Inform? && CanonicalID(post.msg.id) in c.loaded
  }

  lemma {:induction false} LoadedUntouched(c: Cache, id: string, values: seq<Param>)
    ensures Cached(c, id, values).loaded == c.loaded
    decreases |values|
  {
    if values != [] {
      LoadedUntouched(c.(params := c.params[(id, values[0].name) := values[0].value]), id, values[1..]);
    }
  }
}
