/**
 Work gets to the device: accepted tasks queue, a device that asks is called for the oldest, a
 first contact is read, and a queued task is the next call of an idle session's device.
 */
module Contact {
  import opened Wrappers
  import opened Identity
  import opened Cwmp
  import opened Server
  import opened Fleet
  import opened S = Session
  import opened Traffic
  import L = SessionLaws

  // ---------------------------------------------------------------- calls

  /** A call carries what its task carries. */
  predicate CallsFor(r: Reply, t: Task) {
    match t.kind
    case GPV => r.CallGPV? && r.paths == t.paths
    case SPV => r.CallSPV? && r.writes == t.writes && r.key == t.cmdKey
    case GPN => r.CallGPN? && r.path == (if |t.paths| > 0 then t.paths[0] else "Device.")
    case Reboot => r.CallReboot? && r.key == t.cmdKey
  }

  lemma CallIsForItsTask(t: Task, u: Task)
    ensures CallsFor(Call(t), t)
    ensures CallsFor(Call(t), u) ==> t.kind == u.kind
  {
  }

  // ---------------------------------------------------------------- the queue

  /** A task is accepted at the tail of a queue of fewer than 256, and dropped by a full one. */
  lemma AcceptedWhenThereIsRoom(s: Sess, t: Task)
    ensures var d := Enqueue(s, t);
      && d.queue == (if |s.queue| < 256 then s.queue + [t] else s.queue)
      && d.log.accepted == (if |s.queue| < 256 then s.log.accepted + [t] else s.log.accepted)
      && d.inflight == s.inflight && d.mail == s.mail && d.deviceId == s.deviceId
  {
  }

  /** A device that asks for work is called for the oldest task, which is then in flight; without work the session ends. */
  lemma AskingGetsTheOldest(s: Sess, post: Post, known: bool)
    requires post.EmptyPost? || post.msg.Other?
    ensures var d := Handled(s, post, known).0; var r := Handled(s, post, known).1;
      if s.queue == [] then r == NoContent && d.queue == [] && d.inflight == s.inflight
      else
        && CallsFor(r, s.queue[0]) && d.inflight == Some(s.queue[0]) && d.queue == s.queue[1..]
        && d.log.pops == s.log.pops + [s.queue[0]]
  {
  }

  /** An answer is followed by the next call at once. */
  lemma AnsweringGetsTheOldest(s: Sess, res: TaskResult)
    ensures var d := FinishInflight(s, res).0; var r := FinishInflight(s, res).1;
      if s.queue == [] then r == NoContent && d.queue == [] && d.inflight == None
      else CallsFor(r, s.queue[0]) && d.inflight == Some(s.queue[0]) && d.queue == s.queue[1..]
  {
  }

  function Ask(s: Sess, n: nat): Sess {
    if n == 0 then s else Handled(Ask(s, n - 1), EmptyPost, false).0
  }

  /** A device that keeps asking is handed the whole queue, in order. */
  lemma {:induction false} AskingEmptiesTheQueue(s: Sess, n: nat)
    requires n <= |s.queue|
    ensures Ask(s, n).queue == s.queue[n..] && Ask(s, n).log.pops == s.log.pops + s.queue[..n]
  {
    if n > 0 {
      AskingEmptiesTheQueue(s, n - 1);
      AskingGetsTheOldest(Ask(s, n - 1), EmptyPost, false);
      assert s.queue[..n] == s.queue[..n - 1] + [s.queue[n - 1]];
    }
  }

  /** An Inform ends what was in flight: named work goes back to the tail if there is room, a reboot or anonymous task is given up. */
  lemma InformRequeuesNamedWork(s: Sess)
    requires s.inflight.Some?
    ensures var t := s.inflight.value; var d := RequeueOrphan(s);
      && d.inflight == None
      && d.queue == (if t.commandId != "" && t.kind != Reboot && |s.queue| < 256 then s.queue + [t] else s.queue)
  {
  }

  /** The messages that are neither answers nor requests for work change no work, and every envelope's id is echoed. */
  lemma OtherMessagesChangeNoWork(s: Sess, msgId: string, msg: Message, known: bool)
    ensures Handled(s, Envelope(msgId, msg), known).0.msgId == msgId
    ensures msg.GetRPCMethods? || msg.Atc? || msg.TransferComplete? ==>
      var d := Handled(s, Envelope(msgId, msg), known).0; d.queue == s.queue && d.inflight == s.inflight && d.mail == s.mail
    ensures msg.GetRPCMethods? ==> Handled(s, Envelope(msgId, msg), known).1 == RPCMethods
    ensures msg.Atc? ==> Handled(s, Envelope(msgId, msg), known).1 == AtcResponse
    ensures msg.TransferComplete? ==> Handled(s, Envelope(msgId, msg), known).1 == TransferCompleteResponse
    ensures msg.Inform? ==> Handled(s, Envelope(msgId, msg), known).1 == InformResponse
  {
    L.HandledIs(s, msgId, msg, known);
    if msg.Inform? {
      InformEchoes(s, msgId, msg, known);
    }
  }

  lemma InformEchoes(s: Sess, msgId: string, msg: Message, known: bool)
    requires msg.Inform?
    ensures Handled(s, Envelope(msgId, msg), known).0.msgId == msgId
  {
  }

  // ---------------------------------------------------------------- first contact

  /** On first contact the whole tree is walked, and the catalogue read if there is one; a known device is left alone. */
  lemma FirstContactIsRead(s: Sess, id: DeviceId, known: bool)
    requires |s.queue| <= 254
    ensures var d := Informed(s, id, known);
      && d.deviceId == CanonicalID(id) && d.inflight == s.inflight
      && |d.queue| == |s.queue| + (if known then 0 else if s.firstContact == [] then 1 else 2)
      && s.queue <= d.queue
      && (!known ==> CallsFor(CallGPN("Device."), d.queue[|s.queue|]) && d.queue[|s.queue|].commandId == "")
      && (!known && s.firstContact != [] ==>
            CallsFor(CallGPV(s.firstContact), d.queue[|s.queue| + 1]) && d.queue[|s.queue| + 1].commandId == "")
  {
    var s1 := s.(deviceId := CanonicalID(id));
    assert EnqueueAll(s, []) == s;
    assert EnqueueAll(s1, []) == s1;
    assert EnqueueAll(Enqueue(s1, WALK), []) == Enqueue(s1, WALK);
  }

  // ---------------------------------------------------------------- the server

  /** A session opened for a device is at the address the store knows, reads the server's catalogue, and has no work. */
  lemma OpenedIsFresh(v: Acs, id: string)
    requires id !in v.sessions
    ensures var s := Opened(v, id).sessions[id];
      && s.deviceId == id && s.ip == (if id in v.cache.devices then v.cache.devices[id].ip else "")
      && s.firstContact == v.firstContact && s.queue == [] && s.inflight == None && s.mail == NO_MAIL && s.log == EMPTY_LOG
    ensures forall k | k != id :: k in Opened(v, id).sessions <==> k in v.sessions
    ensures forall k | k in v.sessions :: Opened(v, id).sessions[k] == v.sessions[k]
  {
  }

  /** A queued task is at the tail of its device's queue, opened if need be, and in no other. */
  lemma QueuedIsAtTheTail(v: Acs, id: string, t: Task)
    ensures var before := if id in v.sessions then v.sessions[id].queue else []; var d := Queued(v, id, t);
      && id in d.sessions
      && d.sessions[id].queue == (if |before| < 256 then before + [t] else before)
      && (forall k | k in v.sessions && k != id :: k in d.sessions && d.sessions[k] == v.sessions[k])
      && d.byIP == v.byIP && d.cache == v.cache
  {
  }

  /** A routed request for work is answered with the call of its session's oldest task. */
  lemma RequestForWorkIsAnswered(w: World, r: nat)
    requires r < |w.routed| && w.routed[r].post.EmptyPost? && w.routed[r].key in w.acs.sessions
    requires w.acs.sessions[w.routed[r].key].queue != []
    ensures var q := w.routed[r]; var d := AfterHandling(w, r, true, [], []);
      && |d.sent| == |w.sent| + 1 && d.sent[|w.sent|].dev == q.dev && d.sent[|w.sent|].key == q.key
      && CallsFor(d.sent[|w.sent|].reply, w.acs.sessions[q.key].queue[0])
  {
    var s := Found(w.acs, w.routed[r]);
    NothingAmid(s, EmptyPost, Knows(w.acs.cache, EmptyPost));
    AskingGetsTheOldest(s, EmptyPost, Knows(w.acs.cache, EmptyPost));
  }

  /** Once a task is queued for an idle session, its device's next request for work is answered with that task's call. */
  lemma QueuedTaskIsTheNextCall(w: World, key: string, t: Task, d: nat, host: string)
    requires key != "" && (key in w.acs.sessions ==> w.acs.sessions[key].queue == [])
    ensures var h := |w.routed|; var steps := [Queue(key, t), Arrive(d, host, key, EmptyPost), Handle(h, true, [], [])];
      && Legal(w, steps)
      && var e := Exec(w, steps);
         |e.sent| == |w.sent| + 1 && e.sent[|w.sent|].dev == d && e.sent[|w.sent|].key == key && CallsFor(e.sent[|w.sent|].reply, t)
  {
    var h := |w.routed|;
    var w1 := AfterQueue(w, key, t);
    QueuedIsAtTheTail(w.acs, key, t);
    var w2 := AfterArrival(w1, d, host, key, EmptyPost);
    assert w2.acs == w1.acs && w2.routed[h].key == key;
    RequestForWorkIsAnswered(w2, h);
    LegalCons(w2, [Handle(h, true, [], [])]);
    LegalCons(w1, [Arrive(d, host, key, EmptyPost), Handle(h, true, [], [])]);
    LegalCons(w, [Queue(key, t), Arrive(d, host, key, EmptyPost), Handle(h, true, [], [])]);
  }

  lemma NothingAmid(s: Sess, post: Post, known: bool)
    requires post.EmptyPost?
    ensures HandledAmid(s, post, known, [], []) == Handled(s, post, known)
  {
    var none: seq<Task> := [];
    assert none + none == none;
    assert EnqueueAll(s, none) == s;
  }

  lemma LegalCons(w: World, steps: seq<Step>)
    requires steps != [] && Enabled(w, steps[0]) && Legal(Do(w, steps[0]), steps[1..])
    ensures Legal(w, steps) && Exec(w, steps) == Exec(Do(w, steps[0]), steps[1..])
  {
  }
}
