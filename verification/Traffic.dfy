/** What holds of the ACS whatever devices send, from wherever, with whatever cookie. */
module Traffic {
  import opened Wrappers
  import opened Identity
  import opened Cwmp
  import opened Server
  import opened Fleet
  import opened S = Session
  import L = SessionLaws
  import opened FleetLaws

  // ---------------------------------------------------------------- calls are hand-outs of asked work

  function AskedFor(asked: seq<Asked>, key: string): set<Task> {
    set a | a in asked && a.key == key :: a.task
  }

  predicate IsReboot(t: Task, cmd: string) {
    t.kind == Reboot && t.cmdKey == cmd
  }

  function RebootsAsked(asked: seq<Asked>, key: string, cmd: string): nat {
    if asked == [] then 0
    else
      var k := |asked| - 1;
      RebootsAsked(asked[..k], key, cmd) + if asked[k].key == key && IsReboot(asked[k].task, cmd) then 1 else 0
  }

  lemma RebootsAskedSnoc(asked: seq<Asked>, a: Asked, key: string, cmd: string)
    ensures RebootsAsked(asked + [a], key, cmd)
      == RebootsAsked(asked, key, cmd) + if a.key == key && IsReboot(a.task, cmd) then 1 else 0
  {
    assert (asked + [a])[..|asked|] == asked;
  }

  /** What was called for under a session's key, in order. */
  function CallsUnder(sent: seq<Sent>, key: string): seq<Reply> {
    if sent == [] then []
    else
      var k := |sent| - 1;
      if sent[k].key == key then CallsUnder(sent[..k], key) + [sent[k].reply] else CallsUnder(sent[..k], key)
  }

  lemma CallsUnderSnoc(sent: seq<Sent>, x: Sent, key: string)
    ensures CallsUnder(sent + [x], key) == CallsUnder(sent, key) + if x.key == key then [x.reply] else []
  {
    assert (sent + [x])[..|sent|] == sent;
  }

  ghost predicate Works(asked: set<Task>, firstContact: seq<string>, s: Sess) {
    AllAsked(s, asked) && s.firstContact == firstContact && L.Conserved(s)
  }

  /** A session's work is what was asked for under its key. */
  ghost predicate Working(w: World, key: string) {
    key in w.acs.sessions ==> Works(AskedFor(w.asked, key), w.acs.firstContact, w.acs.sessions[key])
  }

  ghost predicate RebootsBounded(w: World, key: string, cmd: string) {
    key in w.acs.sessions ==> Reboots(w.acs.sessions[key].log.pushes, cmd) <= RebootsAsked(w.asked, key, cmd)
  }

  /** What was called for under a key is what left its session's queue. */
  ghost predicate CallsMatch(w: World, key: string) {
    CallsUnder(w.sent, key) == if key in w.acs.sessions then Calls(w.acs.sessions[key].log.pops) else []
  }

  ghost predicate Delivering(w: World, key: string, cmd: string) {
    Working(w, key) && RebootsBounded(w, key, cmd) && CallsMatch(w, key)
  }

  lemma NewWorks(asked: set<Task>, firstContact: seq<string>, s: Sess)
    requires s == NewSess(firstContact).(deviceId := s.deviceId, ip := s.ip)
    ensures Works(asked, firstContact, s) && s.log.pops == [] && s.log.pushes == []
  {
    assert L.Conserved(NewSess(firstContact));
  }

  lemma MovedWorks(asked: set<Task>, firstContact: seq<string>, s: Sess, host: string)
    requires Works(asked, firstContact, s)
    ensures Works(asked, firstContact, s.(ip := host))
  {
  }

  lemma MoreAsked(asked: set<Task>, more: set<Task>, s: Sess)
    requires AllAsked(s, asked) && asked <= more
    ensures AllAsked(s, more)
  {
  }

  lemma HandledWorks(asked: set<Task>, firstContact: seq<string>, s: Sess, post: Post, known: bool, before: seq<Task>, amid: seq<Task>, cmd: string)
    requires Works(asked, firstContact, s) && forall t | t in before + amid :: t in asked
    ensures var h := HandledAmid(s, post, known, before, amid);
      && Works(asked, firstContact, h.0) && Replies(s, h.0, h.1)
      && Reboots(h.0.log.pushes, cmd) <= Reboots(s.log.pushes, cmd) + Reboots(before + amid, cmd)
  {
    HandleKeeps(s, post, known, before, amid, asked, cmd);
    L.AmidConserves(s, post, known, before, amid);
  }

  lemma AskedOfLast(asked: seq<Asked>, key: string, ts: seq<Task>)
    requires ts != []
    ensures var k := |ts| - 1; asked + AskedOf(key, ts) == asked + AskedOf(key, ts[..k]) + [Asked(key, ts[k])]
  {
    assert AskedOf(key, ts) == AskedOf(key, ts[..|ts| - 1]) + [Asked(key, ts[|ts| - 1])];
  }

  lemma {:induction false} TaskAsked(asked: seq<Asked>, key: string, ts: seq<Task>, cmd: string)
    ensures forall t | t in ts :: t in AskedFor(asked + AskedOf(key, ts), key)
    ensures AskedFor(asked, key) <= AskedFor(asked + AskedOf(key, ts), key)
    ensures RebootsAsked(asked + AskedOf(key, ts), key, cmd) == RebootsAsked(asked, key, cmd) + Reboots(ts, cmd)
    decreases |ts|
  {
    var all := asked + AskedOf(key, ts);
    forall t | t in ts ensures t in AskedFor(all, key) {
      var i :| 0 <= i < |ts| && ts[i] == t;
      assert all[|asked| + i] == Asked(key, t);
      assert Asked(key, t) in all;
    }
    if ts == [] {
      assert all == asked;
    } else {
      var k := |ts| - 1;
      TaskAsked(asked, key, ts[..k], cmd);
      AskedOfLast(asked, key, ts);
      RebootsAskedSnoc(asked + AskedOf(key, ts[..k]), Asked(key, ts[k]), key, cmd);
    }
  }

  lemma {:induction false} OthersAsked(asked: seq<Asked>, key: string, ts: seq<Task>, other: string, cmd: string)
    requires other != key
    ensures AskedFor(asked + AskedOf(key, ts), other) == AskedFor(asked, other)
    ensures RebootsAsked(asked + AskedOf(key, ts), other, cmd) == RebootsAsked(asked, other, cmd)
    decreases |ts|
  {
    if ts == [] {
      assert asked + AskedOf(key, ts) == asked;
    } else {
      var k := |ts| - 1;
      var shorter := asked + AskedOf(key, ts[..k]);
      OthersAsked(asked, key, ts[..k], other, cmd);
      AskedOfLast(asked, key, ts);
      OneMoreAsked(shorter, Asked(key, ts[k]), other);
      RebootsAskedSnoc(shorter, Asked(key, ts[k]), other, cmd);
    }
  }

  lemma OneMoreAsked(asked: seq<Asked>, a: Asked, key: string)
    ensures AskedFor(asked + [a], key) == AskedFor(asked, key) + if a.key == key then {a.task} else {}
  {
    assert a in asked + [a];
  }

  lemma QueueOutcome(w: World, key: string, t: Task)
    ensures AfterQueue(w, key, t).acs.sessions == w.acs.sessions[key := Enqueue(Opened(w.acs, key).sessions[key], t)]
    ensures AfterQueue(w, key, t).acs.firstContact == w.acs.firstContact
    ensures AfterQueue(w, key, t).acs.byIP == w.acs.byIP && AfterQueue(w, key, t).acs.cache == w.acs.cache
  {
  }

  lemma EnqueuedWorks(asked: set<Task>, firstContact: seq<string>, s: Sess, t: Task, cmd: string)
    requires Works(asked, firstContact, s) && t in asked
    ensures var d := Enqueue(s, t);
      Works(asked, firstContact, d) && d.log.pops == s.log.pops
        && Reboots(d.log.pushes, cmd) <= Reboots(s.log.pushes, cmd) + if IsReboot(t, cmd) then 1 else 0
  {
    RebootsSnoc([], t, cmd);
    EnqueueQuiet(s, t, asked, cmd);
    L.EnqueueConserves(s, t);
  }

  /** The session a queued task finds, under the tasks then asked for. */
  lemma OpenedWorks(w: World, key: string, more: set<Task>, cmd: string)
    requires Delivering(w, key, cmd) && AskedFor(w.asked, key) <= more
    ensures var s := Opened(w.acs, key).sessions[key];
      && Works(more, w.acs.firstContact, s)
      && CallsUnder(w.sent, key) == Calls(s.log.pops)
      && Reboots(s.log.pushes, cmd) <= RebootsAsked(w.asked, key, cmd)
  {
    var s := Opened(w.acs, key).sessions[key];
    if key in w.acs.sessions {
      MoreAsked(AskedFor(w.asked, key), more, s);
    } else {
      NewWorks(more, w.acs.firstContact, s);
    }
  }

  lemma QueueDeliversItsOwn(w: World, key: string, t: Task, cmd: string)
    requires Delivering(w, key, cmd)
    ensures Delivering(AfterQueue(w, key, t), key, cmd)
  {
    var a := Asked(key, t);
    var more := AskedFor(w.asked + [a], key);
    var s := Opened(w.acs, key).sessions[key];
    OneMoreAsked(w.asked, a, key);
    RebootsAskedSnoc(w.asked, a, key, cmd);
    OpenedWorks(w, key, more, cmd);
    EnqueuedWorks(more, w.acs.firstContact, s, t, cmd);
    QueueOutcome(w, key, t);
  }

  lemma QueueDelivers(w: World, key: string, t: Task, k: string, cmd: string)
    requires Delivering(w, k, cmd)
    ensures Delivering(AfterQueue(w, key, t), k, cmd)
  {
    if key == k {
      QueueDeliversItsOwn(w, key, t, cmd);
    } else {
      QueueOutcome(w, key, t);
      OneMoreAsked(w.asked, Asked(key, t), k);
      RebootsAskedSnoc(w.asked, Asked(key, t), k, cmd);
    }
  }

  lemma RoutedSessions(v: Acs, host: string, cookie: string, post: Post)
    ensures var key := KeyFor(v, host, cookie, post); var r := Routed(v, host, cookie, post);
      && key in r.sessions && r.cache == v.cache && r.firstContact == v.firstContact
      && (r.sessions == v.sessions || (key !in v.sessions
            && r.sessions == v.sessions[key := NewSess(v.firstContact).(deviceId := r.sessions[key].deviceId, ip := r.sessions[key].ip)]
            && (if IsInform(post) then r.sessions[key].deviceId == key else r.sessions[key].deviceId == "" && key == Provisional(host))))
      && (r.byIP == v.byIP || r.byIP == v.byIP[host := key])
  {
  }

  lemma ArriveDelivers(w: World, d: nat, host: string, cookie: string, post: Post, key: string, cmd: string)
    requires Delivering(w, key, cmd)
    ensures Delivering(AfterArrival(w, d, host, cookie, post), key, cmd)
  {
    RoutedSessions(w.acs, host, cookie, post);
    var r := Routed(w.acs, host, cookie, post);
    if key in r.sessions && key !in w.acs.sessions {
      NewWorks(AskedFor(w.asked, key), w.acs.firstContact, r.sessions[key]);
    }
  }

  lemma OutcomeWorks(w: World, q: Routing, before: seq<Task>, amid: seq<Task>, cmd: string)
    requires q.key in w.acs.sessions && Working(w, q.key)
    ensures var o := Outcome(w.acs, q, before, amid); var asked := w.asked + AskedOf(q.key, before + amid);
      && Works(AskedFor(asked, q.key), w.acs.firstContact, o.0)
      && Replies(w.acs.sessions[q.key], o.0, o.1)
      && Reboots(o.0.log.pushes, cmd) <= Reboots(w.acs.sessions[q.key].log.pushes, cmd) + Reboots(before + amid, cmd)
  {
    var asked := w.asked + AskedOf(q.key, before + amid);
    TaskAsked(w.asked, q.key, before + amid, cmd);
    MoreAsked(AskedFor(w.asked, q.key), AskedFor(asked, q.key), w.acs.sessions[q.key]);
    MovedWorks(AskedFor(asked, q.key), w.acs.firstContact, w.acs.sessions[q.key], q.host);
    HandledWorks(AskedFor(asked, q.key), w.acs.firstContact, Found(w.acs, q), q.post, Knows(w.acs.cache, q.post), before, amid, cmd);
  }

  lemma HandleDelivers(w: World, r: nat, received: bool, before: seq<Task>, amid: seq<Task>, key: string, cmd: string)
    requires Delivering(w, key, cmd) && Enabled(w, Handle(r, received, before, amid))
    ensures Delivering(AfterHandling(w, r, received, before, amid), key, cmd)
  {
    var q := w.routed[r];
    CallsUnderSnoc(w.sent, Sent(q.dev, q.key, Outcome(w.acs, q, before, amid).1), key);
    if q.key == key {
      OutcomeWorks(w, q, before, amid, cmd);
      TaskAsked(w.asked, key, before + amid, cmd);
    } else {
      OthersAsked(w.asked, q.key, before + amid, key, cmd);
    }
  }

  lemma StepDelivers(w: World, s: Step, key: string, cmd: string)
    requires Delivering(w, key, cmd) && Enabled(w, s)
    ensures Delivering(Do(w, s), key, cmd)
  {
    match s {
      case Queue(k, t) => QueueDelivers(w, k, t, key, cmd);
      case Arrive(d, host, cookie, post) => ArriveDelivers(w, d, host, cookie, post, key, cmd);
      case Handle(r, received, before, amid) => HandleDelivers(w, r, received, before, amid, key, cmd);
      case LoseCookie(d) =>
    }
  }

  lemma {:induction false} RunDelivers(w: World, steps: seq<Step>, key: string, cmd: string)
    requires Delivering(w, key, cmd) && Legal(w, steps)
    ensures Delivering(Exec(w, steps), key, cmd)
    decreases |steps|
  {
    if steps != [] {
      StepDelivers(w, steps[0], key, cmd);
      RunDelivers(Do(w, steps[0]), steps[1..], key, cmd);
    }
  }

  /** For every run: what is called for under a key is exactly what its session handed out, in order. */
  lemma CallsAreHandOuts(cache: Cache, firstContact: seq<string>, jars: map<nat, string>, steps: seq<Step>, key: string)
    requires Legal(Start(cache, firstContact, jars), steps)
    ensures CallsMatch(Exec(Start(cache, firstContact, jars), steps), key)
  {
    RunDelivers(Start(cache, firstContact, jars), steps, key, "");
  }

  // ---------------------------------------------------------------- reboots

  function RebootCalls(calls: seq<Reply>, cmd: string): nat {
    if calls == [] then 0
    else
      var k := |calls| - 1;
      RebootCalls(calls[..k], cmd) + if calls[k] == CallReboot(cmd) then 1 else 0
  }

  lemma {:induction false} RebootsCalled(ts: seq<Task>, cmd: string)
    ensures RebootCalls(Calls(ts), cmd) == Reboots(ts, cmd)
    decreases |ts|
  {
    if ts != [] {
      var k := |ts| - 1;
      RebootsCalled(ts[..k], cmd);
      assert Calls(ts)[..k] == Calls(ts[..k]);
    }
  }

  lemma KeyRebootsSent(w: World, key: string, cmd: string)
    requires Delivering(w, key, cmd)
    ensures RebootCalls(CallsUnder(w.sent, key), cmd) <= RebootsAsked(w.asked, key, cmd)
  {
    if key in w.acs.sessions {
      var s := w.acs.sessions[key];
      RebootsCalled(s.log.pops, cmd);
      RebootsPrefix(s.log.pops, s.queue, cmd);
    }
  }

  /** The keys under which a reboot was sent, and those under which it was asked for. */
  function SentKeys(sent: seq<Sent>, cmd: string): seq<string> {
    if sent == [] then []
    else
      var k := |sent| - 1;
      if sent[k].reply == CallReboot(cmd) then SentKeys(sent[..k], cmd) + [sent[k].key] else SentKeys(sent[..k], cmd)
  }

  function AskedKeys(asked: seq<Asked>, cmd: string): seq<string> {
    if asked == [] then []
    else
      var k := |asked| - 1;
      if IsReboot(asked[k].task, cmd) then AskedKeys(asked[..k], cmd) + [asked[k].key] else AskedKeys(asked[..k], cmd)
  }

  lemma {:induction false} SentKeysCount(sent: seq<Sent>, cmd: string, key: string)
    ensures multiset(SentKeys(sent, cmd))[key] == RebootCalls(CallsUnder(sent, key), cmd)
    decreases |sent|
  {
    if sent != [] {
      var k := |sent| - 1;
      SentKeysCount(sent[..k], cmd, key);
      var calls := CallsUnder(sent[..k], key);
      assert (calls + [sent[k].reply])[..|calls|] == calls;
    }
  }

  lemma {:induction false} AskedKeysCount(asked: seq<Asked>, cmd: string, key: string)
    ensures multiset(AskedKeys(asked, cmd))[key] == RebootsAsked(asked, key, cmd)
    decreases |asked|
  {
    if asked != [] {
      AskedKeysCount(asked[..|asked| - 1], cmd, key);
    }
  }

  lemma SentAtMostAsked(w: World, cmd: string)
    requires forall key :: Delivering(w, key, cmd)
    ensures |SentKeys(w.sent, cmd)| <= |AskedKeys(w.asked, cmd)|
  {
    forall key
      ensures multiset(SentKeys(w.sent, cmd))[key] <= multiset(AskedKeys(w.asked, cmd))[key]
    {
      KeyRebootsSent(w, key, cmd);
      SentKeysCount(w.sent, cmd, key);
      AskedKeysCount(w.asked, cmd, key);
    }
    SubMultiset(multiset(SentKeys(w.sent, cmd)), multiset(AskedKeys(w.asked, cmd)));
  }

  /** Whatever the devices do: under each key, and summed over all sessions, a reboot is sent no more often than it was queued. */
  lemma RebootsSentAtMostAsQueued(cache: Cache, firstContact: seq<string>, jars: map<nat, string>, steps: seq<Step>, cmd: string)
    requires Legal(Start(cache, firstContact, jars), steps)
    ensures var w := Exec(Start(cache, firstContact, jars), steps);
      && (forall key :: RebootCalls(CallsUnder(w.sent, key), cmd) <= RebootsAsked(w.asked, key, cmd))
      && |SentKeys(w.sent, cmd)| <= |AskedKeys(w.asked, cmd)|
  {
    var w := Exec(Start(cache, firstContact, jars), steps);
    forall key
      ensures Delivering(w, key, cmd) && RebootCalls(CallsUnder(w.sent, key), cmd) <= RebootsAsked(w.asked, key, cmd)
    {
      RunDelivers(Start(cache, firstContact, jars), steps, key, cmd);
      KeyRebootsSent(w, key, cmd);
    }
    SentAtMostAsked(w, cmd);
  }

  lemma SubMultiset(a: multiset<string>, b: multiset<string>)
    requires forall key :: a[key] <= b[key]
    ensures |a| <= |b|
  {
    assert b == a + (b - a);
  }

  // ---------------------------------------------------------------- where a request goes

  /** The device id of the last Inform that arrived from an address. */
  function LastInform(arrived: seq<Routing>, host: string): Option<string> {
    if arrived == [] then None
    else
      var k := |arrived| - 1;
      if arrived[k].host == host && IsInform(arrived[k].post) then Some(arrived[k].key) else LastInform(arrived[..k], host)
  }

  /** An address leads to the device that last informed from it, and before any did to nowhere or a provisional session. */
  ghost predicate Addressed(w: World, host: string) {
    && (forall h | h in w.acs.byIP :: w.acs.byIP[h] in w.acs.sessions)
    && match LastInform(w.arrived, host)
       case Some(key) => host in w.acs.byIP && w.acs.byIP[host] == key
       case None => host in w.acs.byIP ==> w.acs.byIP[host] == Provisional(host)
  }

  lemma StepAddressed(w: World, s: Step, host: string)
    requires Addressed(w, host) && Enabled(w, s)
    ensures Addressed(Do(w, s), host)
  {
    if s.Arrive? {
      var d := Do(w, s);
      RoutedSessions(w.acs, s.host, s.cookie, s.post);
      assert d.arrived[..|w.arrived|] == w.arrived;
    } else if s.Queue? {
      QueueOutcome(w, s.key, s.task);
    }
  }

  lemma {:induction false} RunAddressed(w: World, steps: seq<Step>, host: string)
    requires Addressed(w, host) && Legal(w, steps)
    ensures Addressed(Exec(w, steps), host)
    decreases |steps|
  {
    if steps != [] {
      StepAddressed(w, steps[0], host);
      RunAddressed(Do(w, steps[0]), steps[1..], host);
    }
  }

  /**
   After every run, restarts with leftover cookies included: a request that is no Inform and
   carries its device's cookie or none goes to the session of that device's id exactly when the
   cookie names a session of this lifetime, or that device was the last to inform from the address.
   */
  lemma RequestFindsItsDeviceExactlyWhen(cache: Cache, firstContact: seq<string>, jars: map<nat, string>, steps: seq<Step>,
                                         host: string, cookie: string, post: Post, id: string)
    requires Legal(Start(cache, firstContact, jars), steps)
    requires !IsInform(post) && (cookie == "" || cookie == id) && id != Provisional(host)
    ensures var w := Exec(Start(cache, firstContact, jars), steps);
      KeyFor(w.acs, host, cookie, post) == id <==> (cookie != "" && id in w.acs.sessions) || LastInform(w.arrived, host) == Some(id)
  {
    RunAddressed(Start(cache, firstContact, jars), steps, host);
  }
}
