/** Device isolation: tasks, parameters and identities stay with the device they belong to. */
module FleetLaws {
  import opened Wrappers
  import opened Identity
  import opened Cwmp
  import opened Server
  import opened Fleet
  import opened S = Session
  import L = SessionLaws

  // ---------------------------------------------------------------- one session

  /** Tasks the ACS queues by itself on first contact. */
  predicate Own(firstContact: seq<string>, t: Task) {
    t == WALK || t == Task(GPV, firstContact, [], "", "")
  }

  predicate Allowed(s: Sess, asked: set<Task>, t: Task) {
    t in asked || Own(s.firstContact, t)
  }

  /** All work in the session was asked for. */
  ghost predicate AllAsked(s: Sess, asked: set<Task>) {
    && (forall t | t in s.queue :: Allowed(s, asked, t))
    && (forall t | t in s.log.pops :: Allowed(s, asked, t))
    && (s.inflight.Some? ==> Allowed(s, asked, s.inflight.value))
  }

  function Reboots(ts: seq<Task>, key: string): nat {
    if ts == [] then 0
    else
      var k := |ts| - 1;
      Reboots(ts[..k], key) + if ts[k].kind == Reboot && ts[k].cmdKey == key then 1 else 0
  }

  lemma RebootsSnoc(ts: seq<Task>, t: Task, key: string)
    ensures Reboots(ts + [t], key) == Reboots(ts, key) + if t.kind == Reboot && t.cmdKey == key then 1 else 0
  {
    assert (ts + [t])[..|ts|] == ts;
  }

  lemma {:induction false} RebootsPrefix(a: seq<Task>, b: seq<Task>, key: string)
    ensures Reboots(a, key) <= Reboots(a + b, key)
    decreases |b|
  {
    if b == [] {
      assert a + b == a;
    } else {
      var k := |b| - 1;
      assert a + b == (a + b[..k]) + [b[k]];
      RebootsSnoc(a + b[..k], b[k], key);
      RebootsPrefix(a, b[..k], key);
    }
  }

  function Calls(ts: seq<Task>): seq<Reply> {
    seq(|ts|, i requires 0 <= i < |ts| => Call(ts[i]))
  }

  /** The reply is a call exactly when a task is handed out, and then it is that task's call. */
  ghost predicate Replies(s: Sess, d: Sess, r: Reply) {
    if IsCall(r) then Calls(d.log.pops) == Calls(s.log.pops) + [r] else d.log.pops == s.log.pops
  }

  /** What the next hand-out keeps, and how it is answered. */
  ghost predicate Onward(s: Sess, d: Sess, r: Reply, asked: set<Task>) {
    && AllAsked(d, asked) && Replies(s, d, r)
    && d.deviceId == s.deviceId && d.firstContact == s.firstContact && d.log.pushes == s.log.pushes
    && (Idle(s) ==> Idle(d) && !IsCall(r))
  }

  /** A session without a device has no work. */
  predicate Idle(s: Sess) {
    s.queue == [] && s.inflight.None? && s.deviceId == ""
  }

  lemma NextOnward(s: Sess, asked: set<Task>)
    requires AllAsked(s, asked)
    ensures Onward(s, NextTask(s).0, NextTask(s).1, asked)
  {
    if s.queue != [] {
      var t := s.queue[0];
      assert t in s.queue && IsCall(Call(t));
      assert forall u | u in s.queue[1..] :: u in s.queue;
      assert Calls(s.log.pops + [t]) == Calls(s.log.pops) + [Call(t)];
    }
  }

  lemma AnsweredKeeps(s: Sess, res: TaskResult, asked: set<Task>)
    requires AllAsked(s, asked)
    ensures var d := Answered(s, res);
      AllAsked(d, asked) && d.deviceId == s.deviceId && d.firstContact == s.firstContact && d.log.pushes == s.log.pushes
        && d.log.pops == s.log.pops && (Idle(s) ==> Idle(d))
  {
  }

  lemma FinishOnward(s: Sess, res: TaskResult, asked: set<Task>)
    requires AllAsked(s, asked)
    ensures Onward(s, FinishInflight(s, res).0, FinishInflight(s, res).1, asked)
  {
    AnsweredKeeps(s, res, asked);
    NextOnward(Answered(s, res), asked);
  }

  /** What queueing keeps: it hands out nothing, and pushes at most n more reboots. */
  ghost predicate Quiet(s: Sess, d: Sess, asked: set<Task>, key: string, n: nat) {
    && AllAsked(d, asked) && d.log.pops == s.log.pops && d.firstContact == s.firstContact
    && Reboots(d.log.pushes, key) <= Reboots(s.log.pushes, key) + n
  }

  lemma RequeueQuiet(s: Sess, asked: set<Task>, key: string)
    requires AllAsked(s, asked)
    ensures Quiet(s, RequeueOrphan(s), asked, key, 0)
  {
    if s.inflight.Some? {
      RebootsSnoc(s.log.pushes, s.inflight.value, key);
    }
  }

  lemma EnqueueQuiet(s: Sess, t: Task, asked: set<Task>, key: string)
    requires AllAsked(s, asked) && Allowed(s, asked, t)
    ensures Quiet(s, Enqueue(s, t), asked, key, Reboots([t], key))
    ensures Enqueue(s, t).deviceId == s.deviceId && Enqueue(s, t).inflight == s.inflight
  {
    RebootsSnoc(s.log.pushes, t, key);
    RebootsSnoc([], t, key);
  }

  lemma {:induction false} RebootsConcat(a: seq<Task>, b: seq<Task>, key: string)
    ensures Reboots(a + b, key) == Reboots(a, key) + Reboots(b, key)
    decreases |b|
  {
    if b == [] {
      assert a + b == a;
    } else {
      var k := |b| - 1;
      assert a + b == (a + b[..k]) + [b[k]];
      RebootsSnoc(a + b[..k], b[k], key);
      RebootsConcat(a, b[..k], key);
    }
  }

  lemma {:induction false} EnqueueAllQuiet(s: Sess, ts: seq<Task>, asked: set<Task>, key: string)
    requires AllAsked(s, asked) && forall t | t in ts :: t in asked
    ensures Quiet(s, EnqueueAll(s, ts), asked, key, Reboots(ts, key))
    ensures EnqueueAll(s, ts).deviceId == s.deviceId && EnqueueAll(s, ts).inflight == s.inflight
    decreases |ts|
  {
    if ts != [] {
      EnqueueQuiet(s, ts[0], asked, key);
      EnqueueAllQuiet(Enqueue(s, ts[0]), ts[1..], asked, key);
      RebootsConcat([ts[0]], ts[1..], key);
      assert ts == [ts[0]] + ts[1..];
    }
  }

  lemma ContactQuiet(s: Sess, amid: seq<Task>, asked: set<Task>, key: string)
    requires AllAsked(s, asked) && forall t | t in amid :: t in asked
    ensures var d := Catalogued(EnqueueAll(Enqueue(s, WALK), amid));
      Quiet(s, d, asked, key, Reboots(amid, key)) && d.deviceId == s.deviceId
  {
    RebootsSnoc([], WALK, key);
    EnqueueQuiet(s, WALK, asked, key);
    var s1 := Enqueue(s, WALK);
    EnqueueAllQuiet(s1, amid, asked, key);
    var s2 := EnqueueAll(s1, amid);
    var read := Task(GPV, s2.firstContact, [], "", "");
    RebootsSnoc([], read, key);
    EnqueueQuiet(s2, read, asked, key);
  }

  lemma InformQuiet(s: Sess, id: DeviceId, known: bool, before: seq<Task>, amid: seq<Task>, asked: set<Task>, key: string)
    requires AllAsked(s, asked) && forall t | t in before + amid :: t in asked
    ensures var d := InformedAmid(s, id, known, before, amid);
      Quiet(s, d, asked, key, Reboots(before + amid, key)) && d.deviceId == CanonicalID(id)
  {
    RebootsConcat(before, amid, key);
    assert forall t | t in before :: t in before + amid;
    assert forall t | t in amid :: t in before + amid;
    EnqueueAllQuiet(s, before, asked, key);
    var s1 := EnqueueAll(s, before).(deviceId := CanonicalID(id));
    assert AllAsked(s1, asked);
    if known {
      EnqueueAllQuiet(s1, amid, asked, key);
    } else {
      ContactQuiet(s1, amid, asked, key);
    }
  }

  lemma RequestKeeps(s: Sess, post: Post, known: bool, asked: set<Task>, key: string)
    requires AllAsked(s, asked) && !IsInform(post)
    ensures var d := S.Handled(s, post, known).0; var r := S.Handled(s, post, known).1;
      && AllAsked(d, asked) && Replies(s, d, r) && d.firstContact == s.firstContact
      && d.log.pushes == s.log.pushes && d.deviceId == s.deviceId
      && (Idle(s) ==> Idle(d) && !IsCall(r))
  {
    if post.EmptyPost? {
      NextOnward(s, asked);
    } else {
      var s1 := s.(msgId := post.msgId);
      L.HandledIs(s, post.msgId, post.msg, known);
      NextOnward(s1, asked);
      if res :| S.Handled(s, post, known) == FinishInflight(s1, res) {
        FinishOnward(s1, res, asked);
      }
    }
  }

  /** Handling one request: only asked work is handed out, the device is the one that informed, and reboots come only from the agent. */
  lemma HandleKeeps(s: Sess, post: Post, known: bool, before: seq<Task>, amid: seq<Task>, asked: set<Task>, key: string)
    requires AllAsked(s, asked) && forall t | t in before + amid :: t in asked
    ensures var d := HandledAmid(s, post, known, before, amid).0; var r := HandledAmid(s, post, known, before, amid).1;
      && AllAsked(d, asked) && Replies(s, d, r) && d.firstContact == s.firstContact
      && Reboots(d.log.pushes, key) <= Reboots(s.log.pushes, key) + Reboots(before + amid, key)
      && d.deviceId == (if IsInform(post) then CanonicalID(post.msg.id) else s.deviceId)
  {
    if IsInform(post) {
      var s1 := s.(msgId := post.msgId);
      RequeueQuiet(s1, asked, key);
      InformQuiet(RequeueOrphan(s1), post.msg.id, known, before, amid, asked, key);
    } else {
      EnqueueAllQuiet(s, before + amid, asked, key);
      RequestKeeps(EnqueueAll(s, before + amid), post, known, asked, key);
    }
  }

  /** A session without a device and without work stays so until a device informs or a task is queued for it. */
  lemma IdleStays(s: Sess, post: Post, known: bool)
    requires Idle(s) && !IsInform(post)
    ensures Idle(HandledAmid(s, post, known, [], []).0) && !IsCall(HandledAmid(s, post, known, [], []).1)
  {
    var asked := set t | t in s.log.pops;
    RequestKeeps(s, post, known, asked, "");
    var none: seq<Task> := [];
    assert none + none == none;
    assert EnqueueAll(s, []) == s;
  }

  /** Only an Inform names a session's device. */
  lemma HandledDevice(s: Sess, post: Post, known: bool, before: seq<Task>, amid: seq<Task>)
    ensures HandledAmid(s, post, known, before, amid).0.deviceId == if IsInform(post) then CanonicalID(post.msg.id) else s.deviceId
  {
    var asked := (set t | t in s.queue) + (set t | t in s.log.pops) + (set t | t in InFlight(s)) + (set t | t in before + amid);
    HandleKeeps(s, post, known, before, amid, asked, "");
  }
}
