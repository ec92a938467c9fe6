/** What becomes of tasks over every life of a session, whatever the device does. */
module SessionLaws {
  import opened Wrappers
  import opened Identity
  import opened Cwmp
  import opened Session

  /**
   What reaches a session: tasks from the agent, requests from the device, during which the agent
   may queue tasks too, and waits for results that come and go.
   */
  datatype Input =
    | Accept(task: Task)
    | Request(post: Post, known: bool, before: seq<Task>, amid: seq<Task>)
    | Wait(id: string)
    | Leave(id: string)

  function Take(s: Sess, i: Input): Sess {
    match i
    case Accept(t) => Enqueue(s, t)
    case Request(post, known, before, amid) => HandledAmid(s, post, known, before, amid).0
    case Wait(id) => s.(mail := Register(s.mail, id))
    case Leave(id) => s.(mail := Release(s.mail, id))
  }

  function Life(s: Sess, inputs: seq<Input>): Sess
    decreases |inputs|
  {
    if inputs == [] then s else Life(Take(s, inputs[0]), inputs[1..])
  }

  // ---------------------------------------------------------------- conservation

  function DiscardedTasks(ds: seq<Discard>): seq<Task> {
    seq(|ds|, i requires 0 <= i < |ds| => ds[i].task)
  }

  /** Where the accepted tasks are. */
  function Whereabouts(s: Sess): multiset<Task> {
    multiset(s.queue) + multiset(InFlight(s)) + multiset(s.log.finished)
      + multiset(DiscardedTasks(s.log.discarded)) + multiset(s.log.overwritten)
  }

  predicate NamedWork(t: Task) {
    t.commandId != "" && t.kind != Reboot
  }

  function IdsOf(ts: seq<Task>): seq<string> {
    if ts == [] then []
    else
      var k := |ts| - 1;
      if ts[k].commandId == "" then IdsOf(ts[..k]) else IdsOf(ts[..k]) + [ts[k].commandId]
  }

  function ResultIds(rs: seq<TaskResult>): seq<string> {
    seq(|rs|, i requires 0 <= i < |rs| => rs[i].commandId)
  }

  /** Every accepted task is in exactly one place. */
  ghost predicate Balanced(s: Sess) {
    multiset(s.log.accepted) == Whereabouts(s)
  }

  /** One sequence is a merge of two: each of them, in its own order, and nothing else. */
  predicate Merge(all: seq<Task>, a: seq<Task>, b: seq<Task>)
    decreases |all|
  {
    if all == [] then a == [] && b == []
    else
      var k := |all| - 1;
      || (a != [] && a[|a| - 1] == all[k] && Merge(all[..k], a[..|a| - 1], b))
      || (b != [] && b[|b| - 1] == all[k] && Merge(all[..k], a, b[..|b| - 1]))
  }

  lemma MergeLeft(all: seq<Task>, a: seq<Task>, b: seq<Task>, t: Task)
    requires Merge(all, a, b)
    ensures Merge(all + [t], a + [t], b)
  {
    assert (all + [t])[..|all|] == all && (a + [t])[..|a|] == a;
  }

  lemma MergeRight(all: seq<Task>, a: seq<Task>, b: seq<Task>, t: Task)
    requires Merge(all, a, b)
    ensures Merge(all + [t], a, b + [t])
  {
    assert (all + [t])[..|all|] == all && (b + [t])[..|b|] == b;
  }

  lemma {:induction false} MergeIsBoth(all: seq<Task>, a: seq<Task>, b: seq<Task>)
    requires Merge(all, a, b)
    ensures multiset(all) == multiset(a) + multiset(b)
    decreases |all|
  {
    if all != [] {
      var k := |all| - 1;
      assert all == all[..k] + [all[k]];
      if a != [] && a[|a| - 1] == all[k] && Merge(all[..k], a[..|a| - 1], b) {
        assert a == a[..|a| - 1] + [all[k]];
        MergeIsBoth(all[..k], a[..|a| - 1], b);
      } else {
        assert b == b[..|b| - 1] + [all[k]];
        MergeIsBoth(all[..k], a, b[..|b| - 1]);
      }
    }
  }

  /** First in, first out: hand-outs leave in the order of the pushes, which merge the accepted tasks, in order, with the orphans put back. */
  ghost predicate InOrder(s: Sess) {
    && s.log.pops + s.queue == s.log.pushes
    && Merge(s.log.pushes, s.log.accepted, s.log.requeued)
    && |s.queue| <= QUEUE_CAP
  }

  /** Only named work is put back; only a full queue discards it; one result is published per finished named task. */
  ghost predicate Reported(log: Log) {
    && (forall t | t in log.requeued :: NamedWork(t))
    && (forall d | d in log.discarded && NamedWork(d.task) :: d.queued == QUEUE_CAP)
    && ResultIds(log.published) == IdsOf(log.finished)
  }

  ghost predicate Conserved(s: Sess) {
    Balanced(s) && InOrder(s) && Reported(s.log)
  }

  lemma EnqueueConserves(s: Sess, t: Task)
    requires Conserved(s)
    ensures Conserved(Enqueue(s, t))
  {
    if |s.queue| < QUEUE_CAP {
      assert s.log.pops + (s.queue + [t]) == s.log.pushes + [t];
      MergeLeft(s.log.pushes, s.log.accepted, s.log.requeued, t);
    }
  }

  lemma NextConserves(s: Sess)
    requires Conserved(s)
    ensures Conserved(NextTask(s).0)
  {
    if s.queue != [] {
      assert s.queue == [s.queue[0]] + s.queue[1..];
      assert s.log.pops + [s.queue[0]] + s.queue[1..] == s.log.pops + s.queue;
    }
  }

  lemma DiscardedSnoc(ds: seq<Discard>, d: Discard)
    ensures DiscardedTasks(ds + [d]) == DiscardedTasks(ds) + [d.task]
    ensures multiset(DiscardedTasks(ds + [d])) == multiset(DiscardedTasks(ds)) + multiset{d.task}
  {
  }

  lemma RequeueBalanced(s: Sess)
    requires Balanced(s)
    ensures Balanced(RequeueOrphan(s))
  {
    if s.inflight.Some? {
      var t := s.inflight.value;
      var d := RequeueOrphan(s);
      assert multiset(InFlight(s)) == multiset{t} && InFlight(d) == [];
      if NamedWork(t) && |s.queue| < QUEUE_CAP {
        assert multiset(d.queue) == multiset(s.queue) + multiset{t};
      } else {
        DiscardedSnoc(s.log.discarded, Discard(t, |s.queue|));
      }
    }
  }

  lemma RequeueInOrder(s: Sess)
    requires InOrder(s)
    ensures InOrder(RequeueOrphan(s))
  {
    if s.inflight.Some? {
      assert s.log.pops + (s.queue + InFlight(s)) == s.log.pushes + InFlight(s);
      MergeRight(s.log.pushes, s.log.accepted, s.log.requeued, s.inflight.value);
    }
  }

  lemma RequeueReported(s: Sess)
    requires Reported(s.log) && |s.queue| <= QUEUE_CAP
    ensures Reported(RequeueOrphan(s).log)
  {
  }

  lemma AnswerBalanced(s: Sess, res: TaskResult)
    requires Balanced(s)
    ensures Balanced(Answered(s, res))
  {
  }

  lemma AnswerReported(s: Sess, res: TaskResult)
    requires Reported(s.log)
    ensures Reported(Answered(s, res).log)
  {
    if s.inflight.Some? {
      var t := s.inflight.value;
      assert (s.log.finished + [t])[..|s.log.finished|] == s.log.finished;
      assert ResultIds(s.log.published + [res.(commandId := t.commandId)]) == ResultIds(s.log.published) + [t.commandId];
    }
  }

  lemma AnswerInOrder(s: Sess, res: TaskResult)
    requires InOrder(s)
    ensures InOrder(Answered(s, res))
  {
  }

  lemma AnswerConserves(s: Sess, res: TaskResult)
    requires Conserved(s)
    ensures Conserved(Answered(s, res))
  {
    AnswerBalanced(s, res);
    AnswerInOrder(s, res);
    AnswerReported(s, res);
  }

  lemma FinishConserves(s: Sess, res: TaskResult)
    requires Conserved(s)
    ensures Conserved(FinishInflight(s, res).0)
  {
    AnswerConserves(s, res);
    NextConserves(Answered(s, res));
  }

  lemma RequeueConserves(s: Sess)
    requires Conserved(s)
    ensures Conserved(RequeueOrphan(s))
  {
    RequeueBalanced(s);
    RequeueInOrder(s);
    RequeueReported(s);
  }

  lemma {:induction false} EnqueueAllConserves(s: Sess, ts: seq<Task>)
    requires Conserved(s)
    ensures Conserved(EnqueueAll(s, ts))
    ensures EnqueueAll(s, ts).log.overwritten == s.log.overwritten && EnqueueAll(s, ts).inflight == s.inflight
    decreases |ts|
  {
    if ts != [] {
      EnqueueConserves(s, ts[0]);
      EnqueueAllConserves(Enqueue(s, ts[0]), ts[1..]);
    }
  }

  lemma NamedConserves(s: Sess, id: string)
    requires Conserved(s)
    ensures Conserved(s.(deviceId := id))
  {
  }

  lemma ContactConserves(s: Sess, amid: seq<Task>)
    requires Conserved(s)
    ensures Conserved(Catalogued(EnqueueAll(Enqueue(s, WALK), amid)))
  {
    EnqueueConserves(s, WALK);
    EnqueueAllConserves(Enqueue(s, WALK), amid);
    var s2 := EnqueueAll(Enqueue(s, WALK), amid);
    EnqueueConserves(s2, Task(GPV, s2.firstContact, [], "", ""));
  }

  lemma InformConserves(s: Sess, id: DeviceId, known: bool, before: seq<Task>, amid: seq<Task>)
    requires Conserved(s)
    ensures Conserved(InformedAmid(s, id, known, before, amid))
  {
    EnqueueAllConserves(s, before);
    NamedConserves(EnqueueAll(s, before), CanonicalID(id));
    var s1 := EnqueueAll(s, before).(deviceId := CanonicalID(id));
    if known {
      EnqueueAllConserves(s1, amid);
    } else {
      ContactConserves(s1, amid);
    }
  }

  /** Everything a message can do to a session and what it is answered. */
  lemma HandledIs(s: Sess, msgId: string, msg: Message, known: bool)
    ensures var s1 := s.(msgId := msgId); var h := Handled(s, Envelope(msgId, msg), known);
      || (h.0 == s1 && !IsCall(h.1) && !msg.Inform?)
      || (msg.Other? && h == NextTask(s1))
      || (msg.Inform? && h == (Informed(RequeueOrphan(s1), msg.id, known), InformResponse))
      || (!msg.Inform? && exists res :: h == FinishInflight(s1, res))
  {
    var s1 := s.(msgId := msgId);
    var h := Handled(s, Envelope(msgId, msg), known);
    match msg {
      case GPVResponse(values) => assert h == FinishInflight(s1, Result(GPV, ParamMap(values), [], 0, ""));
      case SPVResponse(status) => assert h == FinishInflight(s1, Result(SPV, map[], [], status, ""));
      case GPNResponse(names) => assert h == FinishInflight(s1, Result(GPN, map[], names, 0, ""));
      case RebootResponse => assert h == FinishInflight(s1, Result(Reboot, map[], [], 0, ""));
      case Fault(err) =>
        if s.inflight.Some? {
          assert h == FinishInflight(s1, Result(s.inflight.value.kind, map[], [], 0, err));
        }
      case _ =>
    }
  }

  lemma HandleConserves(s: Sess, post: Post, known: bool)
    requires Conserved(s)
    ensures Conserved(Handled(s, post, known).0)
  {
    if post.EmptyPost? {
      NextConserves(s);
    } else {
      HandledIs(s, post.msgId, post.msg, known);
      var s1 := s.(msgId := post.msgId);
      var h := Handled(s, post, known).0;
      assert Conserved(s1);
      NextConserves(s1);
      if post.msg.Inform? {
        RequeueConserves(s1);
        InformConserves(RequeueOrphan(s1), post.msg.id, known, [], []);
      }
      if res :| Handled(s, post, known) == FinishInflight(s1, res) {
        FinishConserves(s1, res);
      }
    }
  }

  lemma AmidConserves(s: Sess, post: Post, known: bool, before: seq<Task>, amid: seq<Task>)
    requires Conserved(s)
    ensures Conserved(HandledAmid(s, post, known, before, amid).0)
  {
    if post.Envelope? && post.msg.Inform? {
      var s1 := s.(msgId := post.msgId);
      RequeueConserves(s1);
      InformConserves(RequeueOrphan(s1), post.msg.id, known, before, amid);
    } else {
      EnqueueAllConserves(s, before + amid);
      HandleConserves(EnqueueAll(s, before + amid), post, known);
    }
  }

  lemma TakeConserves(s: Sess, i: Input)
    requires Conserved(s)
    ensures Conserved(Take(s, i))
  {
    match i {
      case Accept(t) => EnqueueConserves(s, t);
      case Request(post, known, before, amid) => AmidConserves(s, post, known, before, amid);
      case Wait(id) =>
      case Leave(id) =>
    }
  }

  lemma {:induction false} LifeConserves(s: Sess, inputs: seq<Input>)
    requires Conserved(s)
    ensures Conserved(Life(s, inputs))
    decreases |inputs|
  {
    if inputs != [] {
      TakeConserves(s, inputs[0]);
      LifeConserves(Take(s, inputs[0]), inputs[1..]);
    }
  }

  /** For every device behaviour: each accepted task is queued, in flight, finished, discarded or overwritten, exactly one of them. */
  lemma EveryTaskAccountedFor(firstContact: seq<string>, inputs: seq<Input>)
    ensures Conserved(Life(NewSess(firstContact), inputs))
  {
    LifeConserves(NewSess(firstContact), inputs);
  }

  // ---------------------------------------------------------------- when a task is overwritten

  /** Asking for work, rather than answering: an empty POST or an envelope the ACS does not model. */
  predicate AsksForWork(i: Input) {
    i.Request? && (i.post.EmptyPost? || i.post.msg.Other?)
  }

  /** The device asks for more while a request of the ACS is unanswered and more is queued. */
  predicate Skips(s: Sess, i: Input) {
    AsksForWork(i) && s.inflight.Some? && s.queue + i.before + i.amid != []
  }

  predicate AnswersBeforeAsking(s: Sess, inputs: seq<Input>)
    decreases |inputs|
  {
    inputs == [] || (!Skips(s, inputs[0]) && AnswersBeforeAsking(Take(s, inputs[0]), inputs[1..]))
  }

  lemma {:induction false} EnqueueAllOverwritesNothing(s: Sess, ts: seq<Task>)
    ensures var d := EnqueueAll(s, ts);
      d.log.overwritten == s.log.overwritten && d.inflight == s.inflight && (d.queue == [] <==> s.queue + ts == [])
    decreases |ts|
  {
    if ts != [] {
      EnqueueAllOverwritesNothing(Enqueue(s, ts[0]), ts[1..]);
    }
  }

  lemma InformOverwritesNothing(s: Sess, id: DeviceId, known: bool, before: seq<Task>, amid: seq<Task>)
    ensures InformedAmid(RequeueOrphan(s), id, known, before, amid).log.overwritten == s.log.overwritten
  {
    EnqueueAllOverwritesNothing(RequeueOrphan(s), before);
    var s1 := EnqueueAll(RequeueOrphan(s), before).(deviceId := CanonicalID(id));
    EnqueueAllOverwritesNothing(s1, amid);
    EnqueueAllOverwritesNothing(Enqueue(s1, WALK), amid);
  }

  lemma TakeOverwrites(s: Sess, i: Input)
    ensures Take(s, i).log.overwritten == s.log.overwritten + if Skips(s, i) then InFlight(s) else []
  {
    if i.Request? {
      if i.post.Envelope? && i.post.msg.Inform? {
        InformOverwritesNothing(s.(msgId := i.post.msgId), i.post.msg.id, i.known, i.before, i.amid);
      } else {
        var e := EnqueueAll(s, i.before + i.amid);
        EnqueueAllOverwritesNothing(s, i.before + i.amid);
        assert s.queue + (i.before + i.amid) == s.queue + i.before + i.amid;
        if i.post.Envelope? {
          HandledIs(e, i.post.msgId, i.post.msg, i.known);
        }
      }
    }
  }

  lemma {:induction false} OverwritesOnlyGrow(s: Sess, inputs: seq<Input>)
    ensures s.log.overwritten <= Life(s, inputs).log.overwritten
    decreases |inputs|
  {
    if inputs != [] {
      TakeOverwrites(s, inputs[0]);
      OverwritesOnlyGrow(Take(s, inputs[0]), inputs[1..]);
    }
  }

  /** A task is overwritten in flight exactly when the device asked for more before answering. */
  lemma {:induction false} NothingOverwrittenExactlyWhen(s: Sess, inputs: seq<Input>)
    requires s.log.overwritten == []
    ensures Life(s, inputs).log.overwritten == [] <==> AnswersBeforeAsking(s, inputs)
    decreases |inputs|
  {
    if inputs != [] {
      TakeOverwrites(s, inputs[0]);
      var next := Take(s, inputs[0]);
      if Skips(s, inputs[0]) {
        OverwritesOnlyGrow(next, inputs[1..]);
      } else {
        NothingOverwrittenExactlyWhen(next, inputs[1..]);
      }
    }
  }

  /** A device that answers first: four places, and queue order kept but for orphans put back at the tail. */
  lemma CompliantDeviceLosesNothing(firstContact: seq<string>, inputs: seq<Input>)
    requires AnswersBeforeAsking(NewSess(firstContact), inputs)
    ensures var s := Life(NewSess(firstContact), inputs);
      && multiset(s.log.accepted)
           == multiset(s.queue) + multiset(InFlight(s)) + multiset(s.log.finished) + multiset(DiscardedTasks(s.log.discarded))
      && s.log.pops + s.queue == s.log.pushes
  {
    EveryTaskAccountedFor(firstContact, inputs);
    NothingOverwrittenExactlyWhen(NewSess(firstContact), inputs);
  }

  // ---------------------------------------------------------------- at most one result, at most one reboot

  function Count<T(==)>(ts: seq<T>, x: T): nat {
    multiset(ts)[x]
  }

  lemma {:induction false} IdsCount(ts: seq<Task>, c: string)
    requires c != ""
    ensures Count(IdsOf(ts), c) == CountNamed(ts, c)
  {
    if ts != [] {
      IdsCount(ts[..|ts| - 1], c);
    }
  }

  function CountNamed(ts: seq<Task>, c: string): nat {
    if ts == [] then 0
    else
      var k := |ts| - 1;
      CountNamed(ts[..k], c) + if ts[k].commandId == c then 1 else 0
  }

  lemma {:induction false} CountNamedRemove(ts: seq<Task>, i: nat, c: string)
    requires i < |ts|
    ensures CountNamed(ts, c) == CountNamed(ts[..i] + ts[i + 1..], c) + if ts[i].commandId == c then 1 else 0
    decreases |ts|
  {
    var k := |ts| - 1;
    if i == k {
      assert ts[..i] + ts[i + 1..] == ts[..k];
    } else {
      var rest := ts[..i] + ts[i + 1..];
      CountNamedRemove(ts[..k], i, c);
      assert rest[..|rest| - 1] == ts[..k][..i] + ts[..k][i + 1..] && rest[|rest| - 1] == ts[k];
    }
  }

  lemma {:induction false} CountNamedSub(a: seq<Task>, b: seq<Task>, c: string)
    requires multiset(a) <= multiset(b)
    ensures CountNamed(a, c) <= CountNamed(b, c)
    decreases |a|
  {
    if a != [] {
      var k := |a| - 1;
      assert a == a[..k] + [a[k]];
      assert multiset(a)[a[k]] > 0;
      assert a[k] in b;
      var i :| 0 <= i < |b| && b[i] == a[k];
      var rest := b[..i] + b[i + 1..];
      assert b == b[..i] + [b[i]] + b[i + 1..];
      assert multiset(b) == multiset(rest) + multiset{b[i]};
      assert multiset(rest) == multiset(b) - multiset{b[i]};
      assert multiset(a[..k]) == multiset(a) - multiset{b[i]};
      CountNamedSub(a[..k], rest, c);
      CountNamedRemove(b, i, c);
    }
  }

  /** For every device behaviour, a command publishes no more results than tasks accepted under its id. */
  lemma AtMostOneResultPerTask(firstContact: seq<string>, inputs: seq<Input>, c: string)
    requires c != ""
    ensures var log := Life(NewSess(firstContact), inputs).log;
      Count(ResultIds(log.published), c) <= CountNamed(log.accepted, c)
  {
    EveryTaskAccountedFor(firstContact, inputs);
    var s := Life(NewSess(firstContact), inputs);
    IdsCount(s.log.finished, c);
    assert multiset(s.log.finished) <= multiset(s.log.accepted);
    CountNamedSub(s.log.finished, s.log.accepted, c);
  }

  /** For every device behaviour, a reboot is handed out no more often than it was accepted. */
  lemma AtMostOneHandOutPerReboot(firstContact: seq<string>, inputs: seq<Input>, t: Task)
    requires t.kind == Reboot
    ensures var log := Life(NewSess(firstContact), inputs).log; Count(log.pops, t) <= Count(log.accepted, t)
  {
    EveryTaskAccountedFor(firstContact, inputs);
    var log := Life(NewSess(firstContact), inputs).log;
    assert t !in log.requeued;
    MergeIsBoth(log.pushes, log.accepted, log.requeued);
    assert multiset(log.pushes)[t] == multiset(log.accepted)[t];
    assert multiset(log.pushes) == multiset(log.pops) + multiset(Life(NewSess(firstContact), inputs).queue);
  }
}
