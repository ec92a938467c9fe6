/** An answer of the device reaches the wait for its command: what a session publishes, and where it puts it. */
module Delivery {
  import opened Wrappers
  import opened Identity
  import opened Cwmp
  import opened S = Session
  import opened L = SessionLaws
  import A = Await
  import R = AwaitLaws

  // ---------------------------------------------------------------- one answer

  /** The answer of a named task is in the channel of the wait registered for it, else in the shared channel if there is room. */
  lemma AnswerReachesItsWait(s: Sess, res: TaskResult)
    requires s.inflight.Some? && s.inflight.value.commandId != ""
    ensures var id := s.inflight.value.commandId; var d := Answered(s, res);
      var r := TaskResult(id, res.kind, res.params, res.names, res.status, res.err);
      && d.inflight == None && d.log.published == s.log.published + [r] && d.mail.waiters == s.mail.waiters
      && if id in s.mail.waiters && s.mail.waiters[id] < |s.mail.chans| && s.mail.chans[s.mail.waiters[id]] == [] then
           && d.mail.shared == s.mail.shared && |d.mail.chans| == |s.mail.chans|
           && d.mail.chans[s.mail.waiters[id]] == [r]
           && forall k | 0 <= k < |s.mail.chans| && k != s.mail.waiters[id] :: d.mail.chans[k] == s.mail.chans[k]
         else
           && d.mail.chans == s.mail.chans
           && d.mail.shared == if |s.mail.shared| < 256 then s.mail.shared + [r] else s.mail.shared
  {
  }

  /** An anonymous task, or an answer nobody asked for, publishes nothing. */
  lemma OtherAnswersPublishNothing(s: Sess, res: TaskResult)
    requires s.inflight.None? || s.inflight.value.commandId == ""
    ensures Answered(s, res).mail == s.mail && Answered(s, res).log.published == s.log.published && Answered(s, res).inflight == None
  {
  }

  lemma {:induction false} LastValueIsRead(values: seq<Param>, i: nat)
    requires i < |values| && forall j | i < j < |values| :: values[j].name != values[i].name
    ensures values[i].name in ParamMap(values) && ParamMap(values)[values[i].name] == values[i].value
    decreases |values|
  {
    var k := |values| - 1;
    if i < k {
      LastValueIsRead(values[..k], i);
    }
  }

  lemma {:induction false} OnlyValuesAreRead(values: seq<Param>, name: string)
    ensures name in ParamMap(values) <==> exists i | 0 <= i < |values| :: values[i].name == name
    decreases |values|
  {
    if values != [] {
      var k := |values| - 1;
      OnlyValuesAreRead(values[..k], name);
      if values[k].name != name {
        assert (exists i | 0 <= i < |values| :: values[i].name == name) <==> (exists i | 0 <= i < k :: values[..k][i].name == name) by {
          if i :| 0 <= i < |values| && values[i].name == name {
            assert values[..k][i].name == name;
          }
          if i :| 0 <= i < k && values[..k][i].name == name {
            assert values[i].name == name;
          }
        }
      }
    }
  }

  /** The message answers a task, rather than informing, asking or announcing. */
  predicate IsAnswer(msg: Message) {
    msg.GPVResponse? || msg.SPVResponse? || msg.GPNResponse? || msg.RebootResponse? || msg.Fault?
  }

  /** What an answer says is what is published: a read's values, a write's status, a walk's names, a fault's text. */
  ghost predicate Says(msg: Message, task: Task, r: TaskResult) {
    match msg
    case GPVResponse(values) =>
      && r.kind == GPV && r.err == "" && r.status == 0
      && (forall i | 0 <= i < |values| && (forall j | i < j < |values| :: values[j].name != values[i].name) ::
            values[i].name in r.params && r.params[values[i].name] == values[i].value)
      && (forall name | name in r.params :: exists i | 0 <= i < |values| :: values[i].name == name)
    case SPVResponse(status) => r.kind == SPV && r.err == "" && r.status == status && r.params == map[]
    case GPNResponse(names) => r.kind == GPN && r.err == "" && r.names == names
    case RebootResponse => r.kind == Reboot && r.err == ""
    case Fault(err) => r.kind == task.kind && r.err == err
    case _ => false
  }

  /** The result a message makes for the task in flight. */
  function Made(msg: Message, t: Task): TaskResult
    requires IsAnswer(msg)
  {
    match msg
    case GPVResponse(values) => Result(GPV, ParamMap(values), [], 0, "")
    case SPVResponse(status) => Result(SPV, map[], [], status, "")
    case GPNResponse(names) => Result(GPN, map[], names, 0, "")
    case RebootResponse => Result(Reboot, map[], [], 0, "")
    case Fault(err) => Result(t.kind, map[], [], 0, err)
  }

  lemma MadeSays(msg: Message, t: Task, id: string)
    requires IsAnswer(msg)
    ensures Says(msg, t, Made(msg, t).(commandId := id))
  {
    if msg.GPVResponse? {
      var values := msg.values;
      forall i | 0 <= i < |values| && forall j | i < j < |values| :: values[j].name != values[i].name
        ensures values[i].name in ParamMap(values) && ParamMap(values)[values[i].name] == values[i].value
      {
        LastValueIsRead(values, i);
      }
      forall name | name in ParamMap(values) ensures exists i | 0 <= i < |values| :: values[i].name == name {
        OnlyValuesAreRead(values, name);
      }
    }
  }

  lemma FinishPublishes(s: Sess, res: TaskResult)
    requires s.inflight.Some?
    ensures var d := FinishInflight(s, res).0; var t := s.inflight.value;
      && d.log.finished == s.log.finished + [t]
      && d.log.published == if t.commandId == "" then s.log.published else s.log.published + [res.(commandId := t.commandId)]
  {
  }

  lemma AnswerFinishes(s: Sess, msgId: string, msg: Message, known: bool)
    requires IsAnswer(msg) && s.inflight.Some?
    ensures Handled(s, Envelope(msgId, msg), known) == FinishInflight(s.(msgId := msgId), Made(msg, s.inflight.value))
  {
  }

  lemma OthersPublishNothing(s: Sess, msgId: string, msg: Message, known: bool)
    requires !IsAnswer(msg) || s.inflight.None?
    ensures Handled(s, Envelope(msgId, msg), known).0.log.published == s.log.published
  {
    var s1 := s.(msgId := msgId);
    L.HandledIs(s, msgId, msg, known);
    NextSameMail(s1);
    InformNothingAmid(s1, Envelope(msgId, msg), known);
    if IsAnswer(msg) {
      NextSameMail(s1);
    }
  }

  /** An answer finishes the named task in flight and publishes what it says under the task's id; any other message publishes nothing. */
  lemma AnswerSaysWhatTheDeviceSaid(s: Sess, msgId: string, msg: Message, known: bool)
    ensures var d := Handled(s, Envelope(msgId, msg), known).0;
      if IsAnswer(msg) && s.inflight.Some? && s.inflight.value.commandId != "" then
        && |d.log.published| == |s.log.published| + 1 && s.log.published <= d.log.published
        && d.log.published[|s.log.published|].commandId == s.inflight.value.commandId
        && Says(msg, s.inflight.value, d.log.published[|s.log.published|])
        && d.log.finished == s.log.finished + [s.inflight.value]
      else d.log.published == s.log.published
  {
    if IsAnswer(msg) && s.inflight.Some? {
      AnswerFinishes(s, msgId, msg, known);
      FinishPublishes(s.(msgId := msgId), Made(msg, s.inflight.value));
      MadeSays(msg, s.inflight.value, s.inflight.value.commandId);
    } else {
      OthersPublishNothing(s, msgId, msg, known);
    }
  }

  // ---------------------------------------------------------------- a whole life

  /** What was published and not yet received lies in the channels. */
  ghost predicate AllKept(s: Sess, p: R.Pick) {
    R.Count(s.log.published, p) == R.Sum(s.mail.chans, p) + R.Count(s.mail.shared, p)
  }

  lemma AnsweredKeeps(s: Sess, res: TaskResult, p: R.Pick)
    requires AllKept(s, p) && AllKept(s, R.Any) && |Answered(s, res).log.published| <= 256
    ensures AllKept(Answered(s, res), p)
  {
    R.CountAny(s.log.published);
    R.CountAny(s.mail.shared);
    if s.inflight.Some? && s.inflight.value.commandId != "" {
      var r := res.(commandId := s.inflight.value.commandId);
      R.CountSnoc(s.log.published, r, p);
      R.OfferMoves(s.mail, Lookup(s.mail, r.commandId), r, p);
      AnswerReachesItsWait(s, res);
      AnswerMoves(s, res);
    }
  }

  lemma AnswerMoves(s: Sess, res: TaskResult)
    requires s.inflight.Some? && s.inflight.value.commandId != "" && |s.mail.shared| < 256
    ensures Answered(s, res).mail != s.mail
  {
    var d := Answered(s, res);
    AnswerReachesItsWait(s, res);
    assert |d.mail.shared| == |s.mail.shared| + 1 || exists k :: 0 <= k < |s.mail.chans| && |d.mail.chans[k]| != |s.mail.chans[k]|;
  }

  /** Queueing and handing out tasks leaves results alone. */
  predicate SameMail(s: Sess, d: Sess) {
    d.mail == s.mail && d.log.published == s.log.published
  }

  lemma {:induction false} EnqueueAllSameMail(s: Sess, ts: seq<Task>)
    ensures SameMail(s, EnqueueAll(s, ts))
    decreases |ts|
  {
    if ts != [] {
      EnqueueAllSameMail(Enqueue(s, ts[0]), ts[1..]);
    }
  }

  lemma InformSameMail(s: Sess, id: DeviceId, known: bool, before: seq<Task>, amid: seq<Task>)
    ensures SameMail(s, InformedAmid(RequeueOrphan(s), id, known, before, amid))
  {
    var r := RequeueOrphan(s);
    EnqueueAllSameMail(r, before);
    var s1 := EnqueueAll(r, before).(deviceId := CanonicalID(id));
    EnqueueAllSameMail(s1, amid);
    EnqueueAllSameMail(Enqueue(s1, WALK), amid);
  }

  lemma NextSameMail(s: Sess)
    ensures SameMail(s, NextTask(s).0)
  {
  }

  lemma RequestKept(s: Sess, post: Post, known: bool, p: R.Pick)
    requires AllKept(s, p) && AllKept(s, R.Any) && |Handled(s, post, known).0.log.published| <= 256
    ensures AllKept(Handled(s, post, known).0, p)
  {
    if post.EmptyPost? {
      NextSameMail(s);
    } else {
      var s1 := s.(msgId := post.msgId);
      L.HandledIs(s, post.msgId, post.msg, known);
      NextSameMail(s1);
      InformNothingAmid(s1, post, known);
      if res :| Handled(s, post, known) == FinishInflight(s1, res) {
        assert AllKept(s1, p) && AllKept(s1, R.Any);
        NextSameMail(Answered(s1, res));
        AnsweredKeeps(s1, res, p);
      }
    }
  }

  lemma InformNothingAmid(s: Sess, post: Post, known: bool)
    requires post.Envelope?
    ensures post.msg.Inform? ==> SameMail(s, Informed(RequeueOrphan(s), post.msg.id, known))
  {
    if post.msg.Inform? {
      InformSameMail(s, post.msg.id, known, [], []);
    }
  }

  lemma TakeKept(s: Sess, i: Input, p: R.Pick)
    requires AllKept(s, p) && AllKept(s, R.Any) && |Take(s, i).log.published| <= 256
    ensures AllKept(Take(s, i), p)
  {
    match i {
      case Accept(t) =>
      case Wait(id) => R.SumSnoc(s.mail.chans, [], p);
      case Leave(id) =>
      case Request(post, known, before, amid) =>
        if post.Envelope? && post.msg.Inform? {
          InformSameMail(s.(msgId := post.msgId), post.msg.id, known, before, amid);
        } else {
          EnqueueAllSameMail(s, before + amid);
          RequestKept(EnqueueAll(s, before + amid), post, known, p);
        }
    }
  }

  lemma PublishedGrows(s: Sess, i: Input)
    ensures |s.log.published| <= |Take(s, i).log.published|
  {
    match i {
      case Request(post, known, before, amid) =>
        if post.Envelope? && post.msg.Inform? {
          InformSameMail(s.(msgId := post.msgId), post.msg.id, known, before, amid);
        } else {
          var e := EnqueueAll(s, before + amid);
          EnqueueAllSameMail(s, before + amid);
          if post.Envelope? {
            AnswerSaysWhatTheDeviceSaid(e, post.msgId, post.msg, known);
          } else {
            NextSameMail(e);
          }
        }
      case _ =>
    }
  }

  lemma {:induction false} PublishedOnlyGrows(s: Sess, inputs: seq<Input>)
    ensures |s.log.published| <= |Life(s, inputs).log.published|
    decreases |inputs|
  {
    if inputs != [] {
      PublishedGrows(s, inputs[0]);
      PublishedOnlyGrows(Take(s, inputs[0]), inputs[1..]);
    }
  }

  lemma {:induction false} LifeKeeps(s: Sess, inputs: seq<Input>, p: R.Pick)
    requires AllKept(s, p) && AllKept(s, R.Any) && |Life(s, inputs).log.published| <= 256
    ensures AllKept(Life(s, inputs), p)
    decreases |inputs|
  {
    if inputs != [] {
      PublishedOnlyGrows(Take(s, inputs[0]), inputs[1..]);
      TakeKept(s, inputs[0], p);
      TakeKept(s, inputs[0], R.Any);
      LifeKeeps(Take(s, inputs[0]), inputs[1..], p);
    }
  }

  /** Over every life in which nobody receives: up to 256 published results lie in the waits' channels and the shared one, each once. */
  lemma PublishedResultsAreKept(firstContact: seq<string>, inputs: seq<Input>, p: R.Pick)
    requires |Life(NewSess(firstContact), inputs).log.published| <= 256
    ensures AllKept(Life(NewSess(firstContact), inputs), p)
  {
    LifeKeeps(NewSess(firstContact), inputs, p);
  }

  // ---------------------------------------------------------------- waits

  /** A wait gets a channel of its own, empty, and every other wait keeps its. */
  lemma WaitGetsItsOwnChannel(m: Mail, id: string)
    ensures var d := Register(m, id);
      && id in d.waiters && d.waiters[id] == |m.chans| && |d.chans| == |m.chans| + 1 && d.chans[|m.chans|] == []
      && m.chans <= d.chans && d.shared == m.shared
      && (forall k | k != id :: k in d.waiters <==> k in m.waiters) && (forall k | k in m.waiters && k != id :: d.waiters[k] == m.waiters[k])
  {
  }

  /** Once a wait has left, its command's results go to the shared channel, where another may draw them; other waits stay. */
  lemma LeftWaitGetsNothing(m: Mail, id: string, r: TaskResult)
    requires r.commandId == id
    ensures var d := Release(m, id);
      && (forall k :: k in d.waiters <==> k in m.waiters && k != id) && (forall k | k in d.waiters :: d.waiters[k] == m.waiters[k])
      && d.chans == m.chans && d.shared == m.shared
      && Deliver(d, r).chans == m.chans
      && (|m.shared| < 256 ==> Deliver(d, r).shared == m.shared + [r])
  {
  }

  // ---------------------------------------------------------------- the session's deliveries are the net's

  /** An undisturbed delivery of the net leaves the mail that an answered session leaves. */
  lemma UndisturbedDelivery(n: A.Net, s: Sess, res: TaskResult)
    requires s.inflight.Some? && s.inflight.value.commandId != "" && n.mail == s.mail
    ensures var r := res.(commandId := s.inflight.value.commandId); var h := |n.hands|;
      var steps := [A.Publish(r), A.LookUp(h), A.Send(h)];
      && A.Legal(n, steps)
      && A.Exec(n, steps).mail == Answered(s, res).mail && A.Exec(n, steps).published == n.published + [r]
  {
    var r := res.(commandId := s.inflight.value.commandId);
    var h := |n.hands|;
    var n1 := A.Do(n, A.Publish(r));
    var n2 := A.Do(n1, A.LookUp(h));
    var n3 := A.Do(n2, A.Send(h));
    R.RunCons(n2, [A.Send(h)]);
    R.RunCons(n1, [A.LookUp(h), A.Send(h)]);
    R.RunCons(n, [A.Publish(r), A.LookUp(h), A.Send(h)]);
  }

  /** And a wait registered before it then returns that very result. */
  lemma RegisteredWaitReturnsTheAnswer(n: A.Net, r: TaskResult)
    requires A.Wired(n) && r.commandId != ""
    ensures var h, w := |n.hands|, |n.waits|;
      var steps := [A.Begin(r.commandId), A.Publish(r), A.LookUp(h), A.Send(h), A.Receive(w)];
      && A.Legal(n, steps)
      && w < |A.Exec(n, steps).waits| && A.Exec(n, steps).waits[w] == A.Wait(r.commandId, A.Leaving, [r])
  {
    var h, w := |n.hands|, |n.waits|;
    var n1 := A.Do(n, A.Begin(r.commandId));
    var n2 := A.Do(n1, A.Publish(r));
    var n3 := A.Do(n2, A.LookUp(h));
    assert n3.hands[h] == A.Hand([r], Some(Some(w)), None);
    var n4 := A.Do(n3, A.Send(h));
    assert n4.mail.chans[w] == [r];
    var n5 := A.Do(n4, A.Receive(w));
    R.RunCons(n4, [A.Receive(w)]);
    R.RunCons(n3, [A.Send(h), A.Receive(w)]);
    R.RunCons(n2, [A.LookUp(h), A.Send(h), A.Receive(w)]);
    R.RunCons(n1, [A.Publish(r), A.LookUp(h), A.Send(h), A.Receive(w)]);
    R.RunCons(n, [A.Begin(r.commandId), A.Publish(r), A.LookUp(h), A.Send(h), A.Receive(w)]);
  }

  /** A result that came before its wait registered is drawn from the shared channel when it is next. */
  lemma EarlyAnswerIsDrawn(n: A.Net, w: nat)
    requires A.Waits(n, w) && n.mail.shared != [] && n.mail.shared[0].commandId == n.waits[w].id
    ensures A.Enabled(n, A.Draw(w))
    ensures var d := A.Do(n, A.Draw(w)); d.waits[w].got == [n.mail.shared[0]] && d.mail.shared == n.mail.shared[1..]
  {
  }
}
