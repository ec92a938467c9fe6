/**
 Results on their way to concurrent waiters. Every step is one atomic action of one goroutine:
 looking a waiter up and sending to it are two, so a waiter may come or go in between.
 */
module Await {
  import opened Wrappers
  import opened Cwmp
  import opened Session

  datatype Phase = Waiting | PuttingBack | Leaving | Gone

  /** The k-th named wait receives on channel k; got holds what it returned, if anything. */
  datatype Wait = Wait(id: string, phase: Phase, got: seq<TaskResult>)

  /** A goroutine delivering a result: the waiter found, once looked up, and the wait that puts it back. */
  datatype Hand = Hand(res: seq<TaskResult>, found: Option<Option<nat>>, owner: Option<nat>)

  datatype Net = Net(mail: Mail, hands: seq<Hand>, waits: seq<Wait>,
                     published: seq<TaskResult>, anonymous: seq<TaskResult>, dropped: seq<TaskResult>)

  const QUIET := Net(NO_MAIL, [], [], [], [], [])

  /**
   Publish: a session finishes a named task. LookUp and Send: the two halves of a delivery.
   Begin: a named wait registers. Receive and Draw: it receives on its own or on the shared
   channel. TimeOut and Leave: its deadline passes; it deregisters. DrawAny: an anonymous wait.
   */
  datatype Step = Publish(res: TaskResult) | LookUp(h: nat) | Send(h: nat)
    | Begin(id: string) | Receive(w: nat) | Draw(w: nat) | TimeOut(w: nat) | Leave(w: nat) | DrawAny

  predicate Waits(n: Net, w: nat) {
    w < |n.waits| && n.waits[w].phase == Waiting
  }

  predicate Enabled(n: Net, s: Step) {
    match s
    case Publish(res) => res.commandId != ""
    case LookUp(h) => h < |n.hands| && |n.hands[h].res| == 1 && n.hands[h].found.None?
    case Send(h) => h < |n.hands| && |n.hands[h].res| == 1 && n.hands[h].found.Some?
    case Begin(id) => id != ""
    case Receive(w) => Waits(n, w) && w < |n.mail.chans| && |n.mail.chans[w]| == 1
    case Draw(w) => Waits(n, w) && n.mail.shared != []
    case TimeOut(w) => Waits(n, w)
    case Leave(w) => w < |n.waits| && n.waits[w].phase == Leaving
    case DrawAny => n.mail.shared != []
  }

  function Sent(n: Net, h: nat): Net
    requires Enabled(n, Send(h))
  {
    var hand := n.hands[h];
    var m := Offer(n.mail, hand.found.value, hand.res[0]);
    n.(mail := m,
       hands := n.hands[h := hand.(res := [])],
       waits := if hand.owner.Some? && hand.owner.value < |n.waits|
                then n.waits[hand.owner.value := n.waits[hand.owner.value].(phase := Waiting)] else n.waits,
       dropped := if m == n.mail then n.dropped + hand.res else n.dropped)
  }

  function Drawn(n: Net, w: nat): Net
    requires Enabled(n, Draw(w))
  {
    var r := n.mail.shared[0];
    var rest := n.mail.(shared := n.mail.shared[1..]);
    if r.commandId == n.waits[w].id then
      n.(mail := rest, waits := n.waits[w := n.waits[w].(phase := Leaving, got := [r])])
    else
      n.(mail := rest, waits := n.waits[w := n.waits[w].(phase := PuttingBack)], hands := n.hands + [Hand([r], None, Some(w))])
  }

  function Do(n: Net, s: Step): Net
    requires Enabled(n, s)
  {
    match s
    case Publish(res) => n.(hands := n.hands + [Hand([res], None, None)], published := n.published + [res])
    case LookUp(h) => n.(hands := n.hands[h := n.hands[h].(found := Some(Lookup(n.mail, n.hands[h].res[0].commandId)))])
    case Send(h) => Sent(n, h)
    case Begin(id) => n.(mail := Register(n.mail, id), waits := n.waits + [Wait(id, Waiting, [])])
    case Receive(w) =>
      n.(mail := n.mail.(chans := n.mail.chans[w := []]),
         waits := n.waits[w := n.waits[w].(phase := Leaving, got := n.mail.chans[w])])
    case Draw(w) => Drawn(n, w)
    case TimeOut(w) => n.(waits := n.waits[w := n.waits[w].(phase := Leaving)])
    case Leave(w) => n.(mail := Release(n.mail, n.waits[w].id), waits := n.waits[w := n.waits[w].(phase := Gone)])
    case DrawAny => n.(mail := n.mail.(shared := n.mail.shared[1..]), anonymous := n.anonymous + [n.mail.shared[0]])
  }

  predicate Legal(n: Net, steps: seq<Step>)
    decreases |steps|
  {
    steps == [] || (Enabled(n, steps[0]) && Legal(Do(n, steps[0]), steps[1..]))
  }

  function Exec(n: Net, steps: seq<Step>): Net
    requires Legal(n, steps)
    decreases |steps|
  {
    if steps == [] then n else Exec(Do(n, steps[0]), steps[1..])
  }

  // ---------------------------------------------------------------- results go where they belong

  ghost predicate Wired(n: Net) {
    && |n.waits| == |n.mail.chans|
    && (forall id | id in n.mail.waiters :: n.mail.waiters[id] < |n.waits| && n.waits[n.mail.waiters[id]].id == id)
  }

  ghost predicate Handed(n: Net, h: Hand) {
    && |h.res| <= 1
    && (h.res != [] && h.found.Some? && h.found.value.Some? ==>
          h.found.value.value < |n.waits| && n.waits[h.found.value.value].id == h.res[0].commandId)
  }

  ghost predicate Received(n: Net, w: nat)
    requires w < |n.waits| && |n.waits| == |n.mail.chans|
  {
    && |n.mail.chans[w]| <= 1 && |n.waits[w].got| <= 1
    && (n.mail.chans[w] != [] ==> n.mail.chans[w][0].commandId == n.waits[w].id)
    && (n.waits[w].got != [] ==> n.waits[w].got[0].commandId == n.waits[w].id)
    && (n.waits[w].phase in {Waiting, PuttingBack} ==> n.waits[w].got == [])
  }

  /** A wait that puts a result back has returned nothing. */
  ghost predicate Owned(n: Net, h: Hand) {
    h.res != [] && h.owner.Some? ==> h.owner.value < |n.waits| && n.waits[h.owner.value].phase == PuttingBack
  }

  ghost predicate HandsAreSound(n: Net) {
    forall h | 0 <= h < |n.hands| :: Handed(n, n.hands[h]) && Owned(n, n.hands[h])
  }

  ghost predicate OneHandEach(n: Net) {
    forall h, k | 0 <= h < |n.hands| && 0 <= k < |n.hands| && h != k && n.hands[h].res != [] && n.hands[k].res != [] ::
      n.hands[h].owner.None? || n.hands[h].owner != n.hands[k].owner
  }

  ghost predicate AllReceived(n: Net)
    requires |n.waits| == |n.mail.chans|
  {
    forall w | 0 <= w < |n.waits| :: Received(n, w)
  }

  ghost predicate Routed(n: Net) {
    Wired(n) && HandsAreSound(n) && OneHandEach(n) && AllReceived(n)
  }

  lemma StepWires(n: Net, s: Step)
    requires Routed(n) && Enabled(n, s)
    ensures Wired(Do(n, s))
  {
  }

  lemma SendRoutes(n: Net, h: nat)
    requires Routed(n) && Enabled(n, Send(h))
    ensures Routed(Sent(n, h))
  {
    var d := Sent(n, h);
    assert Handed(n, n.hands[h]) && Owned(n, n.hands[h]);
    forall k | 0 <= k < |d.hands|
      ensures Handed(d, d.hands[k]) && Owned(d, d.hands[k])
    {
      assert Handed(n, n.hands[k]) && Owned(n, n.hands[k]);
    }
    forall w | 0 <= w < |d.waits|
      ensures Received(d, w)
    {
      assert Received(n, w);
    }
  }

  lemma DrawRoutes(n: Net, w: nat)
    requires Routed(n) && Enabled(n, Draw(w))
    ensures Routed(Drawn(n, w))
  {
    var d := Drawn(n, w);
    forall k | 0 <= k < |n.hands|
      ensures Handed(d, d.hands[k]) && Owned(d, d.hands[k])
    {
      assert Handed(n, n.hands[k]) && Owned(n, n.hands[k]);
    }
    forall k | 0 <= k < |d.waits|
      ensures Received(d, k)
    {
      assert Received(n, k);
    }
  }

  lemma StepRoutes(n: Net, s: Step)
    requires Routed(n) && Enabled(n, s)
    ensures Routed(Do(n, s))
  {
    var d := Do(n, s);
    StepWires(n, s);
    if s.Send? {
      SendRoutes(n, s.h);
    } else if s.Draw? {
      DrawRoutes(n, s.w);
    } else {
      forall k | 0 <= k < |d.hands|
        ensures Handed(d, d.hands[k]) && Owned(d, d.hands[k])
      {
        assert k < |n.hands| ==> Handed(n, n.hands[k]) && Owned(n, n.hands[k]);
      }
      forall w | 0 <= w < |d.waits|
        ensures Received(d, w)
      {
        assert w < |n.waits| ==> Received(n, w);
      }
    }
  }

  lemma {:induction false} RunRoutes(n: Net, steps: seq<Step>)
    requires Routed(n) && Legal(n, steps)
    ensures Routed(Exec(n, steps))
    decreases |steps|
  {
    if steps != [] {
      StepRoutes(n, steps[0]);
      RunRoutes(Do(n, steps[0]), steps[1..]);
    }
  }

  /** In every interleaving, repeated ids and anonymous waits included, a wait for c returns only a result of c. */
  lemma AwaitReturnsItsOwn(steps: seq<Step>, w: nat)
    requires Legal(QUIET, steps) && w < |Exec(QUIET, steps).waits|
    ensures var wait := Exec(QUIET, steps).waits[w]; forall r | r in wait.got :: r.commandId == wait.id
  {
    RunRoutes(QUIET, steps);
    assert Received(Exec(QUIET, steps), w);
  }
}
