/** No result is destroyed on its way to the wait it belongs to. */
module AwaitLaws {
  import opened Wrappers
  import opened Cwmp
  import opened Session
  import opened Await

  // ---------------------------------------------------------------- counting results

  datatype Pick = Any | OfCommand(id: string) | Exactly(res: TaskResult)

  predicate Hit(p: Pick, r: TaskResult) {
    match p
    case Any => true
    case OfCommand(id) => r.commandId == id
    case Exactly(res) => r == res
  }

  function Count(rs: seq<TaskResult>, p: Pick): nat {
    if rs == [] then 0
    else
      var k := |rs| - 1;
      Count(rs[..k], p) + if Hit(p, rs[k]) then 1 else 0
  }

  lemma CountSnoc(rs: seq<TaskResult>, r: TaskResult, p: Pick)
    ensures Count(rs + [r], p) == Count(rs, p) + if Hit(p, r) then 1 else 0
  {
    assert (rs + [r])[..|rs|] == rs;
  }

  lemma {:induction false} CountCons(rs: seq<TaskResult>, p: Pick)
    requires rs != []
    ensures Count(rs, p) == Count(rs[1..], p) + if Hit(p, rs[0]) then 1 else 0
    decreases |rs|
  {
    var k := |rs| - 1;
    if k > 0 {
      CountCons(rs[..k], p);
      assert rs[..k][1..] == rs[1..][..k - 1];
    }
  }

  lemma CountOne(r: TaskResult, p: Pick)
    ensures Count([r], p) == if Hit(p, r) then 1 else 0
  {
    CountSnoc([], r, p);
  }

  lemma {:induction false} CountAny(rs: seq<TaskResult>)
    ensures Count(rs, Any) == |rs|
    decreases |rs|
  {
    if rs != [] {
      CountAny(rs[..|rs| - 1]);
    }
  }

  lemma {:induction false} CountIn(rs: seq<TaskResult>, r: TaskResult)
    ensures Count(rs, Exactly(r)) > 0 <==> r in rs
    decreases |rs|
  {
    if rs != [] {
      var k := |rs| - 1;
      assert rs == rs[..k] + [rs[k]];
      CountIn(rs[..k], r);
    }
  }

  lemma {:induction false} CountOnce(rs: seq<TaskResult>, id: string)
    requires forall r | r in rs :: r.commandId != id
    ensures Count(rs, OfCommand(id)) == 0
    decreases |rs|
  {
    if rs != [] {
      CountOnce(rs[..|rs| - 1], id);
    }
  }

  function Sum(xs: seq<seq<TaskResult>>, p: Pick): nat {
    if xs == [] then 0
    else
      var k := |xs| - 1;
      Sum(xs[..k], p) + Count(xs[k], p)
  }

  lemma {:induction false} SumUpdate(xs: seq<seq<TaskResult>>, i: nat, v: seq<TaskResult>, p: Pick)
    requires i < |xs|
    ensures Sum(xs[i := v], p) + Count(xs[i], p) == Sum(xs, p) + Count(v, p)
    decreases |xs|
  {
    var k := |xs| - 1;
    if i == k {
      assert xs[i := v][..k] == xs[..k];
    } else {
      SumUpdate(xs[..k], i, v, p);
      assert xs[i := v][..k] == xs[..k][i := v];
    }
  }

  lemma SumSnoc(xs: seq<seq<TaskResult>>, v: seq<TaskResult>, p: Pick)
    ensures Sum(xs + [v], p) == Sum(xs, p) + Count(v, p)
  {
    assert (xs + [v])[..|xs|] == xs;
  }

  lemma {:induction false} SumHolds(xs: seq<seq<TaskResult>>, i: nat, p: Pick)
    requires i < |xs|
    ensures Count(xs[i], p) <= Sum(xs, p)
    decreases |xs|
  {
    if i < |xs| - 1 {
      SumHolds(xs[..|xs| - 1], i, p);
    }
  }

  lemma {:induction false} SumFinds(xs: seq<seq<TaskResult>>, r: TaskResult) returns (i: nat)
    requires Sum(xs, Exactly(r)) > 0
    ensures i < |xs| && r in xs[i]
    decreases |xs|
  {
    var k := |xs| - 1;
    CountIn(xs[k], r);
    if r in xs[k] {
      i := k;
    } else {
      i := SumFinds(xs[..k], r);
    }
  }

  // ---------------------------------------------------------------- conservation

  function Carried(hands: seq<Hand>): seq<seq<TaskResult>> {
    seq(|hands|, i requires 0 <= i < |hands| => hands[i].res)
  }

  function Returned(waits: seq<Wait>): seq<seq<TaskResult>> {
    seq(|waits|, i requires 0 <= i < |waits| => waits[i].got)
  }

  function InHands(n: Net, p: Pick): nat {
    Sum(Carried(n.hands), p)
  }

  function Back(n: Net, p: Pick): nat {
    Sum(Returned(n.waits), p)
  }

  /** Every published result is in one place: carried, shared, in a private channel, returned, taken anonymously, or dropped. */
  ghost predicate Balanced(n: Net, p: Pick) {
    Count(n.published, p)
      == InHands(n, p) + Count(n.mail.shared, p) + Sum(n.mail.chans, p) + Back(n, p) + Count(n.anonymous, p) + Count(n.dropped, p)
  }

  lemma HandChanged(n: Net, h: nat, hand: Hand, p: Pick)
    requires h < |n.hands|
    ensures InHands(n.(hands := n.hands[h := hand]), p) + Count(n.hands[h].res, p) == InHands(n, p) + Count(hand.res, p)
  {
    SumUpdate(Carried(n.hands), h, hand.res, p);
    assert Carried(n.hands[h := hand]) == Carried(n.hands)[h := hand.res];
  }

  lemma HandAdded(n: Net, hand: Hand, p: Pick)
    ensures InHands(n.(hands := n.hands + [hand]), p) == InHands(n, p) + Count(hand.res, p)
  {
    SumSnoc(Carried(n.hands), hand.res, p);
    assert Carried(n.hands + [hand]) == Carried(n.hands) + [hand.res];
  }

  lemma WaitChanged(n: Net, w: nat, wait: Wait, p: Pick)
    requires w < |n.waits|
    ensures Back(n.(waits := n.waits[w := wait]), p) + Count(n.waits[w].got, p) == Back(n, p) + Count(wait.got, p)
  {
    SumUpdate(Returned(n.waits), w, wait.got, p);
    assert Returned(n.waits[w := wait]) == Returned(n.waits)[w := wait.got];
  }

  lemma WaitAdded(n: Net, wait: Wait, p: Pick)
    ensures Back(n.(waits := n.waits + [wait]), p) == Back(n, p) + Count(wait.got, p)
  {
    SumSnoc(Returned(n.waits), wait.got, p);
    assert Returned(n.waits + [wait]) == Returned(n.waits) + [wait.got];
  }

  /** An offered result lands in the channel found, in the shared channel, or nowhere. */
  lemma OfferMoves(m: Mail, ch: Option<nat>, r: TaskResult, p: Pick)
    ensures var o := Offer(m, ch, r);
      Sum(o.chans, p) + Count(o.shared, p)
        == Sum(m.chans, p) + Count(m.shared, p) + if o != m && Hit(p, r) then 1 else 0
  {
    CountOne(r, p);
    CountSnoc(m.shared, r, p);
    if ch.Some? && ch.value < |m.chans| && m.chans[ch.value] == [] {
      SumUpdate(m.chans, ch.value, [r], p);
      assert m.chans[ch.value := [r]][ch.value] == [r];
    } else if |m.shared| < RESULTS_CAP {
      assert |m.shared + [r]| == |m.shared| + 1;
    }
  }

  lemma SendBalances(n: Net, h: nat, p: Pick)
    requires Balanced(n, p) && Enabled(n, Send(h))
    ensures Balanced(Sent(n, h), p)
  {
    var hand := n.hands[h];
    var r := hand.res[0];
    assert hand.res == [r];
    CountOne(r, p);
    HandChanged(n, h, hand.(res := []), p);
    if hand.owner.Some? && hand.owner.value < |n.waits| {
      WaitChanged(n, hand.owner.value, n.waits[hand.owner.value].(phase := Waiting), p);
    }
    OfferMoves(n.mail, hand.found.value, r, p);
    CountSnoc(n.dropped, r, p);
    assert n.dropped + hand.res == n.dropped + [r];
  }

  lemma DrawBalances(n: Net, w: nat, p: Pick)
    requires Balanced(n, p) && Enabled(n, Draw(w)) && n.waits[w].got == []
    ensures Balanced(Drawn(n, w), p)
  {
    var r := n.mail.shared[0];
    CountCons(n.mail.shared, p);
    CountOne(r, p);
    if r.commandId == n.waits[w].id {
      WaitChanged(n, w, n.waits[w].(phase := Leaving, got := [r]), p);
    } else {
      WaitChanged(n, w, n.waits[w].(phase := PuttingBack), p);
      HandAdded(n, Hand([r], None, Some(w)), p);
    }
  }

  lemma StepBalances(n: Net, s: Step, p: Pick)
    requires Routed(n) && Balanced(n, p) && Enabled(n, s)
    ensures Balanced(Do(n, s), p)
  {
    match s {
      case Publish(res) =>
        CountOne(res, p);
        CountSnoc(n.published, res, p);
        HandAdded(n, Hand([res], None, None), p);
      case LookUp(h) => HandChanged(n, h, n.hands[h].(found := Some(Lookup(n.mail, n.hands[h].res[0].commandId))), p);
      case Send(h) => SendBalances(n, h, p);
      case Begin(id) =>
        WaitAdded(n, Wait(id, Waiting, []), p);
        SumSnoc(n.mail.chans, [], p);
      case Receive(w) =>
        assert Received(n, w);
        SumUpdate(n.mail.chans, w, [], p);
        WaitChanged(n, w, n.waits[w].(phase := Leaving, got := n.mail.chans[w]), p);
      case Draw(w) =>
        assert Received(n, w);
        DrawBalances(n, w, p);
      case TimeOut(w) => WaitChanged(n, w, n.waits[w].(phase := Leaving), p);
      case Leave(w) => WaitChanged(n, w, n.waits[w].(phase := Gone), p);
      case DrawAny =>
        CountCons(n.mail.shared, p);
        CountSnoc(n.anonymous, n.mail.shared[0], p);
    }
  }

  lemma {:induction false} RunBalances(n: Net, steps: seq<Step>, p: Pick)
    requires Routed(n) && Balanced(n, p) && Legal(n, steps)
    ensures Balanced(Exec(n, steps), p)
    decreases |steps|
  {
    if steps != [] {
      StepRoutes(n, steps[0]);
      StepBalances(n, steps[0], p);
      RunBalances(Do(n, steps[0]), steps[1..], p);
    }
  }

  /** For every interleaving, whatever the ids, waits and load. */
  lemma EveryResultAccountedFor(steps: seq<Step>, p: Pick)
    requires Legal(QUIET, steps)
    ensures Balanced(Exec(QUIET, steps), p)
  {
    RunBalances(QUIET, steps, p);
  }

  // ---------------------------------------------------------------- when a result gets out of reach

  predicate Over(w: Wait) {
    w.phase.Leaving? || w.phase.Gone?
  }

  /** A wait that already returned has an unread result in its channel: nobody will read it. */
  predicate Stranded(n: Net, w: nat) {
    w < |n.waits| && w < |n.mail.chans| && n.waits[w].got != [] && n.mail.chans[w] != []
  }

  /** No result is stranded, dropped, or taken by a wait for any result. */
  ghost predicate InReach(n: Net) {
    (forall w :: !Stranded(n, w)) && n.dropped == [] && n.anonymous == []
  }

  /**
   The ways a result gets out of reach without a timeout: its send meets a wait that already
   returned, or finds no room anywhere; a wait draws its result from the shared channel while
   another lies unread in its own; an anonymous wait draws it.
   */
  predicate Loses(n: Net, s: Step)
    requires Enabled(n, s)
  {
    match s
    case Send(h) =>
      var ch := n.hands[h].found.value;
      if ch.Some? && ch.value < |n.mail.chans| && n.mail.chans[ch.value] == [] then
        ch.value < |n.waits| && n.waits[ch.value].got != []
      else |n.mail.shared| >= RESULTS_CAP
    case Draw(w) => n.mail.shared[0].commandId == n.waits[w].id && w < |n.mail.chans| && n.mail.chans[w] != []
    case DrawAny => true
    case _ => false
  }

  ghost predicate LosesNothing(n: Net, steps: seq<Step>)
    requires Legal(n, steps)
    decreases |steps|
  {
    steps == [] || (!Loses(n, steps[0]) && LosesNothing(Do(n, steps[0]), steps[1..]))
  }

  lemma SendReach(n: Net, h: nat)
    requires Routed(n) && InReach(n) && Enabled(n, Send(h))
    ensures InReach(Sent(n, h)) <==> !Loses(n, Send(h))
  {
    var hand := n.hands[h];
    var ch := hand.found.value;
    var r := hand.res[0];
    var d := Sent(n, h);
    assert hand.res == [r];
    if ch.Some? && ch.value < |n.mail.chans| && n.mail.chans[ch.value] == [] {
      assert Offer(n.mail, ch, r).chans[ch.value] == [r];
      assert d.dropped == n.dropped;
      assert Stranded(d, ch.value) <==> Loses(n, Send(h));
      forall w | w != ch.value ensures !Stranded(d, w) {
        assert !Stranded(n, w);
      }
    } else if |n.mail.shared| < RESULTS_CAP {
      assert |Offer(n.mail, ch, r).shared| == |n.mail.shared| + 1;
      forall w ensures !Stranded(d, w) {
        assert !Stranded(n, w);
      }
    } else {
      assert d.dropped == n.dropped + [r];
    }
  }

  lemma StepReach(n: Net, s: Step)
    requires Routed(n) && InReach(n) && Enabled(n, s)
    ensures InReach(Do(n, s)) <==> !Loses(n, s)
  {
    match s {
      case Send(h) => SendReach(n, h);
      case Draw(w) =>
        assert Received(n, w);
        assert Loses(n, s) ==> Stranded(Do(n, s), w);
        forall k | k != w ensures !Stranded(Do(n, s), k) {
          assert !Stranded(n, k);
        }
      case DrawAny => assert Do(n, s).anonymous != [];
      case _ =>
        forall k ensures !Stranded(Do(n, s), k) {
          assert !Stranded(n, k);
        }
    }
  }

  /** Out of reach is out of reach for good. */
  lemma StepKeepsLost(n: Net, s: Step)
    requires Routed(n) && !InReach(n) && Enabled(n, s)
    ensures !InReach(Do(n, s))
  {
    if w :| Stranded(n, w) {
      assert Received(n, w);
      assert Stranded(Do(n, s), w);
    } else {
      assert n.dropped <= Do(n, s).dropped && n.anonymous <= Do(n, s).anonymous;
    }
  }

  lemma {:induction false} RunKeepsLost(n: Net, steps: seq<Step>)
    requires Routed(n) && !InReach(n) && Legal(n, steps)
    ensures !InReach(Exec(n, steps))
    decreases |steps|
  {
    if steps != [] {
      StepRoutes(n, steps[0]);
      StepKeepsLost(n, steps[0]);
      RunKeepsLost(Do(n, steps[0]), steps[1..]);
    }
  }

  lemma {:induction false} InReachExactlyWhen(n: Net, steps: seq<Step>)
    requires Routed(n) && InReach(n) && Legal(n, steps)
    ensures InReach(Exec(n, steps)) <==> LosesNothing(n, steps)
    decreases |steps|
  {
    if steps != [] {
      StepRoutes(n, steps[0]);
      StepReach(n, steps[0]);
      if Loses(n, steps[0]) {
        RunKeepsLost(Do(n, steps[0]), steps[1..]);
      } else {
        InReachExactlyWhen(Do(n, steps[0]), steps[1..]);
      }
    }
  }

  /** In every interleaving, repeated ids included: all results stay in reach exactly when no step loses one. */
  lemma ResultsStayInReachExactlyWhen(steps: seq<Step>)
    requires Legal(QUIET, steps)
    ensures InReach(Exec(QUIET, steps)) <==> LosesNothing(QUIET, steps)
  {
    InReachExactlyWhen(QUIET, steps);
  }

  // ---------------------------------------------------------------- what being in reach means

  ghost predicate InHand(n: Net, r: TaskResult) {
    exists h :: 0 <= h < |n.hands| && r in n.hands[h].res
  }

  ghost predicate Got(n: Net, r: TaskResult) {
    exists w :: 0 <= w < |n.waits| && n.waits[w].id == r.commandId && n.waits[w].got == [r]
  }

  /** Unread in the channel of a wait for its command; over says whether that wait timed out. */
  ghost predicate InItsChannel(n: Net, r: TaskResult, over: bool) {
    exists w :: 0 <= w < |n.waits| && w < |n.mail.chans| && n.mail.chans[w] == [r] && n.waits[w].id == r.commandId
      && n.waits[w].got == [] && over == Over(n.waits[w])
  }

  lemma WhereItIs(n: Net, r: TaskResult)
    requires Routed(n) && InReach(n) && Balanced(n, Exactly(r)) && r in n.published
    ensures InHand(n, r) || r in n.mail.shared || Got(n, r) || InItsChannel(n, r, false) || InItsChannel(n, r, true)
  {
    CountIn(n.published, r);
    CountIn(n.mail.shared, r);
    if InHands(n, Exactly(r)) > 0 {
      var h := SumFinds(Carried(n.hands), r);
      assert r in n.hands[h].res;
    } else if Sum(n.mail.chans, Exactly(r)) > 0 {
      var w := SumFinds(n.mail.chans, r);
      assert Received(n, w) && !Stranded(n, w);
      assert n.mail.chans[w] == [r];
      assert InItsChannel(n, r, Over(n.waits[w]));
    } else if Back(n, Exactly(r)) > 0 {
      var w := SumFinds(Returned(n.waits), r);
      assert Received(n, w);
      assert n.waits[w].got == [r];
    }
  }

  // ---------------------------------------------------------------- runs that lose nothing

  /** Results that still need room in the shared channel, now or later. */
  ghost function Undelivered(n: Net): nat {
    InHands(n, Any) + |n.mail.shared|
  }

  /** The channels of the waits that are not over. */
  function Unread(n: Net): seq<seq<TaskResult>> {
    seq(|n.waits|, i requires 0 <= i < |n.waits| => if i < |n.mail.chans| && !Over(n.waits[i]) then n.mail.chans[i] else [])
  }

  /** How many results of a command are carried, shared, or unread by a wait that is not over. */
  function Live(n: Net, id: string): nat {
    InHands(n, OfCommand(id)) + Count(n.mail.shared, OfCommand(id)) + Sum(Unread(n), OfCommand(id))
  }

  /** The wait registered for the command has not returned. */
  predicate Fresh(n: Net, id: string) {
    id in n.mail.waiters && n.mail.waiters[id] < |n.waits| ==> n.waits[n.mail.waiters[id]].got == []
  }

  /**
   A result is published while none of its command is carried, shared or unread, no wait
   registered for it has already returned, and the shared channel has room for all that is
   undelivered; and nobody waits for just any result.
   */
  ghost predicate Orderly(n: Net, s: Step) {
    && (s.Publish? ==> Live(n, s.res.commandId) == 0 && Fresh(n, s.res.commandId) && Undelivered(n) < RESULTS_CAP)
    && !s.DrawAny?
  }

  ghost predicate OrderlyRun(n: Net, steps: seq<Step>)
    requires Legal(n, steps)
    decreases |steps|
  {
    steps == [] || (Orderly(n, steps[0]) && OrderlyRun(Do(n, steps[0]), steps[1..]))
  }

  /** At most one result of a command is live, and while it is carried or shared the wait registered for it has not returned. */
  ghost predicate Single(n: Net, id: string) {
    && Live(n, id) <= 1
    && (InHands(n, OfCommand(id)) + Count(n.mail.shared, OfCommand(id)) > 0 ==> Fresh(n, id))
  }

  /** A result on its way to a wait finds that the wait has not returned. */
  ghost predicate Aimed(n: Net, h: Hand) {
    h.res != [] && h.found.Some? && h.found.value.Some? && h.found.value.value < |n.waits| ==> n.waits[h.found.value.value].got == []
  }

  ghost predicate AllAimed(n: Net) {
    forall h | 0 <= h < |n.hands| :: Aimed(n, n.hands[h])
  }

  ghost predicate Safe(n: Net) {
    Routed(n) && AllAimed(n) && Undelivered(n) <= RESULTS_CAP && forall id :: Single(n, id)
  }

  lemma SlotCounts(rs: seq<TaskResult>, id: string)
    requires |rs| <= 1 && (rs != [] ==> rs[0].commandId == id)
    ensures Count(rs, OfCommand(id)) == |rs|
  {
    if rs != [] {
      CountOne(rs[0], OfCommand(id));
      assert rs == [rs[0]];
    }
  }

  lemma UnreadChanged(n: Net, m: Net, w: nat, p: Pick)
    requires w < |n.waits| && |Unread(m)| == |Unread(n)| && forall k | 0 <= k < |n.waits| && k != w :: Unread(m)[k] == Unread(n)[k]
    ensures Sum(Unread(m), p) + Count(Unread(n)[w], p) == Sum(Unread(n), p) + Count(Unread(m)[w], p)
  {
    SumUpdate(Unread(n), w, Unread(m)[w], p);
    assert Unread(m) == Unread(n)[w := Unread(m)[w]];
  }

  lemma SafeLosesNothing(n: Net, s: Step)
    requires Safe(n) && Enabled(n, s) && Orderly(n, s)
    ensures !Loses(n, s)
  {
    match s {
      case Send(h) =>
        var hand := n.hands[h];
        assert Aimed(n, hand);
        SumHolds(Carried(n.hands), h, Any);
        CountAny(hand.res);
      case Draw(w) =>
        assert Received(n, w);
        var id := n.waits[w].id;
        assert Single(n, id);
        CountCons(n.mail.shared, OfCommand(id));
        SumHolds(Unread(n), w, OfCommand(id));
        SlotCounts(n.mail.chans[w], id);
      case _ =>
    }
  }

  /** Once its result is in hand or on the way there, a returned wait has none of its command's results ahead of it. */
  lemma ReturnedIsAlone(n: Net, w: nat)
    requires Safe(n) && w < |n.waits| && !Over(n.waits[w])
    requires n.mail.chans[w] != [] || (n.mail.shared != [] && n.mail.shared[0].commandId == n.waits[w].id)
    ensures var p := OfCommand(n.waits[w].id);
      && InHands(n, p) == 0
      && Count(n.mail.shared, p) + Count(Unread(n)[w], p) == 1
  {
    assert Received(n, w);
    var id := n.waits[w].id;
    assert Single(n, id);
    SumHolds(Unread(n), w, OfCommand(id));
    SlotCounts(n.mail.chans[w], id);
    if n.mail.chans[w] == [] {
      CountCons(n.mail.shared, OfCommand(id));
    }
  }

  lemma SendKeepsOver(n: Net, h: nat)
    requires Routed(n) && Enabled(n, Send(h))
    ensures |Sent(n, h).waits| == |n.waits| && forall k | 0 <= k < |n.waits| :: Over(Sent(n, h).waits[k]) == Over(n.waits[k])
  {
    assert Owned(n, n.hands[h]);
  }

  lemma OfferUnread(n: Net, d: Net, ch: Option<nat>, r: TaskResult, p: Pick)
    requires |n.mail.chans| == |n.waits| == |d.waits| && d.mail == Offer(n.mail, ch, r)
    requires forall k | 0 <= k < |n.waits| :: Over(d.waits[k]) == Over(n.waits[k])
    ensures var hit := if Hit(p, r) then 1 else 0;
      && Count(d.mail.shared, p) <= Count(n.mail.shared, p) + hit
      && Count(d.mail.shared, p) + Sum(Unread(d), p) <= Count(n.mail.shared, p) + Sum(Unread(n), p) + hit
  {
    if ch.Some? && ch.value < |n.mail.chans| && n.mail.chans[ch.value] == [] {
      CountOne(r, p);
      UnreadChanged(n, d, ch.value, p);
    } else {
      CountSnoc(n.mail.shared, r, p);
      assert Unread(d) == Unread(n);
    }
  }

  /** What a send adds to the shared channel and to the unread results. */
  lemma SendAdds(n: Net, h: nat, p: Pick)
    requires Safe(n) && Enabled(n, Send(h))
    ensures var d := Sent(n, h); var hit := if Hit(p, n.hands[h].res[0]) then 1 else 0;
      && Count(d.mail.shared, p) <= Count(n.mail.shared, p) + hit
      && Count(d.mail.shared, p) + Sum(Unread(d), p) <= Count(n.mail.shared, p) + Sum(Unread(n), p) + hit
  {
    SendKeepsOver(n, h);
    OfferUnread(n, Sent(n, h), n.hands[h].found.value, n.hands[h].res[0], p);
  }

  lemma SendSingle(n: Net, h: nat, id: string)
    requires Safe(n) && Enabled(n, Send(h))
    ensures Single(Sent(n, h), id)
  {
    var p := OfCommand(id);
    var hand := n.hands[h];
    assert hand.res == [hand.res[0]];
    assert Single(n, id);
    CountOne(hand.res[0], p);
    HandChanged(n, h, hand.(res := []), p);
    SendAdds(n, h, p);
    if Fresh(n, id) {
      SendKeepsFresh(n, h, id);
    }
  }

  lemma SendKeepsFresh(n: Net, h: nat, id: string)
    requires Enabled(n, Send(h)) && Fresh(n, id)
    ensures Fresh(Sent(n, h), id)
  {
  }

  lemma ReceiveSingle(n: Net, w: nat, id: string)
    requires Safe(n) && Enabled(n, Receive(w))
    ensures Single(Do(n, Receive(w)), id)
  {
    var d := Do(n, Receive(w));
    assert Single(n, id) && Received(n, w);
    assert Carried(d.hands) == Carried(n.hands);
    UnreadChanged(n, d, w, OfCommand(id));
    ReturnedIsAlone(n, w);
    SlotCounts(n.mail.chans[w], n.waits[w].id);
  }

  lemma DrawOwnSingle(n: Net, w: nat, id: string)
    requires Safe(n) && Enabled(n, Draw(w)) && n.mail.shared[0].commandId == n.waits[w].id
    ensures Single(Drawn(n, w), id)
  {
    var d := Drawn(n, w);
    assert Single(n, id);
    CountCons(n.mail.shared, OfCommand(id));
    UnreadChanged(n, d, w, OfCommand(id));
    ReturnedIsAlone(n, w);
    assert Carried(d.hands) == Carried(n.hands);
  }

  lemma DrawOtherSingle(n: Net, w: nat, id: string)
    requires Safe(n) && Enabled(n, Draw(w)) && n.mail.shared[0].commandId != n.waits[w].id
    ensures Single(Drawn(n, w), id)
  {
    var p := OfCommand(id);
    var r := n.mail.shared[0];
    assert Single(n, id);
    CountCons(n.mail.shared, p);
    CountOne(r, p);
    HandAdded(n, Hand([r], None, Some(w)), p);
    assert Unread(Drawn(n, w)) == Unread(n);
  }

  lemma StepSingle(n: Net, s: Step, id: string)
    requires Safe(n) && Enabled(n, s) && Orderly(n, s)
    ensures Single(Do(n, s), id)
  {
    var p := OfCommand(id);
    var d := Do(n, s);
    assert Single(n, id);
    match s {
      case Publish(res) =>
        CountOne(res, p);
        HandAdded(n, Hand([res], None, None), p);
        assert Unread(d) == Unread(n);
      case LookUp(h) =>
        HandChanged(n, h, n.hands[h].(found := Some(Lookup(n.mail, n.hands[h].res[0].commandId))), p);
        assert Unread(d) == Unread(n);
      case Send(h) => SendSingle(n, h, id);
      case Receive(w) => ReceiveSingle(n, w, id);
      case Draw(w) =>
        if n.mail.shared[0].commandId == n.waits[w].id {
          DrawOwnSingle(n, w, id);
        } else {
          DrawOtherSingle(n, w, id);
        }
      case _ => WaitSingle(n, s, id);
    }
  }

  /** Waits that come and go carry nothing. */
  lemma WaitSingle(n: Net, s: Step, id: string)
    requires Safe(n) && Enabled(n, s) && (s.Begin? || s.TimeOut? || s.Leave?)
    ensures Single(Do(n, s), id)
  {
    var p := OfCommand(id);
    var d := Do(n, s);
    assert Single(n, id);
    match s {
      case Begin(c) =>
        assert Unread(d) == Unread(n) + [[]];
        SumSnoc(Unread(n), [], p);
      case TimeOut(w) => UnreadChanged(n, d, w, p);
      case Leave(w) => assert Unread(d) == Unread(n);
    }
  }

  lemma SendUndelivered(n: Net, h: nat)
    requires Safe(n) && Enabled(n, Send(h))
    ensures Undelivered(Sent(n, h)) <= RESULTS_CAP
  {
    var hand := n.hands[h];
    CountAny(hand.res);
    HandChanged(n, h, hand.(res := []), Any);
    SumHolds(Carried(n.hands), h, Any);
  }

  lemma StepUndelivered(n: Net, s: Step)
    requires Safe(n) && Enabled(n, s) && Orderly(n, s)
    ensures Undelivered(Do(n, s)) <= RESULTS_CAP
  {
    match s {
      case Publish(res) =>
        CountOne(res, Any);
        HandAdded(n, Hand([res], None, None), Any);
      case LookUp(h) => HandChanged(n, h, n.hands[h].(found := Some(Lookup(n.mail, n.hands[h].res[0].commandId))), Any);
      case Send(h) => SendUndelivered(n, h);
      case Draw(w) =>
        CountOne(n.mail.shared[0], Any);
        HandAdded(n, Hand([n.mail.shared[0]], None, Some(w)), Any);
      case _ =>
    }
  }

  /** A hand that carries a result of a command keeps the wait registered for it unreturned. */
  lemma CarriedIsFresh(n: Net, h: nat)
    requires Safe(n) && h < |n.hands| && |n.hands[h].res| == 1
    ensures InHands(n, OfCommand(n.hands[h].res[0].commandId)) > 0 && Fresh(n, n.hands[h].res[0].commandId)
  {
    var id := n.hands[h].res[0].commandId;
    SumHolds(Carried(n.hands), h, OfCommand(id));
    SlotCounts(n.hands[h].res, id);
    assert Single(n, id);
  }

  lemma StepAimed(n: Net, s: Step)
    requires Safe(n) && Enabled(n, s) && Orderly(n, s)
    ensures AllAimed(Do(n, s))
  {
    var d := Do(n, s);
    forall h | 0 <= h < |d.hands| && d.hands[h].res != []
      ensures Aimed(d, d.hands[h])
    {
      if h < |n.hands| {
        assert Handed(n, n.hands[h]) && Aimed(n, n.hands[h]);
        CarriedIsFresh(n, h);
        if s.Receive? {
          ReturnedIsAlone(n, s.w);
        } else if s.Draw? && n.mail.shared[0].commandId == n.waits[s.w].id {
          ReturnedIsAlone(n, s.w);
        }
      }
    }
  }

  lemma StepSafe(n: Net, s: Step)
    requires Safe(n) && Enabled(n, s) && Orderly(n, s)
    ensures Safe(Do(n, s))
  {
    StepRoutes(n, s);
    StepAimed(n, s);
    StepUndelivered(n, s);
    forall id ensures Single(Do(n, s), id) {
      StepSingle(n, s, id);
    }
  }

  lemma {:induction false} OrderlyLosesNothing(n: Net, steps: seq<Step>)
    requires Safe(n) && Legal(n, steps) && OrderlyRun(n, steps)
    ensures LosesNothing(n, steps)
    decreases |steps|
  {
    if steps != [] {
      SafeLosesNothing(n, steps[0]);
      StepSafe(n, steps[0]);
      OrderlyLosesNothing(Do(n, steps[0]), steps[1..]);
    }
  }

  /**
   In every orderly interleaving, a published result is still on its way, or was returned to
   a wait for its command, or lies in the channel of such a wait that timed out.
   */
  lemma NoResultIsDestroyed(steps: seq<Step>, r: TaskResult)
    requires Legal(QUIET, steps) && OrderlyRun(QUIET, steps)
    requires r in Exec(QUIET, steps).published
    ensures var n := Exec(QUIET, steps);
      InHand(n, r) || r in n.mail.shared || Got(n, r) || InItsChannel(n, r, false) || InItsChannel(n, r, true)
  {
    OrderlyLosesNothing(QUIET, steps);
    ResultsStayInReachExactlyWhen(steps);
    RunRoutes(QUIET, steps);
    EveryResultAccountedFor(steps, Exactly(r));
    WhereItIs(Exec(QUIET, steps), r);
  }

  // ---------------------------------------------------------------- why ids must not repeat

  function Answer(id: string, status: int): TaskResult {
    TaskResult(id, SPV, map[], [], status, "")
  }

  lemma RunCons(n: Net, steps: seq<Step>)
    requires steps != [] && Enabled(n, steps[0]) && Legal(Do(n, steps[0]), steps[1..])
    ensures Legal(n, steps) && Exec(n, steps) == Exec(Do(n, steps[0]), steps[1..])
  {
  }

  const FOUND := Some(Some(0))

  function Scene(c: string, chan: seq<TaskResult>, hands: seq<Hand>, wait: Wait): Net {
    Net(Mail(map[c := 0], [chan], []), hands, [wait], [Answer(c, 0), Answer(c, 1)], [], [])
  }

  lemma SecondResultIsLost(c: string) returns (steps: seq<Step>)
    ensures var n := Scene(c, [], [Hand([Answer(c, 0)], FOUND, None), Hand([Answer(c, 1)], FOUND, None)], Wait(c, Waiting, []));
      && Legal(n, steps)
      && Exec(n, steps) == Scene(c, [Answer(c, 1)], [Hand([], FOUND, None), Hand([], FOUND, None)], Wait(c, Leaving, [Answer(c, 0)]))
  {
    var a, b := Answer(c, 0), Answer(c, 1);
    var n1 := Scene(c, [], [Hand([a], FOUND, None), Hand([b], FOUND, None)], Wait(c, Waiting, []));
    var n2 := Scene(c, [a], [Hand([], FOUND, None), Hand([b], FOUND, None)], Wait(c, Waiting, []));
    var n3 := Scene(c, [], [Hand([], FOUND, None), Hand([b], FOUND, None)], Wait(c, Leaving, [a]));
    var n4 := Scene(c, [b], [Hand([], FOUND, None), Hand([], FOUND, None)], Wait(c, Leaving, [a]));
    assert Do(n1, Send(0)) == n2;
    assert Do(n2, Receive(0)) == n3;
    assert Do(n3, Send(1)) == n4;
    steps := [Send(1)];
    RunCons(n3, steps);
    steps := [Receive(0)] + steps;
    RunCons(n2, steps);
    steps := [Send(0)] + steps;
    RunCons(n1, steps);
  }

  /** Published twice under one id, the second result can end in the channel of a wait that already returned the first. */
  lemma RepeatedIdLosesAResult(c: string) returns (steps: seq<Step>)
    requires c != ""
    ensures Legal(QUIET, steps)
    ensures Exec(QUIET, steps) == Scene(c, [Answer(c, 1)], [Hand([], FOUND, None), Hand([], FOUND, None)], Wait(c, Leaving, [Answer(c, 0)]))
    ensures Stranded(Exec(QUIET, steps), 0)
  {
    var a, b := Answer(c, 0), Answer(c, 1);
    var m := Mail(map[c := 0], [[]], []);
    var w := Wait(c, Waiting, []);
    var n1 := Net(m, [], [w], [], [], []);
    var n2 := Net(m, [Hand([a], None, None)], [w], [a], [], []);
    var n3 := Scene(c, [], [Hand([a], None, None), Hand([b], None, None)], w);
    var n4 := Scene(c, [], [Hand([a], FOUND, None), Hand([b], None, None)], w);
    assert Do(QUIET, Begin(c)) == n1;
    assert Do(n1, Publish(a)) == n2;
    assert Do(n2, Publish(b)) == n3;
    assert Do(n3, LookUp(0)) == n4;
    assert Do(n4, LookUp(1)) == Scene(c, [], [Hand([a], FOUND, None), Hand([b], FOUND, None)], w);
    steps := SecondResultIsLost(c);
    steps := [LookUp(1)] + steps;
    RunCons(n4, steps);
    steps := [LookUp(0)] + steps;
    RunCons(n3, steps);
    steps := [Publish(b)] + steps;
    RunCons(n2, steps);
    steps := [Publish(a)] + steps;
    RunCons(n1, steps);
    steps := [Begin(c)] + steps;
    RunCons(QUIET, steps);
  }

  lemma OrderlyCons(n: Net, s: Step, rest: seq<Step>)
    requires Enabled(n, s) && Legal(Do(n, s), rest) && Orderly(n, s) && OrderlyRun(Do(n, s), rest)
    ensures Legal(n, [s] + rest) && OrderlyRun(n, [s] + rest)
    ensures Exec(n, [s] + rest) == Exec(Do(n, s), rest)
  {
    assert ([s] + rest)[1..] == rest;
  }

  /** A command's id may be used again: once its wait has returned and left, the next result of it is orderly. */
  lemma ReusedIdIsOrderly(c: string) returns (steps: seq<Step>)
    requires c != ""
    ensures Legal(QUIET, steps) && OrderlyRun(QUIET, steps)
    ensures Exec(QUIET, steps).published == [Answer(c, 0), Answer(c, 1)]
  {
    var a, b := Answer(c, 0), Answer(c, 1);
    var n1 := Do(QUIET, Begin(c));
    var n2 := Do(n1, Publish(a));
    var n3 := Do(n2, LookUp(0));
    var n4 := Do(n3, Send(0));
    assert n4.mail.chans == [[a]] && n4.waits == [Wait(c, Waiting, [])];
    var n5 := Do(n4, Receive(0));
    var n6 := Do(n5, Leave(0));
    assert n6 == Net(Mail(map[], [[]], []), [Hand([], FOUND, None)], [Wait(c, Gone, [a])], [a], [], []);
    NothingLive(n6, c);
    NothingLive(n1, c);
    var n7 := Do(n6, Publish(b));
    OrderlyCons(n6, Publish(b), []);
    steps := [Publish(b)] + [];
    OrderlyCons(n5, Leave(0), steps);
    steps := [Leave(0)] + steps;
    OrderlyCons(n4, Receive(0), steps);
    steps := [Receive(0)] + steps;
    OrderlyCons(n3, Send(0), steps);
    steps := [Send(0)] + steps;
    OrderlyCons(n2, LookUp(0), steps);
    steps := [LookUp(0)] + steps;
    OrderlyCons(n1, Publish(a), steps);
    steps := [Publish(a)] + steps;
    OrderlyCons(QUIET, Begin(c), steps);
    steps := [Begin(c)] + steps;
  }

  lemma {:induction false} EmptySum(xs: seq<seq<TaskResult>>, p: Pick)
    requires forall i | 0 <= i < |xs| :: xs[i] == []
    ensures Sum(xs, p) == 0
    decreases |xs|
  {
    if xs != [] {
      EmptySum(xs[..|xs| - 1], p);
    }
  }

  lemma NothingLive(n: Net, id: string)
    requires n.mail.shared == [] && (forall h | 0 <= h < |n.hands| :: n.hands[h].res == [])
    requires forall w | 0 <= w < |n.mail.chans| :: n.mail.chans[w] == []
    ensures Live(n, id) == 0 && Undelivered(n) == 0
  {
    EmptySum(Carried(n.hands), OfCommand(id));
    EmptySum(Carried(n.hands), Any);
    EmptySum(Unread(n), OfCommand(id));
  }
}
