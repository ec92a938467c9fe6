/**
 What an agent without a ledger may lose, exactly. A tally follows every event of the present
 lifetime from the moment it is taken in; with a ledger, what it counts as lost was handed back.
 */
module Unledgered {
  import opened Wrappers
  import opened Telemetry
  import opened Buffer
  import opened Collector
  import opened CollectorLaws
  import opened Worker
  import opened WorkerLaws
  import opened Ingest
  import opened IngestLaws

  /** The events taken in since the agent started, those whose part was queued or refused, and those of parts that failed and what followed them. */
  datatype Tally = Tally(taken: multiset<EventItem>, settled: multiset<EventItem>, lost: multiset<EventItem>)

  const NONE := Tally(multiset{}, multiset{}, multiset{})

  /** The events of the worker's batch that no part has decided yet. */
  function Rest(batch: Option<Batch>): seq<EventItem> {
    if batch.Some? && batch.value.next < |batch.value.parts| && batch.value.parts[batch.value.next].start <= |batch.value.req.events|
    then batch.value.req.events[batch.value.parts[batch.value.next].start..]
    else []
  }

  /** A part fails while the batch still holds events. */
  predicate Fails(w: World, s: Sys, step: Step)
    requires Enabled(w, s, step)
  {
    step.NextPart? && PartOutcome(w, s, step.part).stopped && Rest(s.batch) != []
  }

  function Counted(w: World, s: Sys, step: Step, t: Tally): Tally
    requires Enabled(w, s, step)
  {
    var d := Do(w, s, step);
    match step
    case VisitNext(_, _) =>
      if |s.col.events| <= |d.col.events| then t.(taken := t.taken + multiset(d.col.events[|s.col.events|..])) else t
    case DrainBatch(cwmp, _, _) => if d == s then t else t.(taken := t.taken + multiset(cwmp))
    case NextPart(pw) =>
      if PartOutcome(w, s, pw).stopped then t.(lost := t.lost + multiset(Rest(s.batch)))
      else t.(settled := t.settled + multiset(s.batch.value.parts[s.batch.value.next].body.request.events))
    case Restart(_) => NONE
    case _ => t
  }

  function TallyAfter(w: World, s: Sys, steps: seq<Step>, t: Tally): Tally
    requires Legal(w, s, steps)
    decreases |steps|
  {
    if steps == [] then t else TallyAfter(w, Do(w, s, steps[0]), steps[1..], Counted(w, s, steps[0], t))
  }

  /** Whether a part failed with events since the agent started. */
  predicate FailedSince(w: World, s: Sys, steps: seq<Step>, failed: bool)
    requires Legal(w, s, steps)
    decreases |steps|
  {
    if steps == [] then failed
    else FailedSince(w, Do(w, s, steps[0]), steps[1..], if steps[0].Restart? then false else failed || Fails(w, s, steps[0]))
  }

  // ---------------------------------------------------------------- every event is accounted for

  ghost predicate Accounted(s: Sys, t: Tally) {
    t.taken == t.settled + t.lost + multiset(s.col.events) + multiset(Rest(s.batch))
  }

  /** Settled events were committed or dropped as over-cap. */
  ghost predicate SettledFor(f: Facts, t: Tally) {
    forall e | e in t.settled :: e in f.committed + f.dropped
  }

  lemma PartCut(w: World, f: Facts, b: Batch)
    requires BatchOk(w, f, b)
    ensures var rest := if b.next + 1 == |b.parts| then [] else Rest(Some(b.(next := b.next + 1)));
      Rest(Some(b)) == b.parts[b.next].body.request.events + rest
  {
    PartFacts(w, b, f);
    SplitIsExact(w.size, PartLimit(w.cap), b.req, 0);
    assert CarriesAt(w.size, b.parts[b.next], b.req, 0, b.next == 0);
    var start, end := b.parts[b.next].start, b.parts[b.next].end;
    assert b.req.events[start..] == b.req.events[start..end] + b.req.events[end..];
  }

  lemma VisitAdds(c: Col, p: string, s: Sighting, check: bool)
    ensures c.events <= Visit(c, p, s, check).events
  {
  }

  lemma NewBatchRest(w: World, s: Sys, req: Request)
    ensures Rest(AfterDrain(w, s, req).batch) == req.events
  {
    SplitIsExact(w.size, PartLimit(w.cap), req, 0);
    assert req.events[0..] == req.events;
  }

  /** What a part leaves of the events not yet decided. */
  lemma PartRest(w: World, s: Sys, pw: PartWorld)
    requires Inv(w, s) && Enabled(w, s, NextPart(pw))
    ensures var d := AfterPart(w, s, pw);
      && d.col.events == s.col.events
      && (if PartOutcome(w, s, pw).stopped then Rest(d.batch) == []
          else Rest(s.batch) == s.batch.value.parts[s.batch.value.next].body.request.events + Rest(d.batch))
  {
    PartCut(w, s.f, s.batch.value);
  }

  lemma PartAccounts(w: World, s: Sys, pw: PartWorld, t: Tally)
    requires Inv(w, s) && Accounted(s, t) && Enabled(w, s, NextPart(pw))
    ensures Accounted(AfterPart(w, s, pw), Counted(w, s, NextPart(pw), t))
  {
    PartRest(w, s, pw);
  }

  lemma PartSettles(w: World, s: Sys, pw: PartWorld, t: Tally)
    requires Inv(w, s) && SettledFor(s.f, t) && Enabled(w, s, NextPart(pw))
    ensures SettledFor(AfterPart(w, s, pw).f, Counted(w, s, NextPart(pw), t))
  {
    PartGrows(w, s, pw);
    if !PartOutcome(w, s, pw).stopped {
      PartIsRecorded(w, s, pw);
    }
  }

  lemma VisitAccounts(w: World, s: Sys, step: Step, t: Tally)
    requires Accounted(s, t) && step.VisitNext? && Enabled(w, s, step)
    ensures Accounted(Do(w, s, step), Counted(w, s, step, t))
  {
    VisitAdds(s.col, s.phase.todo[0], step.s, s.phase.check);
    var after := Do(w, s, step).col.events;
    assert after == s.col.events + after[|s.col.events|..];
  }

  lemma DrainIs(w: World, s: Sys, step: Step)
    requires step.DrainBatch? && Enabled(w, s, step) && Do(w, s, step) != s
    ensures Do(w, s, step) == AfterDrain(w, s, Request(step.metrics, s.col.events + step.cwmp, step.alarms))
  {
  }

  lemma DrainAccounts(w: World, s: Sys, step: Step, t: Tally)
    requires Accounted(s, t) && step.DrainBatch? && Enabled(w, s, step)
    ensures Accounted(Do(w, s, step), Counted(w, s, step, t))
  {
    var d := Do(w, s, step);
    if d != s {
      var req := Request(step.metrics, s.col.events + step.cwmp, step.alarms);
      DrainIs(w, s, step);
      NewBatchRest(w, s, req);
      assert AfterDrain(w, s, req).col.events == [] && Rest(s.batch) == [];
      assert multiset(Rest(d.batch)) == multiset(s.col.events) + multiset(step.cwmp);
    }
  }

  lemma OtherAccounts(w: World, s: Sys, step: Step, t: Tally)
    requires Accounted(s, t) && !step.VisitNext? && !step.DrainBatch? && !step.NextPart? && Enabled(w, s, step)
    ensures Accounted(Do(w, s, step), Counted(w, s, step, t))
  {
    assert !step.Restart? ==> Do(w, s, step).col.events == s.col.events && Do(w, s, step).batch == s.batch;
  }

  lemma FactsOnlyGrow(w: World, s: Sys, step: Step)
    requires !step.NextPart? && Enabled(w, s, step)
    ensures Do(w, s, step).f.committed == s.f.committed && Do(w, s, step).f.dropped == s.f.dropped
  {
  }

  lemma StepAccounts(w: World, s: Sys, step: Step, t: Tally)
    requires Inv(w, s) && Accounted(s, t) && SettledFor(s.f, t) && Enabled(w, s, step)
    ensures Accounted(Do(w, s, step), Counted(w, s, step, t)) && SettledFor(Do(w, s, step).f, Counted(w, s, step, t))
  {
    if step.NextPart? {
      PartAccounts(w, s, step.part, t);
      PartSettles(w, s, step.part, t);
    } else {
      FactsOnlyGrow(w, s, step);
      if step.VisitNext? {
        VisitAccounts(w, s, step, t);
      } else if step.DrainBatch? {
        DrainAccounts(w, s, step, t);
      } else {
        OtherAccounts(w, s, step, t);
      }
    }
  }

  lemma {:induction false} RunAccounts(w: World, s: Sys, steps: seq<Step>, t: Tally)
    requires Inv(w, s) && Accounted(s, t) && SettledFor(s.f, t) && Legal(w, s, steps)
    ensures Accounted(Exec(w, s, steps), TallyAfter(w, s, steps, t)) && SettledFor(Exec(w, s, steps).f, TallyAfter(w, s, steps, t))
    decreases |steps|
  {
    if steps != [] {
      StepKeeps(w, s, steps[0]);
      StepAccounts(w, s, steps[0], t);
      RunAccounts(w, Do(w, s, steps[0]), steps[1..], Counted(w, s, steps[0], t));
    }
  }

  lemma {:induction false} LostExactlyWhen(w: World, s: Sys, steps: seq<Step>, t: Tally, failed: bool)
    requires Legal(w, s, steps) && (t.lost == multiset{} <==> !failed)
    ensures TallyAfter(w, s, steps, t).lost == multiset{} <==> !FailedSince(w, s, steps, failed)
    decreases |steps|
  {
    if steps != [] {
      var next := Counted(w, s, steps[0], t);
      if steps[0].NextPart? && Rest(s.batch) != [] {
        assert Rest(s.batch)[0] in multiset(Rest(s.batch));
      }
      LostExactlyWhen(w, Do(w, s, steps[0]), steps[1..], next,
                      if steps[0].Restart? then false else failed || Fails(w, s, steps[0]));
    }
  }

  /**
   Over every run, for any cap and any failure: each event taken in since the agent started is
   settled, queued, in the undecided rest of the batch, or lost, exactly one of them; settled ones
   were committed or dropped as over-cap; and none is lost exactly when no part failed with events.
   */
  lemma NothingIsLostExactlyWhen(w: World, dir: map<string, Stamp>, steps: seq<Step>)
    requires Legal(w, Start(dir), steps)
    ensures var s := Exec(w, Start(dir), steps); var t := TallyAfter(w, Start(dir), steps, NONE);
      && Accounted(s, t) && SettledFor(s.f, t)
      && (t.taken == t.settled + multiset(s.col.events) + multiset(Rest(s.batch)) <==> !FailedSince(w, Start(dir), steps, false))
  {
    StartInv(w, dir);
    RunAccounts(w, Start(dir), steps, NONE);
    LostExactlyWhen(w, Start(dir), steps, NONE, false);
    var s := Exec(w, Start(dir), steps);
    var t := TallyAfter(w, Start(dir), steps, NONE);
    var kept := t.settled + multiset(s.col.events) + multiset(Rest(s.batch));
    assert t.taken == kept + t.lost;
    if t.taken == kept {
      assert |t.lost| == 0;
    }
  }

  // ---------------------------------------------------------------- where a seen file's events are

  function ReachOf(f: Facts, queue: seq<EventItem>, rest: seq<EventItem>, lost: multiset<EventItem>): set<EventItem> {
    f.committed + f.dropped + Elements(queue) + Elements(rest) + set e | e in lost
  }

  /** Everything the agent has handled, holds, or lost. */
  function Reach(s: Sys, t: Tally): set<EventItem> {
    ReachOf(s.f, s.col.events, Rest(s.batch), t.lost)
  }

  ghost predicate SeenHeld(w: World, s: Sys, t: Tally) {
    !s.col.ledgered ==> forall p | p in s.col.seen ::
      Ok(w, s.f, Mark(p, s.col.seen[p]), Reach(s, t)) || Mark(p, s.col.seen[p]) in s.f.givenUp
  }

  predicate SubSeen(c: Col, d: Col) {
    forall p | p in d.seen :: p in c.seen && c.seen[p] == d.seen[p]
  }

  lemma HeldGrows(w: World, s: Sys, t: Tally, s': Sys, t': Tally)
    requires SeenHeld(w, s, t) && Grows(s.f, s'.f) && Reach(s, t) <= Reach(s', t')
    requires SubSeen(s.col, s'.col) && s'.col.ledgered == s.col.ledgered
    ensures SeenHeld(w, s', t')
  {
    if !s.col.ledgered {
      forall p | p in s'.col.seen
        ensures Ok(w, s'.f, Mark(p, s'.col.seen[p]), Reach(s', t')) || Mark(p, s'.col.seen[p]) in s'.f.givenUp
      {
        var m := Mark(p, s.col.seen[p]);
        if m !in s.f.givenUp {
          OkGrows(w, s.f, s'.f, m, Reach(s, t), Reach(s', t'));
        }
      }
    }
  }

  lemma VisitHeld(w: World, s: Sys, sight: Sighting, now: string, t: Tally)
    requires Inv(w, s) && SeenHeld(w, s, t) && Enabled(w, s, VisitNext(sight, now))
    ensures SeenHeld(w, AfterVisit(s, sight), t)
  {
    var p := s.phase.todo[0];
    var d := AfterVisit(s, sight);
    VisitAdds(s.col, p, sight, s.phase.check);
    if !s.col.ledgered && !LeftAlone(s.col, p, sight, s.phase.check) {
      forall q | q in d.col.seen
        ensures Ok(w, d.f, Mark(q, d.col.seen[q]), Reach(d, t)) || Mark(q, d.col.seen[q]) in d.f.givenUp
      {
        var m := Mark(q, d.col.seen[q]);
        if q != p {
          assert d.col.seen[q] == s.col.seen[q];
          if m !in s.f.givenUp {
            OkGrows(w, s.f, d.f, m, Reach(s, t), Reach(d, t));
          }
        } else if sight.parsed.Some? && Current(s.f, m) {
          assert HoldsFor(w, m, sight.device.value, now, Reach(d, t));
        }
      }
    } else if !s.col.ledgered {
      HeldGrows(w, s, t, d, t);
    }
  }

  lemma StoppedReach(w: World, s: Sys, pw: PartWorld, t: Tally)
    requires Inv(w, s) && Enabled(w, s, NextPart(pw)) && PartOutcome(w, s, pw).stopped
    ensures Reach(s, t) <= Reach(AfterPart(w, s, pw), Counted(w, s, NextPart(pw), t))
  {
    PartGrows(w, s, pw);
    var d := AfterPart(w, s, pw);
    var u := Counted(w, s, NextPart(pw), t);
    assert d.col.events == s.col.events;
    assert u.lost == t.lost + multiset(Rest(s.batch));
    assert forall e | e in Rest(s.batch) :: e in u.lost;
  }

  lemma DecidedReach(w: World, s: Sys, pw: PartWorld, t: Tally)
    requires Inv(w, s) && Enabled(w, s, NextPart(pw)) && !PartOutcome(w, s, pw).stopped
    ensures Reach(s, t) <= Reach(AfterPart(w, s, pw), Counted(w, s, NextPart(pw), t))
  {
    PartGrows(w, s, pw);
    PartRest(w, s, pw);
    PartIsRecorded(w, s, pw);
    assert Counted(w, s, NextPart(pw), t).lost == t.lost;
  }

  lemma PartHeld(w: World, s: Sys, pw: PartWorld, t: Tally)
    requires Inv(w, s) && SeenHeld(w, s, t) && Enabled(w, s, NextPart(pw))
    ensures SeenHeld(w, AfterPart(w, s, pw), Counted(w, s, NextPart(pw), t))
  {
    PartGrows(w, s, pw);
    if PartOutcome(w, s, pw).stopped {
      StoppedReach(w, s, pw, t);
    } else {
      DecidedReach(w, s, pw, t);
    }
    HeldGrows(w, s, t, AfterPart(w, s, pw), Counted(w, s, NextPart(pw), t));
  }

  /** Moving the queue into a batch, with more events behind it, takes nothing away. */
  lemma QueueMoves(f: Facts, queue: seq<EventItem>, more: seq<EventItem>, lost: multiset<EventItem>)
    ensures ReachOf(f, queue, [], lost) <= ReachOf(f, [], queue + more, lost)
  {
  }

  lemma DrainHeld(w: World, s: Sys, step: Step, t: Tally)
    requires SeenHeld(w, s, t) && step.DrainBatch? && Enabled(w, s, step)
    ensures SeenHeld(w, Do(w, s, step), Counted(w, s, step, t))
  {
    if Do(w, s, step) != s {
      var req := Request(step.metrics, s.col.events + step.cwmp, step.alarms);
      var d := AfterDrain(w, s, req);
      DrainIs(w, s, step);
      NewBatchRest(w, s, req);
      QueueMoves(s.f, s.col.events, step.cwmp, t.lost);
      assert Rest(s.batch) == [] && d.col.events == [] && d.f == s.f;
      HeldGrows(w, s, t, d, t);
      assert Counted(w, s, step, t).lost == t.lost;
    }
  }

  lemma StepHeld(w: World, s: Sys, step: Step, t: Tally)
    requires Inv(w, s) && SeenHeld(w, s, t) && Enabled(w, s, step)
    ensures SeenHeld(w, Do(w, s, step), Counted(w, s, step, t))
  {
    match step {
      case VisitNext(sight, now) =>
        VisitHeld(w, s, sight, now, t);
        assert Reach(Do(w, s, step), Counted(w, s, step, t)) == Reach(Do(w, s, step), t);
      case DrainBatch(cwmp, metrics, alarms) => DrainHeld(w, s, step, t);
      case NextPart(pw) => PartHeld(w, s, pw, t);
      case Restart(loadFails) =>
      case _ => HeldGrows(w, s, t, Do(w, s, step), t);
    }
  }

  lemma {:induction false} RunHeld(w: World, s: Sys, steps: seq<Step>, t: Tally)
    requires Inv(w, s) && SeenHeld(w, s, t) && Legal(w, s, steps)
    ensures SeenHeld(w, Exec(w, s, steps), TallyAfter(w, s, steps, t))
    decreases |steps|
  {
    if steps != [] {
      StepKeeps(w, s, steps[0]);
      StepHeld(w, s, steps[0], t);
      RunHeld(w, Do(w, s, steps[0]), steps[1..], Counted(w, s, steps[0], t));
    }
  }

  /**
   Over every run, without a ledger: the events of a file seen at its current stamp were committed
   or dropped as over-cap, or are queued, undecided, or lost, unless the file was given up on; and
   they are not lost if no part failed with events since the agent started.
   */
  lemma UnledgeredFileIsHeld(w: World, dir: map<string, Stamp>, steps: seq<Step>, p: string)
    requires Legal(w, Start(dir), steps)
    requires var s := Exec(w, Start(dir), steps); !s.col.ledgered && p in s.f.dir && p in s.col.seen && s.col.seen[p] == s.f.dir[p]
    ensures var s := Exec(w, Start(dir), steps); var t := TallyAfter(w, Start(dir), steps, NONE); var m := Mark(p, s.f.dir[p]);
      Holds(w, m, Reach(s, t)) || m in s.f.givenUp
    ensures var s := Exec(w, Start(dir), steps); var m := Mark(p, s.f.dir[p]);
      !FailedSince(w, Start(dir), steps, false) ==>
        Holds(w, m, s.f.committed + s.f.dropped + Elements(s.col.events) + Elements(Rest(s.batch))) || m in s.f.givenUp
  {
    StartInv(w, dir);
    RunHeld(w, Start(dir), steps, NONE);
    LostExactlyWhen(w, Start(dir), steps, NONE, false);
    var s := Exec(w, Start(dir), steps);
    var t := TallyAfter(w, Start(dir), steps, NONE);
    if t.lost == multiset{} {
      assert Reach(s, t) == s.f.committed + s.f.dropped + Elements(s.col.events) + Elements(Rest(s.batch));
    }
  }

  // ---------------------------------------------------------------- lost for good

  /** Without a ledger there are no marks anywhere. */
  ghost predicate NoMarks(s: Sys) {
    !s.col.ledgered ==> s.col.marks == [] && s.col.requeued == [] && (s.batch.Some? ==> s.batch.value.marks == [])
  }

  lemma PartReturnsNothing(w: World, s: Sys, pw: PartWorld)
    requires s.batch.Some? && s.batch.value.next < |s.batch.value.parts| && s.batch.value.marks == []
    ensures PartOutcome(w, s, pw).returned == [] && PartOutcome(w, s, pw).db.ledger == s.db.ledger
  {
    assert MarksBetween([], s.batch.value.parts[s.batch.value.next].start, |s.batch.value.req.events|) == [];
    assert Upsert(s.db.ledger, []) == s.db.ledger;
  }

  lemma VisitMarks(c: Col, p: string, s: Sighting, check: bool)
    ensures Visit(c, p, s, check).ledgered == c.ledgered && Visit(c, p, s, check).requeued == c.requeued
    ensures !c.ledgered ==> Visit(c, p, s, check).marks == c.marks
  {
  }

  lemma StepNoMarks(w: World, s: Sys, step: Step)
    requires NoMarks(s) && Enabled(w, s, step)
    ensures NoMarks(Do(w, s, step))
  {
    match step {
      case VisitNext(sight, now) => VisitMarks(s.col, s.phase.todo[0], sight, s.phase.check);
      case NextPart(pw) =>
        if !s.col.ledgered {
          PartReturnsNothing(w, s, pw);
        }
      case _ =>
    }
  }

  /** The file stays as it is and listed, and nothing but it would yield the event. */
  predicate Leaves(s: Sys, step: Step, p: string, stamp: Stamp, e: EventItem) {
    match step
    case Write(q, _) => q != p
    case Remove(q) => q != p
    case BeginScan(paths) => p in paths
    case VisitNext(sight, _) =>
      s.phase.Visiting? && s.phase.todo != [] ==>
        if s.phase.todo[0] == p then sight.again in {None, Some(stamp)} else sight.parsed.Some? ==> e !in sight.parsed.value
    case DrainBatch(cwmp, _, _) => e !in cwmp
    case Restart(_) => false
    case _ => true
  }

  ghost predicate LeavesAll(w: World, s: Sys, steps: seq<Step>, p: string, stamp: Stamp, e: EventItem)
    requires Legal(w, s, steps)
    decreases |steps|
  {
    steps == [] || (Leaves(s, steps[0], p, stamp, e) && LeavesAll(w, Do(w, s, steps[0]), steps[1..], p, stamp, e))
  }

  /** The file is seen, and the event is neither handled nor held. */
  ghost predicate Gone(s: Sys, p: string, stamp: Stamp, e: EventItem) {
    && !s.col.ledgered && NoMarks(s)
    && p in s.col.seen && s.col.seen[p] == stamp
    && e !in s.f.committed && e !in s.f.dropped && e !in s.col.events && e !in Rest(s.batch)
    && (s.phase.Visiting? ==> p in s.phase.present)
  }

  lemma PartBodies(db: Db, cap: int, p: Part, ms: seq<EventMark>, total: nat, pw: PartWorld)
    ensures var d := PartDone(Started(db), cap, p, ms, total, pw);
      forall b | b in d.queued || b in d.refused :: b == p.body
  {
  }

  lemma PartLeavesEvent(w: World, s: Sys, pw: PartWorld, e: EventItem)
    requires Inv(w, s) && Enabled(w, s, NextPart(pw))
    requires e !in s.f.committed && e !in s.f.dropped && e !in Rest(s.batch)
    ensures e !in AfterPart(w, s, pw).f.committed && e !in AfterPart(w, s, pw).f.dropped
  {
    var b := s.batch.value;
    PartCut(w, s.f, b);
    assert e !in b.parts[b.next].body.request.events;
    PartBodies(s.db, w.cap, b.parts[b.next], b.marks, |b.req.events|, pw);
  }

  lemma PartLeavesGone(w: World, s: Sys, pw: PartWorld, p: string, stamp: Stamp, e: EventItem)
    requires Inv(w, s) && Gone(s, p, stamp, e) && Enabled(w, s, NextPart(pw))
    ensures Gone(AfterPart(w, s, pw), p, stamp, e)
  {
    PartRest(w, s, pw);
    PartLeavesEvent(w, s, pw, e);
    PartReturnsNothing(w, s, pw);
    StepNoMarks(w, s, NextPart(pw));
  }

  lemma VisitLeavesGone(w: World, s: Sys, step: Step, p: string, stamp: Stamp, e: EventItem)
    requires Gone(s, p, stamp, e) && step.VisitNext? && Enabled(w, s, step) && Leaves(s, step, p, stamp, e)
    ensures Gone(AfterVisit(s, step.s), p, stamp, e)
  {
    StepNoMarks(w, s, step);
    VisitMarks(s.col, s.phase.todo[0], step.s, s.phase.check);
  }

  lemma StepLeavesGone(w: World, s: Sys, step: Step, p: string, stamp: Stamp, e: EventItem)
    requires Inv(w, s) && Gone(s, p, stamp, e) && Enabled(w, s, step) && Leaves(s, step, p, stamp, e)
    ensures Gone(Do(w, s, step), p, stamp, e)
  {
    StepNoMarks(w, s, step);
    match step {
      case VisitNext(sight, now) => VisitLeavesGone(w, s, step, p, stamp, e);
      case NextPart(pw) => PartLeavesGone(w, s, pw, p, stamp, e);
      case DrainBatch(cwmp, metrics, alarms) =>
        if Do(w, s, step) != s {
          DrainIs(w, s, step);
          NewBatchRest(w, s, Request(metrics, s.col.events + cwmp, alarms));
        }
      case EndVisits(gone) =>
      case _ =>
    }
  }

  /**
   For good: until the file is rewritten, removed, unlisted or the agent restarts, an event of a
   seen file that is neither handled nor held anywhere stays so, and the file stays seen.
   */
  lemma {:induction false} LostStaysLost(w: World, s: Sys, steps: seq<Step>, p: string, stamp: Stamp, e: EventItem)
    requires Inv(w, s) && Gone(s, p, stamp, e) && Legal(w, s, steps) && LeavesAll(w, s, steps, p, stamp, e)
    ensures Gone(Exec(w, s, steps), p, stamp, e)
    decreases |steps|
  {
    if steps != [] {
      StepKeeps(w, s, steps[0]);
      StepLeavesGone(w, s, steps[0], p, stamp, e);
      LostStaysLost(w, Do(w, s, steps[0]), steps[1..], p, stamp, e);
    }
  }

  lemma {:induction false} NoMarksAlways(w: World, s: Sys, steps: seq<Step>)
    requires NoMarks(s) && Legal(w, s, steps)
    ensures NoMarks(Exec(w, s, steps))
    decreases |steps|
  {
    if steps != [] {
      StepNoMarks(w, s, steps[0]);
      NoMarksAlways(w, Do(w, s, steps[0]), steps[1..]);
    }
  }

  /** A part fails exactly when its body is within the cap and one of its statements fails. */
  lemma PartFailsExactlyWhen(w: World, s: Sys, pw: PartWorld)
    requires Enabled(w, s, NextPart(pw))
    ensures var b := s.batch.value; var part := b.parts[b.next];
      PartOutcome(w, s, pw).stopped <==> Admits(w.cap, part.body.len) && Breaks(w.cap, MarksBetween(b.marks, part.start, part.end), pw.faults)
  {
  }

  /**
   In every reachable state without a ledger, for any cap and any failure: a part that fails takes
   the rest of the batch with it. Nothing is handed back, and what was seen stays seen.
   */
  lemma FailedPartLosesTheRest(w: World, dir: map<string, Stamp>, steps: seq<Step>, pw: PartWorld)
    requires Legal(w, Start(dir), steps) && !Exec(w, Start(dir), steps).col.ledgered
    requires Enabled(w, Exec(w, Start(dir), steps), NextPart(pw)) && PartOutcome(w, Exec(w, Start(dir), steps), pw).stopped
    ensures var s := Exec(w, Start(dir), steps); var d := Do(w, s, NextPart(pw)); var t := TallyAfter(w, Start(dir), steps, NONE);
      && d == s.(batch := None)
      && Counted(w, s, NextPart(pw), t).lost == t.lost + multiset(Rest(s.batch))
  {
    var s := Exec(w, Start(dir), steps);
    NoMarksAlways(w, Start(dir), steps);
    PartReturnsNothing(w, s, pw);
    var d := PartOutcome(w, s, pw);
    assert d.queued == [] && d.refused == [];
    assert s.col.requeued + [] == s.col.requeued;
    assert EventsOf([]) == {};
  }
}
