/**
 Safety of the ingest pipeline over every run: what the ledger vouches for was durably
 handled, and no upload the agent considers seen is lost from sight.
 */
module IngestLaws {
  import opened Wrappers
  import opened Telemetry
  import opened Buffer
  import opened Collector
  import opened CollectorLaws
  import opened Worker
  import opened WorkerLaws
  import opened Ingest

  // ---------------------------------------------------------------- being done with an upload

  /** A version that existed and is no longer in place; stamps are fresh, so it never returns. */
  predicate Stale(f: Facts, m: Mark) {
    m in f.used && !Current(f, m)
  }

  predicate HoldsFor(w: World, m: Mark, device: string, now: string, events: set<EventItem>) {
    w.credits(m.path, device) && Elements(ParseOf(w, m, device, now)) <= events
  }

  /** The set holds every event of the version, as one parse for one creditable device yields them. */
  ghost predicate Holds(w: World, m: Mark, events: set<EventItem>) {
    exists device, now :: HoldsFor(w, m, device, now, events)
  }

  ghost predicate Ok(w: World, f: Facts, m: Mark, events: set<EventItem>) {
    Stale(f, m) || Holds(w, m, events)
  }

  /** Nothing more is owed for the version: its events are queued for good or dropped as over-cap, or it was given up on. */
  ghost predicate Done(w: World, f: Facts, m: Mark) {
    Ok(w, f, m, f.committed + f.dropped) || m in f.givenUp
  }

  // ---------------------------------------------------------------- the invariant

  ghost predicate MarksOk(w: World, f: Facts, ms: seq<EventMark>, events: seq<EventItem>) {
    EndsInOrder(ms, |events|) && forall k | 0 <= k < |ms| :: Ok(w, f, ms[k].mark, Elements(events[..ms[k].end]))
  }

  ghost predicate AllDone(w: World, f: Facts, marks: seq<Mark>) {
    forall m | m in marks :: Done(w, f, m)
  }

  ghost predicate LedgerOk(w: World, f: Facts, ledger: map<string, Stamp>) {
    forall p | p in ledger :: Done(w, f, Mark(p, ledger[p]))
  }

  ghost predicate BatchOk(w: World, f: Facts, b: Batch) {
    && b.parts == Split(w.size, PartLimit(w.cap), b.req, 0)
    && b.next < |b.parts|
    && b.parts[b.next].start <= |b.req.events|
    && MarksOk(w, f, b.marks, b.req.events)
    && Elements(b.req.events[..b.parts[b.next].start]) <= f.committed + f.dropped
  }

  ghost predicate HasMark(ms: seq<EventMark>, m: Mark, after: nat) {
    exists k | 0 <= k < |ms| :: ms[k].mark == m && ms[k].end > after
  }

  ghost predicate InBatch(batch: Option<Batch>, m: Mark) {
    batch.Some? && batch.value.next < |batch.value.parts| && HasMark(batch.value.marks, m, batch.value.parts[batch.value.next].start)
  }

  /** Where the events of a seen upload are: done, queued, in the worker's hands, or due to be parsed again. */
  ghost predicate Placed(w: World, f: Facts, c: Col, batch: Option<Batch>, m: Mark) {
    Done(w, f, m) || HasMark(c.marks, m, 0) || InBatch(batch, m) || m in c.requeued
  }

  ghost predicate SeenOk(w: World, f: Facts, c: Col, batch: Option<Batch>) {
    c.ledgered ==> forall p | p in c.seen :: Placed(w, f, c, batch, Mark(p, c.seen[p]))
  }

  predicate PhaseOk(s: Sys) {
    match s.phase
    case Forgetting(_, present) => s.col.seen.Keys <= present
    case Filtering(present) => s.col.seen.Keys <= present
    case _ => true
  }

  ghost predicate DirOk(f: Facts) {
    forall p | p in f.dir :: Mark(p, f.dir[p]) in f.used
  }

  ghost predicate Inv(w: World, s: Sys) {
    && DirOk(s.f)
    && MarksOk(w, s.f, s.col.marks, s.col.events)
    && AllDone(w, s.f, s.col.pending)
    && LedgerOk(w, s.f, s.db.ledger)
    && (s.batch.Some? ==> BatchOk(w, s.f, s.batch.value))
    && SeenOk(w, s.f, s.col, s.batch)
    && PhaseOk(s)
  }

  // ---------------------------------------------------------------- history only grows

  ghost predicate Grows(f: Facts, g: Facts) {
    && f.committed + f.dropped <= g.committed + g.dropped && f.givenUp <= g.givenUp
    && forall m :: Stale(f, m) ==> Stale(g, m)
  }

  lemma OkGrows(w: World, f: Facts, g: Facts, m: Mark, events: set<EventItem>, more: set<EventItem>)
    requires Grows(f, g) && Ok(w, f, m, events) && events <= more
    ensures Ok(w, g, m, more)
  {
    if !Stale(f, m) {
      var device, now :| HoldsFor(w, m, device, now, events);
      assert HoldsFor(w, m, device, now, more);
    }
  }

  lemma DoneGrows(w: World, f: Facts, g: Facts, m: Mark)
    requires Grows(f, g) && Done(w, f, m)
    ensures Done(w, g, m)
  {
    if m !in f.givenUp {
      OkGrows(w, f, g, m, f.committed + f.dropped, g.committed + g.dropped);
    }
  }

  lemma MarksGrow(w: World, f: Facts, g: Facts, ms: seq<EventMark>, events: seq<EventItem>)
    requires Grows(f, g) && MarksOk(w, f, ms, events)
    ensures MarksOk(w, g, ms, events)
  {
    forall k | 0 <= k < |ms| ensures Ok(w, g, ms[k].mark, Elements(events[..ms[k].end])) {
      OkGrows(w, f, g, ms[k].mark, Elements(events[..ms[k].end]), Elements(events[..ms[k].end]));
    }
  }

  lemma LedgerGrows(w: World, f: Facts, g: Facts, ledger: map<string, Stamp>)
    requires Grows(f, g) && LedgerOk(w, f, ledger)
    ensures LedgerOk(w, g, ledger)
  {
    forall p | p in ledger ensures Done(w, g, Mark(p, ledger[p])) {
      DoneGrows(w, f, g, Mark(p, ledger[p]));
    }
  }

  lemma AllDoneGrows(w: World, f: Facts, g: Facts, marks: seq<Mark>)
    requires Grows(f, g) && AllDone(w, f, marks)
    ensures AllDone(w, g, marks)
  {
    forall m | m in marks ensures Done(w, g, m) {
      DoneGrows(w, f, g, m);
    }
  }

  lemma SeenGrows(w: World, f: Facts, g: Facts, c: Col, batch: Option<Batch>)
    requires Grows(f, g) && SeenOk(w, f, c, batch)
    ensures SeenOk(w, g, c, batch)
  {
    if c.ledgered {
      forall p | p in c.seen ensures Placed(w, g, c, batch, Mark(p, c.seen[p])) {
        assert Placed(w, f, c, batch, Mark(p, c.seen[p]));
        if Done(w, f, Mark(p, c.seen[p])) {
          DoneGrows(w, f, g, Mark(p, c.seen[p]));
        }
      }
    }
  }

  lemma InvGrows(w: World, s: Sys, g: Facts)
    requires Inv(w, s) && Grows(s.f, g) && DirOk(g)
    ensures Inv(w, s.(f := g))
  {
    MarksGrow(w, s.f, g, s.col.marks, s.col.events);
    AllDoneGrows(w, s.f, g, s.col.pending);
    LedgerGrows(w, s.f, g, s.db.ledger);
    SeenGrows(w, s.f, g, s.col, s.batch);
    if s.batch.Some? {
      MarksGrow(w, s.f, g, s.batch.value.marks, s.batch.value.req.events);
    }
  }

  // ---------------------------------------------------------------- the environment

  lemma WriteKeeps(w: World, s: Sys, p: string, stamp: Stamp)
    requires Inv(w, s) && Enabled(w, s, Write(p, stamp))
    ensures Inv(w, Do(w, s, Write(p, stamp)))
  {
    InvGrows(w, s, Do(w, s, Write(p, stamp)).f);
  }

  lemma RemoveKeeps(w: World, s: Sys, p: string)
    requires Inv(w, s)
    ensures Inv(w, Do(w, s, Remove(p)))
  {
    InvGrows(w, s, Do(w, s, Remove(p)).f);
  }

  // ---------------------------------------------------------------- the scanning goroutine

  lemma TakeBackKeeps(w: World, s: Sys)
    requires Inv(w, s)
    ensures SeenOk(w, s.f, WithoutRequeued(s.col), s.batch)
  {
    var c := WithoutRequeued(s.col);
    if c.ledgered {
      forall p | p in c.seen ensures Placed(w, s.f, c, s.batch, Mark(p, c.seen[p])) {
        assert Placed(w, s.f, s.col, s.batch, Mark(p, s.col.seen[p]));
      }
    }
  }

  lemma MarkGiven(w: World, f: Facts, c: Col, batch: Option<Batch>, p: string, stamp: Stamp, events: seq<EventItem>)
    requires MarksOk(w, f, c.marks, c.events) && AllDone(w, f, c.pending) && SeenOk(w, f, c, batch)
    requires Ok(w, f, Mark(p, stamp), Elements(events)) || (events == [] && Mark(p, stamp) in f.givenUp)
    ensures var d := MarkedSeen(c, p, stamp, events);
      MarksOk(w, f, d.marks, d.events) && AllDone(w, f, d.pending) && SeenOk(w, f, d, batch)
  {
    var d := MarkedSeen(c, p, stamp, events);
    var m := Mark(p, stamp);
    var none := f.(dir := f.dir);
    if events == [] {
      if m !in f.givenUp {
        OkGrows(w, f, f, m, Elements(events), f.committed + f.dropped);
      }
      assert Done(w, f, m);
    } else {
      forall k | 0 <= k < |d.marks| ensures Ok(w, f, d.marks[k].mark, Elements(d.events[..d.marks[k].end])) {
        if k < |c.marks| {
          assert d.events[..c.marks[k].end] == c.events[..c.marks[k].end];
        } else {
          assert d.events[..d.marks[k].end] == c.events + events;
          OkGrows(w, f, f, m, Elements(events), Elements(d.events[..d.marks[k].end]));
        }
      }
    }
    if c.ledgered {
      forall q | q in d.seen ensures Placed(w, f, d, batch, Mark(q, d.seen[q])) {
        if q == p {
          assert events != [] ==> d.marks[|d.marks| - 1].mark == m;
        } else {
          assert Placed(w, f, c, batch, Mark(q, c.seen[q]));
          if HasMark(c.marks, Mark(q, c.seen[q]), 0) {
            var k :| 0 <= k < |c.marks| && c.marks[k].mark == Mark(q, c.seen[q]) && c.marks[k].end > 0;
            assert d.marks[k] == c.marks[k];
          }
        }
      }
    }
  }

  lemma UnseenKeeps(w: World, f: Facts, c: Col, batch: Option<Batch>, p: string)
    requires SeenOk(w, f, c, batch)
    ensures SeenOk(w, f, c.(seen := c.seen - {p}), batch)
  {
    if c.ledgered {
      forall q | q in c.seen - {p} ensures Placed(w, f, c.(seen := c.seen - {p}), batch, Mark(q, c.seen[q])) {
        assert Placed(w, f, c, batch, Mark(q, c.seen[q]));
      }
    }
  }

  lemma SameQueueSeenOk(w: World, f: Facts, c: Col, d: Col, batch: Option<Batch>)
    requires SeenOk(w, f, c, batch)
    requires d.seen == c.seen && d.marks == c.marks && d.requeued == c.requeued && d.ledgered == c.ledgered
    ensures SeenOk(w, f, d, batch)
  {
    if c.ledgered {
      forall q | q in d.seen ensures Placed(w, f, d, batch, Mark(q, d.seen[q])) {
        assert Placed(w, f, c, batch, Mark(q, c.seen[q]));
      }
    }
  }

  /** A visit queues exactly what its observations entitle it to. */
  lemma IntakeKeeps(w: World, f: Facts, c: Col, batch: Option<Batch>, p: string, s: Sighting, now: string)
    requires MarksOk(w, f, c.marks, c.events) && AllDone(w, f, c.pending) && SeenOk(w, f, c, batch)
    requires Observes(w, f, p, s, now)
    requires p !in c.seen && (GivesUp(c, p, s, true) ==> Mark(p, s.stamp.value) in f.givenUp)
    ensures var d := Intake(c, p, s);
      MarksOk(w, f, d.marks, d.events) && AllDone(w, f, d.pending) && SeenOk(w, f, d, batch)
  {
    var d := Intake(c, p, s);
    var tick := Ticks(c.deferred, p);
    if Skips(tick) || s.device.None? || s.stamp.None? {
      SameQueueSeenOk(w, f, c, d, batch);
    } else if s.parsed.Some? {
      var m := Mark(p, s.stamp.value);
      if Current(f, m) {
        assert HoldsFor(w, m, s.device.value, now, Elements(s.parsed.value));
      }
      MarkGiven(w, f, c, batch, p, s.stamp.value, s.parsed.value);
    } else if Ticks(c.fails, p) + 1 < MAX_PARSE_RETRIES {
      SameQueueSeenOk(w, f, c, d, batch);
    } else {
      MarkGiven(w, f, c, batch, p, s.stamp.value, []);
    }
  }

  lemma VisitKeeps(w: World, s: Sys, sight: Sighting, now: string)
    requires Inv(w, s) && Enabled(w, s, VisitNext(sight, now))
    ensures Inv(w, Do(w, s, VisitNext(sight, now)))
  {
    var p := s.phase.todo[0];
    var g := Do(w, s, VisitNext(sight, now)).f;
    InvGrows(w, s, g);
    if !LeftAlone(s.col, p, sight, s.phase.check) {
      UnseenKeeps(w, g, s.col, s.batch, p);
      IntakeKeeps(w, g, s.col.(seen := s.col.seen - {p}), s.batch, p, sight, now);
    }
  }

  lemma RotateKeeps(w: World, s: Sys, gone: seq<string>)
    requires Inv(w, s) && Enabled(w, s, EndVisits(gone))
    ensures Inv(w, Do(w, s, EndVisits(gone)))
  {
    var c := Rotated(s.col, s.phase.present);
    if c.ledgered {
      forall q | q in c.seen ensures Placed(w, s.f, c, s.batch, Mark(q, c.seen[q])) {
        assert Placed(w, s.f, s.col, s.batch, Mark(q, s.col.seen[q]));
      }
    }
  }

  lemma FilterKeeps(w: World, s: Sys)
    requires Inv(w, s) && Enabled(w, s, Filter)
    ensures Inv(w, Do(w, s, Filter))
  {
    var present := s.phase.present;
    var c := MarksFiltered(s.col, present);
    FilteredEnds(s.col.marks, present, |s.col.events|);
    PresentEventMarksAre(s.col.marks, present);
    PresentMarksAre(s.col.pending, present);
    forall k | 0 <= k < |c.marks| ensures Ok(w, s.f, c.marks[k].mark, Elements(c.events[..c.marks[k].end])) {
      assert c.marks[k] in c.marks;
      var j :| 0 <= j < |s.col.marks| && s.col.marks[j] == c.marks[k];
    }
    if c.ledgered {
      forall q | q in c.seen ensures Placed(w, s.f, c, s.batch, Mark(q, c.seen[q])) {
        var m := Mark(q, c.seen[q]);
        assert Placed(w, s.f, s.col, s.batch, m);
        if HasMark(s.col.marks, m, 0) {
          var k :| 0 <= k < |s.col.marks| && s.col.marks[k].mark == m && s.col.marks[k].end > 0;
          assert s.col.marks[k] in c.marks;
        }
      }
    }
  }

  lemma UpsertOk(w: World, f: Facts, ledger: map<string, Stamp>, marks: seq<Mark>)
    requires LedgerOk(w, f, ledger) && AllDone(w, f, marks)
    ensures LedgerOk(w, f, Upsert(ledger, marks))
  {
    forall p | p in Upsert(ledger, marks) ensures Done(w, f, Mark(p, Upsert(ledger, marks)[p])) {
      UpsertEntry(ledger, marks, p);
    }
  }

  lemma FlushKeeps(w: World, s: Sys, n: nat)
    requires Inv(w, s) && Enabled(w, s, FlushMarks(n))
    ensures Inv(w, Do(w, s, FlushMarks(n)))
  {
    UpsertOk(w, s.f, s.db.ledger, s.col.pending[..n]);
    SameQueueSeenOk(w, s.f, s.col, Flushed(s.col, n), s.batch);
  }

  // ---------------------------------------------------------------- the worker

  lemma DrainKeeps(w: World, s: Sys, cwmp: seq<EventItem>, metrics: seq<string>, alarms: seq<string>)
    requires Inv(w, s) && Enabled(w, s, DrainBatch(cwmp, metrics, alarms))
    ensures Inv(w, Do(w, s, DrainBatch(cwmp, metrics, alarms)))
  {
    var s' := Do(w, s, DrainBatch(cwmp, metrics, alarms));
    if s' != s {
      var b := s'.batch.value;
      SplitIsExact(w.size, PartLimit(w.cap), b.req, 0);
      assert b.req.events[..0] == [];
      forall k | 0 <= k < |b.marks| ensures Ok(w, s.f, b.marks[k].mark, Elements(b.req.events[..b.marks[k].end])) {
        assert b.req.events[..b.marks[k].end] == s.col.events[..b.marks[k].end];
      }
      if s.col.ledgered {
        forall q | q in s.col.seen ensures Placed(w, s.f, s'.col, s'.batch, Mark(q, s.col.seen[q])) {
          assert Placed(w, s.f, s.col, s.batch, Mark(q, s.col.seen[q]));
        }
      }
    }
  }

  lemma SendKeeps(w: World, s: Sys, a: Attempt)
    requires Inv(w, s) && Enabled(w, s, SendHead(a))
    ensures Inv(w, Do(w, s, SendHead(a)))
  {
    InvGrows(w, s, Do(w, s, SendHead(a)).f);
  }

  lemma RestartKeeps(w: World, s: Sys, loadFails: bool)
    requires Inv(w, s)
    ensures Inv(w, Do(w, s, Restart(loadFails)))
  {
  }

  lemma PartFacts(w: World, b: Batch, f: Facts)
    requires BatchOk(w, f, b)
    ensures Covers(b.parts[b.next], b.req)
    ensures b.next + 1 < |b.parts| ==> b.parts[b.next + 1].start == b.parts[b.next].end
    ensures b.next + 1 == |b.parts| ==> b.parts[b.next].end == |b.req.events|
  {
    SplitIsExact(w.size, PartLimit(w.cap), b.req, 0);
    assert CarriesAt(w.size, b.parts[b.next], b.req, 0, b.next == 0);
  }

  /** Once a part is queued or refused, every upload ending in it is done. */
  lemma MarksOfPartDone(w: World, f: Facts, g: Facts, b: Batch)
    requires BatchOk(w, f, b) && Grows(f, g) && Covers(b.parts[b.next], b.req)
    requires Elements(b.parts[b.next].body.request.events) <= g.committed + g.dropped
    ensures Elements(b.req.events[..b.parts[b.next].end]) <= g.committed + g.dropped
    ensures forall k | 0 <= k < |b.marks| && b.marks[k].end <= b.parts[b.next].end :: Done(w, g, b.marks[k].mark)
  {
    var p := b.parts[b.next];
    assert b.req.events[..p.end] == b.req.events[..p.start] + b.req.events[p.start..p.end];
    assert Elements(b.req.events[..p.end]) == Elements(b.req.events[..p.start]) + Elements(b.req.events[p.start..p.end]);
    forall k | 0 <= k < |b.marks| && b.marks[k].end <= p.end ensures Done(w, g, b.marks[k].mark) {
      assert b.req.events[..b.marks[k].end] <= b.req.events[..p.end];
      OkGrows(w, f, g, b.marks[k].mark, Elements(b.req.events[..b.marks[k].end]), g.committed + g.dropped);
    }
  }

  lemma PartKeepsSeen(w: World, s: Sys, g: Facts, d: Progress, next: Option<Batch>)
    requires Inv(w, s) && s.batch.Some? && Grows(s.f, g)
    requires forall m :: InBatch(s.batch, m) ==> Done(w, g, m) || m in d.returned || InBatch(next, m)
    ensures SeenOk(w, g, s.col.(requeued := s.col.requeued + d.returned), next)
  {
    var c := s.col.(requeued := s.col.requeued + d.returned);
    if c.ledgered {
      forall p | p in c.seen ensures Placed(w, g, c, next, Mark(p, c.seen[p])) {
        var m := Mark(p, c.seen[p]);
        assert Placed(w, s.f, s.col, s.batch, m);
        if Done(w, s.f, m) {
          DoneGrows(w, s.f, g, m);
        }
      }
    }
  }

  lemma PartGrows(w: World, s: Sys, pw: PartWorld)
    requires Inv(w, s) && Enabled(w, s, NextPart(pw))
    ensures Grows(s.f, AfterPart(w, s, pw).f) && DirOk(AfterPart(w, s, pw).f)
  {
  }

  /** A stopped batch hands every undecided mark back. */
  lemma StoppedPartKeeps(w: World, s: Sys, pw: PartWorld)
    requires Inv(w, s) && Enabled(w, s, NextPart(pw)) && PartOutcome(w, s, pw).stopped
    ensures Inv(w, Do(w, s, NextPart(pw)))
  {
    var b := s.batch.value;
    var d := PartOutcome(w, s, pw);
    PartGrows(w, s, pw);
    InvGrows(w, s, AfterPart(w, s, pw).f);
    forall m | InBatch(s.batch, m) ensures m in d.returned {
      var k :| 0 <= k < |b.marks| && b.marks[k].mark == m && b.marks[k].end > b.parts[b.next].start;
      BetweenMember(b.marks, b.parts[b.next].start, |b.req.events|, m);
    }
    PartKeepsSeen(w, s, AfterPart(w, s, pw).f, d, None);
  }

  lemma PartIsRecorded(w: World, s: Sys, pw: PartWorld)
    requires Inv(w, s) && Enabled(w, s, NextPart(pw)) && !PartOutcome(w, s, pw).stopped
    ensures var b := s.batch.value; var g := AfterPart(w, s, pw).f;
      Elements(b.parts[b.next].body.request.events) <= g.committed + g.dropped
    ensures var b := s.batch.value;
      PartOutcome(w, s, pw).persisted <= MarksBetween(b.marks, b.parts[b.next].start, b.parts[b.next].end)
      && PartOutcome(w, s, pw).db.ledger == Upsert(s.db.ledger, PartOutcome(w, s, pw).persisted)
  {
    var b := s.batch.value;
    PartFromStart(s.db, w.cap, b.parts[b.next], b.marks, |b.req.events|, pw);
  }

  lemma NextBatchOk(w: World, f: Facts, g: Facts, b: Batch)
    requires BatchOk(w, f, b) && Grows(f, g) && b.next + 1 < |b.parts|
    requires b.parts[b.next].end <= |b.req.events|
    requires Elements(b.req.events[..b.parts[b.next].end]) <= g.committed + g.dropped
    ensures BatchOk(w, g, b.(next := b.next + 1))
  {
    PartFacts(w, b, f);
    MarksGrow(w, f, g, b.marks, b.req.events);
  }

  /** An undecided mark is decided with its part, or waits for the next one. */
  lemma MarkMovesOn(w: World, f: Facts, g: Facts, b: Batch, m: Mark)
    requires BatchOk(w, f, b) && InBatch(Some(b), m)
    requires forall k | 0 <= k < |b.marks| && b.marks[k].end <= b.parts[b.next].end :: Done(w, g, b.marks[k].mark)
    ensures Done(w, g, m) || (b.next + 1 < |b.parts| && InBatch(Some(b.(next := b.next + 1)), m))
  {
    PartFacts(w, b, f);
    var start, end := b.parts[b.next].start, b.parts[b.next].end;
    var k :| 0 <= k < |b.marks| && b.marks[k].mark == m && b.marks[k].end > start;
    if b.marks[k].end > end {
      assert b.marks[k].end <= |b.req.events|;
      assert HasMark(b.marks, m, end);
    }
  }

  lemma DecidedPartKeeps(w: World, s: Sys, pw: PartWorld)
    requires Inv(w, s) && Enabled(w, s, NextPart(pw)) && !PartOutcome(w, s, pw).stopped
    ensures Inv(w, Do(w, s, NextPart(pw)))
  {
    var b := s.batch.value;
    var p := b.parts[b.next];
    var d := PartOutcome(w, s, pw);
    var s' := Do(w, s, NextPart(pw));
    var g := s'.f;
    PartGrows(w, s, pw);
    InvGrows(w, s, g);
    PartFacts(w, b, s.f);
    PartIsRecorded(w, s, pw);
    MarksOfPartDone(w, s.f, g, b);
    forall m | m in d.persisted ensures Done(w, g, m) {
      BetweenMember(b.marks, p.start, p.end, m);
    }
    UpsertOk(w, g, s.db.ledger, d.persisted);
    if b.next + 1 < |b.parts| {
      NextBatchOk(w, s.f, g, b);
    }
    forall m | InBatch(s.batch, m) ensures Done(w, g, m) || InBatch(s'.batch, m) {
      MarkMovesOn(w, s.f, g, b, m);
    }
    PartKeepsSeen(w, s, g, d, s'.batch);
  }

  // ---------------------------------------------------------------- every run

  lemma StartInv(w: World, dir: map<string, Stamp>)
    ensures Inv(w, Start(dir))
  {
  }

  lemma StepKeeps(w: World, s: Sys, step: Step)
    requires Inv(w, s) && Enabled(w, s, step)
    ensures Inv(w, Do(w, s, step))
  {
    match step {
      case Write(p, stamp) => WriteKeeps(w, s, p, stamp);
      case Remove(p) => RemoveKeeps(w, s, p);
      case FailedScan => TakeBackKeeps(w, s);
      case BeginScan(paths) => TakeBackKeeps(w, s);
        SameQueueSeenOk(w, s.f, WithoutRequeued(s.col), Do(w, s, step).col, s.batch);
      case VisitNext(sight, now) => VisitKeeps(w, s, sight, now);
      case EndVisits(gone) => RotateKeeps(w, s, gone);
      case Forget(n) =>
      case Filter => FilterKeeps(w, s);
      case FlushMarks(n) => FlushKeeps(w, s, n);
      case DrainBatch(cwmp, metrics, alarms) => DrainKeeps(w, s, cwmp, metrics, alarms);
      case NextPart(pw) =>
        if PartOutcome(w, s, pw).stopped {
          StoppedPartKeeps(w, s, pw);
        } else {
          DecidedPartKeeps(w, s, pw);
        }
      case SendHead(a) => SendKeeps(w, s, a);
      case Restart(loadFails) => RestartKeeps(w, s, loadFails);
    }
  }

  lemma {:induction false} RunKeeps(w: World, s: Sys, steps: seq<Step>)
    requires Inv(w, s) && Legal(w, s, steps)
    ensures Inv(w, Exec(w, s, steps))
    decreases |steps|
  {
    if steps != [] {
      StepKeeps(w, s, steps[0]);
      RunKeeps(w, Do(w, s, steps[0]), steps[1..]);
    }
  }

  /**
   Ledger soundness over every run of scans, drains, partial enqueues, rewrites, failures and
   crashes: an upload the ledger vouches for, at the file's current stamp, has had every event
   committed to the outbox or dropped as over-cap, or was given up on.
   */
  lemma LedgerIsSound(w: World, dir: map<string, Stamp>, steps: seq<Step>, p: string)
    requires Legal(w, Start(dir), steps)
    requires var s := Exec(w, Start(dir), steps); p in s.f.dir && p in s.db.ledger && s.db.ledger[p] == s.f.dir[p]
    ensures var s := Exec(w, Start(dir), steps); var m := Mark(p, s.f.dir[p]);
      Holds(w, m, s.f.committed + s.f.dropped) || m in s.f.givenUp
  {
    StartInv(w, dir);
    RunKeeps(w, Start(dir), steps);
    var s := Exec(w, Start(dir), steps);
    assert Done(w, s.f, Mark(p, s.db.ledger[p]));
  }

  /**
   Nothing gets stuck in memory: with a ledger attached, a file that is marked seen at its
   current stamp is done, or queued with its mark, or in the worker's undecided batch, or
   its mark was handed back and the next poll forgets it.
   */
  lemma NothingGetsStuck(w: World, dir: map<string, Stamp>, steps: seq<Step>, p: string)
    requires Legal(w, Start(dir), steps)
    requires var s := Exec(w, Start(dir), steps); s.col.ledgered && p in s.f.dir && p in s.col.seen && s.col.seen[p] == s.f.dir[p]
    ensures var s := Exec(w, Start(dir), steps); var m := Mark(p, s.f.dir[p]);
      || Holds(w, m, s.f.committed + s.f.dropped) || m in s.f.givenUp
      || HasMark(s.col.marks, m, 0) || InBatch(s.batch, m)
      || (m in s.col.requeued && p !in WithoutRequeued(s.col).seen)
  {
    StartInv(w, dir);
    RunKeeps(w, Start(dir), steps);
    var s := Exec(w, Start(dir), steps);
    assert Placed(w, s.f, s.col, s.batch, Mark(p, s.col.seen[p]));
  }
}
