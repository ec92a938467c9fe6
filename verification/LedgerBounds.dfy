/** The ledger stays bounded by the watch directory: the first scan of a lifetime forgets whatever rotated away. */
module LedgerBounds {
  import opened Wrappers
  import opened Telemetry
  import opened Buffer
  import opened Collector
  import opened CollectorLaws
  import opened Worker
  import opened WorkerLaws
  import opened Ingest

  function Listing(phase: Phase): set<string> {
    if phase.Idle? then {} else phase.present
  }

  predicate PathsIn(marks: seq<Mark>, present: set<string>) {
    forall m | m in marks :: m.path in present
  }

  predicate EventPathsIn(ms: seq<EventMark>, present: set<string>) {
    forall m | m in ms :: m.mark.path in present
  }

  /** What the ledger may hold at each point of a lifetime's first scan. */
  predicate LedgerWithin(s: Sys) {
    match s.phase
    case Idle => s.db.ledger.Keys <= s.col.seen.Keys
    case Visiting(todo, present, _) => s.db.ledger.Keys <= s.col.seen.Keys + present
    case Forgetting(gone, present) => s.db.ledger.Keys <= Elements(gone) + present
    case _ => s.db.ledger.Keys <= s.phase.present
  }

  /** Until the first scan is over, every mark in flight is of a path that scan listed. */
  predicate Bounded(s: Sys) {
    && (s.phase.Visiting? ==> Elements(s.phase.todo) <= s.phase.present)
    && (s.life.First? ==>
          && s.col.ledgered && LedgerWithin(s)
          && PathsIn(s.col.pending, Listing(s.phase)) && PathsIn(s.col.requeued, Listing(s.phase))
          && EventPathsIn(s.col.marks, Listing(s.phase))
          && (s.batch.Some? ==> EventPathsIn(s.batch.value.marks, Listing(s.phase))))
  }

  lemma VisitBounded(w: World, s: Sys, sight: Sighting, now: string)
    requires Bounded(s) && Enabled(w, s, VisitNext(sight, now))
    ensures Bounded(Do(w, s, VisitNext(sight, now)))
  {
    var p := s.phase.todo[0];
    assert p in s.phase.present;
    var c := Visit(s.col, p, sight, s.phase.check);
    assert s.col.seen.Keys - {p} <= c.seen.Keys;
    assert forall m | m in c.marks :: m in s.col.marks || m.mark.path == p;
    assert forall m | m in c.pending :: m in s.col.pending || m.path == p;
  }

  lemma FilterBounded(w: World, s: Sys)
    requires Bounded(s) && Enabled(w, s, Filter)
    ensures Bounded(Do(w, s, Filter))
  {
    PresentMarksAre(s.col.pending, s.phase.present);
    PresentEventMarksAre(s.col.marks, s.phase.present);
  }

  lemma UpsertWithin(ledger: map<string, Stamp>, marks: seq<Mark>, present: set<string>)
    requires PathsIn(marks, present)
    ensures Upsert(ledger, marks).Keys <= ledger.Keys + present
  {
    UpsertKeys(ledger, marks);
  }

  lemma PartBounded(w: World, s: Sys, pw: PartWorld)
    requires Bounded(s) && Enabled(w, s, NextPart(pw))
    ensures Bounded(Do(w, s, NextPart(pw)))
  {
    if s.life.First? {
      var b := s.batch.value;
      var p := b.parts[b.next];
      var present := Listing(s.phase);
      var d := PartOutcome(w, s, pw);
      var marks := MarksBetween(b.marks, p.start, p.end);
      forall m | m in marks ensures m.path in present {
        BetweenMember(b.marks, p.start, p.end, m);
      }
      forall m | m in MarksBetween(b.marks, p.start, |b.req.events|) ensures m.path in present {
        BetweenMember(b.marks, p.start, |b.req.events|, m);
      }
      if !d.stopped {
        PartFromStart(s.db, w.cap, p, b.marks, |b.req.events|, pw);
        assert PathsIn(d.persisted, present);
        UpsertWithin(s.db.ledger, d.persisted, present);
      }
    }
  }

  lemma StepBounded(w: World, s: Sys, step: Step)
    requires Bounded(s) && Enabled(w, s, step)
    ensures Bounded(Do(w, s, step))
  {
    match step {
      case Write(p, stamp) =>
      case Remove(p) =>
      case FailedScan => assert s.life.First? ==> WithoutRequeued(s.col).seen == s.col.seen;
      case BeginScan(paths) => assert s.life.First? ==> WithoutRequeued(s.col).seen == s.col.seen;
      case VisitNext(sight, now) => VisitBounded(w, s, sight, now);
      case EndVisits(gone) =>
      case Forget(n) => assert n == |s.phase.gone| ==> s.phase.gone[..n] == s.phase.gone;
      case Filter => FilterBounded(w, s);
      case FlushMarks(n) =>
      case DrainBatch(cwmp, metrics, alarms) =>
      case NextPart(pw) => PartBounded(w, s, pw);
      case SendHead(a) =>
      case Restart(loadFails) =>
    }
  }

  lemma {:induction false} RunBounded(w: World, s: Sys, steps: seq<Step>)
    requires Bounded(s) && Legal(w, s, steps)
    ensures Bounded(Exec(w, s, steps))
    decreases |steps|
  {
    if steps != [] {
      StepBounded(w, s, steps[0]);
      RunBounded(w, Do(w, s, steps[0]), steps[1..]);
    }
  }

  /**
   In every run: when the first scan since a start that loaded the ledger ends, with no failed
   forget before it, the ledger names only paths that scan listed.
   */
  lemma FirstScanBoundsLedger(w: World, dir: map<string, Stamp>, steps: seq<Step>, n: nat)
    requires Legal(w, Start(dir), steps)
    requires var s := Exec(w, Start(dir), steps); s.life.First? && Enabled(w, s, FlushMarks(n))
    ensures var s := Exec(w, Start(dir), steps); Do(w, s, FlushMarks(n)).db.ledger.Keys <= s.phase.present
  {
    RunBounded(w, Start(dir), steps);
    var s := Exec(w, Start(dir), steps);
    assert PathsIn(s.col.pending[..n], s.phase.present);
    UpsertWithin(s.db.ledger, s.col.pending[..n], s.phase.present);
  }
}
