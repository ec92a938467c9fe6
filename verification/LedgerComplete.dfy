/**
 The ledger does not fall behind: with a directory that stays as it is, the mark of every seen
 upload is in the ledger or on its way there, so a settled agent's restart parses nothing again.
 */
module LedgerComplete {
  import opened Wrappers
  import opened Telemetry
  import opened Buffer
  import opened Collector
  import opened CollectorLaws
  import opened Worker
  import opened WorkerLaws
  import opened Ingest
  import opened IngestLaws
  import opened ExactlyOnce
  import opened Intakes

  /** Every version that ever was is still in place. */
  predicate AllCurrent(f: Facts) {
    forall m | m in f.used :: Current(f, m)
  }

  /** In the ledger, or waiting to be written with no events, queued, in the worker's hands, or handed back. */
  ghost predicate OnItsWay(s: Sys, m: Mark) {
    || m.path in s.db.ledger
    || m in s.col.pending || HasMark(s.col.marks, m, 0) || InBatch(s.batch, m) || m in s.col.requeued
  }

  ghost predicate NotBehind(s: Sys) {
    s.col.ledgered ==> forall p | p in s.col.seen :: OnItsWay(s, Mark(p, s.col.seen[p]))
  }

  /** Paths about to be forgotten are no longer seen. */
  predicate GoneAreUnseen(s: Sys) {
    s.phase.Forgetting? ==> forall p | p in s.phase.gone :: p !in s.col.seen
  }

  ghost predicate Keeping(w: World, s: Sys) {
    Inv(w, s) && Remembers(s) && NotBehind(s) && GoneAreUnseen(s) && AllCurrent(s.f)
  }

  lemma QueuedMarksStay(ms: seq<EventMark>, more: seq<EventMark>, m: Mark)
    requires HasMark(ms, m, 0)
    ensures HasMark(ms + more, m, 0)
  {
    var k :| 0 <= k < |ms| && ms[k].mark == m && ms[k].end > 0;
    assert (ms + more)[k] == ms[k];
  }

  /** A visit only adds marks, and the one it makes is queued or pending. */
  lemma VisitMarksItsFile(c: Col, p: string, sight: Sighting, check: bool)
    requires c.ledgered
    ensures var d := Visit(c, p, sight, check);
      && c.marks <= d.marks && c.pending <= d.pending && d.requeued == c.requeued
      && (forall q | q in d.seen && q != p :: q in c.seen && d.seen[q] == c.seen[q])
      && (p in d.seen ==>
            || (p in c.seen && d.seen[p] == c.seen[p])
            || Mark(p, d.seen[p]) in d.pending || HasMark(d.marks, Mark(p, d.seen[p]), 0))
  {
    var d := Visit(c, p, sight, check);
    if d.marks != c.marks {
      assert d.marks[|d.marks| - 1].mark == Mark(p, d.seen[p]) && d.marks[|d.marks| - 1].end > 0;
    }
  }

  lemma VisitKeepsPace(w: World, s: Sys, sight: Sighting, now: string)
    requires Keeping(w, s) && Enabled(w, s, VisitNext(sight, now))
    ensures NotBehind(AfterVisit(s, sight))
  {
    var d := AfterVisit(s, sight);
    var p := s.phase.todo[0];
    if s.col.ledgered {
      VisitMarksItsFile(s.col, p, sight, s.phase.check);
      forall q | q in d.col.seen ensures OnItsWay(d, Mark(q, d.col.seen[q])) {
        var m := Mark(q, d.col.seen[q]);
        if q in s.col.seen && d.col.seen[q] == s.col.seen[q] {
          assert OnItsWay(s, m);
          if HasMark(s.col.marks, m, 0) {
            QueuedMarksStay(s.col.marks, d.col.marks[|s.col.marks|..], m);
            assert d.col.marks == s.col.marks + d.col.marks[|s.col.marks|..];
          }
        }
      }
    }
  }

  lemma FilterKeepsPace(w: World, s: Sys)
    requires Keeping(w, s) && Enabled(w, s, Filter)
    ensures NotBehind(Do(w, s, Filter))
  {
    var d := Do(w, s, Filter);
    PresentEventMarksAre(s.col.marks, s.phase.present);
    PresentMarksAre(s.col.pending, s.phase.present);
    if s.col.ledgered {
      forall q | q in d.col.seen ensures OnItsWay(d, Mark(q, d.col.seen[q])) {
        var m := Mark(q, d.col.seen[q]);
        assert OnItsWay(s, m);
        if HasMark(s.col.marks, m, 0) {
          var k :| 0 <= k < |s.col.marks| && s.col.marks[k].mark == m && s.col.marks[k].end > 0;
          assert s.col.marks[k] in d.col.marks;
        }
      }
    }
  }

  lemma FlushKeepsPace(w: World, s: Sys, n: nat)
    requires Keeping(w, s) && Enabled(w, s, FlushMarks(n))
    ensures NotBehind(Do(w, s, FlushMarks(n)))
  {
    UpsertKeys(s.db.ledger, s.col.pending[..n]);
    var d := Do(w, s, FlushMarks(n));
    if s.col.ledgered {
      forall q | q in d.col.seen ensures OnItsWay(d, Mark(q, d.col.seen[q])) {
        var m := Mark(q, d.col.seen[q]);
        assert OnItsWay(s, m);
        if n == |s.col.pending| && m in s.col.pending {
          assert s.col.pending[..n] == s.col.pending;
          assert m.path in d.db.ledger;
        }
      }
    }
  }

  lemma DrainKeepsPace(w: World, s: Sys, step: Step)
    requires Keeping(w, s) && step.DrainBatch? && Enabled(w, s, step)
    ensures NotBehind(Do(w, s, step))
  {
    var d := Do(w, s, step);
    if d != s && s.col.ledgered {
      var req := Request(step.metrics, s.col.events + step.cwmp, step.alarms);
      SplitIsExact(w.size, PartLimit(w.cap), req, 0);
      assert d == AfterDrain(w, s, req);
      forall q | q in d.col.seen ensures OnItsWay(d, Mark(q, d.col.seen[q])) {
        var m := Mark(q, d.col.seen[q]);
        assert OnItsWay(s, m);
        assert HasMark(s.col.marks, m, 0) ==> InBatch(d.batch, m);
      }
    }
  }

  /** A mark of the part is written or handed back; when the batch ends, so is every later one. */
  lemma MarkIsDecided(db: Db, cap: int, p: Part, ms: seq<EventMark>, total: nat, pw: PartWorld, m: Mark)
    ensures var d := PartDone(Started(db), cap, p, ms, total, pw);
      && (!d.stopped && m in MarksBetween(ms, p.start, p.end) ==> m.path in d.db.ledger || m in d.returned)
      && (d.stopped && m in MarksBetween(ms, p.start, total) ==> m in d.returned)
  {
    var marks := MarksBetween(ms, p.start, p.end);
    UpsertKeys(db.ledger, marks);
    assert marks[..|marks|] == marks;
  }

  /** A part decides each of its marks: into the ledger, or back to the collector. */
  lemma PartDecides(w: World, s: Sys, pw: PartWorld, m: Mark)
    requires Inv(w, s) && Enabled(w, s, NextPart(pw)) && InBatch(s.batch, m)
    ensures var d := AfterPart(w, s, pw);
      m.path in d.db.ledger || m in d.col.requeued || InBatch(d.batch, m)
  {
    var b := s.batch.value;
    var p := b.parts[b.next];
    PartFacts(w, b, s.f);
    MarkIsDecided(s.db, w.cap, p, b.marks, |b.req.events|, pw, m);
    var k :| 0 <= k < |b.marks| && b.marks[k].mark == m && b.marks[k].end > p.start;
    assert b.marks[k].end <= |b.req.events|;
    BetweenMember(b.marks, p.start, |b.req.events|, m);
    if b.marks[k].end <= p.end {
      BetweenMember(b.marks, p.start, p.end, m);
    } else {
      assert HasMark(b.marks, m, p.end);
    }
  }

  lemma KeysStay(w: World, s: Sys, pw: PartWorld)
    requires Enabled(w, s, NextPart(pw))
    ensures s.db.ledger.Keys <= AfterPart(w, s, pw).db.ledger.Keys
  {
    var b := s.batch.value;
    var marks := MarksBetween(b.marks, b.parts[b.next].start, b.parts[b.next].end);
    UpsertKeys(s.db.ledger, marks);
    UpsertKeys(s.db.ledger, marks[..Written(|marks|, 0, pw.fails)]);
  }

  lemma PartKeepsPace(w: World, s: Sys, pw: PartWorld)
    requires Keeping(w, s) && Enabled(w, s, NextPart(pw))
    ensures NotBehind(AfterPart(w, s, pw))
  {
    var d := AfterPart(w, s, pw);
    KeysStay(w, s, pw);
    if s.col.ledgered {
      forall q | q in d.col.seen ensures OnItsWay(d, Mark(q, d.col.seen[q])) {
        var m := Mark(q, d.col.seen[q]);
        assert OnItsWay(s, m);
        if InBatch(s.batch, m) {
          PartDecides(w, s, pw, m);
        }
      }
    }
  }

  lemma OtherKeepsPace(w: World, s: Sys, step: Step)
    requires Keeping(w, s) && Enabled(w, s, step)
    requires step.FailedScan? || step.BeginScan? || step.EndVisits? || step.Forget? || step.SendHead? || step.Restart?
    ensures NotBehind(Do(w, s, step))
  {
    var d := Do(w, s, step);
    if d.col.ledgered && !step.Restart? {
      forall q | q in d.col.seen ensures OnItsWay(d, Mark(q, d.col.seen[q])) {
        assert q in s.col.seen && d.col.seen[q] == s.col.seen[q];
        assert OnItsWay(s, Mark(q, s.col.seen[q]));
      }
    }
  }

  lemma StepKeepsPace(w: World, s: Sys, step: Step)
    requires Keeping(w, s) && Enabled(w, s, step) && Fixed(step)
    ensures Keeping(w, Do(w, s, step))
  {
    StepKeeps(w, s, step);
    StepRemembers(w, s, step);
    match step {
      case VisitNext(sight, now) => VisitKeepsPace(w, s, sight, now);
      case Filter => FilterKeepsPace(w, s);
      case FlushMarks(n) => FlushKeepsPace(w, s, n);
      case DrainBatch(cwmp, metrics, alarms) => DrainKeepsPace(w, s, step);
      case NextPart(pw) => PartKeepsPace(w, s, pw);
      case _ => OtherKeepsPace(w, s, step);
    }
    FixedFacts(w, s, step);
    StaysUnseen(w, s, step);
  }

  lemma FixedFacts(w: World, s: Sys, step: Step)
    requires Enabled(w, s, step) && Fixed(step)
    ensures Do(w, s, step).f.dir == s.f.dir && Do(w, s, step).f.used == s.f.used
  {
  }

  lemma StaysUnseen(w: World, s: Sys, step: Step)
    requires Enabled(w, s, step) && GoneAreUnseen(s)
    ensures GoneAreUnseen(Do(w, s, step))
  {
    if step.EndVisits? {
      assert forall p | p in step.gone :: p in Elements(step.gone);
    }
  }

  lemma {:induction false} RunKeepsPace(w: World, s: Sys, steps: seq<Step>)
    requires Keeping(w, s) && Legal(w, s, steps) && forall k | 0 <= k < |steps| :: Fixed(steps[k])
    ensures Keeping(w, Exec(w, s, steps)) && Exec(w, s, steps).f.dir == s.f.dir
    decreases |steps|
  {
    if steps != [] {
      StepKeepsPace(w, s, steps[0]);
      FixedFacts(w, s, steps[0]);
      RunKeepsPace(w, Do(w, s, steps[0]), steps[1..]);
    }
  }

  /**
   Over every run with a fixed directory, with a ledger: the mark of each seen upload is in the
   ledger, at the file's own stamp, or is pending, queued, in the undecided batch, or handed back.
   */
  lemma SeenUploadsAreMarked(w: World, dir: map<string, Stamp>, steps: seq<Step>, p: string)
    requires Legal(w, Start(dir), steps) && forall k | 0 <= k < |steps| :: Fixed(steps[k])
    requires var s := Exec(w, Start(dir), steps); s.col.ledgered && p in s.col.seen
    ensures var s := Exec(w, Start(dir), steps); var m := Mark(p, s.col.seen[p]);
      && p in dir && dir[p] == m.stamp
      && (|| (p in s.db.ledger && s.db.ledger[p] == m.stamp)
          || m in s.col.pending || HasMark(s.col.marks, m, 0) || InBatch(s.batch, m) || m in s.col.requeued)
  {
    StartInv(w, dir);
    RunKeepsPace(w, Start(dir), steps);
    var s := Exec(w, Start(dir), steps);
    assert OnItsWay(s, Mark(p, s.col.seen[p]));
    assert Current(s.f, Mark(p, s.col.seen[p]));
    if p in s.db.ledger {
      assert Current(s.f, Mark(p, s.db.ledger[p]));
    }
  }

  /** So once an agent has settled and written its marks, the ledger is the directory: a restart finds every file in it. */
  lemma SettledLedgerIsTheDirectory(w: World, dir: map<string, Stamp>, steps: seq<Step>)
    requires SettledRun(w, dir, steps) && Exec(w, Start(dir), steps).col.pending == []
    ensures var ledger := Exec(w, Start(dir), steps).db.ledger; forall p | p in dir :: p in ledger && ledger[p] == dir[p]
  {
    StartInv(w, dir);
    RunKeepsPace(w, Start(dir), steps);
    var s := Exec(w, Start(dir), steps);
    forall p | p in dir ensures p in s.db.ledger && s.db.ledger[p] == dir[p] {
      SeenUploadsAreMarked(w, dir, steps, p);
    }
  }
}
