/**
 How often one version of an upload is taken in: once, plus once for each restart that does not
 find it in the ledger and for each time the worker hands its mark back.
 */
module Intakes {
  import opened Wrappers
  import opened Telemetry
  import opened Buffer
  import opened Collector
  import opened Worker
  import opened WorkerLaws
  import opened Ingest

  /** The visit queues events of the version while it is in place. */
  predicate TakesIn(w: World, s: Sys, step: Step, m: Mark)
    requires Enabled(w, s, step)
  {
    && step.VisitNext? && Current(s.f, m) && s.phase.todo[0] == m.path && step.s.stamp == Some(m.stamp)
    && |Do(w, s, step).col.events| > |s.col.events|
  }

  function Intakes(w: World, s: Sys, steps: seq<Step>, m: Mark): nat
    requires Legal(w, s, steps)
    decreases |steps|
  {
    if steps == [] then 0
    else (if TakesIn(w, s, steps[0], m) then 1 else 0) + Intakes(w, Do(w, s, steps[0]), steps[1..], m)
  }

  /** A restart after which the agent does not know the version: its ledger was not loaded, or does not hold it. */
  predicate Forgets(s: Sys, step: Step, m: Mark) {
    step.Restart? && (step.loadFails || !(m.path in s.db.ledger && s.db.ledger[m.path] == m.stamp))
  }

  function Forgotten(w: World, s: Sys, steps: seq<Step>, m: Mark): nat
    requires Legal(w, s, steps)
    decreases |steps|
  {
    if steps == [] then 0 else (if Forgets(s, steps[0], m) then 1 else 0) + Forgotten(w, Do(w, s, steps[0]), steps[1..], m)
  }

  /** How often the step hands the mark back. */
  function Returns(w: World, s: Sys, step: Step, m: Mark): nat
    requires Enabled(w, s, step)
  {
    if step.NextPart? then multiset(PartOutcome(w, s, step.part).returned)[m] else 0
  }

  function HandedBack(w: World, s: Sys, steps: seq<Step>, m: Mark): nat
    requires Legal(w, s, steps)
    decreases |steps|
  {
    if steps == [] then 0 else Returns(w, s, steps[0], m) + HandedBack(w, Do(w, s, steps[0]), steps[1..], m)
  }

  /** While the version is in place a listing holds its path, and a visit that reads the file's stamp reads the version's. */
  predicate InSight(s: Sys, step: Step, m: Mark) {
    Current(s.f, m) ==>
      match step
      case BeginScan(paths) => m.path in paths
      case VisitNext(sight, _) =>
        s.phase.Visiting? && s.phase.todo != [] && s.phase.todo[0] == m.path ==>
          sight.again in {None, Some(m.stamp)} && sight.stamp in {None, Some(m.stamp)}
      case _ => true
  }

  ghost predicate AlwaysInSight(w: World, s: Sys, steps: seq<Step>, m: Mark)
    requires Legal(w, s, steps)
    decreases |steps|
  {
    steps == [] || (InSight(s, steps[0], m) && AlwaysInSight(w, Do(w, s, steps[0]), steps[1..], m))
  }

  // ---------------------------------------------------------------- what is remembered was there

  predicate MarksUsed(f: Facts, ms: seq<EventMark>) {
    forall k | 0 <= k < |ms| :: ms[k].mark in f.used
  }

  /** Every stamp the agent remembers anywhere is one the file had. */
  predicate Remembers(s: Sys) {
    && (forall p | p in s.col.seen :: Mark(p, s.col.seen[p]) in s.f.used)
    && (forall p | p in s.db.ledger :: Mark(p, s.db.ledger[p]) in s.f.used)
    && (forall m | m in s.col.pending :: m in s.f.used)
    && (forall m | m in s.col.requeued :: m in s.f.used)
    && MarksUsed(s.f, s.col.marks)
    && (s.batch.Some? ==> MarksUsed(s.f, s.batch.value.marks))
  }

  lemma {:induction false} BetweenUsed(f: Facts, ms: seq<EventMark>, start: nat, end: nat)
    requires MarksUsed(f, ms)
    ensures forall m | m in MarksBetween(ms, start, end) :: m in f.used
  {
    if ms != [] {
      assert forall k | 0 <= k < |ms[1..]| :: ms[1..][k] == ms[k + 1];
      BetweenUsed(f, ms[1..], start, end);
    }
  }

  lemma {:induction false} PresentUsed(f: Facts, ms: seq<EventMark>, present: set<string>)
    requires MarksUsed(f, ms)
    ensures MarksUsed(f, PresentEventMarks(ms, present))
  {
    if ms != [] {
      assert forall k | 0 <= k < |ms[1..]| :: ms[1..][k] == ms[k + 1];
      PresentUsed(f, ms[1..], present);
    }
  }

  lemma {:induction false} PendingUsed(ms: seq<Mark>, present: set<string>)
    ensures forall m | m in PresentMarks(ms, present) :: m in ms
  {
    if ms != [] {
      PendingUsed(ms[1..], present);
    }
  }

  lemma UpsertUsed(f: Facts, ledger: map<string, Stamp>, ms: seq<Mark>)
    requires (forall p | p in ledger :: Mark(p, ledger[p]) in f.used) && forall m | m in ms :: m in f.used
    ensures forall p | p in Upsert(ledger, ms) :: Mark(p, Upsert(ledger, ms)[p]) in f.used
  {
    forall p | p in Upsert(ledger, ms) ensures Mark(p, Upsert(ledger, ms)[p]) in f.used {
      UpsertEntry(ledger, ms, p);
    }
  }

  lemma PartRemembers(w: World, s: Sys, pw: PartWorld)
    requires Remembers(s) && Enabled(w, s, NextPart(pw))
    ensures Remembers(AfterPart(w, s, pw))
  {
    var b := s.batch.value;
    var p := b.parts[b.next];
    var marks := MarksBetween(b.marks, p.start, p.end);
    BetweenUsed(s.f, b.marks, p.start, p.end);
    BetweenUsed(s.f, b.marks, p.start, |b.req.events|);
    UpsertUsed(s.f, s.db.ledger, marks);
    UpsertUsed(s.f, s.db.ledger, marks[..Written(|marks|, 0, pw.fails)]);
  }

  lemma VisitRemembers(w: World, s: Sys, sight: Sighting, now: string)
    requires Remembers(s) && Enabled(w, s, VisitNext(sight, now))
    ensures Remembers(AfterVisit(s, sight))
  {
  }

  lemma StepRemembers(w: World, s: Sys, step: Step)
    requires Remembers(s) && Enabled(w, s, step)
    ensures Remembers(Do(w, s, step))
  {
    match step {
      case VisitNext(sight, now) => VisitRemembers(w, s, sight, now);
      case Filter =>
        PresentUsed(s.f, s.col.marks, s.phase.present);
        PendingUsed(s.col.pending, s.phase.present);
      case FlushMarks(n) => UpsertUsed(s.f, s.db.ledger, s.col.pending[..n]);
      case NextPart(pw) => PartRemembers(w, s, pw);
      case _ =>
    }
  }

  // ---------------------------------------------------------------- the budget of a version

  function SeenAt(s: Sys, m: Mark): nat {
    if m.path in s.col.seen && s.col.seen[m.path] == m.stamp then 1 else 0
  }

  /** How often the version may still be taken in before anything else happens. */
  function Open(s: Sys, m: Mark): int {
    1 - SeenAt(s, m) + multiset(s.col.requeued)[m]
  }

  /** A scan that did not list the path does not visit it, and does not remember the version. */
  predicate Unlisted(s: Sys, m: Mark) {
    s.phase.Visiting? ==>
      (forall p | p in s.phase.todo :: p in s.phase.present) && (m.path !in s.phase.present ==> SeenAt(s, m) == 0)
  }

  /** The version is in place or still to come. */
  predicate Live(f: Facts, m: Mark) {
    Current(f, m) || m !in f.used
  }

  lemma TakenBack(c: Col, m: Mark)
    ensures WithoutRequeued(c).requeued == []
    ensures m.path in WithoutRequeued(c).seen && WithoutRequeued(c).seen[m.path] == m.stamp
      <==> (m.path in c.seen && c.seen[m.path] == m.stamp && m !in c.requeued)
  {
  }

  lemma VisitOpens(w: World, s: Sys, step: Step, m: Mark)
    requires step.VisitNext? && Enabled(w, s, step) && Remembers(s) && Unlisted(s, m) && InSight(s, step, m) && Live(s.f, m)
    ensures Open(Do(w, s, step), m) + (if TakesIn(w, s, step, m) then 1 else 0) <= Open(s, m)
    ensures Unlisted(Do(w, s, step), m)
  {
    var d := AfterVisit(s, step.s);
    assert d.col.requeued == s.col.requeued;
    if s.phase.todo[0] == m.path {
      assert s.phase.todo[0] in s.phase.todo;
    }
  }

  lemma PartOpens(w: World, s: Sys, step: Step, m: Mark)
    requires step.NextPart? && Enabled(w, s, step)
    ensures Open(Do(w, s, step), m) <= Open(s, m) + Returns(w, s, step, m)
  {
    assert multiset(s.col.requeued + PartOutcome(w, s, step.part).returned)
      == multiset(s.col.requeued) + multiset(PartOutcome(w, s, step.part).returned);
  }

  lemma StepOpens(w: World, s: Sys, step: Step, m: Mark)
    requires Enabled(w, s, step) && Remembers(s) && Unlisted(s, m) && InSight(s, step, m) && Live(s.f, m)
    ensures Unlisted(Do(w, s, step), m)
    ensures Open(Do(w, s, step), m) + (if TakesIn(w, s, step, m) then 1 else 0)
      <= Open(s, m) + (if Forgets(s, step, m) then 1 else 0) + Returns(w, s, step, m)
  {
    match step {
      case VisitNext(sight, now) => VisitOpens(w, s, step, m);
      case NextPart(pw) => PartOpens(w, s, step, m);
      case FailedScan => TakenBack(s.col, m);
      case BeginScan(paths) => TakenBack(s.col, m);
      case _ =>
    }
  }

  /** A version that was replaced or removed never comes back. */
  lemma StaleStays(w: World, s: Sys, step: Step, m: Mark)
    requires Enabled(w, s, step) && !Live(s.f, m)
    ensures !Live(Do(w, s, step).f, m)
  {
  }

  lemma {:induction false} StaleIsNotTakenIn(w: World, s: Sys, steps: seq<Step>, m: Mark)
    requires Legal(w, s, steps) && !Live(s.f, m)
    ensures Intakes(w, s, steps, m) == 0
    decreases |steps|
  {
    if steps != [] {
      StaleStays(w, s, steps[0], m);
      StaleIsNotTakenIn(w, Do(w, s, steps[0]), steps[1..], m);
    }
  }

  lemma {:induction false} RunOpens(w: World, s: Sys, steps: seq<Step>, m: Mark)
    requires Legal(w, s, steps) && AlwaysInSight(w, s, steps, m) && Remembers(s) && Unlisted(s, m) && Live(s.f, m)
    ensures Intakes(w, s, steps, m) <= Open(s, m) + Forgotten(w, s, steps, m) + HandedBack(w, s, steps, m)
    decreases |steps|
  {
    if steps != [] {
      StepOpens(w, s, steps[0], m);
      StepRemembers(w, s, steps[0]);
      var d := Do(w, s, steps[0]);
      if Live(d.f, m) {
        RunOpens(w, d, steps[1..], m);
      } else {
        StaleIsNotTakenIn(w, d, steps[1..], m);
      }
    }
  }

  /** Over every run: a version in place is taken in at most once, plus once for each restart that does not find it in the ledger and each time its mark is handed back. */
  lemma TakenInAtMostOnce(w: World, dir: map<string, Stamp>, steps: seq<Step>, m: Mark)
    requires Legal(w, Start(dir), steps) && AlwaysInSight(w, Start(dir), steps, m)
    ensures Intakes(w, Start(dir), steps, m) <= 1 + Forgotten(w, Start(dir), steps, m) + HandedBack(w, Start(dir), steps, m)
  {
    if Live(Start(dir).f, m) {
      RunOpens(w, Start(dir), steps, m);
    } else {
      StaleIsNotTakenIn(w, Start(dir), steps, m);
    }
  }
}
