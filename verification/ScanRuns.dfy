/** The scan's bookkeeping in every reachable state of the system, and after every scan of a run. */
module ScanRuns {
  import opened Telemetry
  import opened Buffer
  import opened Collector
  import opened CollectorLaws
  import opened Worker
  import opened Ingest

  /** Once a scan has cleaned up, and until it ends, the bookkeeping lies within its listing. */
  ghost predicate Bounded(s: Sys) {
    match s.phase
    case Forgetting(_, present) => Within(s.col, present)
    case Filtering(present) => Within(s.col, present)
    case Flushing(present) => Within(s.col, present)
    case _ => true
  }

  ghost predicate Kept(s: Sys) {
    Bookkeeping(s.col) && Bounded(s)
  }

  lemma VisitKept(w: World, s: Sys, sight: Sighting, now: string)
    requires Kept(s) && Enabled(w, s, VisitNext(sight, now))
    ensures Kept(Do(w, s, VisitNext(sight, now)))
  {
    VisitKeeps(s.col, s.phase.todo[0], sight, s.phase.check);
  }

  lemma FilterKept(w: World, s: Sys)
    requires Kept(s) && Enabled(w, s, Filter)
    ensures Kept(Do(w, s, Filter))
  {
    CollectorLaws.FilterKeeps(s.col, s.phase.present);
  }

  lemma StepKept(w: World, s: Sys, step: Step)
    requires Kept(s) && Enabled(w, s, step)
    ensures Kept(Do(w, s, step))
  {
    match step {
      case VisitNext(sight, now) => VisitKept(w, s, sight, now);
      case Filter => FilterKept(w, s);
      case NextPart(pw) => assert AfterPart(w, s, pw).col == s.col.(requeued := AfterPart(w, s, pw).col.requeued);
      case _ =>
    }
  }

  lemma {:induction false} RunKept(w: World, s: Sys, steps: seq<Step>)
    requires Kept(s) && Legal(w, s, steps)
    ensures Kept(Exec(w, s, steps))
    decreases |steps|
  {
    if steps != [] {
      StepKept(w, s, steps[0]);
      RunKept(w, Do(w, s, steps[0]), steps[1..]);
    }
  }

  /** In every reachable state: seen is apart from waiting, retries stay below the limit, mark ends increase and stay within the events. */
  lemma BookkeepingAlways(w: World, dir: map<string, Stamp>, steps: seq<Step>)
    requires Legal(w, Start(dir), steps)
    ensures Bookkeeping(Exec(w, Start(dir), steps).col)
  {
    RunKept(w, Start(dir), steps);
  }

  /** The step that ends a scan: the clean-up when there is no ledger, else the writing of pending marks. */
  predicate EndsScan(w: World, s: Sys, step: Step) {
    Enabled(w, s, step) && ((step.EndVisits? && !s.col.ledgered) || step.FlushMarks?)
  }

  /** Whenever a scan of a run ends, what the collector remembers of paths lies within what that scan listed. */
  lemma EveryScanEndsWithinItsListing(w: World, dir: map<string, Stamp>, steps: seq<Step>, last: Step)
    requires Legal(w, Start(dir), steps) && EndsScan(w, Exec(w, Start(dir), steps), last)
    ensures var s := Exec(w, Start(dir), steps);
      Within(Do(w, s, last).col, s.phase.present) && Bookkeeping(Do(w, s, last).col)
  {
    RunKept(w, Start(dir), steps);
    StepKept(w, Exec(w, Start(dir), steps), last);
  }

  /** From every reachable state, 30 polls that find p at stamp s include one that records it. */
  lemma TakenInFromEveryReachableState(w: World, dir: map<string, Stamp>, steps: seq<Step>, cs: seq<Col>, polls: seq<CollectorLaws.Poll>, p: string, s: Stamp)
    requires Legal(w, Start(dir), steps) && PollRun(cs, polls, p, s) && |polls| == 30
    requires cs[0] == Exec(w, Start(dir), steps).col
    ensures exists k | 0 < k <= 30 :: p in cs[k].seen && cs[k].seen[p] == s
  {
    BookkeepingAlways(w, dir, steps);
    TakenInWithinThirtyPolls(cs, polls, p, s);
  }
}
