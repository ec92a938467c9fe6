/**
 Recoverability: whatever happened before, an agent that starts anew with its ledger settles
 after one poll, one push and one drain without failures.
 */
module Recovery {
  import opened Wrappers
  import opened Telemetry
  import opened Buffer
  import opened Collector
  import opened CollectorLaws
  import opened Worker
  import opened WorkerLaws
  import opened Ingest
  import opened IngestLaws
  import opened ExactlyOnce

  lemma {:induction false} Joined(w: World, s: Sys, a: seq<Step>, b: seq<Step>)
    requires Legal(w, s, a) && Legal(w, Exec(w, s, a), b)
    ensures Legal(w, s, a + b) && Exec(w, s, a + b) == Exec(w, Exec(w, s, a), b)
    decreases |a|
  {
    if a == [] {
      assert a + b == b;
    } else {
      assert (a + b)[1..] == a[1..] + b;
      Joined(w, Do(w, s, a[0]), a[1..], b);
    }
  }

  lemma One(w: World, s: Sys, step: Step)
    requires Enabled(w, s, step)
    ensures Legal(w, s, [step]) && Exec(w, s, [step]) == Do(w, s, step)
  {
    assert [step][1..] == [];
  }

  lemma {:induction false} Enumerated<T>(xs: set<T>) returns (q: seq<T>)
    ensures Elements(q) == xs
    decreases xs
  {
    if xs == {} {
      q := [];
    } else {
      var x :| x in xs;
      var rest := Enumerated(xs - {x});
      q := [x] + rest;
      assert Elements(q) == {x} + Elements(rest);
    }
  }

  predicate AllFixed(steps: seq<Step>) {
    forall k | 0 <= k < |steps| :: Fixed(steps[k])
  }

  /** Every file can be credited to some device. */
  ghost predicate Creditable(w: World, dir: map<string, Stamp>) {
    forall p | p in dir :: exists d :: w.credits(p, d)
  }

  predicate SeenAt(c: Col, dir: map<string, Stamp>, p: string) {
    p in dir && p in c.seen && c.seen[p] == dir[p]
  }

  // ---------------------------------------------------------------- one poll

  function Sight(w: World, p: string, stamp: Stamp, device: string): Sighting {
    Sighting(Some(stamp), Some(device), Some(stamp), Some(ParseOf(w, Mark(p, stamp), device, "")))
  }

  /** What the visits of the poll keep: nothing waits, nothing was handed back. */
  predicate Visits(s: Sys) {
    s.phase.Visiting? && s.phase.check && s.col.ledgered && s.col.deferred == map[] && s.col.requeued == []
  }

  lemma OneVisit(w: World, s: Sys) returns (step: Step)
    requires Inv(w, s) && Visits(s) && s.phase.todo != [] && s.phase.todo[0] in s.f.dir && Creditable(w, s.f.dir)
    ensures Enabled(w, s, step) && step.VisitNext?
    ensures var d := Do(w, s, step);
      && d == s.(col := d.col, phase := s.phase.(todo := s.phase.todo[1..])) && Visits(d)
      && SeenAt(d.col, s.f.dir, s.phase.todo[0])
      && forall p | SeenAt(s.col, s.f.dir, p) :: SeenAt(d.col, s.f.dir, p)
  {
    var p := s.phase.todo[0];
    var device :| w.credits(p, device);
    var sight := Sight(w, p, s.f.dir[p], device);
    step := VisitNext(sight, "");
    assert Mark(p, s.f.dir[p]) in s.f.used;
    assert !Skips(0);
  }

  lemma {:induction false} VisitsToTheEnd(w: World, s: Sys) returns (steps: seq<Step>)
    requires Inv(w, s) && Visits(s) && (forall p | p in s.phase.todo :: p in s.f.dir) && Creditable(w, s.f.dir)
    ensures Legal(w, s, steps) && AllFixed(steps)
    ensures var d := Exec(w, s, steps);
      && Inv(w, d) && Visits(d) && d == s.(col := d.col, phase := s.phase.(todo := []))
      && (forall p | p in s.phase.todo || SeenAt(s.col, s.f.dir, p) :: SeenAt(d.col, s.f.dir, p))
    decreases |s.phase.todo|
  {
    if s.phase.todo == [] {
      steps := [];
    } else {
      var step := OneVisit(w, s);
      StepKeeps(w, s, step);
      var d := Do(w, s, step);
      var rest := VisitsToTheEnd(w, d);
      One(w, s, step);
      Joined(w, s, [step], rest);
      steps := [step] + rest;
      assert s.phase.todo == [s.phase.todo[0]] + s.phase.todo[1..];
    }
  }

  /** After the poll every file is seen and the agent is idle. */
  ghost predicate Polled(w: World, s: Sys, before: Sys) {
    && Inv(w, s) && s.phase.Idle? && s.batch.None? && s.f == before.f && s.db.outbox == before.db.outbox
    && s.col.ledgered && s.col.requeued == []
    && (forall p | p in s.f.dir :: SeenAt(s.col, s.f.dir, p))
  }

  lemma StartsVisiting(w: World, s: Sys, paths: seq<string>) returns (steps: seq<Step>)
    requires Inv(w, s) && Elements(paths) == s.f.dir.Keys
    ensures Legal(w, s, steps) && AllFixed(steps)
    ensures var d := Exec(w, s, steps);
      && Inv(w, d) && Visits(d) && d.phase.todo == paths && d.phase.present == s.f.dir.Keys
      && d.f == s.f && d.db == s.db && d.batch.None?
  {
    steps := [Restart(false), BeginScan(paths)];
    var s1 := Do(w, s, Restart(false));
    StepKeeps(w, s, Restart(false));
    StepKeeps(w, s1, BeginScan(paths));
    One(w, s, Restart(false));
    One(w, s1, BeginScan(paths));
    Joined(w, s, [Restart(false)], [BeginScan(paths)]);
    assert steps == [Restart(false)] + [BeginScan(paths)];
    assert WithoutRequeued(s1.col).deferred == map[];
  }

  /** The end of the scan: rotated paths are forgotten and pending marks written, none of it failing. */
  lemma EndsTheScan(w: World, s: Sys) returns (steps: seq<Step>)
    requires Inv(w, s) && Visits(s) && s.phase.todo == [] && s.phase.present == s.f.dir.Keys && s.batch.None?
    requires forall p | p in s.f.dir :: SeenAt(s.col, s.f.dir, p)
    ensures Legal(w, s, steps) && AllFixed(steps) && Polled(w, Exec(w, s, steps), s)
  {
    var gone := Enumerated(s.col.seen.Keys - s.phase.present);
    var s1 := Do(w, s, EndVisits(gone));
    StepKeeps(w, s, EndVisits(gone));
    One(w, s, EndVisits(gone));
    assert forall p | p in s.f.dir :: SeenAt(s1.col, s.f.dir, p);
    if gone == [] {
      var flush := FlushMarks(|s1.col.pending|);
      StepKeeps(w, s1, flush);
      One(w, s1, flush);
      Joined(w, s, [EndVisits(gone)], [flush]);
      steps := [EndVisits(gone)] + [flush];
    } else {
      var more := WritesAll(w, s1);
      Joined(w, s, [EndVisits(gone)], more);
      steps := [EndVisits(gone)] + more;
    }
  }

  lemma WritesAll(w: World, s: Sys) returns (steps: seq<Step>)
    requires Inv(w, s) && s.phase.Forgetting? && s.batch.None? && s.col.ledgered && s.col.requeued == []
    requires forall p | p in s.f.dir :: SeenAt(s.col, s.f.dir, p)
    ensures Legal(w, s, steps) && AllFixed(steps) && Polled(w, Exec(w, s, steps), s)
  {
    var forget := Forget(|s.phase.gone|);
    var s1 := Do(w, s, forget);
    StepKeeps(w, s, forget);
    One(w, s, forget);
    var s2 := Do(w, s1, Filter);
    StepKeeps(w, s1, Filter);
    One(w, s1, Filter);
    var flush := FlushMarks(|s2.col.pending|);
    StepKeeps(w, s2, flush);
    One(w, s2, flush);
    Joined(w, s1, [Filter], [flush]);
    Joined(w, s, [forget], [Filter] + [flush]);
    steps := [forget] + ([Filter] + [flush]);
  }

  lemma PollsOnce(w: World, s: Sys) returns (steps: seq<Step>)
    requires Inv(w, s) && Creditable(w, s.f.dir)
    ensures Legal(w, s, steps) && AllFixed(steps) && Polled(w, Exec(w, s, steps), s)
  {
    var paths := Enumerated(s.f.dir.Keys);
    var a := StartsVisiting(w, s, paths);
    var s1 := Exec(w, s, a);
    assert forall p | p in paths :: p in Elements(paths);
    var b := VisitsToTheEnd(w, s1);
    var s2 := Exec(w, s1, b);
    assert forall p | p in s.f.dir :: p in Elements(paths);
    var c := EndsTheScan(w, s2);
    Joined(w, s1, b, c);
    Joined(w, s, a, b + c);
    steps := a + (b + c);
  }

  // ---------------------------------------------------------------- one push

  function Fine(): PartWorld {
    PartWorld({}, _ => false)
  }

  /** Nothing is pushed away, dropped or handed back. */
  predicate Unharmed(f: Facts, g: Facts) {
    g.dir == f.dir && g.evicted == f.evicted && g.dropped == f.dropped && g.givenUp == f.givenUp
  }

  ghost predicate Pushing(w: World, s: Sys) {
    Inv(w, s) && w.cap <= 0 && s.col.events == [] && s.col.marks == []
  }

  lemma OnePart(w: World, s: Sys)
    requires Pushing(w, s) && Enabled(w, s, NextPart(Fine()))
    ensures var d := Do(w, s, NextPart(Fine())); var b := s.batch.value;
      && Pushing(w, d) && Unharmed(s.f, d.f) && d.col == s.col && d.phase == s.phase
      && d.batch == (if b.next + 1 == |b.parts| then None else Some(b.(next := b.next + 1)))
  {
    var b := s.batch.value;
    var part := b.parts[b.next];
    StepKeeps(w, s, NextPart(Fine()));
    assert !Breaks(w.cap, MarksBetween(b.marks, part.start, part.end), {});
    assert Evicted(s.db.outbox, part.body.len, w.cap) == 0;
    assert EventsOfRows([]) == {} && s.db.outbox[..0] == [];
    assert EventsOf([]) == {};
    assert s.col.requeued + [] == s.col.requeued;
  }

  lemma {:induction false} PushesAll(w: World, s: Sys, left: nat) returns (steps: seq<Step>)
    requires Pushing(w, s) && (s.batch.Some? ==> left == |s.batch.value.parts| - s.batch.value.next)
    ensures Legal(w, s, steps) && AllFixed(steps)
    ensures var d := Exec(w, s, steps); Pushing(w, d) && Unharmed(s.f, d.f) && d.col == s.col && d.phase == s.phase && d.batch.None?
    decreases left
  {
    if s.batch.None? {
      steps := [];
    } else {
      OnePart(w, s);
      One(w, s, NextPart(Fine()));
      var d := Do(w, s, NextPart(Fine()));
      var rest := PushesAll(w, d, left - 1);
      Joined(w, s, [NextPart(Fine())], rest);
      steps := [NextPart(Fine())] + rest;
    }
  }

  lemma MarksNeedEvents(ms: seq<EventMark>, n: nat)
    requires EndsInOrder(ms, n)
    ensures ms != [] ==> n > 0
  {
    if ms != [] {
      assert 0 < ms[0].end <= n;
    }
  }

  lemma PushesOnce(w: World, s: Sys) returns (steps: seq<Step>)
    requires Inv(w, s) && w.cap <= 0 && s.batch.None?
    ensures Legal(w, s, steps) && AllFixed(steps)
    ensures var d := Exec(w, s, steps);
      Pushing(w, d) && Unharmed(s.f, d.f) && d.col == s.col.(events := [], marks := []) && d.phase == s.phase && d.batch.None?
  {
    var drain := DrainBatch([], [], []);
    var d := Do(w, s, drain);
    StepKeeps(w, s, drain);
    One(w, s, drain);
    assert s.col.events + [] == s.col.events;
    MarksNeedEvents(s.col.marks, |s.col.events|);
    var rest := PushesAll(w, d, if d.batch.Some? then |d.batch.value.parts| - d.batch.value.next else 0);
    Joined(w, s, [drain], rest);
    steps := [drain] + rest;
  }

  // ---------------------------------------------------------------- one drain

  lemma {:induction false} SendsAll(w: World, s: Sys) returns (steps: seq<Step>)
    requires s.batch.None?
    ensures Legal(w, s, steps) && AllFixed(steps)
    ensures var d := Exec(w, s, steps); Unharmed(s.f, d.f) && d.col == s.col && d.phase == s.phase && d.batch.None? && d.db.outbox == []
    decreases |s.db.outbox|
  {
    if s.db.outbox == [] {
      steps := [];
    } else {
      var send := SendHead(Attempt(true, true));
      One(w, s, send);
      var rest := SendsAll(w, Do(w, s, send));
      Joined(w, s, [send], rest);
      steps := [send] + rest;
    }
  }

  // ---------------------------------------------------------------- all together

  /** From any sound state of an uncapped agent with nothing evicted, dropped or given up on: a restart, a poll, a push and a drain settle. */
  lemma Recovers(w: World, s: Sys) returns (steps: seq<Step>)
    requires Inv(w, s) && w.cap <= 0 && Creditable(w, s.f.dir)
    requires s.f.evicted == {} && s.f.dropped == {} && s.f.givenUp == {}
    ensures Legal(w, s, steps) && AllFixed(steps) && Settled(Exec(w, s, steps))
  {
    var a := PollsOnce(w, s);
    var s1 := Exec(w, s, a);
    var b := PushesOnce(w, s1);
    var s2 := Exec(w, s1, b);
    var c := SendsAll(w, s2);
    Joined(w, s1, b, c);
    Joined(w, s, a, b + c);
    steps := a + (b + c);
    assert forall p | p in s.f.dir :: SeenAt(s1.col, s.f.dir, p);
  }

  /**
   Recoverability: after every run over a fixed directory that gave up on nothing, crashes, failed
   inserts and lifetimes without a ledger included, some continuation without failures ends
   settled, and then the cloud holds exactly the keys of the files.
   */
  lemma EveryRunCanStillDeliverExactly(w: World, dir: map<string, Stamp>, steps: seq<Step>) returns (more: seq<Step>)
    requires StableCredit(w) && Creditable(w, dir) && w.cap <= 0
    requires Legal(w, Start(dir), steps) && AllFixed(steps)
    requires var f := Exec(w, Start(dir), steps).f; f.evicted == {} && f.dropped == {} && f.givenUp == {}
    ensures SettledRun(w, dir, steps + more)
    ensures forall key :: Delivered(Exec(w, Start(dir), steps + more).f, key) <==> Owed(w, dir, key)
  {
    more := SettlesFrom(w, dir, steps);
    DeliversAllOwed(w, dir, steps + more);
  }

  lemma SettlesFrom(w: World, dir: map<string, Stamp>, steps: seq<Step>) returns (more: seq<Step>)
    requires StableCredit(w) && Creditable(w, dir) && w.cap <= 0
    requires Legal(w, Start(dir), steps) && AllFixed(steps)
    requires var f := Exec(w, Start(dir), steps).f; f.evicted == {} && f.dropped == {} && f.givenUp == {}
    ensures SettledRun(w, dir, steps + more)
  {
    StartInv(w, dir);
    StartSourced(w, dir);
    RunSourced(w, Start(dir), steps);
    more := Recovers(w, Exec(w, Start(dir), steps));
    Joined(w, Start(dir), steps, more);
    BothFixed(steps, more);
  }

  lemma BothFixed(a: seq<Step>, b: seq<Step>)
    requires AllFixed(a) && AllFixed(b)
    ensures AllFixed(a + b)
  {
  }

  lemma DeliversAllOwed(w: World, dir: map<string, Stamp>, steps: seq<Step>)
    requires SettledRun(w, dir, steps)
    ensures forall key :: Delivered(Exec(w, Start(dir), steps).f, key) <==> Owed(w, dir, key)
  {
    forall key ensures Delivered(Exec(w, Start(dir), steps).f, key) <==> Owed(w, dir, key) {
      DeliversExactlyTheOwedKeys(w, dir, steps, key);
    }
  }

  lemma StartSourced(w: World, dir: map<string, Stamp>)
    ensures Sourced(w, Start(dir))
  {
  }
}
