/** Undisturbed, the steps of the system add up to the operations of its parts: a scan, a batch, a drain. */
module Refinement {
  import opened Wrappers
  import opened Telemetry
  import opened Buffer
  import opened Collector
  import opened Worker
  import opened WorkerLaws
  import opened Ingest

  lemma {:induction false} ExecConcat(w: World, s: Sys, a: seq<Step>, b: seq<Step>)
    requires Legal(w, s, a + b)
    ensures Legal(w, s, a) && Legal(w, Exec(w, s, a), b) && Exec(w, s, a + b) == Exec(w, Exec(w, s, a), b)
    decreases |a|
  {
    if a == [] {
      assert a + b == b;
    } else {
      assert (a + b)[1..] == a[1..] + b;
      ExecConcat(w, Do(w, s, a[0]), a[1..], b);
    }
  }

  lemma ExecCons(w: World, s: Sys, step: Step, rest: seq<Step>)
    requires Legal(w, s, [step] + rest)
    ensures Enabled(w, s, step) && Legal(w, Do(w, s, step), rest) && Exec(w, s, [step] + rest) == Exec(w, Do(w, s, step), rest)
  {
    assert ([step] + rest)[1..] == rest;
  }

  // ---------------------------------------------------------------- a scan

  /** How a scan ends once its visits are done: the clean-up, and with a ledger the writes, which reach as far as their chunks allow. */
  function Closing(c: Col, present: set<string>, gone: seq<string>, forgetFails: nat -> bool, markFails: nat -> bool): seq<Step> {
    var f := Flushable(Rotated(c, present), present, gone);
    var flush := [FlushMarks(Written(|f.pending|, 0, markFails))];
    if !c.ledgered then [EndVisits(gone)]
    else if gone == [] then [EndVisits(gone)] + flush
    else [EndVisits(gone)] + ([Forget(Written(|gone|, 0, forgetFails))] + ([Filter] + flush))
  }

  lemma ClosingPersists(w: World, s: Sys, gone: seq<string>, forgetFails: nat -> bool, markFails: nat -> bool)
    requires s.phase.Visiting? && s.phase.todo == [] && s.col.ledgered
    requires Legal(w, s, Closing(s.col, s.phase.present, gone, forgetFails, markFails))
    ensures var present := s.phase.present; var c := Rotated(s.col, present);
      var d := Exec(w, s, Closing(s.col, present, gone, forgetFails, markFails));
      && d.col == Persisted(c, present, gone, markFails)
      && d.db.ledger == PersistedLedger(s.db.ledger, c, present, gone, forgetFails, markFails)
      && d.phase == Idle
  {
    var present := s.phase.present;
    var c := Rotated(s.col, present);
    var f := Flushable(c, present, gone);
    var flush := FlushMarks(Written(|f.pending|, 0, markFails));
    if gone == [] {
      ExecCons(w, s, EndVisits(gone), [flush]);
      ExecCons(w, Do(w, s, EndVisits(gone)), flush, []);
      assert gone[..Written(|gone|, 0, forgetFails)] == [];
      assert s.db.ledger - Elements([]) == s.db.ledger;
    } else {
      var forget := Forget(Written(|gone|, 0, forgetFails));
      ExecCons(w, s, EndVisits(gone), [forget] + ([Filter] + [flush]));
      var s1 := Do(w, s, EndVisits(gone));
      ExecCons(w, s1, forget, [Filter] + [flush]);
      var s2 := Do(w, s1, forget);
      ExecCons(w, s2, Filter, [flush]);
      var s3 := Do(w, s2, Filter);
      ExecCons(w, s3, flush, []);
    }
  }

  function PollSteps(c: Col, paths: seq<string>, world: string -> Sighting, now: string, gone: seq<string>,
                     forgetFails: nat -> bool, markFails: nat -> bool): seq<Step> {
    [BeginScan(paths)] + (VisitSteps(paths, world, now) + Closing(Visited(c, paths, world), Elements(paths), gone, forgetFails, markFails))
  }

  /** An undisturbed poll of the system is the collector's ScanFTP. */
  lemma PollIsScan(w: World, s: Sys, paths: seq<string>, world: string -> Sighting, now: string, gone: seq<string>,
                   forgetFails: nat -> bool, markFails: nat -> bool)
    requires Legal(w, s, PollSteps(s.col, paths, world, now, gone, forgetFails, markFails))
    ensures var d := Exec(w, s, PollSteps(s.col, paths, world, now, gone, forgetFails, markFails));
      var c := Scanned(s.col, paths, world);
      if s.col.ledgered then
        && d.col == Persisted(c, Elements(paths), gone, markFails)
        && d.db.ledger == PersistedLedger(s.db.ledger, c, Elements(paths), gone, forgetFails, markFails)
      else d.col == c && d.db == s.db
  {
    var visits := VisitSteps(paths, world, now);
    var closing := Closing(Visited(s.col, paths, world), Elements(paths), gone, forgetFails, markFails);
    ExecCons(w, s, BeginScan(paths), visits + closing);
    var s1 := Do(w, s, BeginScan(paths));
    ExecConcat(w, s1, visits, closing);
    VisitsAreVisitAll(w, s1, paths, world, now);
    var s2 := Exec(w, s1, visits);
    assert s2.col == Visited(s.col, paths, world);
    VisitAllLedgered(s1.col, paths, world, s1.phase.check);
    if s.col.ledgered {
      ClosingPersists(w, s2, gone, forgetFails, markFails);
    } else {
      ExecCons(w, s2, EndVisits(gone), []);
    }
  }

  lemma {:induction false} VisitAllLedgered(c: Col, paths: seq<string>, world: string -> Sighting, check: bool)
    ensures VisitAll(c, paths, world, check).ledgered == c.ledgered
    decreases |paths|
  {
    if paths != [] {
      VisitAllLedgered(Visit(c, paths[0], world(paths[0]), check), paths[1..], world, check);
    }
  }

  // ---------------------------------------------------------------- a batch

  function PartSteps(e: Progress, cap: int, b: Batch, world: nat -> PartWorld, i: nat): seq<Step>
    requires i <= |b.parts|
    decreases |b.parts| - i
  {
    if i == |b.parts| || e.stopped then []
    else [NextPart(world(i))] + PartSteps(PartDone(e, cap, b.parts[i], b.marks, |b.req.events|, world(i)), cap, b, world, i + 1)
  }

  /** A part does the same to any progress with the same database. */
  lemma PartAdds(e: Progress, cap: int, p: Part, ms: seq<EventMark>, total: nat, pw: PartWorld)
    requires !e.stopped
    ensures var d := PartDone(e, cap, p, ms, total, pw); var f := PartDone(Started(e.db), cap, p, ms, total, pw);
      d.db == f.db && d.returned == e.returned + f.returned && d.stopped == f.stopped
  {
  }

  lemma {:induction false} PartsAreDone(w: World, s: Sys, e: Progress, b: Batch, world: nat -> PartWorld, i: nat, requeued: seq<Mark>)
    requires i <= |b.parts| && e.db == s.db && s.col.requeued == requeued + e.returned
    requires s.batch == if i == |b.parts| || e.stopped then None else Some(b.(next := i))
    requires Legal(w, s, PartSteps(e, w.cap, b, world, i))
    ensures var d := Exec(w, s, PartSteps(e, w.cap, b, world, i)); var all := PartsDone(e, w.cap, b.parts, b.marks, |b.req.events|, world, i);
      d.db == all.db && d.col == s.col.(requeued := requeued + all.returned) && d.batch == None
    decreases |b.parts| - i
  {
    if e.stopped {
      StoppedStays(e, w.cap, b.parts, b.marks, |b.req.events|, world, i);
    } else if i < |b.parts| {
      var next := PartDone(e, w.cap, b.parts[i], b.marks, |b.req.events|, world(i));
      ExecCons(w, s, NextPart(world(i)), PartSteps(next, w.cap, b, world, i + 1));
      PartAdds(e, w.cap, b.parts[i], b.marks, |b.req.events|, world(i));
      var s1 := AfterPart(w, s, world(i));
      assert s1.col.requeued == requeued + next.returned;
      PartsAreDone(w, s1, next, b, world, i + 1, requeued);
    }
  }

  /** An undisturbed batch of the system is the worker's enqueueTelemetry. */
  lemma BatchIsEnqueued(w: World, s: Sys, req: Request, world: nat -> PartWorld)
    requires s.batch.None?
    requires var d := AfterDrain(w, s, req); Legal(w, d, PartSteps(Started(s.db), w.cap, d.batch.value, world, 0))
    ensures var d := AfterDrain(w, s, req); var e := BatchDone(s.db, w.cap, w.size, req, s.col.marks, world);
      var t := Exec(w, d, PartSteps(Started(s.db), w.cap, d.batch.value, world, 0));
      && t.db == e.db && t.batch == None
      && t.col == s.col.(events := [], marks := [], requeued := s.col.requeued + e.returned)
  {
    var d := AfterDrain(w, s, req);
    assert s.col.requeued + [] == s.col.requeued;
    PartsAreDone(w, d, Started(s.db), d.batch.value, world, 0, s.col.requeued);
  }

  // ---------------------------------------------------------------- a drain

  function Sends(n: nat, world: nat -> Attempt): seq<Step> {
    if n == 0 then [] else Sends(n - 1, world) + [SendHead(world(n - 1))]
  }

  /** A drain tries every row it removes, and one more if it stops early. */
  function DrainSteps(rows: seq<Row>, world: nat -> Attempt): seq<Step> {
    var n := Removed(rows, 0, world);
    Sends(if n < Min(|rows|, DRAIN_LIMIT) then n + 1 else n, world)
  }

  lemma SendsSplit(w: World, s: Sys, n: nat, world: nat -> Attempt)
    requires Legal(w, s, Sends(n + 1, world))
    ensures Legal(w, s, Sends(n, world)) && Enabled(w, Exec(w, s, Sends(n, world)), SendHead(world(n)))
    ensures Exec(w, s, Sends(n + 1, world)) == AfterSend(Exec(w, s, Sends(n, world)), world(n))
  {
    ExecConcat(w, s, Sends(n, world), [SendHead(world(n))]);
    assert [SendHead(world(n))] == [SendHead(world(n))] + [];
    ExecCons(w, Exec(w, s, Sends(n, world)), SendHead(world(n)), []);
  }

  /** What the cloud holds once the first rows were sent. */
  lemma SentMore(rows: seq<Row>, i: nat)
    requires i < |rows|
    ensures EventsOfRows(TelemetryOf(rows[..i + 1]))
      == EventsOfRows(TelemetryOf(rows[..i])) + if IsTelemetry(rows[i]) then EventsOfRows([rows[i]]) else {}
  {
    TelemetryOfNext(rows, i);
  }

  lemma OneSend(s: Sys, rows: seq<Row>, i: nat, a: Attempt)
    requires i < |rows| && s.db.outbox == rows[i..]
    ensures var d := AfterSend(s, a);
      && d.db == s.db.(outbox := rows[if Passes(rows[i], a) then i + 1 else i..])
      && d.f.delivered == s.f.delivered + (if IsTelemetry(rows[i]) && a.sent then EventsOfRows([rows[i]]) else {})
  {
    assert s.db.outbox[0] == rows[i] && s.db.outbox[1..] == rows[i + 1..];
  }

  lemma {:induction false} PassingSendsRemove(w: World, s: Sys, world: nat -> Attempt, n: nat)
    requires n <= |s.db.outbox| && (forall k | 0 <= k < n :: Passes(s.db.outbox[k], world(k)))
    requires Legal(w, s, Sends(n, world))
    ensures Exec(w, s, Sends(n, world)).db == s.db.(outbox := s.db.outbox[n..])
    decreases n
  {
    if n == 0 {
      assert s.db.outbox[0..] == s.db.outbox;
    } else {
      SendsSplit(w, s, n - 1, world);
      PassingSendsRemove(w, s, world, n - 1);
      OneSend(Exec(w, s, Sends(n - 1, world)), s.db.outbox, n - 1, world(n - 1));
    }
  }

  lemma Gather(a: set<EventItem>, b: set<EventItem>, c: set<EventItem>)
    ensures a + b + c == a + (b + c)
  {
  }

  lemma {:induction false} PassingSendsDeliver(w: World, s: Sys, world: nat -> Attempt, n: nat)
    requires n <= |s.db.outbox| && (forall k | 0 <= k < n :: Passes(s.db.outbox[k], world(k)))
    requires Legal(w, s, Sends(n, world))
    ensures Exec(w, s, Sends(n, world)).f.delivered == s.f.delivered + EventsOfRows(TelemetryOf(s.db.outbox[..n]))
    decreases n
  {
    if n > 0 {
      var rows := s.db.outbox;
      SendsSplit(w, s, n - 1, world);
      PassingSendsDeliver(w, s, world, n - 1);
      SendDelivers(w, s, world, n - 1);
    }
  }

  /** One more send after passing ones adds the next row, if it is telemetry and the send succeeds. */
  lemma SendDelivers(w: World, s: Sys, world: nat -> Attempt, n: nat)
    requires n < |s.db.outbox| && (forall k | 0 <= k < n :: Passes(s.db.outbox[k], world(k)))
    requires Legal(w, s, Sends(n, world))
    requires Exec(w, s, Sends(n, world)).f.delivered == s.f.delivered + EventsOfRows(TelemetryOf(s.db.outbox[..n]))
    requires Enabled(w, Exec(w, s, Sends(n, world)), SendHead(world(n)))
    ensures var d := AfterSend(Exec(w, s, Sends(n, world)), world(n));
      d.f.delivered == s.f.delivered
        + EventsOfRows(TelemetryOf(s.db.outbox[..if IsTelemetry(s.db.outbox[n]) && !world(n).sent then n else n + 1]))
  {
    var rows := s.db.outbox;
    var before := EventsOfRows(TelemetryOf(rows[..n]));
    PassingSendsRemove(w, s, world, n);
    OneSend(Exec(w, s, Sends(n, world)), rows, n, world(n));
    SentMore(rows, n);
    Gather(s.f.delivered, before, EventsOfRows([rows[n]]));
  }

  /** Undisturbed sends of the system are the buffer's Drain. */
  lemma SendsAreDrain(w: World, s: Sys, world: nat -> Attempt)
    requires Legal(w, s, DrainSteps(s.db.outbox, world))
    ensures var d := Exec(w, s, DrainSteps(s.db.outbox, world));
      && d.db == s.db.(outbox := s.db.outbox[Removed(s.db.outbox, 0, world)..])
      && d.f.delivered == s.f.delivered + EventsOfRows(Sent(s.db.outbox, world))
  {
    var rows := s.db.outbox;
    var n := Removed(rows, 0, world);
    if n < Min(|rows|, DRAIN_LIMIT) {
      SendsSplit(w, s, n, world);
      PassingSendsRemove(w, s, world, n);
      PassingSendsDeliver(w, s, world, n);
      OneSend(Exec(w, s, Sends(n, world)), rows, n, world(n));
      SendDelivers(w, s, world, n);
      TelemetryOfNext(rows, n);
    } else {
      PassingSendsRemove(w, s, world, n);
      PassingSendsDeliver(w, s, world, n);
    }
  }
}
