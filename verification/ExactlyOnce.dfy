/**
 With a directory that stays as it is, the cloud ends up with exactly the dedup keys of the
 files: crashes, failed inserts, splits, hand-backs and re-parses add none and lose none.
 The partner of that law is what happens with no ledger attached.
 */
module ExactlyOnce {
  import opened Wrappers
  import opened Telemetry
  import Rules
  import opened Buffer
  import opened Collector
  import opened CollectorLaws
  import opened Worker
  import opened WorkerLaws
  import opened Ingest
  import opened IngestLaws

  /** An upload is credited to one device only. */
  ghost predicate StableCredit(w: World) {
    forall p, d, e :: w.credits(p, d) && w.credits(p, e) ==> d == e
  }

  ghost predicate OwedBy(w: World, dir: map<string, Stamp>, p: string, device: string, now: string, key: string) {
    p in dir && w.credits(p, device) && key in Rules.Keys(ParseOf(w, Mark(p, dir[p]), device, now))
  }

  /** Parsing each file once yields an event with this key. */
  ghost predicate Owed(w: World, dir: map<string, Stamp>, key: string) {
    exists p, device, now :: OwedBy(w, dir, p, device, now, key)
  }

  /** The FTP events of the set are all owed; those emitted by the ACS carry no raw line. */
  ghost predicate Provenance(w: World, dir: map<string, Stamp>, events: set<EventItem>) {
    forall e | e in events && e.raw.Some? :: Owed(w, dir, e.dedupKey)
  }

  ghost predicate Sourced(w: World, s: Sys) {
    && (forall m | m in s.f.used :: Current(s.f, m))
    && Provenance(w, s.f.dir, Elements(s.col.events))
    && (s.batch.Some? ==> Provenance(w, s.f.dir, Elements(s.batch.value.req.events)))
    && Provenance(w, s.f.dir, EventsOfRows(s.db.outbox))
    && Provenance(w, s.f.dir, s.f.delivered)
    && s.f.committed <= s.f.delivered + s.f.evicted + EventsOfRows(s.db.outbox)
    && (forall r | r in s.db.outbox :: IsTelemetry(r))
  }

  predicate Fixed(step: Step) {
    !step.Write? && !step.Remove?
  }

  lemma EventsOfRowsConcat(a: seq<Row>, b: seq<Row>)
    ensures EventsOfRows(a + b) == EventsOfRows(a) + EventsOfRows(b)
  {
  }

  lemma RowEvents(r: Row)
    ensures EventsOfRows([r]) == Elements(r.body.request.events)
  {
  }

  lemma ParseSourced(w: World, dir: map<string, Stamp>, p: string, device: string, now: string)
    requires p in dir && w.credits(p, device)
    ensures Provenance(w, dir, Elements(ParseOf(w, Mark(p, dir[p]), device, now)))
  {
    var parse := ParseOf(w, Mark(p, dir[p]), device, now);
    forall e | e in parse && e.raw.Some? ensures Owed(w, dir, e.dedupKey) {
      assert OwedBy(w, dir, p, device, now, e.dedupKey);
    }
  }

  lemma ProvenanceUnion(w: World, dir: map<string, Stamp>, a: seq<EventItem>, b: seq<EventItem>)
    requires Provenance(w, dir, Elements(a)) && Provenance(w, dir, Elements(b))
    ensures Provenance(w, dir, Elements(a + b))
  {
  }

  lemma VisitSourced(w: World, s: Sys, sight: Sighting, now: string)
    requires Sourced(w, s) && Enabled(w, s, VisitNext(sight, now))
    ensures Sourced(w, Do(w, s, VisitNext(sight, now)))
  {
    var p := s.phase.todo[0];
    var c := Do(w, s, VisitNext(sight, now)).col;
    if c.events != s.col.events {
      assert c.events == s.col.events + sight.parsed.value;
      ParseSourced(w, s.f.dir, p, sight.device.value, now);
      ProvenanceUnion(w, s.f.dir, s.col.events, sight.parsed.value);
    }
  }

  lemma DrainSourced(w: World, s: Sys, cwmp: seq<EventItem>, metrics: seq<string>, alarms: seq<string>)
    requires Sourced(w, s) && Enabled(w, s, DrainBatch(cwmp, metrics, alarms))
    ensures Sourced(w, Do(w, s, DrainBatch(cwmp, metrics, alarms)))
  {
    ProvenanceUnion(w, s.f.dir, s.col.events, cwmp);
  }

  lemma QueuedPartSourced(w: World, s: Sys, p: Part, marks: seq<Mark>, dir: map<string, Stamp>)
    requires Provenance(w, dir, EventsOfRows(s.db.outbox)) && Provenance(w, dir, Elements(p.body.request.events))
    requires forall r | r in s.db.outbox :: IsTelemetry(r)
    ensures var d := Enqueued(s.db, w.cap, TELEMETRY, p.body, marks);
      && Provenance(w, dir, EventsOfRows(d.outbox))
      && (forall r | r in d.outbox :: IsTelemetry(r))
      && EventsOfRows(s.db.outbox) + Elements(p.body.request.events)
           <= EventsOfRows(d.outbox) + EventsOfRows(s.db.outbox[..Evicted(s.db.outbox, p.body.len, w.cap)])
  {
    var n := Evicted(s.db.outbox, p.body.len, w.cap);
    var row := Row(s.db.nextId, TELEMETRY, p.body);
    EventsOfRowsConcat(s.db.outbox[n..], [row]);
    EventsOfRowsConcat(s.db.outbox[..n], s.db.outbox[n..]);
    assert s.db.outbox == s.db.outbox[..n] + s.db.outbox[n..];
    RowEvents(row);
  }

  lemma PartSourced(w: World, s: Sys, pw: PartWorld)
    requires Inv(w, s) && Sourced(w, s) && Enabled(w, s, NextPart(pw))
    ensures Sourced(w, Do(w, s, NextPart(pw)))
  {
    var b := s.batch.value;
    var p := b.parts[b.next];
    PartFacts(w, b, s.f);
    assert Provenance(w, s.f.dir, Elements(p.body.request.events)) by {
      assert forall e | e in p.body.request.events :: e in Elements(b.req.events);
    }
    QueuedPartSourced(w, s, p, MarksBetween(b.marks, p.start, p.end), s.f.dir);
    PartShape(s.db, w.cap, p, b.marks, |b.req.events|, pw);
  }

  /** Either the outbox is untouched and nothing counts as queued, or the part was enqueued. */
  lemma PartShape(db: Db, cap: int, p: Part, ms: seq<EventMark>, total: nat, pw: PartWorld)
    ensures var d := PartDone(Started(db), cap, p, ms, total, pw);
      || (d.queued == [] && d.db.outbox == db.outbox && EventsOf(d.queued) == {})
      || (d.queued == [p.body] && EventsOf(d.queued) == Elements(p.body.request.events)
          && d.db == Enqueued(db, cap, TELEMETRY, p.body, MarksBetween(ms, p.start, p.end)))
  {
    EventsOfSnoc([], p.body);
    assert [] + [p.body] == [p.body];
  }

  lemma SendSourced(w: World, s: Sys, a: Attempt)
    requires Sourced(w, s) && Enabled(w, s, SendHead(a))
    ensures Sourced(w, Do(w, s, SendHead(a)))
  {
    var row := s.db.outbox[0];
    assert s.db.outbox == [row] + s.db.outbox[1..];
    EventsOfRowsConcat([row], s.db.outbox[1..]);
    assert row in s.db.outbox;
  }

  lemma StepSourced(w: World, s: Sys, step: Step)
    requires Inv(w, s) && Sourced(w, s) && Enabled(w, s, step) && Fixed(step)
    ensures Sourced(w, Do(w, s, step)) && Do(w, s, step).f.dir == s.f.dir
  {
    match step {
      case FailedScan =>
      case BeginScan(paths) =>
      case VisitNext(sight, now) => VisitSourced(w, s, sight, now);
      case EndVisits(gone) =>
      case Forget(n) =>
      case Filter =>
      case FlushMarks(n) =>
      case DrainBatch(cwmp, metrics, alarms) => DrainSourced(w, s, cwmp, metrics, alarms);
      case NextPart(pw) => PartSourced(w, s, pw);
      case SendHead(a) => SendSourced(w, s, a);
      case Restart(loadFails) =>
    }
  }

  lemma {:induction false} RunSourced(w: World, s: Sys, steps: seq<Step>)
    requires Inv(w, s) && Sourced(w, s) && Legal(w, s, steps)
    requires forall k | 0 <= k < |steps| :: Fixed(steps[k])
    ensures Inv(w, Exec(w, s, steps)) && Sourced(w, Exec(w, s, steps)) && Exec(w, s, steps).f.dir == s.f.dir
    decreases |steps|
  {
    if steps != [] {
      StepKeeps(w, s, steps[0]);
      StepSourced(w, s, steps[0]);
      RunSourced(w, Do(w, s, steps[0]), steps[1..]);
    }
  }

  /** Every file is seen, nothing is queued anywhere, and nothing was lost to the cap or given up on. */
  predicate Settled(s: Sys) {
    && s.col.ledgered
    && (forall p | p in s.f.dir :: p in s.col.seen && s.col.seen[p] == s.f.dir[p])
    && s.col.events == [] && s.col.marks == [] && s.col.requeued == [] && s.batch.None? && s.db.outbox == []
    && s.f.evicted == {} && s.f.dropped == {} && s.f.givenUp == {}
  }

  ghost predicate Delivered(f: Facts, key: string) {
    exists e :: e in f.delivered && e.raw.Some? && e.dedupKey == key
  }

  lemma OwedIsDelivered(w: World, s: Sys, p: string, device: string, now: string, key: string)
    requires Inv(w, s) && Sourced(w, s) && Settled(s) && StableCredit(w) && OwedBy(w, s.f.dir, p, device, now, key)
    ensures Delivered(s.f, key)
  {
    var m := Mark(p, s.f.dir[p]);
    assert Placed(w, s.f, s.col, s.batch, Mark(p, s.col.seen[p]));
    var d, t :| HoldsFor(w, m, d, t, s.f.committed + s.f.dropped);
    Rules.ReparseSameKeys(w.engine, d, w.bucket(m), now, t, w.lines(m));
    var parse := ParseOf(w, m, d, t);
    var e :| e in parse && e.dedupKey == key;
    Rules.ParsedEventsAreTagged(w.engine, Rules.Source(d, w.bucket(m), t), w.lines(m));
    assert e in Elements(parse) && e in s.f.delivered;
  }

  /** A run with a fixed directory and stable crediting that ends settled. */
  ghost predicate SettledRun(w: World, dir: map<string, Stamp>, steps: seq<Step>) {
    && StableCredit(w) && Legal(w, Start(dir), steps) && (forall k | 0 <= k < |steps| :: Fixed(steps[k]))
    && Settled(Exec(w, Start(dir), steps))
  }

  /**
   Exactly-once effect: over every run with a fixed directory and stable crediting that ends
   settled, the dedup keys of the delivered FTP events are exactly those of parsing each file once.
   */
  lemma DeliversExactlyTheOwedKeys(w: World, dir: map<string, Stamp>, steps: seq<Step>, key: string)
    requires SettledRun(w, dir, steps)
    ensures Delivered(Exec(w, Start(dir), steps).f, key) <==> Owed(w, dir, key)
  {
    StartInv(w, dir);
    RunSourced(w, Start(dir), steps);
    var s := Exec(w, Start(dir), steps);
    if Owed(w, dir, key) {
      var p, device, now :| OwedBy(w, dir, p, device, now, key);
      OwedIsDelivered(w, s, p, device, now, key);
    }
  }

  /** A chain of states spells out a run. */
  lemma {:induction false} LegalBySteps(w: World, s: Sys, steps: seq<Step>, states: seq<Sys>)
    requires |states| == |steps| + 1 && states[0] == s
    requires forall k | 0 <= k < |steps| :: Enabled(w, states[k], steps[k]) && Do(w, states[k], steps[k]) == states[k + 1]
    ensures Legal(w, s, steps) && Exec(w, s, steps) == states[|steps|]
    decreases |steps|
  {
    if steps != [] {
      LegalBySteps(w, Do(w, s, steps[0]), steps[1..], states[1..]);
    }
  }

  // ---------------------------------------------------------------- the same law without a ledger

  /** A start whose ledger load failed, then one poll. */
  function UnledgeredPoll(p: string, s: Sighting, now: string): seq<Step> {
    [Restart(true), BeginScan([p]), VisitNext(s, now), EndVisits([])]
  }

  lemma FirstVisit(c: Col, p: string, stamp: Stamp, s: Sighting)
    requires c == NEW_COL.(scans := c.scans)
    requires s.device.Some? && s.stamp == Some(stamp) && s.parsed.Some? && s.parsed.value != []
    ensures Visit(c, p, s, true) == c.(seen := map[p := stamp], events := s.parsed.value)
    ensures MarkedSeen(c, p, stamp, s.parsed.value) == Visit(c, p, s, true)
    ensures Rotated(Visit(c, p, s, true), {p}) == Visit(c, p, s, true)
  {
    assert c.(seen := c.seen - {p}) == c;
  }

  /** The agent once it has listed the one file, and once it has parsed it. */
  function Listed(p: string, stamp: Stamp): Sys {
    Start(map[p := stamp]).(col := NEW_COL.(scans := 1), phase := Visiting([p], {p}, true))
  }

  function Parsed(p: string, stamp: Stamp, events: seq<EventItem>): Sys {
    Listed(p, stamp).(col := NEW_COL.(scans := 1, seen := map[p := stamp], events := events), phase := Visiting([], {p}, true))
  }

  lemma ListsTheFile(w: World, p: string, stamp: Stamp)
    ensures Do(w, Do(w, Start(map[p := stamp]), Restart(true)), BeginScan([p])) == Listed(p, stamp)
  {
    assert WithoutRequeued(NEW_COL) == NEW_COL && Elements([p]) == {p};
  }

  lemma ParsesTheFile(w: World, p: string, stamp: Stamp, s: Sighting, now: string)
    requires s.device.Some? && s.stamp == Some(stamp) && w.credits(p, s.device.value)
    requires s.parsed == Some(ParseOf(w, Mark(p, stamp), s.device.value, now)) && s.parsed.value != []
    ensures Enabled(w, Listed(p, stamp), VisitNext(s, now))
    ensures Do(w, Listed(p, stamp), VisitNext(s, now)) == Parsed(p, stamp, s.parsed.value)
  {
    assert p in map[p := stamp] && Mark(p, stamp) in Listed(p, stamp).f.used;
    FirstVisit(NEW_COL.(scans := 1), p, stamp, s);
    assert [p][1..] == [];
  }

  lemma EndsTheVisits(w: World, p: string, stamp: Stamp, events: seq<EventItem>)
    ensures Enabled(w, Parsed(p, stamp, events), EndVisits([]))
    ensures Do(w, Parsed(p, stamp, events), EndVisits([])) == Parsed(p, stamp, events).(phase := Idle)
  {
    assert Rotated(Parsed(p, stamp, events).col, {p}) == Parsed(p, stamp, events).col;
    assert Elements([]) == map[p := stamp].Keys - {p};
  }

  /** Such an agent sees the file and queues its events with no mark. */
  lemma UnledgeredPollQueues(w: World, p: string, stamp: Stamp, s: Sighting, now: string)
    requires s.device.Some? && s.stamp == Some(stamp) && w.credits(p, s.device.value)
    requires s.parsed == Some(ParseOf(w, Mark(p, stamp), s.device.value, now)) && s.parsed.value != []
    ensures Legal(w, Start(map[p := stamp]), UnledgeredPoll(p, s, now))
    ensures Exec(w, Start(map[p := stamp]), UnledgeredPoll(p, s, now)) == Parsed(p, stamp, s.parsed.value).(phase := Idle)
  {
    var s0 := Start(map[p := stamp]);
    var s1 := Do(w, s0, Restart(true));
    var s3 := Parsed(p, stamp, s.parsed.value);
    ListsTheFile(w, p, stamp);
    ParsesTheFile(w, p, stamp, s, now);
    EndsTheVisits(w, p, stamp, s.parsed.value);
    LegalBySteps(w, s0, UnledgeredPoll(p, s, now), [s0, s1, Listed(p, stamp), s3, s3.(phase := Idle)]);
  }

  /** And then one failed part is enough, under any cap and whatever fails it: the drained events are gone, the file stays seen, and nothing is handed back. */
  lemma UnledgeredInsertFailureLoses(w: World, s: Sys, cwmp: seq<EventItem>, metrics: seq<string>, alarms: seq<string>, pw: PartWorld)
    requires !s.col.ledgered && s.col.marks == [] && s.col.events != [] && s.batch.None? && forall e | e in cwmp :: e.raw.None?
    requires PartOutcome(w, AfterDrain(w, s, Request(metrics, s.col.events + cwmp, alarms)), pw).stopped
    ensures Legal(w, s, [DrainBatch(cwmp, metrics, alarms), NextPart(pw)])
    ensures var t := Exec(w, s, [DrainBatch(cwmp, metrics, alarms), NextPart(pw)]);
      t.f == s.f && t.db == s.db && t.batch.None? && t.col == s.col.(events := [])
  {
    var req := Request(metrics, s.col.events + cwmp, alarms);
    var s1 := AfterDrain(w, s, req);
    assert Do(w, s, DrainBatch(cwmp, metrics, alarms)) == s1;
    var s2 := AfterPart(w, s1, pw);
    assert MarksBetween([], s1.batch.value.parts[0].start, |req.events|) == [];
    assert s.col.requeued + [] == s.col.requeued;
    assert EventsOf([]) == {};
    LegalBySteps(w, s, [DrainBatch(cwmp, metrics, alarms), NextPart(pw)], [s, s1, s2]);
  }
}
