/**
 The ingest pipeline as one system: the watch directory, the scanning goroutine, the
 worker, the buffer, and crashes. Each step is what runs between two points where another
 goroutine, the device fleet or a crash can get in.
 */
module Ingest {
  import opened Wrappers
  import opened Telemetry
  import Rules
  import opened Buffer
  import opened Collector
  import opened Worker
  import opened WorkerLaws

  /** What stays fixed: rules, the lines and bucket of every file version, who may be credited, body sizes, the cap. */
  datatype World = World(
    engine: Rules.Engine, lines: Mark -> seq<string>, bucket: Mark -> string,
    credits: (string, string) -> bool, size: Marshal, cap: int)

  function ParseOf(w: World, m: Mark, device: string, now: string): seq<EventItem> {
    Rules.Parse(w.engine, Rules.Source(device, w.bucket(m), now), w.lines(m))
  }

  /** The directory and the history: every version that ever existed, and what became of events and hopeless files. */
  datatype Facts = Facts(
    dir: map<string, Stamp>, used: set<Mark>, committed: set<EventItem>, dropped: set<EventItem>,
    evicted: set<EventItem>, delivered: set<EventItem>, givenUp: set<Mark>)

  datatype Phase =
    | Idle
    | Visiting(todo: seq<string>, present: set<string>, check: bool)
    | Forgetting(gone: seq<string>, present: set<string>)
    | Filtering(present: set<string>)
    | Flushing(present: set<string>)

  /** The worker's batch and the part it has reached. */
  datatype Batch = Batch(req: Request, marks: seq<EventMark>, parts: seq<Part>, next: nat)

  /** Whether the agent is in its first scan since a start that loaded the ledger. */
  datatype Life = First | Later

  datatype Sys = Sys(f: Facts, col: Col, phase: Phase, batch: Option<Batch>, db: Db, life: Life)

  datatype Step =
    | Write(path: string, stamp: Stamp)
    | Remove(path: string)
    | FailedScan
    | BeginScan(paths: seq<string>)
    | VisitNext(s: Sighting, now: string)
    | EndVisits(gone: seq<string>)
    | Forget(forgotten: nat)
    | Filter
    | FlushMarks(flushed: nat)
    | DrainBatch(cwmp: seq<EventItem>, metrics: seq<string>, alarms: seq<string>)
    | NextPart(part: PartWorld)
    | SendHead(attempt: Attempt)
    | Restart(loadFails: bool)

  const NEW_COL := Col(map[], map[], map[], 0, [], [], [], [], false)

  function Launched(db: Db, loadFails: bool): Col {
    if loadFails then NEW_COL else NEW_COL.(seen := db.ledger, ledgered := true)
  }

  predicate Current(f: Facts, m: Mark) {
    m.path in f.dir && f.dir[m.path] == m.stamp
  }

  predicate GivesUp(c: Col, p: string, s: Sighting, check: bool) {
    && !LeftAlone(c, p, s, check) && !Skips(Ticks(c.deferred, p))
    && s.device.Some? && s.stamp.Some? && s.parsed.None? && Ticks(c.fails, p) + 1 >= MAX_PARSE_RETRIES
  }

  /**
   What a visit may observe. The stamp is one the file had; a parse of the version still in
   place yields that version's events, and one overtaken by a rewrite may yield anything.
   */
  predicate Observes(w: World, f: Facts, p: string, s: Sighting, now: string) {
    && (s.device.Some? ==> w.credits(p, s.device.value))
    && (s.stamp.Some? ==> Mark(p, s.stamp.value) in f.used)
    && (s.stamp.Some? && s.parsed.Some? && Current(f, Mark(p, s.stamp.value)) ==>
          s.device.Some? && s.parsed.value == ParseOf(w, Mark(p, s.stamp.value), s.device.value, now))
  }

  predicate Enabled(w: World, s: Sys, step: Step) {
    match step
    case Write(p, stamp) => Mark(p, stamp) !in s.f.used
    case Remove(p) => true
    case FailedScan => s.phase.Idle?
    case BeginScan(paths) => s.phase.Idle?
    case VisitNext(sight, now) => s.phase.Visiting? && s.phase.todo != [] && Observes(w, s.f, s.phase.todo[0], sight, now)
    case EndVisits(gone) => s.phase.Visiting? && s.phase.todo == [] && Elements(gone) == s.col.seen.Keys - s.phase.present
    case Forget(n) => s.phase.Forgetting? && n <= |s.phase.gone|
    case Filter => s.phase.Filtering?
    case FlushMarks(n) => s.phase.Flushing? && n <= |s.col.pending|
    case DrainBatch(cwmp, _, _) => s.batch.None? && forall e | e in cwmp :: e.raw.None?
    case NextPart(_) => s.batch.Some? && s.batch.value.next < |s.batch.value.parts|
    case SendHead(_) => s.batch.None? && s.db.outbox != []
    case Restart(_) => true
  }

  function AfterVisit(s: Sys, sight: Sighting): Sys
    requires s.phase.Visiting? && s.phase.todo != []
  {
    var p := s.phase.todo[0];
    s.(f := if GivesUp(s.col, p, sight, s.phase.check) then s.f.(givenUp := s.f.givenUp + {Mark(p, sight.stamp.value)}) else s.f,
       col := Visit(s.col, p, sight, s.phase.check),
       phase := s.phase.(todo := s.phase.todo[1..]))
  }

  function EventsOfRows(rows: seq<Row>): set<EventItem> {
    set r, e | r in rows && e in r.body.request.events :: e
  }

  function AfterDrain(w: World, s: Sys, req: Request): Sys {
    s.(col := s.col.(events := [], marks := []),
       batch := Some(Batch(req, s.col.marks, Split(w.size, PartLimit(w.cap), req, 0), 0)))
  }

  function PartOutcome(w: World, s: Sys, pw: PartWorld): Progress
    requires s.batch.Some? && s.batch.value.next < |s.batch.value.parts|
  {
    var b := s.batch.value;
    PartDone(Started(s.db), w.cap, b.parts[b.next], b.marks, |b.req.events|, pw)
  }

  function AfterPart(w: World, s: Sys, pw: PartWorld): Sys
    requires s.batch.Some? && s.batch.value.next < |s.batch.value.parts|
  {
    var b := s.batch.value;
    var d := PartOutcome(w, s, pw);
    var lost := if d.queued == [] then {} else EventsOfRows(s.db.outbox[..Evicted(s.db.outbox, b.parts[b.next].body.len, w.cap)]);
    s.(db := d.db,
       col := s.col.(requeued := s.col.requeued + d.returned),
       batch := if d.stopped || b.next + 1 == |b.parts| then None else Some(b.(next := b.next + 1)),
       f := s.f.(committed := s.f.committed + EventsOf(d.queued), dropped := s.f.dropped + EventsOf(d.refused),
                 evicted := s.f.evicted + lost))
  }

  function AfterSend(s: Sys, a: Attempt): Sys
    requires s.db.outbox != []
  {
    var row := s.db.outbox[0];
    s.(f := if IsTelemetry(row) && a.sent then s.f.(delivered := s.f.delivered + EventsOfRows([row])) else s.f,
       db := if Passes(row, a) then s.db.(outbox := s.db.outbox[1..]) else s.db)
  }

  function Do(w: World, s: Sys, step: Step): Sys
    requires Enabled(w, s, step)
  {
    match step
    case Write(p, stamp) => s.(f := s.f.(dir := s.f.dir[p := stamp], used := s.f.used + {Mark(p, stamp)}))
    case Remove(p) => s.(f := s.f.(dir := s.f.dir - {p}))
    case FailedScan => s.(col := WithoutRequeued(s.col))
    case BeginScan(paths) =>
      var c := WithoutRequeued(s.col);
      s.(col := c.(scans := c.scans + 1), phase := Visiting(paths, Elements(paths), c.scans % REWRITE_CHECK_TICKS == 0))
    case VisitNext(sight, _) => AfterVisit(s, sight)
    case EndVisits(gone) =>
      s.(col := Rotated(s.col, s.phase.present),
         phase := if !s.col.ledgered then Idle else if gone == [] then Flushing(s.phase.present) else Forgetting(gone, s.phase.present))
    case Forget(n) =>
      s.(db := s.db.(ledger := s.db.ledger - Elements(s.phase.gone[..n])), phase := Filtering(s.phase.present),
         life := if n == |s.phase.gone| then s.life else Later)
    case Filter => s.(col := MarksFiltered(s.col, s.phase.present), phase := Flushing(s.phase.present))
    case FlushMarks(n) =>
      s.(db := s.db.(ledger := Upsert(s.db.ledger, s.col.pending[..n])), col := Flushed(s.col, n), phase := Idle, life := Later)
    case DrainBatch(cwmp, metrics, alarms) =>
      var req := Request(metrics, s.col.events + cwmp, alarms);
      if metrics == [] && req.events == [] && alarms == [] then s else AfterDrain(w, s, req)
    case NextPart(pw) => AfterPart(w, s, pw)
    case SendHead(a) => AfterSend(s, a)
    case Restart(loadFails) =>
      s.(col := Launched(s.db, loadFails), phase := Idle, batch := None, life := if loadFails then Later else First)
  }

  /** A directory as the agent first finds it, an empty buffer, and the agent about to start. */
  function Start(dir: map<string, Stamp>): Sys {
    Sys(Facts(dir, set p | p in dir :: Mark(p, dir[p]), {}, {}, {}, {}, {}), NEW_COL, Idle, None, EMPTY_DB, Later)
  }

  ghost predicate Legal(w: World, s: Sys, steps: seq<Step>)
    decreases |steps|
  {
    steps == [] || (Enabled(w, s, steps[0]) && Legal(w, Do(w, s, steps[0]), steps[1..]))
  }

  // ---------------------------------------------------------------- a whole scan in one run

  /** The steps of one undisturbed poll. */
  function VisitSteps(paths: seq<string>, world: string -> Sighting, now: string): seq<Step> {
    if paths == [] then [] else [VisitNext(world(paths[0]), now)] + VisitSteps(paths[1..], world, now)
  }

  function Exec(w: World, s: Sys, steps: seq<Step>): Sys
    requires Legal(w, s, steps)
    decreases |steps|
  {
    if steps == [] then s else Exec(w, Do(w, s, steps[0]), steps[1..])
  }

  /** The steps of a poll that nothing interrupts add up to the collector's own scan. */
  lemma {:induction false} VisitsAreVisitAll(w: World, s: Sys, paths: seq<string>, world: string -> Sighting, now: string)
    requires s.phase.Visiting? && s.phase.todo == paths && Legal(w, s, VisitSteps(paths, world, now))
    ensures var d := Exec(w, s, VisitSteps(paths, world, now));
      && d.col == VisitAll(s.col, paths, world, s.phase.check)
      && d.phase == s.phase.(todo := []) && d.db == s.db
    decreases |paths|
  {
    if paths != [] {
      var steps := VisitSteps(paths, world, now);
      assert steps[1..] == VisitSteps(paths[1..], world, now);
      VisitsAreVisitAll(w, Do(w, s, steps[0]), paths[1..], world, now);
    }
  }
}
