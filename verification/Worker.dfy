/**
 The worker's telemetry path: a batch is cut into bodies, and each upload's mark is either
 persisted with the body that carries its last event or handed back to the collector.
 */
module Worker {
  import opened Wrappers
  import opened Telemetry
  import opened Buffer
  import opened Collector

  const PARTS_PER_CAP: int := 8

  /** Go's division: truncation toward zero. */
  function PartLimit(cap: int): int {
    if cap < 0 then -(-cap / PARTS_PER_CAP) else cap / PARTS_PER_CAP
  }

  /** One outbox body covering the batch's events [start, end). */
  datatype Part = Part(body: Body, start: nat, end: nat)

  /** json.Marshal, known only by the size of its output. */
  type Marshal = Request -> nat

  predicate Fits(size: Marshal, limit: int, req: Request) {
    limit <= 0 || size(req) <= limit || |req.events| <= 1
  }

  /** The two halves a part is cut into; metrics and alarms stay with the first. */
  function Mid(req: Request): nat {
    |req.events| / 2
  }

  function FirstHalf(req: Request): Request {
    Request(req.metrics, req.events[..Mid(req)], req.alarms)
  }

  function SecondHalf(req: Request): Request {
    Request([], req.events[Mid(req)..], [])
  }

  function Split(size: Marshal, limit: int, req: Request, start: nat): (parts: seq<Part>)
    ensures parts != []
    decreases |req.events|
  {
    if Fits(size, limit, req) then [Part(Body(req, size(req)), start, start + |req.events|)]
    else Split(size, limit, FirstHalf(req), start) + Split(size, limit, SecondHalf(req), start + Mid(req))
  }

  /** splitTelemetry: the recursion appends to the parts collected so far. */
  method SplitTelemetry(size: Marshal, limit: int, req: Request, start: nat, out: seq<Part>) returns (parts: seq<Part>)
    ensures parts == out + Split(size, limit, req, start)
    decreases |req.events|
  {
    var len := size(req);
    if limit <= 0 || len <= limit || |req.events| <= 1 {
      return out + [Part(Body(req, len), start, start + |req.events|)];
    }
    var mid := |req.events| / 2;
    parts := SplitTelemetry(size, limit, Request(req.metrics, req.events[..mid], req.alarms), start, out);
    parts := SplitTelemetry(size, limit, Request([], req.events[mid..], []), start + mid, parts);
  }

  // ---------------------------------------------------------------- what a split is

  /** Contiguous parts from start to end. */
  ghost predicate Chained(parts: seq<Part>, start: nat, end: nat) {
    && parts != []
    && parts[0].start == start && parts[|parts| - 1].end == end
    && (forall k | 0 <= k < |parts| :: parts[k].start <= parts[k].end)
    && (forall j, k | 0 <= j < k < |parts| && k == j + 1 :: parts[j].end == parts[k].start)
  }

  /** A part carries exactly the events it covers; metrics and alarms ride with the first. */
  predicate CarriesAt(size: Marshal, p: Part, req: Request, start: nat, first: bool) {
    && start <= p.start <= p.end <= start + |req.events|
    && p.body.len == size(p.body.request)
    && p.body.request == Request(if first then req.metrics else [], req.events[p.start - start..p.end - start],
                                 if first then req.alarms else [])
  }

  predicate Carries(size: Marshal, parts: seq<Part>, req: Request, start: nat) {
    forall k | 0 <= k < |parts| :: CarriesAt(size, parts[k], req, start, k == 0)
  }

  /** Every part fits the limit or cannot be split further. */
  predicate Minimal(size: Marshal, limit: int, parts: seq<Part>) {
    forall k | 0 <= k < |parts| :: Fits(size, limit, parts[k].body.request)
  }

  function AllEvents(parts: seq<Part>): seq<EventItem> {
    if parts == [] then [] else parts[0].body.request.events + AllEvents(parts[1..])
  }

  lemma CarriesLeft(size: Marshal, p: Part, req: Request, start: nat, mid: nat, first: bool)
    requires mid <= |req.events| && CarriesAt(size, p, req.(events := req.events[..mid]), start, first)
    ensures CarriesAt(size, p, req, start, first)
  {
    var i, j := p.start - start, p.end - start;
    assert req.events[..mid][i..j] == req.events[i..j];
  }

  lemma CarriesRight(size: Marshal, p: Part, req: Request, start: nat, mid: nat, first: bool)
    requires mid <= |req.events| && CarriesAt(size, p, Request([], req.events[mid..], []), start + mid, first)
    ensures CarriesAt(size, p, req, start, false)
  {
    var i, j := p.start - (start + mid), p.end - (start + mid);
    assert req.events[mid..][i..j] == req.events[mid + i..mid + j];
  }

  lemma CarriesJoin(size: Marshal, left: seq<Part>, right: seq<Part>, req: Request, start: nat, mid: nat)
    requires left != [] && mid == Mid(req)
    requires Carries(size, left, FirstHalf(req), start)
    requires Carries(size, right, SecondHalf(req), start + mid)
    ensures Carries(size, left + right, req, start)
  {
    forall k | 0 <= k < |left + right| ensures CarriesAt(size, (left + right)[k], req, start, k == 0) {
      if k < |left| {
        CarriesLeft(size, left[k], req, start, mid, k == 0);
      } else {
        CarriesRight(size, right[k - |left|], req, start, mid, k == |left|);
      }
    }
  }

  lemma ChainedJoin(left: seq<Part>, right: seq<Part>, start: nat, mid: nat, end: nat)
    requires Chained(left, start, mid) && Chained(right, mid, end)
    ensures Chained(left + right, start, end)
  {
  }

  lemma {:induction false} SplitIsChained(size: Marshal, limit: int, req: Request, start: nat)
    ensures Chained(Split(size, limit, req, start), start, start + |req.events|)
    decreases |req.events|
  {
    if !Fits(size, limit, req) {
      SplitIsChained(size, limit, FirstHalf(req), start);
      SplitIsChained(size, limit, SecondHalf(req), start + Mid(req));
      ChainedJoin(Split(size, limit, FirstHalf(req), start), Split(size, limit, SecondHalf(req), start + Mid(req)),
                  start, start + Mid(req), start + |req.events|);
    }
  }

  lemma {:induction false} SplitCarries(size: Marshal, limit: int, req: Request, start: nat)
    ensures Carries(size, Split(size, limit, req, start), req, start)
    decreases |req.events|
  {
    if Fits(size, limit, req) {
      assert req.events[0..|req.events|] == req.events;
    } else {
      SplitCarries(size, limit, FirstHalf(req), start);
      SplitCarries(size, limit, SecondHalf(req), start + Mid(req));
      CarriesJoin(size, Split(size, limit, FirstHalf(req), start), Split(size, limit, SecondHalf(req), start + Mid(req)),
                  req, start, Mid(req));
    }
  }

  lemma {:induction false} SplitIsMinimal(size: Marshal, limit: int, req: Request, start: nat)
    ensures Minimal(size, limit, Split(size, limit, req, start))
    decreases |req.events|
  {
    if !Fits(size, limit, req) {
      SplitIsMinimal(size, limit, FirstHalf(req), start);
      SplitIsMinimal(size, limit, SecondHalf(req), start + Mid(req));
    }
  }

  /** For every size function: contiguous parts in order that carry each event once, each of which fits or is unsplittable. */
  lemma SplitIsExact(size: Marshal, limit: int, req: Request, start: nat)
    ensures Chained(Split(size, limit, req, start), start, start + |req.events|)
    ensures Carries(size, Split(size, limit, req, start), req, start)
    ensures Minimal(size, limit, Split(size, limit, req, start))
  {
    SplitIsChained(size, limit, req, start);
    SplitCarries(size, limit, req, start);
    SplitIsMinimal(size, limit, req, start);
  }

  lemma {:induction false} AllEventsConcat(a: seq<Part>, b: seq<Part>)
    ensures AllEvents(a + b) == AllEvents(a) + AllEvents(b)
  {
    if a == [] {
      assert a + b == b;
    } else {
      assert (a + b)[1..] == a[1..] + b;
      AllEventsConcat(a[1..], b);
    }
  }

  /** Nothing is lost, repeated or reordered by a split. */
  lemma {:induction false} SplitConcatenates(size: Marshal, limit: int, req: Request, start: nat)
    ensures AllEvents(Split(size, limit, req, start)) == req.events
    decreases |req.events|
  {
    var parts := Split(size, limit, req, start);
    if Fits(size, limit, req) {
      assert parts[1..] == [];
    } else {
      SplitConcatenates(size, limit, FirstHalf(req), start);
      SplitConcatenates(size, limit, SecondHalf(req), start + Mid(req));
      AllEventsConcat(Split(size, limit, FirstHalf(req), start), Split(size, limit, SecondHalf(req), start + Mid(req)));
      assert req.events[..Mid(req)] + req.events[Mid(req)..] == req.events;
    }
  }

  /** A part that still holds several events and is over the cap. */
  predicate RefusedSplittable(cap: int, p: Part) {
    !Admits(cap, p.body.len) && |p.body.request.events| > 1
  }

  /**
   The outbox refuses a part that still holds several events exactly when the cap is 1..7
   bytes, too small to give a part limit, and the whole batch is over it.
   */
  lemma RefusesSplittableOnlyUnderTinyCap(size: Marshal, cap: int, req: Request)
    ensures (exists p :: p in Split(size, PartLimit(cap), req, 0) && RefusedSplittable(cap, p))
       <==> 1 <= cap <= 7 && size(req) > cap && |req.events| > 1
  {
    var limit := PartLimit(cap);
    var parts := Split(size, limit, req, 0);
    if 1 <= cap < PARTS_PER_CAP {
      var whole := Part(Body(req, size(req)), 0, |req.events|);
      assert limit == 0 && parts == [whole] && whole in parts;
      assert RefusedSplittable(cap, whole) <==> size(req) > cap && |req.events| > 1;
    } else {
      SplitIsExact(size, limit, req, 0);
      forall p | p in parts ensures !RefusedSplittable(cap, p) {
        assert Fits(size, limit, p.body.request);
        assert cap > 0 ==> 0 < limit <= cap;
      }
    }
  }

  /** Under a cap of 8 bytes or more a part of several events takes at most an eighth of it. */
  lemma PartsTakeAnEighth(size: Marshal, cap: int, req: Request, p: Part)
    requires cap >= 8 && p in Split(size, PartLimit(cap), req, 0) && |p.body.request.events| > 1
    ensures p.body.len <= cap / 8 && p.body.len == size(p.body.request)
  {
    SplitIsExact(size, PartLimit(cap), req, 0);
    var k :| 0 <= k < |Split(size, PartLimit(cap), req, 0)| && Split(size, PartLimit(cap), req, 0)[k] == p;
    assert CarriesAt(size, p, req, 0, k == 0) && Fits(size, PartLimit(cap), p.body.request);
  }

  // ---------------------------------------------------------------- enqueueing

  /** What one part's writes meet: a failing transaction, or failing chunks of an over-cap part's marks. */
  datatype PartWorld = PartWorld(faults: set<Statement>, fails: nat -> bool)

  /** The progress of enqueueTelemetry: the database, the bodies queued and refused, and what became of the marks. */
  datatype Progress = Progress(
    db: Db, queued: seq<Body>, refused: seq<Body>, persisted: seq<Mark>, returned: seq<Mark>, stopped: bool)

  function Started(db: Db): Progress {
    Progress(db, [], [], [], [], false)
  }

  /** One part: queued with its marks, refused as over the cap, or the end of the batch. */
  function PartDone(e: Progress, cap: int, p: Part, ms: seq<EventMark>, total: nat, w: PartWorld): Progress {
    var marks := MarksBetween(ms, p.start, p.end);
    if e.stopped then e
    else if !Admits(cap, p.body.len) then
      var n := Written(|marks|, 0, w.fails);
      e.(db := e.db.(ledger := Upsert(e.db.ledger, marks[..n])), refused := e.refused + [p.body],
         persisted := e.persisted + marks[..n], returned := e.returned + if n == |marks| then [] else marks)
    else if Breaks(cap, marks, w.faults) then
      e.(returned := e.returned + MarksBetween(ms, p.start, total), stopped := true)
    else
      e.(db := Enqueued(e.db, cap, TELEMETRY, p.body, marks), queued := e.queued + [p.body],
         persisted := e.persisted + marks)
  }

  function PartsDone(e: Progress, cap: int, parts: seq<Part>, ms: seq<EventMark>, total: nat, world: nat -> PartWorld, i: nat): Progress
    requires i <= |parts|
    decreases |parts| - i
  {
    if i == |parts| then e
    else PartsDone(PartDone(e, cap, parts[i], ms, total, world(i)), cap, parts, ms, total, world, i + 1)
  }

  lemma {:induction false} StoppedStays(e: Progress, cap: int, parts: seq<Part>, ms: seq<EventMark>, total: nat, world: nat -> PartWorld, i: nat)
    requires i <= |parts| && e.stopped
    ensures PartsDone(e, cap, parts, ms, total, world, i) == e
    decreases |parts| - i
  {
    if i < |parts| {
      StoppedStays(e, cap, parts, ms, total, world, i + 1);
    }
  }

  /** The batch as enqueueTelemetry leaves it. */
  function BatchDone(db: Db, cap: int, size: Marshal, req: Request, ms: seq<EventMark>, world: nat -> PartWorld): Progress {
    PartsDone(Started(db), cap, Split(size, PartLimit(cap), req, 0), ms, |req.events|, world, 0)
  }

  class Worker {
    const buf: Buffer
    const col: Collector
    const size: Marshal

    constructor (buf: Buffer, col: Collector, size: Marshal)
      ensures this.buf == buf && this.col == col && this.size == size
    {
      this.buf, this.col, this.size := buf, col, size;
    }

    /** The database, the handed-back marks and the answer are those of a progress. */
    ghost predicate Left(e: Progress, requeued: seq<Mark>, queued: bool)
      reads buf, col
    {
      buf.State() == e.db && col.requeued == requeued + e.returned && (queued <==> e.queued != [])
    }

    /** One turn of the loop: queue the part with its marks, record a refused one, or give the rest back. */
    method EnqueuePart(p: Part, ftp: FTPBatch, total: nat, w: PartWorld, queuedBefore: bool, ghost e: Progress, ghost requeued: seq<Mark>)
      returns (queued: bool, stop: bool)
      requires buf.Valid() && !e.stopped && Left(e, requeued, queuedBefore)
      modifies buf, col`requeued
      ensures buf.Valid()
      ensures Left(PartDone(e, buf.maxBytes, p, ftp.marks, total, w), requeued, queued)
      ensures stop == PartDone(e, buf.maxBytes, p, ftp.marks, total, w).stopped
    {
      queued, stop := queuedBefore, false;
      var marks := ftp.MarksIn(p.start, p.end);
      var r := buf.EnqueueWithMarks(TELEMETRY, p.body, marks, w.faults);
      if r == TooLarge {
        if |marks| > 0 {
          var ok := buf.MarkFTPIngested(marks, w.fails);
          if !ok {
            col.Requeue(marks);
          }
        }
      } else if r == Failed {
        var rest := ftp.MarksIn(p.start, total);
        col.Requeue(rest);
        stop := true;
      } else {
        queued := true;
      }
    }

    method EnqueueParts(parts: seq<Part>, ftp: FTPBatch, total: nat, world: nat -> PartWorld) returns (queued: bool)
      requires buf.Valid()
      modifies buf, col`requeued
      ensures buf.Valid()
      ensures Left(PartsDone(Started(old(buf.State())), buf.maxBytes, parts, ftp.marks, total, world, 0), old(col.requeued), queued)
    {
      ghost var goal := PartsDone(Started(buf.State()), buf.maxBytes, parts, ftp.marks, total, world, 0);
      ghost var e := Started(buf.State());
      queued := false;
      var i, stop := 0, false;
      while i < |parts| && !stop
        invariant 0 <= i <= |parts| && buf.Valid()
        invariant stop == e.stopped && PartsDone(e, buf.maxBytes, parts, ftp.marks, total, world, i) == goal
        invariant Left(e, old(col.requeued), queued)
        decreases |parts| - i
      {
        ghost var before := e;
        e := PartDone(before, buf.maxBytes, parts[i], ftp.marks, total, world(i));
        queued, stop := EnqueuePart(parts[i], ftp, total, world(i), queued, before, old(col.requeued));
        i := i + 1;
      }
      if stop {
        StoppedStays(e, buf.maxBytes, parts, ftp.marks, total, world, i);
      }
    }

    method EnqueueTelemetry(req: Request, ftp: FTPBatch, world: nat -> PartWorld) returns (queued: bool)
      requires buf.Valid()
      modifies buf, col`requeued
      ensures buf.Valid()
      ensures Left(BatchDone(old(buf.State()), buf.maxBytes, size, req, ftp.marks, world), old(col.requeued), queued)
    {
      var parts := SplitTelemetry(size, PartLimit(buf.maxBytes), req, 0, []);
      assert parts == Split(size, PartLimit(buf.maxBytes), req, 0);
      queued := EnqueueParts(parts, ftp, |req.events|, world);
    }

    /** One push: the uploads' events first, so that their marks' indices hold in the batch; then the outbox is sent. */
    method PushTier(tier: Option<(seq<string>, seq<string>)>, cwmp: seq<EventItem>, world: nat -> PartWorld, attempts: nat -> Attempt)
      returns (sent: seq<Row>)
      requires buf.Valid()
      modifies buf, col
      ensures buf.Valid()
      ensures tier.None? ==> buf.State() == old(buf.State()) && col.State() == old(col.State()) && sent == []
      ensures tier.Some? ==>
        var req := Request(tier.value.0, old(col.events) + cwmp, tier.value.1);
        var e := if req == Request([], [], []) then Started(old(buf.State()))
                 else BatchDone(old(buf.State()), buf.maxBytes, size, req, old(col.eventMarks), world);
        && col.State() == old(col.State()).(events := [], marks := [], requeued := old(col.requeued) + e.returned)
        && buf.State() == e.db.(outbox := if e.queued == [] then e.db.outbox else e.db.outbox[Removed(e.db.outbox, 0, attempts)..])
        && sent == if e.queued == [] then [] else Sent(e.db.outbox, attempts)
    {
      sent := [];
      if tier.None? {
        return;
      }
      var ftp := col.DrainFTP();
      var req := Request(tier.value.0, ftp.events + cwmp, tier.value.1);
      if |req.metrics| == 0 && |req.events| == 0 && |req.alarms| == 0 {
        return;
      }
      var queued := EnqueueTelemetry(req, ftp, world);
      if !queued {
        return;
      }
      var ok;
      ok, sent := buf.Drain(attempts);
    }
  }
}
