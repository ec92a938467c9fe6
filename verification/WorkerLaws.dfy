/** What one telemetry batch does with the marks it was given. */
module WorkerLaws {
  import opened Wrappers
  import opened Telemetry
  import opened Buffer
  import opened Collector
  import opened CollectorLaws
  import opened Worker

  // ---------------------------------------------------------------- marks by range

  lemma {:induction false} BetweenMember(ms: seq<EventMark>, a: nat, b: nat, m: Mark)
    ensures m in MarksBetween(ms, a, b) <==> exists k | 0 <= k < |ms| :: ms[k].mark == m && a < ms[k].end <= b
  {
    if ms != [] {
      BetweenMember(ms[1..], a, b, m);
      var rest := ms[1..];
      assert forall k | 0 <= k < |rest| :: rest[k] == ms[k + 1];
      if k :| 0 <= k < |ms| && ms[k].mark == m && a < ms[k].end <= b {
        assert k > 0 ==> rest[k - 1] == ms[k];
      }
    }
  }

  /** Consecutive ranges partition the marks. */
  lemma {:induction false} BetweenSplits(ms: seq<EventMark>, a: nat, b: nat, c: nat)
    requires a <= b <= c
    ensures multiset(MarksBetween(ms, a, b)) + multiset(MarksBetween(ms, b, c)) == multiset(MarksBetween(ms, a, c))
  {
    if ms != [] {
      BetweenSplits(ms[1..], a, b, c);
    }
  }

  lemma {:induction false} BetweenAll(ms: seq<EventMark>, n: nat)
    requires EndsInOrder(ms, n)
    ensures MarksBetween(ms, 0, n) == MarksOf(ms)
  {
    if ms != [] {
      BetweenAll(ms[1..], n);
      assert MarksOf(ms) == [ms[0].mark] + MarksOf(ms[1..]);
    }
  }

  lemma {:induction false} BetweenNone(ms: seq<EventMark>, a: nat, b: nat)
    requires forall k | 0 <= k < |ms| :: !(a < ms[k].end <= b)
    ensures MarksBetween(ms, a, b) == []
  {
    if ms != [] {
      BetweenNone(ms[1..], a, b);
    }
  }

  /** A single event is the last one of at most one upload. */
  lemma {:induction false} BetweenAtMostOne(ms: seq<EventMark>, a: nat, b: nat, n: nat)
    requires EndsInOrder(ms, n) && b <= a + 1
    ensures |MarksBetween(ms, a, b)| <= 1
  {
    if ms != [] {
      BetweenAtMostOne(ms[1..], a, b, n);
      if a < ms[0].end <= b {
        BetweenNone(ms[1..], a, b);
      }
    }
  }

  // ---------------------------------------------------------------- conservation

  function EventsOf(bodies: seq<Body>): set<EventItem> {
    set b, e | b in bodies && e in b.request.events :: e
  }

  /** The bodies of the progress hold every event before f. */
  predicate Covered(e: Progress, events: seq<EventItem>, f: nat)
    requires f <= |events|
  {
    Elements(events[..f]) <= EventsOf(e.queued) + EventsOf(e.refused)
  }

  /** Each mark ending at or before f was persisted or handed back, never both; the rest were handed back if the batch stopped. */
  predicate Conserved(e: Progress, ms: seq<EventMark>, f: nat, total: nat) {
    multiset(e.persisted) + multiset(e.returned)
      == multiset(MarksBetween(ms, 0, f)) + if e.stopped then multiset(MarksBetween(ms, f, total)) else multiset{}
  }

  ghost predicate PersistedLast(e: Progress, ms: seq<EventMark>, f: nat) {
    forall m | m in e.persisted :: exists k | 0 <= k < |ms| :: ms[k].mark == m && ms[k].end <= f
  }

  /** Where a batch stands after the parts that end at f. */
  ghost predicate At(e: Progress, req: Request, ms: seq<EventMark>, f: nat) {
    f <= |req.events| && Covered(e, req.events, f) && Conserved(e, ms, f, |req.events|) && PersistedLast(e, ms, f)
  }

  lemma CoveredMore(e: Progress, e': Progress, events: seq<EventItem>, p: Part)
    requires p.start <= p.end <= |events| && p.body.request.events == events[p.start..p.end]
    requires Covered(e, events, p.start)
    requires (e'.queued == e.queued + [p.body] && e'.refused == e.refused)
          || (e'.queued == e.queued && e'.refused == e.refused + [p.body])
    ensures Covered(e', events, p.end)
  {
    EventsOfSnoc(e.queued, p.body);
    EventsOfSnoc(e.refused, p.body);
    assert events[..p.end] == events[..p.start] + events[p.start..p.end];
    assert Elements(events[..p.end]) == Elements(events[..p.start]) + Elements(events[p.start..p.end]);
  }

  lemma EventsOfSnoc(bodies: seq<Body>, b: Body)
    ensures EventsOf(bodies + [b]) == EventsOf(bodies) + Elements(b.request.events)
  {
  }

  lemma PersistedMore(e: Progress, e': Progress, ms: seq<EventMark>, p: Part, marks: seq<Mark>)
    requires p.start <= p.end && PersistedLast(e, ms, p.start)
    requires e'.persisted == e.persisted + marks && forall m | m in marks :: m in MarksBetween(ms, p.start, p.end)
    ensures PersistedLast(e', ms, p.end)
  {
    forall m | m in e'.persisted ensures exists k | 0 <= k < |ms| :: ms[k].mark == m && ms[k].end <= p.end {
      if m in e.persisted {
        var k :| 0 <= k < |ms| && ms[k].mark == m && ms[k].end <= p.start;
      } else {
        BetweenMember(ms, p.start, p.end, m);
      }
    }
  }

  /** What a part that does not stop the batch does to an untouched progress. */
  lemma PartFromStart(db: Db, cap: int, p: Part, ms: seq<EventMark>, total: nat, w: PartWorld)
    requires !PartDone(Started(db), cap, p, ms, total, w).stopped
    ensures var d := PartDone(Started(db), cap, p, ms, total, w);
      && Elements(p.body.request.events) <= EventsOf(d.queued) + EventsOf(d.refused)
      && d.persisted <= MarksBetween(ms, p.start, p.end)
      && d.db.ledger == Upsert(db.ledger, d.persisted)
  {
    var d := PartDone(Started(db), cap, p, ms, total, w);
    EventsOfSnoc([], p.body);
    assert [] + [p.body] == [p.body];
    var marks := MarksBetween(ms, p.start, p.end);
    if !Admits(cap, p.body.len) {
      assert d.persisted == marks[..Written(|marks|, 0, w.fails)];
    } else {
      assert d.persisted == marks;
    }
  }

  /** Writing the marks of a refused part may fail only as a whole. */
  predicate AllOrNone(cap: int, p: Part, ms: seq<EventMark>, w: PartWorld) {
    var marks := MarksBetween(ms, p.start, p.end);
    !Admits(cap, p.body.len) ==> Written(|marks|, 0, w.fails) == 0 || Written(|marks|, 0, w.fails) == |marks|
  }

  lemma PartConserves(e: Progress, cap: int, p: Part, ms: seq<EventMark>, total: nat, w: PartWorld)
    requires !e.stopped && p.start <= p.end <= total && AllOrNone(cap, p, ms, w)
    requires Conserved(e, ms, p.start, total)
    ensures var d := PartDone(e, cap, p, ms, total, w);
      Conserved(d, ms, if d.stopped then p.start else p.end, total)
  {
    var d := PartDone(e, cap, p, ms, total, w);
    var marks := MarksBetween(ms, p.start, p.end);
    var done := multiset(e.persisted) + multiset(e.returned);
    BetweenSplits(ms, 0, p.start, p.end);
    if !Admits(cap, p.body.len) {
      var n := Written(|marks|, 0, w.fails);
      assert marks[..|marks|] == marks && marks[..0] == [];
      if n == |marks| {
        assert d.persisted == e.persisted + marks && d.returned == e.returned;
      } else {
        assert d.persisted == e.persisted && d.returned == e.returned + marks;
      }
      assert multiset(d.persisted) + multiset(d.returned) == done + multiset(marks);
    } else if Breaks(cap, marks, w.faults) {
      assert multiset(d.persisted) + multiset(d.returned) == done + multiset(MarksBetween(ms, p.start, total));
    } else {
      assert multiset(d.persisted) + multiset(d.returned) == done + multiset(marks);
    }
  }

  predicate Covers(p: Part, req: Request) {
    p.start <= p.end <= |req.events| && p.body.request.events == req.events[p.start..p.end]
  }

  lemma PartKeeps(e: Progress, cap: int, p: Part, req: Request, ms: seq<EventMark>, w: PartWorld)
    requires !e.stopped && Covers(p, req) && AllOrNone(cap, p, ms, w)
    requires At(e, req, ms, p.start)
    ensures var d := PartDone(e, cap, p, ms, |req.events|, w);
      At(d, req, ms, if d.stopped then p.start else p.end)
  {
    var d := PartDone(e, cap, p, ms, |req.events|, w);
    PartConserves(e, cap, p, ms, |req.events|, w);
    if !d.stopped {
      var marks := MarksBetween(ms, p.start, p.end);
      CoveredMore(e, d, req.events, p);
      PersistedMore(e, d, ms, p, d.persisted[|e.persisted|..]);
    }
  }

  lemma {:induction false} PartsKeep(e: Progress, cap: int, parts: seq<Part>, req: Request, ms: seq<EventMark>,
                                    world: nat -> PartWorld, i: nat) returns (f: nat)
    requires i < |parts| && Chained(parts, 0, |req.events|) && !e.stopped
    requires forall k | 0 <= k < |parts| :: Covers(parts[k], req)
    requires forall k | 0 <= k < |parts| :: AllOrNone(cap, parts[k], ms, world(k))
    requires At(e, req, ms, parts[i].start)
    ensures At(PartsDone(e, cap, parts, ms, |req.events|, world, i), req, ms, f)
    ensures PartsDone(e, cap, parts, ms, |req.events|, world, i).stopped || f == |req.events|
    decreases |parts| - i
  {
    var d := PartDone(e, cap, parts[i], ms, |req.events|, world(i));
    PartKeeps(e, cap, parts[i], req, ms, world(i));
    if d.stopped {
      StoppedStays(d, cap, parts, ms, |req.events|, world, i + 1);
      f := parts[i].start;
    } else if i + 1 == |parts| {
      f := |req.events|;
    } else {
      assert parts[i].end == parts[i + 1].start;
      f := PartsKeep(d, cap, parts, req, ms, world, i + 1);
    }
  }

  /** The tiny-cap accident: the whole batch is refused and its marks are written in part. */
  predicate HalfWritten(cap: int, size: Marshal, req: Request, ms: seq<EventMark>, world: nat -> PartWorld) {
    1 <= cap < PARTS_PER_CAP && size(req) > cap && 0 < Written(|ms|, 0, world(0).fails) < |ms|
  }

  lemma WrittenSmall(n: nat, fails: nat -> bool)
    requires n <= LEDGER_CHUNK
    ensures Written(n, 0, fails) == 0 || Written(n, 0, fails) == n
  {
    WrittenIsPrefix(n, 0, fails);
  }

  lemma UsuallyAllOrNone(cap: int, size: Marshal, req: Request, ms: seq<EventMark>, world: nat -> PartWorld, k: nat)
    requires EndsInOrder(ms, |req.events|) && !HalfWritten(cap, size, req, ms, world)
    requires k < |Split(size, PartLimit(cap), req, 0)|
    ensures AllOrNone(cap, Split(size, PartLimit(cap), req, 0)[k], ms, world(k))
  {
    var parts := Split(size, PartLimit(cap), req, 0);
    SplitIsExact(size, PartLimit(cap), req, 0);
    var marks := MarksBetween(ms, parts[k].start, parts[k].end);
    if 1 <= cap < PARTS_PER_CAP {
      BetweenAll(ms, |req.events|);
    } else if cap >= PARTS_PER_CAP {
      if !Admits(cap, parts[k].body.len) {
        assert Fits(size, PartLimit(cap), parts[k].body.request);
        BetweenAtMostOne(ms, parts[k].start, parts[k].end, |req.events|);
        WrittenSmall(|marks|, world(k).fails);
      }
    }
  }

  /**
   For every pattern of part successes, refusals and failures each drained mark is either
   persisted or handed back, exactly one of the two, and a mark is persisted only when all
   events up to its upload's last are in queued or refused bodies.
   */
  lemma MarksAreConserved(db: Db, cap: int, size: Marshal, req: Request, ms: seq<EventMark>, world: nat -> PartWorld)
    returns (f: nat)
    requires EndsInOrder(ms, |req.events|) && !HalfWritten(cap, size, req, ms, world)
    ensures var e := BatchDone(db, cap, size, req, ms, world);
      && multiset(e.persisted) + multiset(e.returned) == multiset(MarksOf(ms))
      && f <= |req.events| && (e.stopped || f == |req.events|)
      && Covered(e, req.events, f)
      && PersistedLast(e, ms, f)
  {
    var parts := Split(size, PartLimit(cap), req, 0);
    SplitIsExact(size, PartLimit(cap), req, 0);
    forall k | 0 <= k < |parts| ensures AllOrNone(cap, parts[k], ms, world(k)) {
      UsuallyAllOrNone(cap, size, req, ms, world, k);
    }
    BetweenNone(ms, 0, 0);
    forall k | 0 <= k < |parts| ensures Covers(parts[k], req) {
      assert CarriesAt(size, parts[k], req, 0, k == 0);
    }
    f := PartsKeep(Started(db), cap, parts, req, ms, world, 0);
    BetweenSplits(ms, 0, f, |req.events|);
    BetweenNone(ms, |req.events|, |req.events|);
    BetweenAll(ms, |req.events|);
  }

  /** The law fails in the tiny-cap accident and only there: then marks are persisted and handed back. */
  lemma MarksConservedExactlyWhen(db: Db, cap: int, size: Marshal, req: Request, ms: seq<EventMark>, world: nat -> PartWorld)
    requires EndsInOrder(ms, |req.events|)
    ensures var e := BatchDone(db, cap, size, req, ms, world);
      multiset(e.persisted) + multiset(e.returned) == multiset(MarksOf(ms)) <==> !HalfWritten(cap, size, req, ms, world)
  {
    if HalfWritten(cap, size, req, ms, world) {
      BetweenAll(ms, |req.events|);
      var all := MarksOf(ms);
      var n := Written(|ms|, 0, world(0).fails);
      var parts := Split(size, PartLimit(cap), req, 0);
      assert parts == [Part(Body(req, size(req)), 0, |req.events|)];
      var e := BatchDone(db, cap, size, req, ms, world);
      var d := PartDone(Started(db), cap, parts[0], ms, |req.events|, world(0));
      assert PartsDone(d, cap, parts, ms, |req.events|, world, 1) == d;
      assert e == d;
      assert e.persisted == all[..n] && e.returned == all;
      assert |multiset(e.persisted) + multiset(e.returned)| == n + |all|;
    } else {
      var f := MarksAreConserved(db, cap, size, req, ms, world);
    }
  }

  /** The accident can happen: one mark more than a chunk holds, and the second chunk fails. */
  lemma HalfWrittenHappens(size: Marshal, req: Request, ms: seq<EventMark>, world: nat -> PartWorld)
    requires size(req) > 1 && |ms| == LEDGER_CHUNK + 1 && !world(0).fails(0) && world(0).fails(1)
    ensures HalfWritten(1, size, req, ms, world)
  {
    assert Written(|ms|, 1, world(0).fails) == LEDGER_CHUNK;
  }

  /** And such a batch exists: an upload of one event for each mark. */
  lemma HalfWrittenBatch(e: EventItem, m: Mark, fine: PartWorld) returns (req: Request, ms: seq<EventMark>, world: nat -> PartWorld, size: Marshal)
    ensures EndsInOrder(ms, |req.events|) && HalfWritten(1, size, req, ms, world)
  {
    var n := LEDGER_CHUNK + 1;
    req := Request([], seq(n, _ => e), []);
    ms := seq(n, i requires 0 <= i < n => EventMark(m, i + 1));
    world := _ => fine.(fails := k => k == 1);
    size := _ => 2;
    HalfWrittenHappens(size, req, ms, world);
  }
}
