/**
 Whole lifetimes of the outbox: any mix of enqueues, evictions, drains with send and
 delete failures, and crashes. A history remembers every row ever committed.
 */
module OutboxRuns {
  import opened Telemetry
  import opened Buffer

  /** What became of a row that is no longer queued. */
  datatype Fate = Drained | EvictedUnsent

  /** The buffer, every row it ever committed, the fate of those gone, and every delivered send by row number. */
  datatype History = History(db: Db, committed: seq<Row>, fate: seq<Fate>, sends: seq<nat>)

  const START := History(EMPTY_DB, [], [], [])

  datatype Step =
    | Enqueue(kind: string, body: Body, marks: seq<Mark>, broken: bool)
    | Flush(world: nat -> Attempt)
    | Crash

  /** The numbers of the telemetry rows among committed[from..to]. */
  function Numbers(committed: seq<Row>, from: nat, end: nat): seq<nat>
    requires from <= end <= |committed|
    decreases end - from
  {
    if from == end then []
    else (if IsTelemetry(committed[from]) then [from] else []) + Numbers(committed, from + 1, end)
  }

  function AllOf(n: nat, f: Fate): seq<Fate> {
    seq(n, _ => f)
  }

  /** How many rows a drain gets as far as delivering. */
  function Reached(rows: seq<Row>, world: nat -> Attempt): nat {
    var n := Removed(rows, 0, world);
    n + if n < Min(|rows|, DRAIN_LIMIT) && IsTelemetry(rows[n]) && world(n).sent then 1 else 0
  }

  ghost function Do(cap: int, h: History, step: Step): History
    requires QueueLaw(cap, h)
  {
    match step
    case Enqueue(kind, body, marks, broken) =>
      if broken || !Admits(cap, body.len) then h
      else History(Enqueued(h.db, cap, kind, body, marks),
                   h.committed + [Row(h.db.nextId, kind, body)],
                   h.fate + AllOf(Evicted(h.db.outbox, body.len, cap), EvictedUnsent), h.sends)
    case Flush(world) =>
      var rows := h.db.outbox;
      var n := Removed(rows, 0, world);
      var reached := Reached(rows, world);
      History(h.db.(outbox := rows[n..]), h.committed, h.fate + AllOf(n, Drained),
              h.sends + Numbers(h.committed, |h.fate|, |h.fate| + reached))
    case Crash => h
  }

  ghost predicate Numbered(rows: seq<Row>, next: nat) {
    Ascending(rows) && forall i | 0 <= i < |rows| :: rows[i].id < next
  }

  /** The queue is the committed rows past those with a fate, so a row is queued, drained or evicted, never two of them. */
  ghost predicate QueueLaw(cap: int, h: History) {
    && |h.fate| <= |h.committed|
    && h.db.outbox == h.committed[|h.fate|..]
    && Numbered(h.committed, h.db.nextId)
    && (cap > 0 ==> Payload(h.db.outbox) <= cap)
  }

  /** A drained telemetry row was delivered, and deliveries never go back to an earlier row. */
  ghost predicate DeliveryLaw(committed: seq<Row>, fate: seq<Fate>, sends: seq<nat>) {
    && |fate| <= |committed|
    && (forall i, j | 0 <= i < j < |sends| :: sends[i] <= sends[j])
    && (forall k | 0 <= k < |sends| :: sends[k] <= |fate| && sends[k] < |committed| && IsTelemetry(committed[sends[k]]))
    && (forall i | 0 <= i < |fate| :: fate[i] == Drained && IsTelemetry(committed[i]) ==> i in sends)
  }

  ghost predicate Recorded(cap: int, h: History) {
    QueueLaw(cap, h) && DeliveryLaw(h.committed, h.fate, h.sends)
  }

  lemma RecordedIsValid(cap: int, h: History)
    requires QueueLaw(cap, h)
    ensures ValidDb(h.db)
  {
  }

  lemma {:induction false} NumbersAre(committed: seq<Row>, from: nat, end: nat)
    requires from <= end <= |committed|
    ensures forall i, j | 0 <= i < j < |Numbers(committed, from, end)| ::
      Numbers(committed, from, end)[i] < Numbers(committed, from, end)[j]
    ensures forall n :: n in Numbers(committed, from, end) <==> from <= n < end && IsTelemetry(committed[n])
    decreases end - from
  {
    if from < end {
      NumbersAre(committed, from + 1, end);
      var rest := Numbers(committed, from + 1, end);
      assert forall k | 0 <= k < |rest| :: rest[k] in rest;
    }
  }

  lemma {:induction false} PayloadOfSuffix(rows: seq<Row>, n: nat)
    requires n <= |rows|
    ensures Payload(rows[n..]) <= Payload(rows)
  {
    if n == 0 {
      assert rows[0..] == rows;
    } else {
      assert rows[n..] == rows[1..][n - 1..];
      PayloadOfSuffix(rows[1..], n - 1);
    }
  }

  lemma SuffixOfSuffix(rows: seq<Row>, f: nat, n: nat, tail: seq<Row>)
    requires f + n <= |rows|
    ensures rows[f..][n..] + tail == (rows + tail)[f + n..]
    ensures rows[f..][n..] == rows[f + n..]
  {
  }

  lemma NumberedSnoc(rows: seq<Row>, row: Row)
    requires Numbered(rows, row.id)
    ensures Numbered(rows + [row], row.id + 1)
  {
  }

  lemma EnqueueRecorded(cap: int, h: History, kind: string, body: Body, marks: seq<Mark>)
    requires QueueLaw(cap, h) && Admits(cap, body.len)
    ensures QueueLaw(cap, Do(cap, h, Enqueue(kind, body, marks, false)))
  {
    EnqueuedMeetsCap(h.db, cap, kind, body, marks);
    NumberedSnoc(h.committed, Row(h.db.nextId, kind, body));
    SuffixOfSuffix(h.committed, |h.fate|, Evicted(h.db.outbox, body.len, cap), [Row(h.db.nextId, kind, body)]);
  }

  lemma MoreRowsDeliveryLaw(committed: seq<Row>, fate: seq<Fate>, sends: seq<nat>, rows: seq<Row>, n: nat)
    requires DeliveryLaw(committed, fate, sends) && |fate| + n <= |committed|
    ensures DeliveryLaw(committed + rows, fate + AllOf(n, EvictedUnsent), sends)
  {
    var fate' := fate + AllOf(n, EvictedUnsent);
    forall i | 0 <= i < |fate'| && fate'[i] == Drained && IsTelemetry((committed + rows)[i]) ensures i in sends {
      assert i < |fate| && fate[i] == Drained;
    }
  }

  lemma FlushQueueLaw(cap: int, h: History, world: nat -> Attempt)
    requires QueueLaw(cap, h)
    ensures QueueLaw(cap, Do(cap, h, Flush(world)))
  {
    var n := Removed(h.db.outbox, 0, world);
    PayloadOfSuffix(h.db.outbox, n);
    SuffixOfSuffix(h.committed, |h.fate|, n, []);
  }

  lemma FlushDeliveryLaw(committed: seq<Row>, fate: seq<Fate>, sends: seq<nat>, n: nat, reached: nat)
    requires DeliveryLaw(committed, fate, sends)
    requires n <= reached <= n + 1 && |fate| + reached <= |committed|
    ensures DeliveryLaw(committed, fate + AllOf(n, Drained), sends + Numbers(committed, |fate|, |fate| + reached))
  {
    var base := |fate|;
    var added := Numbers(committed, base, base + reached);
    NumbersAre(committed, base, base + reached);
    var sends', fate' := sends + added, fate + AllOf(n, Drained);
    assert forall k | 0 <= k < |added| :: added[k] in added;
    forall i | 0 <= i < |fate'| && fate'[i] == Drained && IsTelemetry(committed[i]) ensures i in sends' {
      if i < base {
        assert fate[i] == Drained;
      } else {
        assert i in added;
      }
    }
  }

  lemma EnqueueStep(cap: int, h: History, kind: string, body: Body, marks: seq<Mark>, broken: bool)
    requires Recorded(cap, h)
    ensures Recorded(cap, Do(cap, h, Enqueue(kind, body, marks, broken)))
  {
    if !broken && Admits(cap, body.len) {
      EnqueueRecorded(cap, h, kind, body, marks);
      MoreRowsDeliveryLaw(h.committed, h.fate, h.sends, [Row(h.db.nextId, kind, body)], Evicted(h.db.outbox, body.len, cap));
    }
  }

  lemma FlushStep(cap: int, h: History, world: nat -> Attempt)
    requires Recorded(cap, h)
    ensures Recorded(cap, Do(cap, h, Flush(world)))
  {
    FlushQueueLaw(cap, h, world);
    FlushDeliveryLaw(h.committed, h.fate, h.sends, Removed(h.db.outbox, 0, world), Reached(h.db.outbox, world));
  }

  lemma StepRecorded(cap: int, h: History, step: Step)
    requires Recorded(cap, h)
    ensures Recorded(cap, Do(cap, h, step))
  {
    match step {
      case Enqueue(kind, body, marks, broken) => EnqueueStep(cap, h, kind, body, marks, broken);
      case Flush(world) => FlushStep(cap, h, world);
      case Crash =>
    }
  }

  /** Every lifetime obeys the law: by induction over its steps. */
  ghost function Exec(cap: int, h: History, steps: seq<Step>): (h': History)
    requires Recorded(cap, h)
    ensures Recorded(cap, h')
    ensures h.committed <= h'.committed && h.fate <= h'.fate && h.sends <= h'.sends
    decreases |steps|
  {
    if steps == [] then h
    else
      StepRecorded(cap, h, steps[0]);
      Exec(cap, Do(cap, h, steps[0]), steps[1..])
  }

  /** From an empty buffer, each committed row is queued once, or drained, or evicted. */
  lemma EveryRowAccountedFor(cap: int, steps: seq<Step>, n: nat)
    requires n < |Exec(cap, START, steps).committed|
    ensures var h := Exec(cap, START, steps); var row := h.committed[n];
      && (row in h.db.outbox <==> n >= |h.fate|)
      && (forall i, j | 0 <= i < |h.db.outbox| && 0 <= j < |h.db.outbox| && h.db.outbox[i] == row == h.db.outbox[j] :: i == j)
      && (n < |h.fate| && h.fate[n] == Drained && IsTelemetry(row) ==> n in h.sends)
  {
    var h := Exec(cap, START, steps);
    var row := h.committed[n];
    if n >= |h.fate| {
      assert h.db.outbox[n - |h.fate|] == row;
    }
    if row in h.db.outbox {
      var i :| 0 <= i < |h.db.outbox| && h.db.outbox[i] == row;
      assert h.committed[i + |h.fate|].id == h.committed[n].id;
    }
  }

  /** A row is delivered only after every earlier telemetry row was drained, all of whose deliveries came first, or evicted. */
  lemma NothingOvertakes(cap: int, h: History, m: nat, n: nat)
    requires Recorded(cap, h) && n in h.sends && m < n && IsTelemetry(h.committed[m])
    ensures m < |h.fate|
    ensures h.fate[m] == Drained ==> m in h.sends
    ensures forall p, q | 0 <= p < |h.sends| && 0 <= q < |h.sends| && h.sends[p] == m && h.sends[q] == n :: p < q
  {
    var k :| 0 <= k < |h.sends| && h.sends[k] == n;
  }

  // ---------------------------------------------------------------- the history speaks of the buffer's own sends

  /** The rows that a list of row numbers names. */
  function RowsAt(committed: seq<Row>, ns: seq<nat>): seq<Row>
    requires forall i | 0 <= i < |ns| :: ns[i] < |committed|
  {
    seq(|ns|, i requires 0 <= i < |ns| => committed[ns[i]])
  }

  lemma {:induction false} NumbersSnoc(committed: seq<Row>, from: nat, end: nat)
    requires from <= end < |committed|
    ensures Numbers(committed, from, end + 1) == Numbers(committed, from, end) + if IsTelemetry(committed[end]) then [end] else []
    decreases end - from
  {
    if from < end {
      NumbersSnoc(committed, from + 1, end);
    }
  }

  lemma {:induction false} NumbersNameTelemetry(committed: seq<Row>, from: nat, end: nat)
    requires from <= end <= |committed|
    ensures forall i | 0 <= i < |Numbers(committed, from, end)| :: Numbers(committed, from, end)[i] < |committed|
    ensures RowsAt(committed, Numbers(committed, from, end)) == TelemetryOf(committed[from..end])
    decreases end - from
  {
    if from < end {
      NumbersNameTelemetry(committed, from, end - 1);
      NumbersSnoc(committed, from, end - 1);
      assert committed[from..end][..end - 1 - from] == committed[from..end - 1];
    }
  }

  /** A flush of the history is a drain of the buffer: the same rows leave the queue, and the deliveries it adds are the rows the cloud received. */
  lemma FlushIsDrain(cap: int, h: History, world: nat -> Attempt)
    requires Recorded(cap, h)
    ensures ValidDb(h.db)
    ensures var d := Do(cap, h, Flush(world));
      && d.db == h.db.(outbox := h.db.outbox[Removed(h.db.outbox, 0, world)..])
      && |h.sends| <= |d.sends| && (forall i | |h.sends| <= i < |d.sends| :: d.sends[i] < |h.committed|)
      && RowsAt(h.committed, d.sends[|h.sends|..]) == Sent(h.db.outbox, world)
  {
    RecordedIsValid(cap, h);
    var base, reached := |h.fate|, Reached(h.db.outbox, world);
    var d := Do(cap, h, Flush(world));
    NumbersNameTelemetry(h.committed, base, base + reached);
    assert d.sends[|h.sends|..] == Numbers(h.committed, base, base + reached);
    assert h.committed[base..base + reached] == h.db.outbox[..reached];
    assert Sent(h.db.outbox, world) == TelemetryOf(h.db.outbox[..reached]);
  }
}
