/**
 The agent's SQLite buffer: the outbox under its byte cap, the ledger of ingested uploads
 and the table of applied commands. Tables are sequences and maps; a transaction works on
 copies and is committed by one assignment.
 */
module Buffer {
  import opened Wrappers
  import opened Telemetry

  datatype Row = Row(id: nat, kind: string, body: Body)

  datatype Outcome = Outcome(status: string, result: string)

  /** The durable state: what a crash leaves behind. */
  datatype Db = Db(outbox: seq<Row>, nextId: nat, ledger: map<string, Stamp>, applied: map<string, Outcome>)

  const EMPTY_DB := Db([], 0, map[], map[])
  const TELEMETRY := "telemetry"
  const LEDGER_CHUNK: nat := 5000
  const DRAIN_LIMIT: nat := 100

  predicate Ascending(rows: seq<Row>) {
    forall i, j | 0 <= i < j < |rows| :: rows[i].id < rows[j].id
  }

  predicate ValidDb(db: Db) {
    Ascending(db.outbox) && forall i | 0 <= i < |db.outbox| :: db.outbox[i].id < db.nextId
  }

  // ---------------------------------------------------------------- payload and eviction

  function Payload(rows: seq<Row>): nat {
    if rows == [] then 0 else rows[0].body.len + Payload(rows[1..])
  }

  lemma {:induction false} PayloadConcat(a: seq<Row>, b: seq<Row>)
    ensures Payload(a + b) == Payload(a) + Payload(b)
  {
    if a == [] {
      assert a + b == b;
    } else {
      assert (a + b)[1..] == a[1..] + b;
      PayloadConcat(a[1..], b);
    }
  }

  lemma PayloadNext(rows: seq<Row>, n: nat)
    requires n < |rows|
    ensures Payload(rows[n..]) == rows[n].body.len + Payload(rows[n + 1..])
  {
    assert rows[n..][1..] == rows[n + 1..];
  }

  /** What is left when the head is dropped one row at a time until the newcomer fits. */
  function Kept(rows: seq<Row>, incoming: nat, cap: int): seq<Row> {
    if cap <= 0 || rows == [] || Payload(rows) + incoming <= cap then rows
    else Kept(rows[1..], incoming, cap)
  }

  function Evicted(rows: seq<Row>, incoming: nat, cap: int): (n: nat)
    ensures n <= |rows| && Kept(rows, incoming, cap) == rows[n..]
  {
    if cap <= 0 || rows == [] || Payload(rows) + incoming <= cap then 0
    else 1 + Evicted(rows[1..], incoming, cap)
  }

  /** Only the shortest oldest-first run that suffices is evicted, from any state. */
  lemma {:induction false} EvictionIsShortest(rows: seq<Row>, incoming: nat, cap: int)
    requires 0 < cap && incoming <= cap
    ensures var n := Evicted(rows, incoming, cap);
      && Payload(rows[n..]) + incoming <= cap
      && forall k | 0 <= k < n :: Payload(rows[k..]) + incoming > cap
  {
    if rows != [] && Payload(rows) + incoming > cap {
      EvictionIsShortest(rows[1..], incoming, cap);
      var n := Evicted(rows, incoming, cap);
      assert rows[n..] == rows[1..][n - 1..];
      forall k | 0 <= k < n ensures Payload(rows[k..]) + incoming > cap {
        if k > 0 {
          assert rows[k..] == rows[1..][k - 1..];
        } else {
          assert rows[k..] == rows;
        }
      }
    } else {
      assert rows[0..] == rows;
    }
  }

  /** From its k-th row on the queue leaves no room for the incoming body. */
  predicate Over(rows: seq<Row>, k: nat, incoming: nat, cap: int) {
    k <= |rows| && Payload(rows[k..]) + incoming > cap
  }

  lemma OverTail(rows: seq<Row>, k: nat, incoming: nat, cap: int)
    requires rows != []
    ensures Over(rows[1..], k, incoming, cap) <==> Over(rows, k + 1, incoming, cap)
  {
    if k < |rows| {
      assert rows[1..][k..] == rows[k + 1..];
    }
  }

  lemma {:induction false} KeptByExcess(rows: seq<Row>, incoming: nat, cap: int, n: nat)
    requires 0 < cap && incoming <= cap && n <= |rows|
    requires !Over(rows, n, incoming, cap)
    requires forall k | 0 <= k < n :: Over(rows, k, incoming, cap)
    ensures Evicted(rows, incoming, cap) == n && Kept(rows, incoming, cap) == rows[n..]
  {
    assert rows[0..] == rows;
    if n > 0 {
      assert Over(rows, 0, incoming, cap);
      forall k | 0 <= k < n - 1 ensures Over(rows[1..], k, incoming, cap) {
        OverTail(rows, k, incoming, cap);
      }
      OverTail(rows, n - 1, incoming, cap);
      KeptByExcess(rows[1..], incoming, cap, n - 1);
      assert rows[1..][n - 1..] == rows[n..];
    }
  }

  /** DELETE FROM outbox WHERE id <= last. */
  function DeleteUpTo(rows: seq<Row>, last: int): seq<Row> {
    if rows == [] then []
    else (if rows[0].id <= last then [] else [rows[0]]) + DeleteUpTo(rows[1..], last)
  }

  lemma {:induction false} DeleteUpToIsSuffix(rows: seq<Row>, n: nat, last: int)
    requires Ascending(rows) && n <= |rows|
    requires n > 0 ==> rows[n - 1].id <= last
    requires n < |rows| ==> last < rows[n].id
    ensures DeleteUpTo(rows, last) == rows[n..]
    decreases |rows|
  {
    if rows != [] {
      if n > 0 {
        assert rows[0].id <= rows[n - 1].id;
        DeleteUpToIsSuffix(rows[1..], n - 1, last);
        assert rows[1..][n - 1..] == rows[n..];
      } else {
        DeleteUpToIsSuffix(rows[1..], 0, last);
      }
    }
  }

  /** evictOldest: walks ids and lengths only as far as the excess, then deletes in one statement. */
  method EvictOldest(rows: seq<Row>, incoming: nat, cap: int) returns (kept: seq<Row>, evicted: nat)
    requires Ascending(rows) && 0 < cap && incoming <= cap
    ensures kept == Kept(rows, incoming, cap)
    ensures evicted == Evicted(rows, incoming, cap)
  {
    var queued := Payload(rows);
    var excess := queued + incoming - cap;
    if excess <= 0 {
      return rows, 0;
    }
    var lastId, freed, n := 0, 0, 0;
    assert rows[..0] == [] && rows[0..] == rows;
    while freed < excess && n < |rows|
      invariant 0 <= n <= |rows|
      invariant freed + Payload(rows[n..]) == queued
      invariant n > 0 ==> lastId == rows[n - 1].id
      invariant forall k | 0 <= k < n :: Over(rows, k, incoming, cap)
      decreases |rows| - n
    {
      PayloadNext(rows, n);
      lastId := rows[n].id;
      freed := freed + rows[n].body.len;
      n := n + 1;
    }
    assert n == |rows| ==> rows[n..] == [];
    DeletedIsKept(rows, incoming, cap, n, lastId);
    kept := DeleteUpTo(rows, lastId);
    evicted := n;
  }

  /** Deleting up to the last id walked over leaves what dropping heads would. */
  lemma DeletedIsKept(rows: seq<Row>, incoming: nat, cap: int, n: nat, lastId: int)
    requires Ascending(rows) && 0 < cap && incoming <= cap && 0 < n <= |rows| && lastId == rows[n - 1].id
    requires !Over(rows, n, incoming, cap) && forall k | 0 <= k < n :: Over(rows, k, incoming, cap)
    ensures DeleteUpTo(rows, lastId) == Kept(rows, incoming, cap) && Evicted(rows, incoming, cap) == n
  {
    KeptByExcess(rows, incoming, cap, n);
    DeleteUpToIsSuffix(rows, n, lastId);
  }

  // ---------------------------------------------------------------- ledger

  function Upsert(ledger: map<string, Stamp>, marks: seq<Mark>): map<string, Stamp>
    decreases |marks|
  {
    if marks == [] then ledger
    else Upsert(ledger[marks[0].path := marks[0].stamp], marks[1..])
  }

  lemma {:induction false} UpsertConcat(ledger: map<string, Stamp>, a: seq<Mark>, b: seq<Mark>)
    ensures Upsert(ledger, a + b) == Upsert(Upsert(ledger, a), b)
    decreases |a|
  {
    if a == [] {
      assert a + b == b;
    } else {
      assert (a + b)[1..] == a[1..] + b;
      UpsertConcat(ledger[a[0].path := a[0].stamp], a[1..], b);
    }
  }

  /** The last mark of a path wins. */
  lemma {:induction false} UpsertLastWins(ledger: map<string, Stamp>, marks: seq<Mark>, i: nat)
    requires i < |marks| && forall j | i < j < |marks| :: marks[j].path != marks[i].path
    ensures marks[i].path in Upsert(ledger, marks)
    ensures Upsert(ledger, marks)[marks[i].path] == marks[i].stamp
    decreases |marks|
  {
    var next := ledger[marks[0].path := marks[0].stamp];
    if i == 0 {
      UpsertUntouched(next, marks[1..], marks[0].path);
    } else {
      UpsertLastWins(next, marks[1..], i - 1);
    }
  }

  /** A path no mark names keeps what it had. */
  lemma {:induction false} UpsertUntouched(ledger: map<string, Stamp>, marks: seq<Mark>, p: string)
    requires forall j | 0 <= j < |marks| :: marks[j].path != p
    ensures p in Upsert(ledger, marks) <==> p in ledger
    ensures p in ledger ==> Upsert(ledger, marks)[p] == ledger[p]
    decreases |marks|
  {
    if marks != [] {
      UpsertUntouched(ledger[marks[0].path := marks[0].stamp], marks[1..], p);
    }
  }

  /** Every stamp an upsert leaves behind was there or is one of its marks. */
  lemma {:induction false} UpsertEntry(ledger: map<string, Stamp>, marks: seq<Mark>, p: string)
    requires p in Upsert(ledger, marks)
    ensures Mark(p, Upsert(ledger, marks)[p]) in marks || (p in ledger && Upsert(ledger, marks)[p] == ledger[p])
    decreases |marks|
  {
    if marks != [] {
      UpsertEntry(ledger[marks[0].path := marks[0].stamp], marks[1..], p);
    }
  }

  lemma {:induction false} UpsertKeys(ledger: map<string, Stamp>, marks: seq<Mark>)
    ensures Upsert(ledger, marks).Keys == ledger.Keys + set m | m in marks :: m.path
    decreases |marks|
  {
    if marks != [] {
      UpsertKeys(ledger[marks[0].path := marks[0].stamp], marks[1..]);
      assert (set m | m in marks :: m.path) == {marks[0].path} + set m | m in marks[1..] :: m.path;
    }
  }

  function Min(a: nat, b: nat): nat {
    if a <= b then a else b
  }

  /** How many of n items the chunk loop gets through when chunk k fails at fails(k). */
  function Written(n: nat, chunk: nat, fails: nat -> bool): (w: nat)
    requires chunk * LEDGER_CHUNK <= n + LEDGER_CHUNK
    ensures w <= n
    decreases n + LEDGER_CHUNK - chunk * LEDGER_CHUNK
  {
    if chunk * LEDGER_CHUNK >= n then n
    else if fails(chunk) then chunk * LEDGER_CHUNK
    else Written(n, chunk + 1, fails)
  }

  /** Either everything was written, or exactly the chunks before the first failing one. */
  lemma {:induction false} WrittenIsPrefix(n: nat, chunk: nat, fails: nat -> bool)
    requires chunk * LEDGER_CHUNK <= n + LEDGER_CHUNK
    ensures var w := Written(n, chunk, fails);
      || (w == n && forall k | chunk <= k && k * LEDGER_CHUNK < n :: !fails(k))
      || (exists k | chunk <= k && w == k * LEDGER_CHUNK && w < n ::
            fails(k) && forall j | chunk <= j < k :: !fails(j))
    decreases n + LEDGER_CHUNK - chunk * LEDGER_CHUNK
  {
    var w := Written(n, chunk, fails);
    if chunk * LEDGER_CHUNK >= n {
    } else if fails(chunk) {
      assert w == chunk * LEDGER_CHUNK;
    } else {
      WrittenIsPrefix(n, chunk + 1, fails);
      if w < n {
        var k :| chunk + 1 <= k && w == k * LEDGER_CHUNK && fails(k) && forall j | chunk + 1 <= j < k :: !fails(j);
        assert forall j | chunk <= j < k :: !fails(j);
      }
    }
  }

  /** The payload of a queue is the sum of its bodies' bytes. */
  lemma PayloadSums(rows: seq<Row>, row: Row)
    ensures Payload([]) == 0
    ensures Payload(rows + [row]) == Payload(rows) + row.body.len
  {
    PayloadConcat(rows, [row]);
    assert Payload([row]) == row.body.len + Payload([]);
  }

  // ---------------------------------------------------------------- drain

  /** What happens to the i-th row of a drain: the send's and the delete's success. */
  datatype Attempt = Attempt(sent: bool, deleted: bool)

  predicate Passes(row: Row, a: Attempt) {
    (row.kind == TELEMETRY ==> a.sent) && a.deleted
  }

  /** How many rows a drain removes: it stops at the first row that does not pass. */
  function Removed(rows: seq<Row>, i: nat, world: nat -> Attempt): (n: nat)
    requires i <= Min(|rows|, DRAIN_LIMIT)
    ensures i <= n <= Min(|rows|, DRAIN_LIMIT)
    ensures forall k | i <= k < n :: Passes(rows[k], world(k))
    ensures n < Min(|rows|, DRAIN_LIMIT) ==> !Passes(rows[n], world(n))
    decreases Min(|rows|, DRAIN_LIMIT) - i
  {
    if i == Min(|rows|, DRAIN_LIMIT) || !Passes(rows[i], world(i)) then i
    else Removed(rows, i + 1, world)
  }

  /** When every send and delete succeeds a drain removes all it may: up to 100 rows. */
  lemma {:induction false} FaultlessDrainRemovesAll(rows: seq<Row>, i: nat, world: nat -> Attempt)
    requires i <= |rows| && i <= 100 && forall k | i <= k < |rows| :: world(k) == Attempt(true, true)
    ensures Removed(rows, i, world) == if |rows| <= 100 then |rows| else 100
    decreases |rows| - i
  {
    if i < |rows| && i < 100 {
      FaultlessDrainRemovesAll(rows, i + 1, world);
    }
  }

  predicate IsTelemetry(row: Row) {
    row.kind == TELEMETRY
  }

  function TelemetryOf(rows: seq<Row>): seq<Row> {
    if rows == [] then []
    else
      var k := |rows| - 1;
      TelemetryOf(rows[..k]) + if IsTelemetry(rows[k]) then [rows[k]] else []
  }

  /** The rows the cloud received: those removed, and one more when only its delete failed. */
  function Sent(rows: seq<Row>, world: nat -> Attempt): seq<Row> {
    var n := Removed(rows, 0, world);
    var stuck := n < Min(|rows|, DRAIN_LIMIT) && IsTelemetry(rows[n]) && world(n).sent;
    TelemetryOf(rows[..if stuck then n + 1 else n])
  }

  lemma TelemetryOfNext(rows: seq<Row>, i: nat)
    requires i < |rows|
    ensures TelemetryOf(rows[..i + 1]) == TelemetryOf(rows[..i]) + if IsTelemetry(rows[i]) then [rows[i]] else []
  {
    assert rows[..i + 1][..i] == rows[..i];
  }

  /** So an outbox of up to 100 rows is emptied, and the cloud receives all its telemetry. */
  lemma FaultlessDrainDelivers(rows: seq<Row>, world: nat -> Attempt)
    requires |rows| <= 100 && forall k | 0 <= k < |rows| :: world(k) == Attempt(true, true)
    ensures rows[Removed(rows, 0, world)..] == []
    ensures Sent(rows, world) == TelemetryOf(rows)
  {
    FaultlessDrainRemovesAll(rows, 0, world);
    assert rows[..|rows|] == rows;
  }

  lemma {:induction false} TelemetryIs(rows: seq<Row>)
    ensures forall r :: r in TelemetryOf(rows) <==> r in rows && r.kind == "telemetry"
  {
    if rows != [] {
      var k := |rows| - 1;
      assert rows == rows[..k] + [rows[k]];
      TelemetryIs(rows[..k]);
    }
  }

  /** DELETE FROM outbox WHERE id = ?. */
  function DeleteRow(rows: seq<Row>, id: nat): seq<Row> {
    if rows == [] then []
    else (if rows[0].id == id then [] else [rows[0]]) + DeleteRow(rows[1..], id)
  }

  lemma {:induction false} DeleteRowAbsent(rows: seq<Row>, id: nat)
    requires forall i | 0 <= i < |rows| :: rows[i].id != id
    ensures DeleteRow(rows, id) == rows
  {
    if rows != [] {
      DeleteRowAbsent(rows[1..], id);
    }
  }

  lemma DeleteHead(rows: seq<Row>, i: nat)
    requires Ascending(rows) && i < |rows|
    ensures DeleteRow(rows[i..], rows[i].id) == rows[i + 1..]
  {
    assert rows[i..][1..] == rows[i + 1..];
    DeleteRowAbsent(rows[i + 1..], rows[i].id);
  }

  /** What a drain has done when it stops at row i. */
  lemma SentWhenStopped(rows: seq<Row>, i: nat, world: nat -> Attempt)
    requires Removed(rows, 0, world) == i
    ensures i < Min(|rows|, DRAIN_LIMIT) && IsTelemetry(rows[i]) && world(i).sent ==>
      Sent(rows, world) == TelemetryOf(rows[..i]) + [rows[i]]
    ensures !(i < Min(|rows|, DRAIN_LIMIT) && IsTelemetry(rows[i]) && world(i).sent) ==>
      Sent(rows, world) == TelemetryOf(rows[..i])
  {
    if i < Min(|rows|, DRAIN_LIMIT) {
      TelemetryOfNext(rows, i);
    }
  }

  // ---------------------------------------------------------------- the buffer

  datatype Statement = Begin | Evict | Insert | Mark_ | Commit

  datatype EnqueueResult = Queued | TooLarge | Failed

  predicate Admits(cap: int, len: nat) {
    cap <= 0 || len <= cap
  }

  /** Whether some statement that the transaction runs fails. */
  predicate Breaks(cap: int, marks: seq<Mark>, faults: set<Statement>) {
    Begin in faults || Insert in faults || Commit in faults || (cap > 0 && Evict in faults) || (marks != [] && Mark_ in faults)
  }

  function Enqueued(db: Db, cap: int, kind: string, body: Body, marks: seq<Mark>): Db {
    Db(Kept(db.outbox, body.len, cap) + [Row(db.nextId, kind, body)], db.nextId + 1, Upsert(db.ledger, marks), db.applied)
  }

  lemma EnqueuedIsValid(db: Db, cap: int, kind: string, body: Body, marks: seq<Mark>)
    requires ValidDb(db)
    ensures ValidDb(Enqueued(db, cap, kind, body, marks))
  {
    var n := Evicted(db.outbox, body.len, cap);
    var d := Enqueued(db, cap, kind, body, marks);
    assert d.outbox == db.outbox[n..] + [Row(db.nextId, kind, body)];
  }

  /** A committed enqueue leaves its row last, under a fresh number, and the last mark of each path in the ledger; nothing else changes. */
  lemma EnqueuedLeaves(db: Db, cap: int, kind: string, body: Body, marks: seq<Mark>)
    ensures var d := Enqueued(db, cap, kind, body, marks);
      && d.outbox != [] && d.outbox[|d.outbox| - 1].id == db.nextId && d.nextId == db.nextId + 1
      && d.outbox[|d.outbox| - 1].kind == kind && d.outbox[|d.outbox| - 1].body == body
      && d.applied == db.applied
      && (forall i | 0 <= i < |marks| && (forall j | i < j < |marks| :: marks[j].path != marks[i].path) ::
            marks[i].path in d.ledger && d.ledger[marks[i].path] == marks[i].stamp)
      && (forall p | forall j | 0 <= j < |marks| :: marks[j].path != p ::
            (p in d.ledger <==> p in db.ledger) && (p in db.ledger ==> d.ledger[p] == db.ledger[p]))
  {
    forall i | 0 <= i < |marks| && forall j | i < j < |marks| :: marks[j].path != marks[i].path
      ensures marks[i].path in Upsert(db.ledger, marks) && Upsert(db.ledger, marks)[marks[i].path] == marks[i].stamp
    {
      UpsertLastWins(db.ledger, marks, i);
    }
    forall p | forall j | 0 <= j < |marks| :: marks[j].path != p
      ensures p in Upsert(db.ledger, marks) <==> p in db.ledger
      ensures p in db.ledger ==> Upsert(db.ledger, marks)[p] == db.ledger[p]
    {
      UpsertUntouched(db.ledger, marks, p);
    }
  }

  /** A capped enqueue ends within the cap from any state, behind the shortest suffix that makes room. */
  lemma EnqueuedMeetsCap(db: Db, cap: int, kind: string, body: Body, marks: seq<Mark>)
    requires Admits(cap, body.len)
    ensures var d, n := Enqueued(db, cap, kind, body, marks), Evicted(db.outbox, body.len, cap);
      && d.outbox == db.outbox[n..] + [Row(db.nextId, kind, body)]
      && (cap > 0 ==> Payload(d.outbox) <= cap)
      && (forall k | 0 <= k < n :: Payload(db.outbox[k..]) + body.len > cap)
  {
    var n := Evicted(db.outbox, body.len, cap);
    var row := Row(db.nextId, kind, body);
    PayloadConcat(db.outbox[n..], [row]);
    assert Payload([row]) == body.len + Payload([]);
    if cap > 0 {
      EvictionIsShortest(db.outbox, body.len, cap);
    }
  }

  class Buffer {
    var outbox: seq<Row>
    var nextId: nat
    var ledger: map<string, Stamp>
    var applied: map<string, Outcome>
    const maxBytes: int

    ghost function State(): Db
      reads this
    {
      Db(outbox, nextId, ledger, applied)
    }

    ghost predicate Valid()
      reads this
    {
      ValidDb(State())
    }

    constructor (maxBytes: int)
      ensures Valid() && State() == EMPTY_DB && this.maxBytes == maxBytes
    {
      outbox, nextId, ledger, applied := [], 0, map[], map[];
      this.maxBytes := maxBytes;
    }

    /** Insert, evict and mark in one transaction; a failure anywhere rolls all of it back. */
    method EnqueueWithMarks(kind: string, body: Body, marks: seq<Mark>, faults: set<Statement>) returns (r: EnqueueResult)
      requires Valid()
      modifies this
      ensures Valid()
      ensures r == TooLarge <==> !Admits(maxBytes, body.len)
      ensures r == Failed <==> Admits(maxBytes, body.len) && Breaks(maxBytes, marks, faults)
      ensures r == TooLarge <==> maxBytes > 0 && body.len > maxBytes
      ensures r == Queued ==> faults !! {Begin, Insert, Commit} && (maxBytes > 0 ==> Evict !in faults) && (marks != [] ==> Mark_ !in faults)
      ensures r == Failed ==> faults != {}
      ensures State() == if r == Queued then Enqueued(old(State()), maxBytes, kind, body, marks) else old(State())
    {
      if maxBytes > 0 && body.len > maxBytes {
        return TooLarge;
      }
      if Begin in faults {
        return Failed;
      }
      var rows := outbox;
      if maxBytes > 0 {
        if Evict in faults {
          return Failed;
        }
        var evicted;
        rows, evicted := EvictOldest(rows, body.len, maxBytes);
      }
      EnqueuedIsValid(State(), maxBytes, kind, body, marks);
      rows := rows + [Row(nextId, kind, body)];
      if Insert in faults {
        return Failed;
      }
      var marked := ledger;
      if |marks| > 0 {
        if Mark_ in faults {
          return Failed;
        }
        marked := UpsertMarks(marked, marks, 0, |marks|);
        assert marks[0..|marks|] == marks;
      }
      if Commit in faults {
        return Failed;
      }
      outbox, nextId, ledger := rows, nextId + 1, marked;
      r := Queued;
    }

    /** upsertMarks: one prepared statement per mark, inside the caller's transaction. */
    static method UpsertMarks(table: map<string, Stamp>, marks: seq<Mark>, start: nat, end: nat)
      returns (out: map<string, Stamp>)
      requires start <= end <= |marks|
      ensures out == Upsert(table, marks[start..end])
    {
      out := table;
      var i := start;
      while i < end
        invariant start <= i <= end
        invariant Upsert(table, marks[start..end]) == Upsert(out, marks[i..end])
      {
        assert marks[i..end][1..] == marks[i + 1..end];
        out := out[marks[i].path := marks[i].stamp];
        i := i + 1;
      }
    }

    method MarkFTPIngested(marks: seq<Mark>, fails: nat -> bool) returns (ok: bool)
      requires Valid()
      modifies this`ledger
      ensures Valid()
      ensures ledger == Upsert(old(ledger), marks[..Written(|marks|, 0, fails)])
      ensures ok <==> Written(|marks|, 0, fails) == |marks|
    {
      var start, chunk := 0, 0;
      assert marks[..0] == [];
      while start < |marks|
        invariant start == chunk * LEDGER_CHUNK <= |marks| + LEDGER_CHUNK
        invariant Written(|marks|, 0, fails) == Written(|marks|, chunk, fails)
        invariant ledger == Upsert(old(ledger), marks[..Min(start, |marks|)])
        decreases |marks| - start
      {
        var end := Min(start + LEDGER_CHUNK, |marks|);
        var rows := UpsertMarks(ledger, marks, start, end);
        if fails(chunk) {
          return false;
        }
        assert marks[..end] == marks[..start] + marks[start..end];
        UpsertConcat(old(ledger), marks[..start], marks[start..end]);
        ledger := rows;
        start, chunk := start + LEDGER_CHUNK, chunk + 1;
      }
      assert marks[..|marks|] == marks;
      ok := true;
    }

    method ForgetFTPIngested(paths: seq<string>, fails: nat -> bool) returns (ok: bool)
      requires Valid()
      modifies this`ledger
      ensures Valid()
      ensures ledger == old(ledger) - Elements(paths[..Written(|paths|, 0, fails)])
      ensures ok <==> Written(|paths|, 0, fails) == |paths|
    {
      var start, chunk := 0, 0;
      while start < |paths|
        invariant start == chunk * LEDGER_CHUNK <= |paths| + LEDGER_CHUNK
        invariant Written(|paths|, 0, fails) == Written(|paths|, chunk, fails)
        invariant ledger == old(ledger) - Elements(paths[..Min(start, |paths|)])
        decreases |paths| - start
      {
        var end := Min(start + LEDGER_CHUNK, |paths|);
        var rows := ledger;
        var i := start;
        while i < end
          invariant start <= i <= end
          invariant rows == old(ledger) - Elements(paths[..i])
        {
          assert paths[..i + 1] == paths[..i] + [paths[i]];
          rows := rows - {paths[i]};
          i := i + 1;
        }
        if fails(chunk) {
          return false;
        }
        ledger := rows;
        start, chunk := start + LEDGER_CHUNK, chunk + 1;
      }
      assert paths[..|paths|] == paths;
      ok := true;
    }

    method LoadFTPIngested(fails: bool) returns (out: Option<map<string, Stamp>>)
      ensures out == if fails then None else Some(ledger)
    {
      if fails {
        return None;
      }
      var rows, table := ledger.Keys, map[];
      while rows != {}
        invariant rows <= ledger.Keys
        invariant table == map p | p in ledger.Keys - rows :: ledger[p]
        decreases rows
      {
        var p :| p in rows;
        table, rows := table[p := ledger[p]], rows - {p};
      }
      assert table == ledger;
      out := Some(table);
    }

    /** Sends the oldest rows in order, deleting each after its send; stops at the first failure. */
    method Drain(world: nat -> Attempt) returns (ok: bool, sent: seq<Row>)
      requires Valid()
      modifies this`outbox
      ensures Valid()
      ensures outbox == old(outbox)[Removed(old(outbox), 0, world)..]
      ensures ok <==> Removed(old(outbox), 0, world) == Min(|old(outbox)|, DRAIN_LIMIT)
      ensures sent == Sent(old(outbox), world)
    {
      var batch := outbox[..Min(|outbox|, DRAIN_LIMIT)];
      ghost var n := Removed(outbox, 0, world);
      var i := 0;
      sent, ok := [], true;
      while i < |batch| && ok
        invariant 0 <= i <= |batch|
        invariant outbox == old(outbox)[i..]
        invariant ok ==> n == Removed(old(outbox), i, world) && sent == TelemetryOf(old(outbox)[..i])
        invariant !ok ==> n == i < |batch| && sent == Sent(old(outbox), world)
        decreases |batch| - i, ok
      {
        var row := batch[i];
        ok := row.kind != TELEMETRY || world(i).sent;
        if ok {
          TelemetryOfNext(old(outbox), i);
          if row.kind == TELEMETRY {
            sent := sent + [row];
          }
          ok := world(i).deleted;
        }
        if ok {
          DeleteHead(old(outbox), i);
          outbox := DeleteRow(outbox, row.id);
          i := i + 1;
        } else {
          SentWhenStopped(old(outbox), i, world);
        }
      }
      if ok {
        SentWhenStopped(old(outbox), i, world);
      }
    }

    method AlreadyApplied(commandId: string, fails: bool) returns (done: Option<Outcome>)
      ensures done == if !fails && commandId in applied then Some(applied[commandId]) else None
    {
      done := if !fails && commandId in applied then Some(applied[commandId]) else None;
    }

    method MarkApplied(commandId: string, outcome: Outcome, fails: bool)
      modifies this`applied
      ensures applied == if fails then old(applied) else old(applied)[commandId := outcome]
    {
      if !fails {
        applied := applied[commandId := outcome];
      }
    }
  }
}
