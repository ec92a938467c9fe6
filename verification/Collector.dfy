/**
 The collector's FTP intake: the bookkeeping of every upload in the watch directory, and
 the queue of parsed events with the marks that must be persisted with them.
 */
module Collector {
  import opened Wrappers
  import opened Telemetry
  import opened Identity
  import opened Buffer

  const MAX_DEFER_TICKS: nat := 30
  const RESOLVE_RETRY_TICKS: nat := 30
  const MAX_PARSE_RETRIES: nat := 5
  const REWRITE_CHECK_TICKS: nat := 30

  // ---------------------------------------------------------------- the state as a value

  /** seen, deferred and fails are the bookkeeping of scans; events, marks and requeued are shared with the worker. */
  datatype Col = Col(
    seen: map<string, Stamp>, deferred: map<string, nat>, fails: map<string, nat>, scans: nat,
    pending: seq<Mark>, events: seq<EventItem>, marks: seq<EventMark>, requeued: seq<Mark>, ledgered: bool)

  /** What one visit of a path learns: the re-stat of a seen file, the credited device, the stamp, the parse. */
  datatype Sighting = Sighting(again: Option<Stamp>, device: Option<string>, stamp: Option<Stamp>, parsed: Option<seq<EventItem>>)

  function Ticks(m: map<string, nat>, p: string): nat {
    GetOr(m, p, 0)
  }

  /** Past the fast window a file is looked up only every RESOLVE_RETRY_TICKS polls. */
  predicate Skips(tick: nat) {
    tick >= MAX_DEFER_TICKS && (tick - MAX_DEFER_TICKS) % RESOLVE_RETRY_TICKS != 0
  }

  function MarkedSeen(c: Col, p: string, stamp: Stamp, events: seq<EventItem>): Col {
    var c1 := c.(seen := c.seen[p := stamp], deferred := c.deferred - {p}, fails := c.fails - {p});
    if events == [] then c1.(pending := if c.ledgered then c.pending + [Mark(p, stamp)] else c.pending)
    else c1.(events := c.events + events,
             marks := if c.ledgered then c.marks + [EventMark(Mark(p, stamp), |c.events| + |events|)] else c.marks)
  }

  /** The intake of an unseen upload: deferred, retried, given up on, or parsed. */
  function Intake(c: Col, p: string, s: Sighting): Col {
    var tick := Ticks(c.deferred, p);
    if Skips(tick) || s.device.None? then c.(deferred := c.deferred[p := tick + 1])
    else if s.stamp.None? then c
    else if s.parsed.Some? then MarkedSeen(c, p, s.stamp.value, s.parsed.value)
    else
      var n := Ticks(c.fails, p) + 1;
      if n < MAX_PARSE_RETRIES then c.(fails := c.fails[p := n])
      else MarkedSeen(c, p, s.stamp.value, [])
  }

  /** A seen upload is left alone unless a rewrite check finds another stamp. */
  predicate LeftAlone(c: Col, p: string, s: Sighting, check: bool) {
    p in c.seen && (!check || s.again.None? || s.again.value == c.seen[p])
  }

  function Visit(c: Col, p: string, s: Sighting, check: bool): Col {
    if LeftAlone(c, p, s, check) then c
    else Intake(c.(seen := c.seen - {p}), p, s)
  }

  /** Uploads handed back by the worker are unseen again, unless re-marked with a newer stamp. */
  function WithoutRequeued(c: Col): Col {
    c.(seen := map p | p in c.seen && Mark(p, c.seen[p]) !in c.requeued :: c.seen[p], requeued := [])
  }

  function VisitAll(c: Col, paths: seq<string>, world: string -> Sighting, check: bool): Col
    decreases |paths|
  {
    if paths == [] then c
    else VisitAll(Visit(c, paths[0], world(paths[0]), check), paths[1..], world, check)
  }

  function Restrict<V>(m: map<string, V>, keys: set<string>): map<string, V> {
    map p | p in m && p in keys :: m[p]
  }

  function Rotated(c: Col, present: set<string>): Col {
    c.(seen := Restrict(c.seen, present), deferred := Restrict(c.deferred, present), fails := Restrict(c.fails, present))
  }

  /** One successful poll of the directory, up to the clean-up of rotated paths. */
  function Visited(c: Col, paths: seq<string>, world: string -> Sighting): Col {
    var c := WithoutRequeued(c);
    VisitAll(c.(scans := c.scans + 1), paths, world, c.scans % REWRITE_CHECK_TICKS == 0)
  }

  function Scanned(c: Col, paths: seq<string>, world: string -> Sighting): Col {
    Rotated(Visited(c, paths, world), Elements(paths))
  }

  function PresentMarks(ms: seq<Mark>, present: set<string>): seq<Mark> {
    if ms == [] then []
    else
      var rest := PresentMarks(ms[1..], present);
      if ms[0].path in present then [ms[0]] + rest else rest
  }

  function PresentEventMarks(ms: seq<EventMark>, present: set<string>): seq<EventMark> {
    if ms == [] then []
    else
      var rest := PresentEventMarks(ms[1..], present);
      if ms[0].mark.path in present then [ms[0]] + rest else rest
  }

  /** Marks of paths that rotated away are dropped before they are persisted. */
  function MarksFiltered(c: Col, present: set<string>): Col {
    c.(pending := PresentMarks(c.pending, present), marks := PresentEventMarks(c.marks, present))
  }

  /** Once n pending marks are in the ledger: all of them are let go, or all are retried. */
  function Flushed(c: Col, n: nat): Col {
    if n == |c.pending| then c.(pending := []) else c
  }

  /** The marks a scan tries to persist once the rotated paths are known. */
  function Flushable(c: Col, present: set<string>, gone: seq<string>): Col {
    if gone == [] then c else MarksFiltered(c, present)
  }

  /** How a scan leaves the collector and the ledger, given which chunk writes fail. */
  function Persisted(c: Col, present: set<string>, gone: seq<string>, markFails: nat -> bool): Col {
    var f := Flushable(c, present, gone);
    Flushed(f, Written(|f.pending|, 0, markFails))
  }

  function PersistedLedger(table: map<string, Stamp>, c: Col, present: set<string>, gone: seq<string>,
                           forgetFails: nat -> bool, markFails: nat -> bool): map<string, Stamp> {
    var f := Flushable(c, present, gone);
    Upsert(table - Elements(gone[..Written(|gone|, 0, forgetFails)]), f.pending[..Written(|f.pending|, 0, markFails)])
  }

  /** The marks of the uploads whose last event has an index in [start, end). */
  function MarksBetween(ms: seq<EventMark>, start: nat, end: nat): seq<Mark> {
    if ms == [] then []
    else
      var rest := MarksBetween(ms[1..], start, end);
      if start < ms[0].end <= end then [ms[0].mark] + rest else rest
  }

  /** The hand-off of parsed events with their marks. */
  datatype FTPBatch = FTPBatch(events: seq<EventItem>, marks: seq<EventMark>) {
    method MarksIn(start: nat, end: nat) returns (out: seq<Mark>)
      ensures out == MarksBetween(marks, start, end)
    {
      out := [];
      var i := 0;
      while i < |marks|
        invariant 0 <= i <= |marks|
        invariant MarksBetween(marks, start, end) == out + MarksBetween(marks[i..], start, end)
      {
        assert marks[i..][1..] == marks[i + 1..];
        if start < marks[i].end <= end {
          out := out + [marks[i].mark];
        }
        i := i + 1;
      }
    }
  }

  // ---------------------------------------------------------------- the collector

  datatype Entry = Entry(name: string, isDir: bool)

  function Uploads(entries: seq<Entry>): seq<string> {
    if entries == [] then []
    else
      var rest := Uploads(entries[1..]);
      if entries[0].isDir || !IsPeriodicLog(entries[0].name) then rest else [entries[0].name] + rest
  }

  lemma UploadsNext(entries: seq<Entry>, i: nat)
    requires i < |entries|
    ensures Uploads(entries[i..]) ==
      if entries[i].isDir || !IsPeriodicLog(entries[i].name) then Uploads(entries[i + 1..])
      else [entries[i].name] + Uploads(entries[i + 1..])
  {
    assert entries[i..][1..] == entries[i + 1..];
  }

  /** A scan leaves no mark handed back: each is taken once. */
  lemma {:induction false} VisitAllRequeued(c: Col, paths: seq<string>, world: string -> Sighting, check: bool)
    ensures VisitAll(c, paths, world, check).requeued == c.requeued
    decreases |paths|
  {
    if paths != [] {
      VisitAllRequeued(Visit(c, paths[0], world(paths[0]), check), paths[1..], world, check);
    }
  }

  lemma ScannedRequeued(c: Col, paths: seq<string>, world: string -> Sighting)
    ensures Scanned(c, paths, world).requeued == []
  {
    var d := WithoutRequeued(c);
    VisitAllRequeued(d.(scans := d.scans + 1), paths, world, d.scans % REWRITE_CHECK_TICKS == 0);
  }

  lemma VisitAllCons(c: Col, p: string, rest: seq<string>, world: string -> Sighting, check: bool)
    ensures VisitAll(c, [p] + rest, world, check) == VisitAll(Visit(c, p, world(p), check), rest, world, check)
  {
    assert ([p] + rest)[1..] == rest;
  }

  class Collector {
    var seenPaths: map<string, Stamp>
    var deferred: map<string, nat>
    var parseFails: map<string, nat>
    var scans: nat
    var pendingMarks: seq<Mark>
    var events: seq<EventItem>
    var eventMarks: seq<EventMark>
    var requeued: seq<Mark>
    var ledger: Buffer?

    ghost function State(): Col
      reads this
    {
      Col(seenPaths, deferred, parseFails, scans, pendingMarks, events, eventMarks, requeued, ledger != null)
    }

    constructor ()
      ensures State() == Col(map[], map[], map[], 0, [], [], [], [], false)
      ensures ledger == null
    {
      seenPaths, deferred, parseFails, scans := map[], map[], map[], 0;
      pendingMarks, events, eventMarks, requeued, ledger := [], [], [], [], null;
    }

    method UseIngestLedger(l: Buffer, fails: bool) returns (ok: bool)
      modifies this
      ensures ok <==> !fails
      ensures !ok ==> State() == old(State()) && ledger == old(ledger)
      ensures ok ==> State() == old(State()).(seen := l.ledger, ledgered := true) && ledger == l
    {
      var loaded := l.LoadFTPIngested(fails);
      if loaded.None? {
        return false;
      }
      ledger := l;
      seenPaths := loaded.value;
      ok := true;
    }

    method DrainFTP() returns (batch: FTPBatch)
      modifies this`events, this`eventMarks
      ensures batch == FTPBatch(old(events), old(eventMarks))
      ensures events == [] && eventMarks == []
    {
      batch := FTPBatch(events, eventMarks);
      events, eventMarks := [], [];
    }

    method Requeue(marks: seq<Mark>)
      modifies this`requeued
      ensures requeued == old(requeued) + marks
    {
      if |marks| == 0 {
        return;
      }
      requeued := requeued + marks;
    }

    method TakeRequeued()
      modifies this
      ensures State() == WithoutRequeued(old(State())) && ledger == old(ledger)
      ensures requeued == []
      ensures forall p :: p in seenPaths <==> p in old(seenPaths) && Mark(p, old(seenPaths)[p]) !in old(requeued)
    {
      var marks := requeued;
      requeued := [];
      var i := 0;
      while i < |marks|
        invariant 0 <= i <= |marks|
        invariant seenPaths == map p | p in old(seenPaths) && Mark(p, old(seenPaths)[p]) !in marks[..i] :: old(seenPaths)[p]
        invariant State() == old(State()).(seen := seenPaths, requeued := []) && ledger == old(ledger)
      {
        var m := marks[i];
        assert marks[..i + 1] == marks[..i] + [m];
        if m.path in seenPaths && seenPaths[m.path] == m.stamp {
          seenPaths := seenPaths - {m.path};
        }
        i := i + 1;
      }
      assert marks[..i] == marks;
    }

    method MarkSeen(path: string, stamp: Stamp, found: seq<EventItem>)
      modifies this
      ensures State() == MarkedSeen(old(State()), path, stamp, found) && ledger == old(ledger)
    {
      seenPaths := seenPaths[path := stamp];
      deferred := deferred - {path};
      parseFails := parseFails - {path};
      var mark := Mark(path, stamp);
      if |found| == 0 {
        if ledger != null {
          pendingMarks := pendingMarks + [mark];
        }
        return;
      }
      events := events + found;
      if ledger != null {
        eventMarks := eventMarks + [EventMark(mark, |events|)];
      }
    }

    method IntakeEntry(path: string, s: Sighting)
      modifies this
      ensures State() == Intake(old(State()), path, s) && ledger == old(ledger)
    {
      var tick := GetOr(deferred, path, 0);
      if tick >= MAX_DEFER_TICKS && (tick - MAX_DEFER_TICKS) % RESOLVE_RETRY_TICKS != 0 {
        deferred := deferred[path := tick + 1];
        return;
      }
      if s.device.None? {
        deferred := deferred[path := tick + 1];
        return;
      }
      if s.stamp.None? {
        return;
      }
      if s.parsed.Some? {
        MarkSeen(path, s.stamp.value, s.parsed.value);
        return;
      }
      var n := GetOr(parseFails, path, 0) + 1;
      if n < MAX_PARSE_RETRIES {
        parseFails := parseFails[path := n];
      } else {
        MarkSeen(path, s.stamp.value, []);
      }
    }

    method VisitEntry(path: string, s: Sighting, checkRewrites: bool)
      modifies this
      ensures State() == Visit(old(State()), path, s, checkRewrites) && ledger == old(ledger)
    {
      if path in seenPaths {
        if !checkRewrites || s.again.None? || s.again.value == seenPaths[path] {
          return;
        }
      }
      seenPaths := seenPaths - {path};
      IntakeEntry(path, s);
    }

    static method DropAbsent<V>(m: map<string, V>, present: set<string>) returns (kept: map<string, V>, gone: seq<string>)
      ensures kept == Restrict(m, present)
      ensures Elements(gone) == m.Keys - present
    {
      kept, gone := m, [];
      var rest := m.Keys;
      while rest != {}
        invariant rest <= m.Keys
        invariant kept == map p | p in m && (p in rest || p in present) :: m[p]
        invariant forall q :: q in gone <==> q in m && q !in rest && q !in present
        decreases rest
      {
        var p :| p in rest;
        rest := rest - {p};
        if p !in present {
          kept, gone := kept - {p}, gone + [p];
        }
      }
    }

    /** Compacts the marks in place; the first n slots hold those that stay. */
    static method KeepPresent(ms: array<Mark>, present: set<string>) returns (n: nat)
      modifies ms
      ensures n <= ms.Length && ms[..n] == PresentMarks(old(ms[..]), present)
    {
      n := 0;
      var i := 0;
      assert old(ms[..]) == old(ms[0..]);
      while i < ms.Length
        invariant 0 <= n <= i <= ms.Length
        invariant ms[i..] == old(ms[i..])
        invariant PresentMarks(old(ms[..]), present) == ms[..n] + PresentMarks(ms[i..], present)
      {
        assert ms[i..][1..] == ms[i + 1..] && ms[i..][0] == ms[i];
        if ms[i].path in present {
          ghost var kept := ms[..n];
          ms[n] := ms[i];
          n := n + 1;
          assert ms[..n] == kept + [ms[n - 1]];
        }
        i := i + 1;
      }
    }

    /** Forgets rotated paths in the ledger and in unpersisted marks, then flushes the marks of event-less uploads. */
    method PersistScan(present: set<string>, gone: seq<string>, forgetFails: nat -> bool, markFails: nat -> bool)
      requires ledger != null ==> ledger.Valid()
      modifies this, ledger
      ensures ledger == old(ledger) && (ledger != null ==> ledger.Valid())
      ensures ledger == null ==> State() == old(State())
      ensures ledger != null ==>
        && State() == Persisted(old(State()), present, gone, markFails)
        && ledger.State() == old(ledger.State()).(ledger :=
             PersistedLedger(old(ledger.ledger), old(State()), present, gone, forgetFails, markFails))
    {
      if ledger == null {
        return;
      }
      if |gone| > 0 {
        var _ := ledger.ForgetFTPIngested(gone, forgetFails);
        var marks := pendingMarks;
        var slots := new Mark[|marks|](i requires 0 <= i < |marks| => marks[i]);
        assert slots[..] == marks;
        var n := KeepPresent(slots, present);
        pendingMarks := slots[..n];
        var kept := [];
        var i := 0;
        while i < |eventMarks|
          invariant 0 <= i <= |eventMarks|
          invariant PresentEventMarks(eventMarks, present) == kept + PresentEventMarks(eventMarks[i..], present)
        {
          assert eventMarks[i..][1..] == eventMarks[i + 1..];
          if eventMarks[i].mark.path in present {
            kept := kept + [eventMarks[i]];
          }
          i := i + 1;
        }
        eventMarks := kept;
      } else {
        assert gone[..Written(|gone|, 0, forgetFails)] == [];
        assert ledger.ledger - Elements([]) == ledger.ledger;
      }
      if |pendingMarks| == 0 {
        return;
      }
      var ok := ledger.MarkFTPIngested(pendingMarks, markFails);
      if ok {
        pendingMarks := [];
      }
    }

    method VisitEntries(entries: seq<Entry>, world: string -> Sighting, checkRewrites: bool) returns (present: set<string>)
      modifies this
      ensures State() == VisitAll(old(State()), Uploads(entries), world, checkRewrites) && ledger == old(ledger)
      ensures present == Elements(Uploads(entries))
    {
      present := {};
      var i := 0;
      while i < |entries|
        invariant 0 <= i <= |entries|
        invariant VisitAll(old(State()), Uploads(entries), world, checkRewrites)
               == VisitAll(State(), Uploads(entries[i..]), world, checkRewrites)
        invariant Elements(Uploads(entries)) == present + Elements(Uploads(entries[i..]))
        invariant ledger == old(ledger)
      {
        UploadsNext(entries, i);
        var e := entries[i];
        if !e.isDir && IsPeriodicLog(e.name) {
          VisitAllCons(State(), e.name, Uploads(entries[i + 1..]), world, checkRewrites);
          present := present + {e.name};
          ghost var before := State();
          VisitEntry(e.name, world(e.name), checkRewrites);
          assert State() == Visit(before, e.name, world(e.name), checkRewrites);
        }
        i := i + 1;
      }
    }

    method Rotate(present: set<string>) returns (gone: seq<string>)
      modifies this
      ensures State() == Rotated(old(State()), present) && ledger == old(ledger)
      ensures Elements(gone) == old(seenPaths).Keys - present
    {
      seenPaths, gone := DropAbsent(seenPaths, present);
      var unlogged;
      deferred, unlogged := DropAbsent(deferred, present);
      parseFails, unlogged := DropAbsent(parseFails, present);
    }

    method Poll(entries: seq<Entry>, world: string -> Sighting) returns (present: set<string>, gone: seq<string>)
      modifies this
      ensures State() == Scanned(old(State()), Uploads(entries), world) && ledger == old(ledger)
      ensures present == Elements(Uploads(entries))
      ensures Elements(gone) == Visited(old(State()), Uploads(entries), world).seen.Keys - present
      ensures requeued == []
    {
      ScannedRequeued(State(), Uploads(entries), world);
      TakeRequeued();
      var checkRewrites := scans % REWRITE_CHECK_TICKS == 0;
      scans := scans + 1;
      present := VisitEntries(entries, world, checkRewrites);
      gone := Rotate(present);
    }

    /** One poll of the watch directory; a listing that cannot be read only takes back requeued marks. */
    method ScanFTP(listing: Option<seq<Entry>>, world: string -> Sighting, forgetFails: nat -> bool, markFails: nat -> bool)
      returns (gone: seq<string>)
      requires ledger != null ==> ledger.Valid()
      modifies this, ledger
      ensures ledger == old(ledger) && (ledger != null ==> ledger.Valid()) && requeued == []
      ensures listing.None? ==> State() == WithoutRequeued(old(State()))
      ensures listing.Some? ==>
        Elements(gone) == Visited(old(State()), Uploads(listing.value), world).seen.Keys - Elements(Uploads(listing.value))
      ensures listing.Some? && ledger == null ==> State() == Scanned(old(State()), Uploads(listing.value), world)
      ensures listing.Some? && ledger != null ==>
        var paths := Uploads(listing.value);
        var c := Scanned(old(State()), paths, world);
        && State() == Persisted(c, Elements(paths), gone, markFails)
        && ledger.State() == old(ledger.State()).(ledger :=
             PersistedLedger(old(ledger.ledger), c, Elements(paths), gone, forgetFails, markFails))
    {
      if listing.None? {
        TakeRequeued();
        return [];
      }
      var present;
      present, gone := Poll(listing.value, world);
      PersistScan(present, gone, forgetFails, markFails);
    }
  }
}
