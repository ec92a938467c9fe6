/** What every scan keeps, and how soon an upload is taken in. */
module CollectorLaws {
  import opened Wrappers
  import opened Telemetry
  import opened Buffer
  import opened Collector

  // ---------------------------------------------------------------- bookkeeping

  predicate EndsInOrder(ms: seq<EventMark>, n: nat) {
    && (forall i, j | 0 <= i < j < |ms| :: ms[i].end < ms[j].end)
    && (forall i | 0 <= i < |ms| :: 0 < ms[i].end <= n)
  }

  ghost predicate Bookkeeping(c: Col) {
    && c.seen.Keys !! c.deferred.Keys
    && c.seen.Keys !! c.fails.Keys
    && (forall p | p in c.fails :: 0 < c.fails[p] < MAX_PARSE_RETRIES)
    && EndsInOrder(c.marks, |c.events|)
    && (!c.ledgered ==> c.marks == [] && c.pending == [])
  }

  /** The bookkeeping is bounded by a directory listing. */
  ghost predicate Within(c: Col, present: set<string>) {
    c.seen.Keys <= present && c.deferred.Keys <= present && c.fails.Keys <= present
  }

  lemma MarkedSeenKeeps(c: Col, p: string, stamp: Stamp, events: seq<EventItem>)
    requires Bookkeeping(c)
    ensures Bookkeeping(MarkedSeen(c, p, stamp, events))
  {
    var m := EventMark(Mark(p, stamp), |c.events| + |events|);
    assert EndsInOrder(c.marks, |c.events| + |events|);
    if events != [] {
      assert EndsInOrder(c.marks + [m], |c.events| + |events|);
    }
  }

  lemma IntakeKeeps(c: Col, p: string, s: Sighting)
    requires Bookkeeping(c) && p !in c.seen
    ensures Bookkeeping(Intake(c, p, s))
  {
    if s.stamp.Some? {
      MarkedSeenKeeps(c, p, s.stamp.value, OrElse(s.parsed, []));
    }
  }

  lemma VisitKeeps(c: Col, p: string, s: Sighting, check: bool)
    requires Bookkeeping(c)
    ensures Bookkeeping(Visit(c, p, s, check))
  {
    if !LeftAlone(c, p, s, check) {
      IntakeKeeps(c.(seen := c.seen - {p}), p, s);
    }
  }

  lemma {:induction false} VisitAllKeeps(c: Col, paths: seq<string>, world: string -> Sighting, check: bool)
    requires Bookkeeping(c)
    ensures Bookkeeping(VisitAll(c, paths, world, check))
    decreases |paths|
  {
    if paths != [] {
      VisitKeeps(c, paths[0], world(paths[0]), check);
      VisitAllKeeps(Visit(c, paths[0], world(paths[0]), check), paths[1..], world, check);
    }
  }

  /** A completed scan leaves nothing about paths it did not list, and no path both seen and waiting. */
  lemma ScanKeeps(c: Col, paths: seq<string>, world: string -> Sighting)
    requires Bookkeeping(c)
    ensures Bookkeeping(Scanned(c, paths, world))
    ensures Within(Scanned(c, paths, world), Elements(paths))
  {
    var c1 := WithoutRequeued(c);
    VisitAllKeeps(c1.(scans := c1.scans + 1), paths, world, c1.scans % REWRITE_CHECK_TICKS == 0);
  }

  lemma {:induction false} PresentEventMarksAre(ms: seq<EventMark>, present: set<string>)
    ensures forall m :: m in PresentEventMarks(ms, present) <==> m in ms && m.mark.path in present
  {
    if ms != [] {
      PresentEventMarksAre(ms[1..], present);
    }
  }

  lemma {:induction false} FilteredEnds(ms: seq<EventMark>, present: set<string>, n: nat)
    requires EndsInOrder(ms, n)
    ensures EndsInOrder(PresentEventMarks(ms, present), n)
  {
    if ms != [] {
      FilteredEnds(ms[1..], present, n);
      PresentEventMarksAre(ms[1..], present);
      var rest := PresentEventMarks(ms[1..], present);
      forall k | 0 <= k < |rest| ensures ms[0].end < rest[k].end {
        assert rest[k] in rest;
      }
    }
  }

  lemma {:induction false} PresentMarksAre(ms: seq<Mark>, present: set<string>)
    ensures forall m :: m in PresentMarks(ms, present) <==> m in ms && m.path in present
  {
    if ms != [] {
      PresentMarksAre(ms[1..], present);
    }
  }

  lemma FilterKeeps(c: Col, present: set<string>)
    requires Bookkeeping(c)
    ensures Bookkeeping(MarksFiltered(c, present))
  {
    FilteredEnds(c.marks, present, |c.events|);
  }

  // ---------------------------------------------------------------- one visit

  /** Nothing of the collector but what is kept about one path has changed. */
  ghost predicate OnlyAbout(c: Col, d: Col, p: string) {
    && d.scans == c.scans && d.requeued == c.requeued && d.ledgered == c.ledgered
    && (forall q | q != p :: (q in d.seen <==> q in c.seen) && (q in d.deferred <==> q in c.deferred) && (q in d.fails <==> q in c.fails))
    && (forall q | q != p && q in c.seen :: d.seen[q] == c.seen[q])
    && (forall q | q != p && q in c.deferred :: d.deferred[q] == c.deferred[q])
    && (forall q | q != p && q in c.fails :: d.fails[q] == c.fails[q])
  }

  /** A file that waits past its thirtieth poll is looked up on every thirtieth only. */
  lemma LookupsAreSpaced(tick: nat)
    ensures Skips(tick) <==> tick >= 30 && tick % 30 != 0
  {
  }

  /** An upload of an unknown device, or between lookups, waits one poll more; nothing is queued. */
  lemma UnknownDeviceWaits(c: Col, p: string, s: Sighting)
    requires s.device.None? || Skips(Ticks(c.deferred, p))
    ensures var d := Intake(c, p, s);
      && p in d.deferred && d.deferred[p] == Ticks(c.deferred, p) + 1 && OnlyAbout(c, d, p)
      && d.seen == c.seen && d.fails == c.fails && d.events == c.events && d.marks == c.marks && d.pending == c.pending
  {
  }

  /** A failing parse is tried again until its fifth failure; then the upload is seen without events. */
  lemma FailingParseIsGivenUpAtFive(c: Col, p: string, s: Sighting)
    requires s.device.Some? && !Skips(Ticks(c.deferred, p)) && s.stamp.Some? && s.parsed.None?
    ensures var d := Intake(c, p, s); var n := Ticks(c.fails, p) + 1;
      && OnlyAbout(c, d, p) && d.events == c.events && d.marks == c.marks
      && (n < 5 ==> d.seen == c.seen && p in d.fails && d.fails[p] == n && d.pending == c.pending)
      && (n >= 5 ==>
            && p in d.seen && d.seen[p] == s.stamp.value && p !in d.fails && p !in d.deferred
            && d.pending == (if c.ledgered then c.pending + [Mark(p, s.stamp.value)] else c.pending))
  {
  }

  /** A parsed upload is seen, its events are queued behind all others, and with a ledger its mark stands at the last of them, or is pending when there are none. */
  lemma ParsedUploadIsQueued(c: Col, p: string, s: Sighting)
    requires s.device.Some? && !Skips(Ticks(c.deferred, p)) && s.stamp.Some? && s.parsed.Some?
    ensures var d := Intake(c, p, s); var m := Mark(p, s.stamp.value); var found := s.parsed.value;
      && OnlyAbout(c, d, p) && p in d.seen && d.seen[p] == m.stamp && p !in d.deferred && p !in d.fails
      && d.events == c.events + found
      && d.marks == (if c.ledgered && found != [] then c.marks + [EventMark(m, |c.events| + |found|)] else c.marks)
      && d.pending == (if c.ledgered && found == [] then c.pending + [m] else c.pending)
  {
  }

  /** A seen upload is left alone between checks, and at a check unless its stamp is another one; then it is taken in like an unseen one. */
  lemma SeenUploadIsLeftAlone(c: Col, p: string, s: Sighting, check: bool)
    requires p in c.seen
    ensures !check || s.again.None? || s.again.value == c.seen[p] ==> Visit(c, p, s, check) == c
    ensures check && s.again.Some? && s.again.value != c.seen[p] ==> Visit(c, p, s, check) == Intake(c.(seen := c.seen - {p}), p, s)
  {
  }

  // ---------------------------------------------------------------- what a scan lists and lets go

  /** A scan takes the files, not directories, whose names are those of the periodic feed. */
  lemma {:induction false} UploadsAre(entries: seq<Entry>, p: string)
    ensures p in Uploads(entries) <==>
      && (exists i | 0 <= i < |entries| :: entries[i].name == p && !entries[i].isDir)
      && |p| >= 3 && p[|p| - 3..] == ".gz" && ("Log_" <= p || "ErrorLog_" <= p)
  {
    if entries != [] {
      var rest := entries[1..];
      UploadsAre(rest, p);
      assert forall i | 0 <= i < |rest| :: rest[i] == entries[i + 1];
      if i :| 0 <= i < |entries| && entries[i].name == p && !entries[i].isDir {
        assert i > 0 ==> rest[i - 1] == entries[i];
      }
    }
  }

  /** When no chunk fails, the pending marks of listed files are written and let go; when one does, all of them are kept. */
  lemma PendingMarksAreLetGo(table: map<string, Stamp>, c: Col, present: set<string>, gone: seq<string>,
                             forgetFails: nat -> bool, markFails: nat -> bool, m: Mark)
    requires m in c.pending && m.path in present
    ensures (forall k :: !markFails(k)) ==>
      Persisted(c, present, gone, markFails).pending == [] && m.path in PersistedLedger(table, c, present, gone, forgetFails, markFails)
    ensures markFails(0) ==> m in Persisted(c, present, gone, markFails).pending
  {
    var f := Flushable(c, present, gone);
    PresentMarksAre(c.pending, present);
    assert m in f.pending;
    WrittenIsPrefix(|f.pending|, 0, markFails);
    UpsertKeys(table - Elements(gone[..Written(|gone|, 0, forgetFails)]), f.pending[..Written(|f.pending|, 0, markFails)]);
    assert f.pending[..|f.pending|] == f.pending;
  }

  // ---------------------------------------------------------------- progress

  /** What the bookkeeping holds about one path. */
  datatype At = At(seen: Option<Stamp>, tick: nat, fails: nat)

  function Of(c: Col, p: string): At {
    At(if p in c.seen then Some(c.seen[p]) else None, Ticks(c.deferred, p), Ticks(c.fails, p))
  }

  /** The life of one file: waiting, retrying, seen, given up on, rewritten. */
  function NextAt(a: At, s: Sighting, check: bool): At {
    if a.seen.Some? && (!check || s.again.None? || s.again == a.seen) then a
    else if Skips(a.tick) || s.device.None? then At(None, a.tick + 1, a.fails)
    else if s.stamp.None? then At(None, a.tick, a.fails)
    else if s.parsed.Some? || a.fails + 1 >= MAX_PARSE_RETRIES then At(s.stamp, 0, 0)
    else At(None, a.tick, a.fails + 1)
  }

  lemma MarkedSeenAt(c: Col, q: string, stamp: Stamp, events: seq<EventItem>, p: string)
    ensures Of(MarkedSeen(c, q, stamp, events), p) == if p == q then At(Some(stamp), 0, 0) else Of(c, p)
  {
  }

  lemma IntakeAt(c: Col, q: string, s: Sighting, p: string)
    requires q !in c.seen
    ensures Of(Intake(c, q, s), p) == if p == q then NextAt(Of(c, p), s, true) else Of(c, p)
  {
    if s.stamp.Some? {
      MarkedSeenAt(c, q, s.stamp.value, OrElse(s.parsed, []), p);
    }
  }

  /** A visit moves its own file by one step and touches no other. */
  lemma VisitAt(c: Col, q: string, s: Sighting, check: bool, p: string)
    ensures Of(Visit(c, q, s, check), p) == if p == q then NextAt(Of(c, p), s, check) else Of(c, p)
  {
    if !LeftAlone(c, q, s, check) {
      IntakeAt(c.(seen := c.seen - {q}), q, s, p);
    }
  }

  ghost predicate Distinct(paths: seq<string>) {
    forall i, j | 0 <= i < j < |paths| :: paths[i] != paths[j]
  }

  /** A scan moves each listed file by one step, whatever else is in the directory. */
  lemma {:induction false} VisitAllAt(c: Col, paths: seq<string>, world: string -> Sighting, check: bool, p: string)
    requires Distinct(paths)
    ensures Of(VisitAll(c, paths, world, check), p) == if p in paths then NextAt(Of(c, p), world(p), check) else Of(c, p)
    decreases |paths|
  {
    if paths != [] {
      VisitAt(c, paths[0], world(paths[0]), check, p);
      VisitAllAt(Visit(c, paths[0], world(paths[0]), check), paths[1..], world, check, p);
      assert p in paths <==> p == paths[0] || p in paths[1..];
    }
  }

  /** A poll of the directory: what was handed back before it, what it lists, and what each visit finds. */
  datatype Poll = Poll(requeued: seq<Mark>, paths: seq<string>, world: string -> Sighting)

  /** The scan's effect on the bookkeeping; the queue may change freely around it. */
  ghost predicate Polls(c: Col, poll: Poll, c': Col) {
    var d := Scanned(c.(requeued := poll.requeued), poll.paths, poll.world);
    c'.seen == d.seen && c'.deferred == d.deferred && c'.fails == d.fails && c'.scans == d.scans
  }

  /** The poll lists p, its device is known, and it parses as the version stamped s. */
  ghost predicate Finds(poll: Poll, p: string, s: Stamp) {
    var w := poll.world(p);
    && Distinct(poll.paths) && p in poll.paths
    && w.again == Some(s) && w.device.Some? && w.stamp == Some(s) && w.parsed.Some?
  }

  ghost predicate PollRun(cs: seq<Col>, polls: seq<Poll>, p: string, s: Stamp) {
    && |cs| == |polls| + 1
    && (forall k | 0 <= k < |polls| :: Polls(cs[k], polls[k], cs[k + 1]) && Finds(polls[k], p, s))
  }

  lemma {:induction false} VisitAllScans(c: Col, paths: seq<string>, world: string -> Sighting, check: bool)
    ensures VisitAll(c, paths, world, check).scans == c.scans
    decreases |paths|
  {
    if paths != [] {
      VisitAllScans(Visit(c, paths[0], world(paths[0]), check), paths[1..], world, check);
    }
  }

  lemma RotatedAt(c: Col, present: set<string>, p: string)
    requires p in present
    ensures Of(Rotated(c, present), p) == Of(c, p)
  {
  }

  lemma TakenBackAt(c: Col, marks: seq<Mark>, p: string)
    ensures var a := Of(WithoutRequeued(c.(requeued := marks)), p); a == Of(c, p) || a == Of(c, p).(seen := None)
  {
  }

  lemma PollsAt(c: Col, poll: Poll, c': Col, p: string)
    requires Polls(c, poll, c')
    ensures Of(c', p) == Of(Scanned(c.(requeued := poll.requeued), poll.paths, poll.world), p)
  {
  }

  /** One poll moves a listed file by one step, after its mark may have been handed back. */
  lemma OnePoll(c: Col, poll: Poll, c': Col, p: string) returns (a: At)
    requires Polls(c, poll, c') && Distinct(poll.paths) && p in poll.paths
    ensures c'.scans == c.scans + 1
    ensures a == Of(c, p) || a == Of(c, p).(seen := None)
    ensures Of(c', p) == NextAt(a, poll.world(p), c.scans % REWRITE_CHECK_TICKS == 0)
  {
    var d := WithoutRequeued(c.(requeued := poll.requeued));
    var check := c.scans % REWRITE_CHECK_TICKS == 0;
    var start := d.(scans := d.scans + 1);
    TakenBackAt(c, poll.requeued, p);
    VisitAllAt(start, poll.paths, poll.world, check, p);
    VisitAllScans(start, poll.paths, poll.world, check);
    RotatedAt(VisitAll(start, poll.paths, poll.world, check), Elements(poll.paths), p);
    PollsAt(c, poll, c', p);
    a := Of(start, p);
    assert a == Of(d, p);
  }

  /** How many more polls pass over a file that has waited tick polls. */
  function Wait(tick: nat): (w: nat)
    ensures w < RESOLVE_RETRY_TICKS
    ensures w == 0 <==> !Skips(tick)
  {
    if !Skips(tick) then 0 else RESOLVE_RETRY_TICKS - (tick - MAX_DEFER_TICKS) % RESOLVE_RETRY_TICKS
  }

  lemma WaitShrinks(tick: nat)
    requires Skips(tick)
    ensures Wait(tick + 1) == Wait(tick) - 1
  {
    var d := tick - MAX_DEFER_TICKS;
    assert (d + 1) % 30 == if d % 30 == 29 then 0 else d % 30 + 1;
  }

  /** An unseen upload that stays as it is, whose device is known and which parses, is taken in within 30 polls. */
  lemma {:induction false} UnseenTakenIn(cs: seq<Col>, polls: seq<Poll>, p: string, s: Stamp) returns (k: nat)
    requires PollRun(cs, polls, p, s) && p !in cs[0].seen
    requires |polls| > Wait(Ticks(cs[0].deferred, p))
    ensures 0 < k <= Wait(Ticks(cs[0].deferred, p)) + 1 <= 30
    ensures p in cs[k].seen && cs[k].seen[p] == s
    decreases |polls|
  {
    var tick := Ticks(cs[0].deferred, p);
    var a := OnePoll(cs[0], polls[0], cs[1], p);
    if !Skips(tick) {
      k := 1;
    } else {
      WaitShrinks(tick);
      var j := UnseenTakenIn(cs[1..], polls[1..], p, s);
      k := j + 1;
    }
  }

  function UntilCheck(scans: nat): nat {
    (REWRITE_CHECK_TICKS - scans % REWRITE_CHECK_TICKS) % REWRITE_CHECK_TICKS
  }

  lemma UntilCheckShrinks(scans: nat)
    requires scans % REWRITE_CHECK_TICKS != 0
    ensures UntilCheck(scans + 1) == UntilCheck(scans) - 1
  {
    assert (scans + 1) % 30 == if scans % 30 == 29 then 0 else scans % 30 + 1;
  }

  /** A seen upload rewritten under its name is taken in again within 30 polls. */
  lemma {:induction false} RewriteTakenIn(cs: seq<Col>, polls: seq<Poll>, p: string, s: Stamp) returns (k: nat)
    requires PollRun(cs, polls, p, s) && p in cs[0].seen && Of(cs[0], p).tick == 0
    requires |polls| > UntilCheck(cs[0].scans)
    ensures 0 < k <= UntilCheck(cs[0].scans) + 1 <= 30
    ensures p in cs[k].seen && cs[k].seen[p] == s
    decreases |polls|
  {
    var a := OnePoll(cs[0], polls[0], cs[1], p);
    if Of(cs[1], p).seen == Some(s) {
      k := 1;
    } else {
      UntilCheckShrinks(cs[0].scans);
      var j := RewriteTakenIn(cs[1..], polls[1..], p, s);
      k := j + 1;
    }
  }

  /** From any bookkeeping state: 30 polls that find p at stamp s include one that records it. */
  lemma TakenInWithinThirtyPolls(cs: seq<Col>, polls: seq<Poll>, p: string, s: Stamp)
    requires PollRun(cs, polls, p, s) && |polls| == 30 && Bookkeeping(cs[0])
    ensures exists k | 0 < k <= 30 :: p in cs[k].seen && cs[k].seen[p] == s
  {
    if p in cs[0].seen {
      var k := RewriteTakenIn(cs, polls, p, s);
    } else {
      var k := UnseenTakenIn(cs, polls, p, s);
    }
  }
}
