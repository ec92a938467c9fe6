/**
 The classifier of log lines, and the dedup key that makes a re-parsed or overlapping
 upload harmless. Regular expressions, hashes and Unicode text functions stay abstract.
 */
module Rules {
  import opened Wrappers
  import opened Telemetry

  /** The library functions the engine calls. */
  datatype Library = Library(
    trim: string -> string, lower: string -> string, moduleOf: string -> string,
    equalFold: (string, string) -> bool, sha1: string -> string, sha256: string -> string)

  datatype Rule = Rule(moduleTag: string, matches: string -> bool, eventType: string, severity: string, message: string)

  datatype Engine = Engine(rules: seq<Rule>, lib: Library)

  predicate Contains(s: string, sub: string) {
    exists i | 0 <= i <= |s| :: sub <= s[i..]
  }

  predicate Alarmy(lib: Library, line: string) {
    var l := lib.lower(line);
    Contains(l, "alarm") || Contains(l, "fault") || Contains(l, "fail") || Contains(l, "error")
  }

  /** What a dedup key is built from. */
  datatype Occurrence = Occurrence(device: string, eventType: string, bucket: string, raw: string)

  function Barred(a: string, b: string): string {
    a + ['|'] + b
  }

  function DedupKey(lib: Library, o: Occurrence): string {
    lib.sha256(Barred(o.device, Barred(o.eventType, Barred(o.bucket, lib.sha1(o.raw)))))
  }

  /** Where a parsed event comes from: everything about an upload but its lines. */
  datatype Source = Source(device: string, bucket: string, now: string)

  function Event(lib: Library, from: Source, tag: string, eventType: string, severity: string, message: string, raw: string): EventItem {
    var device := if from.device == "" then "unknown" else from.device;
    EventItem(device, from.now, tag, eventType, severity, message, Some(raw),
              DedupKey(lib, Occurrence(device, eventType, from.bucket, raw)))
  }

  predicate Fires(e: Engine, k: nat, line: string)
    requires k < |e.rules|
  {
    e.lib.equalFold(e.rules[k].moduleTag, e.lib.moduleOf(line)) && e.rules[k].matches(line)
  }

  /** The classification of one trimmed line: by its first rule, else by its wording. */
  ghost predicate Classified(e: Engine, from: Source, line: string, out: seq<EventItem>) {
    var tag := e.lib.moduleOf(line);
    if line == "" then out == []
    else if exists k | 0 <= k < |e.rules| :: Fires(e, k, line) then
      exists k | 0 <= k < |e.rules| ::
        && Fires(e, k, line)
        && (forall j | 0 <= j < k :: !Fires(e, j, line))
        && out == [Event(e.lib, from, tag, e.rules[k].eventType, e.rules[k].severity, e.rules[k].message, line)]
    else if Alarmy(e.lib, line) then
      out == [Event(e.lib, from, tag, "unclassified", "warning", "", line)]
    else out == []
  }

  function FirstFiring(e: Engine, line: string, k: nat): (r: nat)
    requires k <= |e.rules|
    ensures k <= r <= |e.rules|
    ensures r < |e.rules| ==> Fires(e, r, line)
    ensures forall j | k <= j < r :: !Fires(e, j, line)
    decreases |e.rules| - k
  {
    if k == |e.rules| || Fires(e, k, line) then k else FirstFiring(e, line, k + 1)
  }

  function LineEvents(e: Engine, from: Source, rawLine: string): (out: seq<EventItem>)
    ensures Classified(e, from, e.lib.trim(rawLine), out)
  {
    var line := e.lib.trim(rawLine);
    var k := FirstFiring(e, line, 0);
    var tag := e.lib.moduleOf(line);
    if line == "" then []
    else if k < |e.rules| then
      [Event(e.lib, from, tag, e.rules[k].eventType, e.rules[k].severity, e.rules[k].message, line)]
    else if Alarmy(e.lib, line) then
      [Event(e.lib, from, tag, "unclassified", "warning", "", line)]
    else []
  }

  function Parse(e: Engine, from: Source, lines: seq<string>): seq<EventItem> {
    if lines == [] then [] else LineEvents(e, from, lines[0]) + Parse(e, from, lines[1..])
  }

  method ApplyLine(e: Engine, from: Source, rawLine: string) returns (out: seq<EventItem>)
    ensures out == LineEvents(e, from, rawLine)
  {
    out := [];
    var line := e.lib.trim(rawLine);
    if line == "" {
      return;
    }
    var tag := e.lib.moduleOf(line);
    var matched := false;
    var k := 0;
    while k < |e.rules| && !matched
      invariant 0 <= k <= |e.rules|
      invariant !matched ==> out == [] && forall j | 0 <= j < k :: !Fires(e, j, line)
      invariant matched ==> out == LineEvents(e, from, rawLine)
      decreases |e.rules| - k, !matched
    {
      var r := e.rules[k];
      if e.lib.equalFold(r.moduleTag, tag) && r.matches(line) {
        out := [Event(e.lib, from, tag, r.eventType, r.severity, r.message, line)];
        matched := true;
        assert Fires(e, k, line) && FirstFiring(e, line, 0) == k;
      } else {
        k := k + 1;
      }
    }
    if !matched && Alarmy(e.lib, line) {
      out := [Event(e.lib, from, tag, "unclassified", "warning", "", line)];
    }
  }

  method Apply(e: Engine, lines: seq<string>, from: Source) returns (out: seq<EventItem>)
    ensures out == Parse(e, from, lines)
  {
    out := [];
    var i := 0;
    while i < |lines|
      invariant 0 <= i <= |lines|
      invariant Parse(e, from, lines) == out + Parse(e, from, lines[i..])
    {
      assert lines[i..][1..] == lines[i + 1..];
      var found := ApplyLine(e, from, lines[i]);
      assert out + (found + Parse(e, from, lines[i + 1..])) == out + found + Parse(e, from, lines[i + 1..]);
      out := out + found;
      i := i + 1;
    }
  }

  function Keys(events: seq<EventItem>): set<string> {
    set e | e in events :: e.dedupKey
  }

  lemma KeysOfConcat(a: seq<EventItem>, b: seq<EventItem>)
    ensures Keys(a + b) == Keys(a) + Keys(b)
  {
  }

  /** Parsing is a map over lines: a slice of an upload yields a slice of its events. */
  lemma {:induction false} ParseConcat(e: Engine, from: Source, a: seq<string>, b: seq<string>)
    ensures Parse(e, from, a + b) == Parse(e, from, a) + Parse(e, from, b)
  {
    if a == [] {
      assert a + b == b;
    } else {
      assert (a + b)[1..] == a[1..] + b;
      ParseConcat(e, from, a[1..], b);
    }
  }

  /** A re-parse at another time yields the same events but for their timestamps. */
  lemma {:induction false} ReparseSameEvents(e: Engine, device: string, bucket: string, t1: string, t2: string, lines: seq<string>)
    ensures var p1, p2 := Parse(e, Source(device, bucket, t1), lines), Parse(e, Source(device, bucket, t2), lines);
      |p1| == |p2| && forall i | 0 <= i < |p1| :: p1[i].(timestamp := t2) == p2[i]
  {
    if lines != [] {
      ReparseSameEvents(e, device, bucket, t1, t2, lines[1..]);
    }
  }

  lemma ReparseSameKeys(e: Engine, device: string, bucket: string, t1: string, t2: string, lines: seq<string>)
    ensures Keys(Parse(e, Source(device, bucket, t1), lines)) == Keys(Parse(e, Source(device, bucket, t2), lines))
  {
    ReparseSameEvents(e, device, bucket, t1, t2, lines);
    var p1, p2 := Parse(e, Source(device, bucket, t1), lines), Parse(e, Source(device, bucket, t2), lines);
    forall i | 0 <= i < |p1| ensures p1[i].dedupKey == p2[i].dedupKey {
      assert p1[i].(timestamp := t2) == p2[i];
    }
  }

  lemma {:induction false} LineKeysKept(e: Engine, from: Source, line: string, all: seq<string>)
    requires line in all
    ensures Keys(LineEvents(e, from, line)) <= Keys(Parse(e, from, all))
  {
    KeysOfConcat(LineEvents(e, from, all[0]), Parse(e, from, all[1..]));
    if all[0] != line {
      LineKeysKept(e, from, line, all[1..]);
    }
  }

  lemma {:induction false} SliceKeysKept(e: Engine, from: Source, all: seq<string>, part: seq<string>)
    requires forall l | l in part :: l in all
    ensures Keys(Parse(e, from, part)) <= Keys(Parse(e, from, all))
  {
    if part != [] {
      LineKeysKept(e, from, part[0], all);
      SliceKeysKept(e, from, all, part[1..]);
      KeysOfConcat(LineEvents(e, from, part[0]), Parse(e, from, part[1..]));
    }
  }

  /** An ErrorLog slice of the same cycle adds no key the Log slice does not have, whenever each is parsed. */
  lemma OverlapAddsNoKey(e: Engine, device: string, bucket: string, t1: string, t2: string, all: seq<string>, part: seq<string>)
    requires forall l | l in part :: l in all
    ensures Keys(Parse(e, Source(device, bucket, t2), part)) <= Keys(Parse(e, Source(device, bucket, t1), all))
  {
    SliceKeysKept(e, Source(device, bucket, t2), all, part);
    ReparseSameKeys(e, device, bucket, t1, t2, all);
  }

  /** Every parsed event carries the device it was credited to and its raw line. */
  lemma {:induction false} ParsedEventsAreTagged(e: Engine, from: Source, lines: seq<string>)
    ensures forall ev | ev in Parse(e, from, lines) :: ev.raw.Some?
  {
    if lines != [] {
      ParsedEventsAreTagged(e, from, lines[1..]);
    }
  }

  // ---------------------------------------------------------------- what a key identifies

  function FirstBar(s: string): nat {
    if s == [] || s[0] == '|' then 0 else 1 + FirstBar(s[1..])
  }

  lemma {:induction false} BarAt(a: string, b: string)
    requires '|' !in a
    ensures FirstBar(Barred(a, b)) == |a|
    ensures Barred(a, b)[..|a|] == a && Barred(a, b)[|a| + 1..] == b
  {
    if a != [] {
      assert Barred(a, b)[1..] == Barred(a[1..], b);
      BarAt(a[1..], b);
    }
  }

  lemma BarSplit(a: string, b: string, c: string, d: string)
    requires '|' !in a && '|' !in c
    ensures Barred(a, b) == Barred(c, d) <==> a == c && b == d
  {
    BarAt(a, b);
    BarAt(c, d);
  }

  /** The hashes do not collide. */
  ghost predicate CollisionFree(lib: Library) {
    && (forall x, y :: lib.sha256(x) == lib.sha256(y) ==> x == y)
    && (forall x, y :: lib.sha1(x) == lib.sha1(y) ==> x == y)
  }

  predicate BarFree(o: Occurrence) {
    '|' !in o.device && '|' !in o.eventType && '|' !in o.bucket
  }

  /** One key per line, event type, device and day: recurrences on another day stay apart. */
  lemma KeyIdentifiesOccurrence(lib: Library, a: Occurrence, b: Occurrence)
    requires CollisionFree(lib) && BarFree(a) && BarFree(b)
    ensures DedupKey(lib, a) == DedupKey(lib, b) <==> a == b
  {
    BarSplit(a.bucket, lib.sha1(a.raw), b.bucket, lib.sha1(b.raw));
    var ta, tb := Barred(a.bucket, lib.sha1(a.raw)), Barred(b.bucket, lib.sha1(b.raw));
    BarSplit(a.eventType, ta, b.eventType, tb);
    BarSplit(a.device, Barred(a.eventType, ta), b.device, Barred(b.eventType, tb));
  }

  // ---------------------------------------------------------------- what an event carries

  /** A rule is meant for the line: its tag is the line's and its expression matches. */
  predicate Meant(e: Engine, k: nat, line: string) {
    k < |e.rules| && e.lib.equalFold(e.rules[k].moduleTag, e.lib.moduleOf(line)) && e.rules[k].matches(line)
  }

  /** The line holds one of the four words that alarm. */
  ghost predicate Sounds(lib: Library, line: string) {
    exists word | word in {"alarm", "fault", "fail", "error"} :: Contains(lib.lower(line), word)
  }

  /** Type, severity and message are those of the first rule meant for the line, or the unclassified ones of an alarming line no rule is meant for. */
  ghost predicate Judged(e: Engine, line: string, ev: EventItem) {
    || (exists k: nat :: Meant(e, k, line) && (forall j: nat | j < k :: !Meant(e, j, line))
          && ev.eventType == e.rules[k].eventType && ev.severity == e.rules[k].severity && ev.message == e.rules[k].message)
    || ((forall k: nat :: !Meant(e, k, line)) && Sounds(e.lib, line)
          && ev.eventType == "unclassified" && ev.severity == "warning" && ev.message == "")
  }

  /** The event of one line of an upload. */
  ghost predicate Tells(e: Engine, from: Source, line: string, ev: EventItem) {
    && line != "" && ev.raw == Some(line)
    && ev.cwmpId == (if from.device == "" then "unknown" else from.device)
    && ev.timestamp == from.now && ev.moduleTag == e.lib.moduleOf(line)
    && Judged(e, line, ev)
  }

  lemma LineTells(e: Engine, from: Source, rawLine: string)
    ensures forall ev | ev in LineEvents(e, from, rawLine) :: Tells(e, from, e.lib.trim(rawLine), ev)
    ensures forall ev | ev in LineEvents(e, from, rawLine) ::
      ev.dedupKey == DedupKey(e.lib, Occurrence(ev.cwmpId, ev.eventType, from.bucket, e.lib.trim(rawLine)))
  {
    var line := e.lib.trim(rawLine);
    var k := FirstFiring(e, line, 0);
    assert forall j | 0 <= j < |e.rules| :: Meant(e, j, line) <==> Fires(e, j, line);
    assert k < |e.rules| ==> Meant(e, k, line);
  }

  /** Every event of a parse tells of one of the upload's lines, trimmed, on all its fields. */
  lemma {:induction false} EventsTellOfTheirLines(e: Engine, from: Source, lines: seq<string>, ev: EventItem) returns (i: nat)
    requires ev in Parse(e, from, lines)
    ensures i < |lines| && Tells(e, from, e.lib.trim(lines[i]), ev)
    ensures ev.dedupKey == DedupKey(e.lib, Occurrence(ev.cwmpId, ev.eventType, from.bucket, e.lib.trim(lines[i])))
  {
    if ev in LineEvents(e, from, lines[0]) {
      LineTells(e, from, lines[0]);
      i := 0;
    } else {
      var j := EventsTellOfTheirLines(e, from, lines[1..], ev);
      i := j + 1;
    }
  }

  /** And every line that a rule is meant for, or that alarms, has its event. */
  lemma EveryTellingLineHasItsEvent(e: Engine, from: Source, lines: seq<string>, i: nat) returns (ev: EventItem)
    requires i < |lines| && e.lib.trim(lines[i]) != ""
    requires (exists k: nat :: Meant(e, k, e.lib.trim(lines[i]))) || Sounds(e.lib, e.lib.trim(lines[i]))
    ensures ev in Parse(e, from, lines) && ev.raw == Some(e.lib.trim(lines[i]))
  {
    var line := e.lib.trim(lines[i]);
    var k := FirstFiring(e, line, 0);
    if j :| Meant(e, j, line) {
      assert Fires(e, j, line);
    } else {
      assert Alarmy(e.lib, line);
    }
    assert LineEvents(e, from, lines[i]) != [];
    ev := LineEvents(e, from, lines[i])[0];
    LineTells(e, from, lines[i]);
    LineInParse(e, from, lines, i, ev);
  }

  lemma {:induction false} LineInParse(e: Engine, from: Source, lines: seq<string>, i: nat, ev: EventItem)
    requires i < |lines| && ev in LineEvents(e, from, lines[i])
    ensures ev in Parse(e, from, lines)
  {
    if i > 0 {
      LineInParse(e, from, lines[1..], i - 1, ev);
    }
  }

  /**
   Two events of any two parses share a dedup key exactly when device, type, day and raw line
   agree: the cloud keeps one event for each, and no fewer.
   */
  lemma KeysTellEventsApart(a: Engine, from1: Source, lines1: seq<string>, ev1: EventItem,
                            b: Engine, from2: Source, lines2: seq<string>, ev2: EventItem)
    requires ev1 in Parse(a, from1, lines1) && ev2 in Parse(b, from2, lines2)
    requires a.lib == b.lib && CollisionFree(a.lib)
    requires forall s | s in [ev1.cwmpId, ev1.eventType, from1.bucket, ev2.cwmpId, ev2.eventType, from2.bucket] :: '|' !in s
    ensures ev1.dedupKey == ev2.dedupKey
      <==> (ev1.cwmpId == ev2.cwmpId && ev1.eventType == ev2.eventType && from1.bucket == from2.bucket && ev1.raw == ev2.raw)
  {
    var i := EventsTellOfTheirLines(a, from1, lines1, ev1);
    var j := EventsTellOfTheirLines(b, from2, lines2, ev2);
    var fields := [ev1.cwmpId, ev1.eventType, from1.bucket, ev2.cwmpId, ev2.eventType, from2.bucket];
    assert '|' !in fields[0] && '|' !in fields[1] && '|' !in fields[2] && '|' !in fields[3] && '|' !in fields[4] && '|' !in fields[5];
    KeyIdentifiesOccurrence(a.lib, Occurrence(ev1.cwmpId, ev1.eventType, from1.bucket, ev1.raw.value),
                            Occurrence(ev2.cwmpId, ev2.eventType, from2.bucket, ev2.raw.value));
  }
}
