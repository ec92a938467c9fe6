/**
 Which device an upload belongs to: the canonical id built from an Inform, and the way
 back from an upload's file name to the stored id.
 */
module Identity {
  import opened Wrappers

  // ---------------------------------------------------------------- canonical ids

  const ESCAPE: string := ['%', '2', 'D']

  function EncodeChar(c: char): string {
    if c == '-' then ESCAPE else [c]
  }

  /** Percent-encodes the hyphens inside one component. */
  function Encode(s: string): (r: string)
    ensures '-' !in r
  {
    if s == [] then [] else EncodeChar(s[0]) + Encode(s[1..])
  }

  function Join(a: string, b: string): string {
    a + ['-'] + b
  }

  /** The identity an Inform carries. */
  datatype DeviceId = DeviceId(oui: string, productClass: string, serial: string)

  function CanonicalID(d: DeviceId): string {
    Join(Encode(d.oui), Join(Encode(d.productClass), Encode(d.serial)))
  }

  predicate AtEscape(s: string) {
    |s| >= 3 && s[0] == '%' && s[1] == '2' && s[2] == 'D'
  }

  /** Reads every escape of a component back as a hyphen, left to right. */
  function Decode(s: string): string {
    if s == [] then []
    else if AtEscape(s) then ['-'] + Decode(s[3..])
    else [s[0]] + Decode(s[1..])
  }

  predicate EscapeFree(s: string) {
    forall i | 0 <= i < |s| :: !AtEscape(s[i..])
  }

  lemma EncodeCons(s: string)
    requires s != [] && s[0] != '-'
    ensures Encode(s) == [s[0]] + Encode(s[1..])
  {
  }

  lemma EncodeEscape(s: string)
    requires AtEscape(s)
    ensures Encode(s) == ESCAPE + Encode(s[3..])
  {
    EncodeCons(s);
    EncodeCons(s[1..]);
    EncodeCons(s[2..]);
    assert s[1..][1..] == s[2..] && s[2..][1..] == s[3..];
  }

  lemma {:induction false} EncodePlain(s: string)
    requires '-' !in s
    ensures Encode(s) == s
  {
    if s != [] {
      EncodePlain(s[1..]);
    }
  }

  /** An escape at the head of an encoded text was typed there, or encodes a hyphen. */
  lemma EscapeIsCopied(s: string)
    requires s != [] && s[0] != '-' && AtEscape(Encode(s))
    ensures AtEscape(s)
  {
    assert Encode(s) == [s[0]] + Encode(s[1..]);
    assert Encode(s[1..])[0] == '2' && Encode(s[1..])[1] == 'D';
    assert s[1] == '2' && s[1..][1..] == s[2..];
    assert Encode(s[2..])[0] == 'D';
  }

  lemma {:induction false} DecodeEncode(s: string)
    ensures Decode(Encode(s)) == Decode(s)
  {
    if s == [] {
    } else if s[0] == '-' {
      DecodeEncode(s[1..]);
      assert Encode(s)[3..] == Encode(s[1..]);
    } else if AtEscape(s) {
      EncodeEscape(s);
      assert Encode(s)[3..] == Encode(s[3..]);
      DecodeEncode(s[3..]);
    } else {
      DecodeEncode(s[1..]);
      assert Encode(s)[1..] == Encode(s[1..]);
      if AtEscape(Encode(s)) {
        EscapeIsCopied(s);
      }
    }
  }

  lemma {:induction false} EncodeDecode(s: string)
    ensures Encode(Decode(s)) == Encode(s)
  {
    if s == [] {
    } else if AtEscape(s) {
      EncodeDecode(s[3..]);
      assert Decode(s)[1..] == Decode(s[3..]);
      EncodeEscape(s);
    } else {
      EncodeDecode(s[1..]);
      assert Decode(s)[1..] == Decode(s[1..]);
    }
  }

  lemma EncodeEqual(s: string, t: string)
    ensures Encode(s) == Encode(t) <==> Decode(s) == Decode(t)
  {
    EncodeDecode(s);
    EncodeDecode(t);
    DecodeEncode(s);
    DecodeEncode(t);
  }

  lemma {:induction false} DecodeEscapeFree(s: string)
    requires EscapeFree(s)
    ensures Decode(s) == s
  {
    if s != [] {
      assert s[0..] == s;
      EscapeFreeTail(s);
      DecodeEscapeFree(s[1..]);
    }
  }

  lemma EscapeFreeTail(s: string)
    requires EscapeFree(s) && s != []
    ensures EscapeFree(s[1..])
  {
    forall i | 0 <= i < |s[1..]| ensures !AtEscape(s[1..][i..]) {
      assert s[1..][i..] == s[i + 1..];
    }
  }

  /** Index of the first c in s, |s| when there is none. */
  function Index(s: string, c: char): (i: nat)
    ensures i <= |s| && c !in s[..i] && (i < |s| ==> s[i] == c)
  {
    if s == [] || s[0] == c then 0
    else
      var j := Index(s[1..], c);
      assert s[..j + 1] == [s[0]] + s[1..][..j];
      j + 1
  }

  lemma {:induction false} IndexAt(s: string, c: char, k: nat)
    requires k <= |s| && c !in s[..k] && (k < |s| ==> s[k] == c)
    ensures Index(s, c) == k
  {
    if k > 0 {
      assert s[..k][0] == s[0] && s[1..][..k - 1] == s[..k][1..];
      IndexAt(s[1..], c, k - 1);
    }
  }

  /** A joined text is cut at its first separator. */
  lemma CutAtFirst(a: string, c: char, b: string)
    requires c !in a
    ensures var l := a + [c] + b; Index(l, c) == |a| && l[..|a|] == a && l[|a| + 1..] == b
  {
    var l := a + [c] + b;
    assert l[..|a|] == a;
    IndexAt(l, c, |a|);
  }

  lemma JoinInjective(a: string, b: string, c: string, d: string)
    requires '-' !in a && '-' !in c
    ensures Join(a, b) == Join(c, d) <==> a == c && b == d
  {
    CutAtFirst(a, '-', b);
    CutAtFirst(c, '-', d);
  }

  lemma JoinThreeInjective(a: string, b: string, c: string, d: string, e: string, f: string)
    requires '-' !in a && '-' !in b && '-' !in d && '-' !in e
    ensures Join(a, Join(b, c)) == Join(d, Join(e, f)) <==> a == d && b == e && c == f
  {
    JoinInjective(a, Join(b, c), d, Join(e, f));
    JoinInjective(b, c, e, f);
  }

  /** Exactly when two devices share one canonical id. */
  lemma CanonicalIdCollision(a: DeviceId, b: DeviceId)
    ensures CanonicalID(a) == CanonicalID(b)
       <==> Decode(a.oui) == Decode(b.oui) && Decode(a.productClass) == Decode(b.productClass)
            && Decode(a.serial) == Decode(b.serial)
  {
    JoinThreeInjective(Encode(a.oui), Encode(a.productClass), Encode(a.serial),
                       Encode(b.oui), Encode(b.productClass), Encode(b.serial));
    EncodeEqual(a.oui, b.oui);
    EncodeEqual(a.productClass, b.productClass);
    EncodeEqual(a.serial, b.serial);
  }

  /** Components without hyphens stand as they are, in their order, between two hyphens. */
  lemma PlainIdIs(d: DeviceId)
    requires '-' !in d.oui && '-' !in d.productClass && '-' !in d.serial
    ensures CanonicalID(d) == d.oui + "-" + d.productClass + "-" + d.serial
  {
    EncodePlain(d.oui);
    EncodePlain(d.productClass);
    EncodePlain(d.serial);
  }

  /** A hyphen inside a component becomes its escape. */
  lemma {:induction false} HyphenIsEscaped(a: string, b: string)
    requires '-' !in a
    ensures Encode(a + "-" + b) == a + "%2D" + Encode(b)
  {
    if a == [] {
      assert a + "-" + b == "-" + b;
      assert ("-" + b)[1..] == b;
    } else {
      assert (a + "-" + b)[1..] == a[1..] + "-" + b;
      HyphenIsEscaped(a[1..], b);
    }
  }

  predicate IdEscapeFree(d: DeviceId) {
    EscapeFree(d.oui) && EscapeFree(d.productClass) && EscapeFree(d.serial)
  }

  /** Components that hold no escape of their own are recovered from the id. */
  lemma CanonicalIdInjective(a: DeviceId, b: DeviceId)
    requires IdEscapeFree(a) && IdEscapeFree(b) && CanonicalID(a) == CanonicalID(b)
    ensures a == b
  {
    CanonicalIdCollision(a, b);
    DecodeEscapeFree(a.oui);
    DecodeEscapeFree(b.oui);
    DecodeEscapeFree(a.productClass);
    DecodeEscapeFree(b.productClass);
    DecodeEscapeFree(a.serial);
    DecodeEscapeFree(b.serial);
  }

  // ---------------------------------------------------------------- file names

  predicate HasSuffix(s: string, suffix: string) {
    |suffix| <= |s| && s[|s| - |suffix|..] == suffix
  }

  function TrimSuffix(s: string, suffix: string): string {
    if HasSuffix(s, suffix) then s[..|s| - |suffix|] else s
  }

  function TrimPrefix(s: string, prefix: string): string {
    if prefix <= s then s[|prefix|..] else s
  }

  /** The text after the last c, all of s when there is none. */
  function AfterLast(s: string, c: char): (t: string)
    ensures c !in t && |t| <= |s|
  {
    if s == [] then []
    else if c !in s then s
    else AfterLast(s[1..], c)
  }

  /** The routine periodic feed, the only upload shape the agent ingests. */
  predicate IsPeriodicLog(name: string) {
    HasSuffix(name, ".gz") && ("Log_" <= name || "ErrorLog_" <= name)
  }

  /** OUI and serial as the file name carries them; both empty when it carries none. */
  function OuiSerialFromName(name: string): (string, string) {
    if IsPeriodicLog(name) then
      var tail := AfterLast(TrimSuffix(name, ".gz"), '_');
      var dot := Index(tail, '.');
      if dot == |tail| then ("", "") else (tail[..dot], tail[dot + 1..])
    else
      var base := TrimSuffix(name, ".tgz");
      var i := Index(base, '_');
      if i == |base| then ("", "")
      else
        var rest := base[i + 1..];
        (base[..i], rest[..Index(rest, '_')])
  }

  datatype DeviceRecord = DeviceRecord(deviceId: string, productClass: string, serialNumber: string)

  predicate Answers(d: DeviceRecord, oui: string, serial: string) {
    d.serialNumber == serial && oui + "-" <= d.deviceId
  }

  /** The id of the first stored device answering to the pair. */
  function FirstAnswer(devices: seq<DeviceRecord>, oui: string, serial: string): Option<string> {
    if devices == [] then None
    else if Answers(devices[0], oui, serial) then Some(devices[0].deviceId)
    else FirstAnswer(devices[1..], oui, serial)
  }

  function Resolve(devices: seq<DeviceRecord>, name: string): Option<string> {
    var (oui, serial) := OuiSerialFromName(name);
    if oui == "" || serial == "" then None else FirstAnswer(devices, oui, serial)
  }

  method ResolveDeviceID(devices: seq<DeviceRecord>, name: string) returns (id: Option<string>)
    ensures id == Resolve(devices, name)
  {
    var (oui, serial) := OuiSerialFromName(name);
    if oui == "" || serial == "" {
      return None;
    }
    var i := 0;
    while i < |devices|
      invariant 0 <= i <= |devices|
      invariant FirstAnswer(devices, oui, serial) == FirstAnswer(devices[i..], oui, serial)
    {
      if Answers(devices[i], oui, serial) {
        return Some(devices[i].deviceId);
      }
      assert devices[i..][1..] == devices[i + 1..];
      i := i + 1;
    }
    id := None;
  }

  /** The periodic feed's file name: prefix, upload time, and the dotted pair. */
  function LogName(prefix: string, when: string, oui: string, serial: string): string {
    prefix + (when + ("_" + (oui + "." + serial) + ".gz"))
  }

  lemma {:induction false} AfterLastUnique(s: string, head: string, tail: string)
    requires s == head + "_" + tail && '_' !in tail
    ensures AfterLast(s, '_') == tail
    decreases |head|
  {
    assert s[|head|] == '_' && s[|head| + 1..] == tail;
    if head == [] {
      assert tail != [] ==> AfterLast(tail, '_') == tail;
    } else {
      assert s[1..] == head[1..] + "_" + tail;
      AfterLastUnique(s[1..], head[1..], tail);
    }
  }

  lemma LogNamePair(prefix: string, when: string, oui: string, serial: string)
    requires prefix == "Log_" || prefix == "ErrorLog_"
    requires '_' !in oui && '.' !in oui && '_' !in serial
    ensures IsPeriodicLog(LogName(prefix, when, oui, serial))
    ensures OuiSerialFromName(LogName(prefix, when, oui, serial)) == (oui, serial)
  {
    var name := LogName(prefix, when, oui, serial);
    var tail := oui + "." + serial;
    var body := (prefix + when) + "_" + tail;
    assert when + ("_" + tail + ".gz") == when + "_" + tail + ".gz";
    assert name == body + ".gz";
    assert name[|name| - 3..] == ".gz" && name[..|name| - 3] == body;
    assert prefix <= name;
    AfterLastUnique(body, prefix + when, tail);
    CutAtFirst(oui, '.', serial);
  }

  /** A canonical id begins with oui and a hyphen exactly when oui is the device's own. */
  lemma OuiPrefix(oui: string, d: DeviceId)
    requires '-' !in oui && EscapeFree(oui)
    ensures oui + "-" <= CanonicalID(d) <==> d.oui == oui
  {
    var id := CanonicalID(d);
    CutAtFirst(Encode(d.oui), '-', Join(Encode(d.productClass), Encode(d.serial)));
    EncodePlain(oui);
    if oui + "-" <= id {
      assert id == oui + "-" + id[|oui| + 1..];
      CutAtFirst(oui, '-', id[|oui| + 1..]);
      DecodeEncode(d.oui);
      DecodeEscapeFree(oui);
      EncodedHyphenShows(d.oui);
      EncodePlain(d.oui);
    }
  }

  lemma {:induction false} EncodedHyphenShows(o: string)
    requires EscapeFree(Encode(o))
    ensures '-' !in o
  {
    if o != [] {
      var e := Encode(o);
      assert e[0..] == e && o[0] != '-';
      EscapeFreeTail(e);
      assert e[1..] == Encode(o[1..]);
      EncodedHyphenShows(o[1..]);
    }
  }

  lemma {:induction false} FirstAnswerIs(devices: seq<DeviceRecord>, oui: string, serial: string, i: nat)
    requires i < |devices| && Answers(devices[i], oui, serial)
    requires forall j | 0 <= j < |devices| && j != i :: !Answers(devices[j], oui, serial)
    ensures FirstAnswer(devices, oui, serial) == Some(devices[i].deviceId)
  {
    if i > 0 {
      assert !Answers(devices[0], oui, serial);
      FirstAnswerIs(devices[1..], oui, serial, i - 1);
    }
  }

  /** The store as Informs fill it: record k is the one of device ids[k]. */
  predicate Stores(devices: seq<DeviceRecord>, ids: seq<DeviceId>) {
    |ids| == |devices|
    && forall k | 0 <= k < |ids| ::
         devices[k] == DeviceRecord(CanonicalID(ids[k]), ids[k].productClass, ids[k].serial)
  }

  /** Both uploads of a stored device are credited to exactly that device. */
  lemma UploadResolvesToItsDevice(devices: seq<DeviceRecord>, ids: seq<DeviceId>, i: nat, prefix: string, when: string)
    requires Stores(devices, ids) && i < |ids|
    requires forall k | 0 <= k < |ids| && k != i :: ids[k].oui != ids[i].oui || ids[k].serial != ids[i].serial
    requires ids[i].oui != "" && '-' !in ids[i].oui && '_' !in ids[i].oui && '.' !in ids[i].oui
    requires EscapeFree(ids[i].oui) && ids[i].serial != "" && '_' !in ids[i].serial
    requires prefix == "Log_" || prefix == "ErrorLog_"
    ensures Resolve(devices, LogName(prefix, when, ids[i].oui, ids[i].serial)) == Some(CanonicalID(ids[i]))
  {
    var oui, serial := ids[i].oui, ids[i].serial;
    LogNamePair(prefix, when, oui, serial);
    forall k | 0 <= k < |ids| ensures Answers(devices[k], oui, serial) <==> k == i {
      OuiPrefix(oui, ids[k]);
    }
    FirstAnswerIs(devices, oui, serial, i);
  }

  // ---------------------------------------------------------------- occurrence bucket

  /** The occurrence part of a dedup key: the date in the name, else the file's day if it can be read. */
  function Bucket(name: string, day: Option<string>): string {
    var rest := TrimPrefix(TrimPrefix(name, "ErrorLog_"), "Log_");
    var dot := Index(rest, '.');
    if IsPeriodicLog(name) && dot < |rest| && dot == 8 then rest[..dot] else OrElse(day, "")
  }

  lemma FeedPrefixTrimmed(prefix: string, text: string)
    requires prefix == "Log_" || prefix == "ErrorLog_"
    requires text != [] && text[0] != 'L'
    ensures TrimPrefix(TrimPrefix(prefix + text, "ErrorLog_"), "Log_") == text
  {
    var name := prefix + text;
    assert name[0] == prefix[0] && name[|prefix|..] == text && prefix <= name;
    assert "Log_"[0] == 'L' && "ErrorLog_"[0] == 'E';
  }

  /** An upload time opens with the eight digits of its date and a dot. */
  predicate Dated(when: string) {
    |when| > 8 && '.' !in when[..8] && when[8] == '.' && when[0] != 'L'
  }

  lemma DatedNameBucket(prefix: string, when: string, rest: string, day: Option<string>)
    requires prefix == "Log_" || prefix == "ErrorLog_"
    requires Dated(when) && HasSuffix(rest, ".gz")
    ensures Bucket(prefix + (when + rest), day) == when[..8]
  {
    var text := when + rest;
    var name := prefix + text;
    assert text[..8] == when[..8] && text[8] == '.' && text[0] == when[0];
    IndexAt(text, '.', 8);
    FeedPrefixTrimmed(prefix, text);
    assert name[|name| - 3..] == rest[|rest| - 3..];
    assert prefix <= name;
  }

  /** The two slices of one cycle share a bucket, whatever the clock or the file system says. */
  lemma SiblingsShareBucket(when: string, oui: string, serial: string, day1: Option<string>, day2: Option<string>)
    requires Dated(when)
    ensures Bucket(LogName("Log_", when, oui, serial), day1)
         == Bucket(LogName("ErrorLog_", when, oui, serial), day2)
         == when[..8]
  {
    var rest := "_" + (oui + "." + serial) + ".gz";
    assert rest[|rest| - 3..] == ".gz";
    DatedNameBucket("Log_", when, rest, day1);
    DatedNameBucket("ErrorLog_", when, rest, day2);
  }

  function DumpName(oui: string, serial: string, rest: string): string {
    oui + ['_'] + (serial + ['_'] + rest) + ".tgz"
  }

  /** A dump's name carries the pair before its second underscore. */
  lemma DumpNamePair(oui: string, serial: string, rest: string)
    requires '_' !in oui && '_' !in serial
    ensures !IsPeriodicLog(DumpName(oui, serial, rest))
    ensures OuiSerialFromName(DumpName(oui, serial, rest)) == (oui, serial)
  {
    var name := DumpName(oui, serial, rest);
    var base := oui + ['_'] + (serial + ['_'] + rest);
    assert name[|name| - 4..] == ".tgz" && name[..|name| - 4] == base;
    assert name[|name| - 2] == 'g' && ".gz"[1] == 'g' && name[|name| - 3] == 't' && ".gz"[0] == '.';
    CutAtFirst(oui, '_', serial + ['_'] + rest);
    CutAtFirst(serial, '_', rest);
  }

  /** A feed name without a date falls back to the file's day. */
  lemma UndatedNameBucket(name: string, day: Option<string>)
    requires !IsPeriodicLog(name)
    ensures Bucket(name, day) == match day case Some(d) => d case None => ""
  {
  }

  /** The device an upload resolves to is the first listed one with its serial and its OUI in front of the id; there is none exactly when none is listed, or the name carries no pair. */
  lemma ResolvedIsTheFirstAnswer(devices: seq<DeviceRecord>, name: string)
    ensures var (oui, serial) := OuiSerialFromName(name); var id := Resolve(devices, name);
      && (id.Some? ==> oui != "" && serial != "" && exists k | 0 <= k < |devices| ::
            && devices[k].deviceId == id.value && devices[k].serialNumber == serial && oui + "-" <= devices[k].deviceId
            && forall j | 0 <= j < k :: !(devices[j].serialNumber == serial && oui + "-" <= devices[j].deviceId))
      && (id.None? && oui != "" && serial != "" ==>
            forall k | 0 <= k < |devices| :: !(devices[k].serialNumber == serial && oui + "-" <= devices[k].deviceId))
  {
    var (oui, serial) := OuiSerialFromName(name);
    FirstAnswerFirst(devices, oui, serial);
  }

  lemma {:induction false} FirstAnswerFirst(devices: seq<DeviceRecord>, oui: string, serial: string)
    ensures var id := FirstAnswer(devices, oui, serial);
      && (id.Some? ==> exists k | 0 <= k < |devices| ::
            && devices[k].deviceId == id.value && devices[k].serialNumber == serial && oui + "-" <= devices[k].deviceId
            && forall j | 0 <= j < k :: !(devices[j].serialNumber == serial && oui + "-" <= devices[j].deviceId))
      && (id.None? ==> forall k | 0 <= k < |devices| :: !(devices[k].serialNumber == serial && oui + "-" <= devices[k].deviceId))
  {
    if devices != [] && !Answers(devices[0], oui, serial) {
      var rest := devices[1..];
      FirstAnswerFirst(rest, oui, serial);
      assert forall k | 0 <= k < |rest| :: rest[k] == devices[k + 1];
      if FirstAnswer(rest, oui, serial).Some? {
        var k :| 0 <= k < |rest| && rest[k].deviceId == FirstAnswer(rest, oui, serial).value
          && rest[k].serialNumber == serial && oui + "-" <= rest[k].deviceId
          && forall j | 0 <= j < k :: !(rest[j].serialNumber == serial && oui + "-" <= rest[j].deviceId);
        assert devices[k + 1].deviceId == rest[k].deviceId;
        forall j | 0 <= j < k + 1 ensures !(devices[j].serialNumber == serial && oui + "-" <= devices[j].deviceId) {
          assert j > 0 ==> devices[j] == rest[j - 1];
        }
      } else {
        forall j | 0 <= j < |devices| ensures !(devices[j].serialNumber == serial && oui + "-" <= devices[j].deviceId) {
          assert j > 0 ==> devices[j] == rest[j - 1];
        }
      }
    }
  }
}
