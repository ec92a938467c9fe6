/** What isolation means for the calls devices receive and the parameters kept for them. */
module IsolationLaws {
  import opened Wrappers
  import opened Identity
  import opened Cwmp
  import opened Server
  import opened Fleet
  import opened S = Session
  import opened FleetLaws
  import opened Traffic
  import opened Isolation
  import Contact

  /** Where the server starts, and a run of truthful devices whose requests are homing. */
  ghost predicate Isolated(devs: seq<Dev>, cache: Cache, firstContact: seq<string>, jars: map<nat, string>, steps: seq<Step>) {
    && Named(devs)
    && TruthfulRun(devs, Start(cache, firstContact, jars), steps)
    && HomingRun(devs, Start(cache, firstContact, jars), steps)
    && Legal(Start(cache, firstContact, jars), steps)
  }

  // ---------------------------------------------------------------- sessions and calls

  /** Every session under a device id keeps that identity; every provisional session stays without device and work. */
  lemma SessionsKeepTheirDevice(devs: seq<Dev>, cache: Cache, firstContact: seq<string>, jars: map<nat, string>, steps: seq<Step>, key: string)
    requires Isolated(devs, cache, firstContact, jars, steps)
    requires key in Exec(Start(cache, firstContact, jars), steps).acs.sessions
    ensures Keyed(Exec(Start(cache, firstContact, jars), steps).acs.sessions[key], key)
  {
    RunInPlace(devs, Start(cache, firstContact, jars), steps);
  }

  lemma {:induction false} FirstContactStays(w: World, steps: seq<Step>)
    requires Legal(w, steps)
    ensures Exec(w, steps).acs.firstContact == w.acs.firstContact
    decreases |steps|
  {
    if steps != [] {
      FirstContactStays(Do(w, steps[0]), steps[1..]);
    }
  }

  lemma {:induction false} CallsUnderHolds(sent: seq<Sent>, i: nat) returns (k: nat)
    requires i < |sent|
    ensures var calls := CallsUnder(sent, sent[i].key); k < |calls| && calls[k] == sent[i].reply
    decreases |sent|
  {
    if i < |sent| - 1 {
      k := CallsUnderHolds(sent[..|sent| - 1], i);
    } else {
      k := |CallsUnder(sent[..i], sent[i].key)|;
    }
  }

  /** Every call a device receives is for a task queued under its own id, or the ACS's own first reading of it. */
  lemma CallsReachTheirDevice(devs: seq<Dev>, cache: Cache, firstContact: seq<string>, jars: map<nat, string>, steps: seq<Step>, i: nat)
    returns (t: Task)
    requires Isolated(devs, cache, firstContact, jars, steps)
    requires i < |Exec(Start(cache, firstContact, jars), steps).sent|
    ensures var w := Exec(Start(cache, firstContact, jars), steps);
      && w.sent[i].dev < |devs| && w.sent[i].key == Key(devs, w.sent[i].dev)
      && w.sent[i].reply == Call(t) && Contact.CallsFor(w.sent[i].reply, t)
      && (Asked(Key(devs, w.sent[i].dev), t) in w.asked || Own(firstContact, t))
  {
    var w := Exec(Start(cache, firstContact, jars), steps);
    RunInPlace(devs, Start(cache, firstContact, jars), steps);
    assert w.sent[i] in w.sent;
    var key := w.sent[i].key;
    RunDelivers(Start(cache, firstContact, jars), steps, key, "");
    FirstContactStays(Start(cache, firstContact, jars), steps);
    var k := CallsUnderHolds(w.sent, i);
    t := w.acs.sessions[key].log.pops[k];
    assert t in w.acs.sessions[key].log.pops;
    Contact.CallIsForItsTask(t, t);
  }

  // ---------------------------------------------------------------- parameters

  predicate Carries(post: Post, path: string, value: string) {
    post.Envelope? && match post.msg
      case Inform(_, params) => Param(path, value) in params
      case GPVResponse(values) => Param(path, value) in values
      case _ => false
  }

  lemma {:induction false} CachedComesFrom(c: Cache, id: string, values: seq<Param>, at: (string, string))
    requires at in Cached(c, id, values).params
    ensures (at in c.params && c.params[at] == Cached(c, id, values).params[at])
      || (at.0 == id && Param(at.1, Cached(c, id, values).params[at]) in values)
    decreases |values|
  {
    if values != [] {
      var p := values[0];
      CachedComesFrom(c.(params := c.params[(id, p.name) := p.value]), id, values[1..], at);
      assert p in values && p == Param(p.name, p.value);
      assert forall v | v in values[1..] :: v in values;
    }
  }

  ghost predicate SaidBy(devs: seq<Dev>, said: seq<Said>, key: string, path: string, value: string) {
    exists x :: x in said && x.dev < |devs| && Key(devs, x.dev) == key && Carries(x.post, path, value)
  }

  /** What is kept for a device was there before this lifetime, or the device said so. */
  ghost predicate Sourced(devs: seq<Dev>, before: Cache, w: World, key: string, path: string) {
    (key, path) in w.acs.cache.params ==>
      var value := w.acs.cache.params[(key, path)];
      ((key, path) in before.params && before.params[(key, path)] == value) || SaidBy(devs, w.said, key, path, value)
  }

  lemma StoredComesFrom(c: Cache, id: string, ip: string, post: Post, at: (string, string))
    requires post.Envelope? && at in Stored(c, id, ip, post.msg).params
    ensures (at in c.params && c.params[at] == Stored(c, id, ip, post.msg).params[at])
      || (at.0 == (if IsInform(post) then CanonicalID(post.msg.id) else id) && Carries(post, at.1, Stored(c, id, ip, post.msg).params[at]))
  {
    match post.msg {
      case Inform(d, params) =>
        CachedComesFrom(c.(devices := c.devices[CanonicalID(d) := Device(ip, d.productClass, d.serial)]), CanonicalID(d), params, at);
      case GPVResponse(values) => CachedComesFrom(c, id, values, at);
      case _ =>
    }
  }

  lemma SaidMore(devs: seq<Dev>, said: seq<Said>, x: Said, key: string, path: string, value: string)
    ensures SaidBy(devs, said, key, path, value) ==> SaidBy(devs, said + [x], key, path, value)
    ensures x.dev < |devs| && Key(devs, x.dev) == key && Carries(x.post, path, value) ==> SaidBy(devs, said + [x], key, path, value)
  {
    if SaidBy(devs, said, key, path, value) {
      var y :| y in said && y.dev < |devs| && Key(devs, y.dev) == key && Carries(y.post, path, value);
      assert y in said + [x];
    }
    assert x in said + [x];
  }

  lemma HandleSourced(devs: seq<Dev>, before: Cache, w: World, s: Step, key: string, path: string)
    requires InPlace(devs, w) && Sourced(devs, before, w, key, path) && s.Handle? && Enabled(w, s) && key != ""
    ensures Sourced(devs, before, AfterHandling(w, s.r, s.received, s.before, s.amid), key, path)
  {
    var q := w.routed[s.r];
    assert WellRouted(devs, w.acs, q);
    var found := Found(w.acs, q);
    var d := AfterHandling(w, s.r, s.received, s.before, s.amid);
    assert Keyed(found, q.key);
    assert d.acs.cache == CacheAfter(w.acs, q);
    if (key, path) in d.acs.cache.params {
      SaidMore(devs, w.said, Said(q.dev, q.host, q.post), key, path, d.acs.cache.params[(key, path)]);
      if q.post.Envelope? {
        StoredComesFrom(w.acs.cache, found.deviceId, found.ip, q.post, (key, path));
      }
    }
  }

  lemma {:induction false} RunSourced(devs: seq<Dev>, before: Cache, w: World, steps: seq<Step>, key: string, path: string)
    requires Named(devs) && InPlace(devs, w) && Sourced(devs, before, w, key, path) && key != ""
    requires TruthfulRun(devs, w, steps) && HomingRun(devs, w, steps) && Legal(w, steps)
    ensures Sourced(devs, before, Exec(w, steps), key, path)
    decreases |steps|
  {
    if steps != [] {
      var s := steps[0];
      StepInPlace(devs, w, s);
      match s {
        case Queue(k, t) => QueueOutcome(w, k, t);
        case Arrive(d, host, cookie, post) => RoutedSessions(w.acs, host, cookie, post);
        case Handle(r, received, b, a) => HandleSourced(devs, before, w, s, key, path);
        case LoseCookie(d) =>
      }
      RunSourced(devs, before, Do(w, s), steps[1..], key, path);
    }
  }

  /** Every parameter kept for a device was kept before, or came in a message of that device. */
  lemma ParametersComeFromTheirDevice(devs: seq<Dev>, cache: Cache, firstContact: seq<string>, jars: map<nat, string>, steps: seq<Step>,
                                      key: string, path: string)
    requires Isolated(devs, cache, firstContact, jars, steps) && key != ""
    ensures Sourced(devs, cache, Exec(Start(cache, firstContact, jars), steps), key, path)
  {
    RunSourced(devs, cache, Start(cache, firstContact, jars), steps, key, path);
  }

  // ---------------------------------------------------------------- a request that is not homing

  const NOTHING_KEPT := Cache(map[], map[], {}, [])

  lemma LegalCons(w: World, s: Step, rest: seq<Step>)
    requires Enabled(w, s) && Legal(Do(w, s), rest)
    ensures Legal(w, [s] + rest) && Exec(w, [s] + rest) == Exec(Do(w, s), rest)
  {
    assert ([s] + rest)[1..] == rest;
  }

  /** The server knows one device, which informed from the address, and nothing is kept for it. */
  ghost predicate OnlyInformed(w: World, d: Dev) {
    var id := CanonicalID(d.id);
    && w.acs.sessions.Keys == {id} && w.acs.sessions[id].deviceId == id
    && w.acs.byIP == map[d.host := id] && w.acs.cache.params == map[] && w.routed == []
    && w.said == [Said(1, d.host, Envelope("", Inform(d.id, [])))]
  }

  /** The same before the Inform is handled. */
  ghost predicate OnlyArrived(w: World, d: Dev) {
    var id := CanonicalID(d.id);
    && w.acs.sessions.Keys == {id} && w.acs.byIP == map[d.host := id] && w.acs.cache == NOTHING_KEPT && w.said == []
    && w.routed == [Routing(1, d.host, "", id, Envelope("", Inform(d.id, [])))]
  }

  lemma InformArrives(w: World, d: Dev)
    requires w.acs.sessions == map[] && w.acs.byIP == map[] && w.acs.cache == NOTHING_KEPT && w.routed == [] && w.said == []
    ensures OnlyArrived(Do(w, Arrive(1, d.host, "", Envelope("", Inform(d.id, [])))), d)
  {
    RoutedSessions(w.acs, d.host, "", Envelope("", Inform(d.id, [])));
  }

  lemma InformIsHandled(w: World, d: Dev)
    requires OnlyArrived(w, d)
    ensures Enabled(w, Handle(0, false, [], [])) && OnlyInformed(Do(w, Handle(0, false, [], [])), d)
  {
    var q := w.routed[0];
    var w' := AfterHandling(w, 0, false, [], []);
    HandledDevice(Found(w.acs, q), q.post, Knows(w.acs.cache, q.post), [], []);
    assert w'.acs.sessions.Keys == w.acs.sessions.Keys;
    assert CacheAfter(w.acs, q).params == map[];
  }

  lemma AnswersNext(w: World, d: Dev, cookie: string, p: Param)
    requires OnlyInformed(w, d) && cookie != CanonicalID(d.id)
    ensures var w1 := Do(w, Arrive(0, d.host, cookie, Envelope("", GPVResponse([p]))));
      && Enabled(w1, Handle(0, false, [], []))
      && var w2 := Do(w1, Handle(0, false, [], []));
         && w2.acs.cache.params == map[(CanonicalID(d.id), p.name) := p.value]
         && w2.said == w.said + [Said(0, d.host, Envelope("", GPVResponse([p])))]
  {
    var w1 := Do(w, Arrive(0, d.host, cookie, Envelope("", GPVResponse([p]))));
    assert KeyFor(w.acs, d.host, cookie, Envelope("", GPVResponse([p]))) == CanonicalID(d.id);
    assert Cached(w.acs.cache, CanonicalID(d.id), [p]).params == map[(CanonicalID(d.id), p.name) := p.value] by {
      assert [p][1..] == [];
    }
  }

  const HANDLE := Handle(0, false, [], [])

  function AnswerSteps(d: Dev, cookie: string, p: Param): seq<Step> {
    [Arrive(0, d.host, cookie, Envelope("", GPVResponse([p])))] + [HANDLE]
  }

  function InformSteps(d: Dev): seq<Step> {
    [Arrive(1, d.host, "", Envelope("", Inform(d.id, [])))] + [HANDLE]
  }

  lemma InformRuns(w: World, d: Dev)
    requires w.acs.sessions == map[] && w.acs.byIP == map[] && w.acs.cache == NOTHING_KEPT && w.routed == [] && w.said == []
    ensures Legal(w, InformSteps(d)) && OnlyInformed(Exec(w, InformSteps(d)), d)
  {
    var inform := Arrive(1, d.host, "", Envelope("", Inform(d.id, [])));
    InformArrives(w, d);
    var w1 := Do(w, inform);
    InformIsHandled(w1, d);
    LegalCons(w1, HANDLE, []);
    LegalCons(w, inform, [HANDLE]);
  }

  lemma AnswerRuns(w: World, d: Dev, cookie: string, p: Param)
    requires OnlyInformed(w, d) && cookie != CanonicalID(d.id)
    ensures Legal(w, AnswerSteps(d, cookie, p))
    ensures Exec(w, AnswerSteps(d, cookie, p)).acs.cache.params == map[(CanonicalID(d.id), p.name) := p.value]
    ensures Exec(w, AnswerSteps(d, cookie, p)).said == w.said + [Said(0, d.host, Envelope("", GPVResponse([p])))]
  {
    var answer := Arrive(0, d.host, cookie, Envelope("", GPVResponse([p])));
    AnswersNext(w, d, cookie, p);
    LegalCons(Do(w, answer), HANDLE, []);
    LegalCons(w, answer, [HANDLE]);
  }

  lemma {:induction false} LegalConcat(w: World, a: seq<Step>, b: seq<Step>)
    requires Legal(w, a) && Legal(Exec(w, a), b)
    ensures Legal(w, a + b) && Exec(w, a + b) == Exec(Exec(w, a), b)
    decreases |a|
  {
    if a == [] {
      assert a + b == b;
    } else {
      assert (a + b)[1..] == a[1..] + b;
      LegalConcat(Do(w, a[0]), a[1..], b);
    }
  }

  /** Steps that are truthful wherever they are taken make a truthful run. */
  lemma {:induction false} AlwaysTruthful(devs: seq<Dev>, w: World, steps: seq<Step>)
    requires Legal(w, steps)
    requires forall k, v | 0 <= k < |steps| && Enabled(v, steps[k]) :: Truthful(devs, v, steps[k])
    ensures TruthfulRun(devs, w, steps)
    decreases |steps|
  {
    if steps != [] {
      AlwaysTruthful(devs, Do(w, steps[0]), steps[1..]);
    }
  }

  /**
   Isolation needs homing: after a restart the second device informs from the shared address,
   the first answers with the cookie it kept, and its parameter is kept for the second.
   */
  lemma OldCookieMisfilesAParameter(a: Dev, b: Dev, p: Param, firstContact: seq<string>) returns (steps: seq<Step>)
    requires a.host == b.host && CanonicalID(a.id) != CanonicalID(b.id) && Named([a, b])
    ensures var w := Start(NOTHING_KEPT, firstContact, map[0 := CanonicalID(a.id)]);
      && TruthfulRun([a, b], w, steps) && Legal(w, steps)
      && (CanonicalID(b.id), p.name) in Exec(w, steps).acs.cache.params
      && !Sourced([a, b], NOTHING_KEPT, Exec(w, steps), CanonicalID(b.id), p.name)
  {
    var w := Start(NOTHING_KEPT, firstContact, map[0 := CanonicalID(a.id)]);
    InformRuns(w, b);
    AnswerRuns(Exec(w, InformSteps(b)), b, CanonicalID(a.id), p);
    LegalConcat(w, InformSteps(b), AnswerSteps(b, CanonicalID(a.id), p));
    steps := InformSteps(b) + AnswerSteps(b, CanonicalID(a.id), p);
    AlwaysTruthful([a, b], w, steps);
    NotSaid(a, b, Exec(w, steps).said, p);
  }

  lemma NotSaid(a: Dev, b: Dev, said: seq<Said>, p: Param)
    requires said == [Said(1, b.host, Envelope("", Inform(b.id, []))), Said(0, b.host, Envelope("", GPVResponse([p])))]
    requires CanonicalID(a.id) != CanonicalID(b.id)
    ensures !SaidBy([a, b], said, CanonicalID(b.id), p.name, p.value)
  {
  }
}
