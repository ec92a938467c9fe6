/**
 Device isolation: when every request reaches its own device's session, and what that keeps
 over every run of a fleet.
 */
module Isolation {
  import opened Wrappers
  import opened Identity
  import opened Cwmp
  import opened Server
  import opened Fleet
  import opened S = Session
  import opened FleetLaws
  import opened Traffic

  function Key(devs: seq<Dev>, d: nat): string
    requires d < |devs|
  {
    CanonicalID(devs[d].id)
  }

  lemma KeyIsNotEmpty(id: DeviceId)
    ensures CanonicalID(id) != ""
  {
    assert CanonicalID(id)[|Encode(id.oui)|] == '-';
  }

  /** The keys of provisional sessions, one for each address. */
  predicate IsProvisional(key: string) {
    "ip:" <= key
  }

  /** No device's canonical id is a provisional key. */
  predicate Named(devs: seq<Dev>) {
    forall d | 0 <= d < |devs| :: !IsProvisional(Key(devs, d))
  }

  lemma ProvisionalIs(host: string)
    ensures IsProvisional(Provisional(host))
  {
  }

  /** A device speaks from its own address and in its own name, and shows its own cookie or none; tasks are queued under device ids. */
  predicate Truthful(devs: seq<Dev>, w: World, s: Step)
    requires Enabled(w, s)
  {
    match s
    case Queue(key, _) => !IsProvisional(key)
    case Arrive(d, host, cookie, post) =>
      && d < |devs| && host == devs[d].host
      && (IsInform(post) ==> post.msg.id == devs[d].id)
      && (cookie == "" || cookie == Key(devs, d))
    case Handle(r, _, before, amid) => before + amid != [] ==> !IsProvisional(w.routed[r].key)
    case LoseCookie(_) => true
  }

  /** A request that is no Inform shows a cookie of this lifetime, or comes from an address no other device informed from last. */
  predicate Homing(devs: seq<Dev>, w: World, s: Step) {
    s.Arrive? && s.dev < |devs| && !IsInform(s.post) ==>
      || (s.cookie != "" && Key(devs, s.dev) in w.acs.sessions)
      || LastInform(w.arrived, s.host) in {None, Some(Key(devs, s.dev))}
  }

  /** Its own session, or an idle one that names no device. */
  predicate Home(devs: seq<Dev>, q: Routing) {
    q.dev < |devs| && (q.key == Key(devs, q.dev) || (IsProvisional(q.key) && !IsInform(q.post)))
  }

  // ---------------------------------------------------------------- when a request comes home

  ghost predicate TruthfulRun(devs: seq<Dev>, w: World, steps: seq<Step>)
    decreases |steps|
  {
    steps == [] || (Enabled(w, steps[0]) && Truthful(devs, w, steps[0]) && TruthfulRun(devs, Do(w, steps[0]), steps[1..]))
  }

  ghost predicate HomingRun(devs: seq<Dev>, w: World, steps: seq<Step>)
    decreases |steps|
  {
    steps == [] || (Enabled(w, steps[0]) && Homing(devs, w, steps[0]) && HomingRun(devs, Do(w, steps[0]), steps[1..]))
  }

  lemma {:induction false} TruthfulIsLegal(devs: seq<Dev>, w: World, steps: seq<Step>)
    requires TruthfulRun(devs, w, steps)
    ensures Legal(w, steps)
    decreases |steps|
  {
    if steps != [] {
      TruthfulIsLegal(devs, Do(w, steps[0]), steps[1..]);
    }
  }

  /** Every Inform that arrived was routed to its own device's session. */
  ghost predicate InformsHome(devs: seq<Dev>, arrived: seq<Routing>) {
    forall q | q in arrived :: q.dev < |devs| && q.host == devs[q.dev].host && (IsInform(q.post) ==> q.key == Key(devs, q.dev))
  }

  ghost predicate AllAddressed(w: World) {
    forall host :: Addressed(w, host)
  }

  lemma {:induction false} LastInformFrom(arrived: seq<Routing>, host: string) returns (q: Routing)
    requires LastInform(arrived, host).Some?
    ensures q in arrived && q.host == host && IsInform(q.post) && q.key == LastInform(arrived, host).value
    decreases |arrived|
  {
    var k := |arrived| - 1;
    if arrived[k].host == host && IsInform(arrived[k].post) {
      q := arrived[k];
    } else {
      q := LastInformFrom(arrived[..k], host);
    }
  }

  /** One request comes home exactly when it is homing. */
  lemma ArrivalComesHome(devs: seq<Dev>, w: World, s: Step)
    requires Named(devs) && AllAddressed(w) && InformsHome(devs, w.arrived)
    requires s.Arrive? && Truthful(devs, w, s)
    ensures Home(devs, Routing(s.dev, s.host, s.cookie, KeyFor(w.acs, s.host, s.cookie, s.post), s.post)) <==> Homing(devs, w, s)
  {
    assert Addressed(w, s.host);
    ProvisionalIs(s.host);
    if LastInform(w.arrived, s.host).Some? {
      var q := LastInformFrom(w.arrived, s.host);
      assert !IsProvisional(Key(devs, q.dev));
    }
  }

  lemma StepInformsHome(devs: seq<Dev>, w: World, s: Step)
    requires AllAddressed(w) && InformsHome(devs, w.arrived) && Enabled(w, s) && Truthful(devs, w, s)
    ensures AllAddressed(Do(w, s)) && InformsHome(devs, Do(w, s).arrived)
  {
    forall host ensures Addressed(Do(w, s), host) {
      StepAddressed(w, s, host);
    }
  }

  ghost predicate AllHome(devs: seq<Dev>, arrived: seq<Routing>) {
    forall q | q in arrived :: Home(devs, q)
  }

  lemma {:induction false} ArrivedStays(devs: seq<Dev>, w: World, steps: seq<Step>)
    requires Legal(w, steps)
    ensures w.arrived <= Exec(w, steps).arrived
    decreases |steps|
  {
    if steps != [] {
      ArrivedStays(devs, Do(w, steps[0]), steps[1..]);
    }
  }

  lemma {:induction false} HomeExactlyWhen(devs: seq<Dev>, w: World, steps: seq<Step>)
    requires Named(devs) && AllAddressed(w) && InformsHome(devs, w.arrived) && AllHome(devs, w.arrived)
    requires TruthfulRun(devs, w, steps) && Legal(w, steps)
    ensures AllHome(devs, Exec(w, steps).arrived) <==> HomingRun(devs, w, steps)
    decreases |steps|
  {
    if steps != [] {
      var s := steps[0];
      var next := Do(w, s);
      StepInformsHome(devs, w, s);
      if s.Arrive? {
        ArrivalComesHome(devs, w, s);
        assert next.arrived[|w.arrived|] in next.arrived;
      }
      if Homing(devs, w, s) {
        HomeExactlyWhen(devs, next, steps[1..]);
      } else {
        ArrivedStays(devs, next, steps[1..]);
        assert Exec(w, steps).arrived[|w.arrived|] == next.arrived[|w.arrived|];
      }
    }
  }

  /**
   Over every run of truthful devices, leftover cookies and shared addresses included: all
   requests come home exactly when each of them is homing as it arrives.
   */
  lemma RequestsComeHomeExactlyWhen(devs: seq<Dev>, cache: Cache, firstContact: seq<string>, jars: map<nat, string>, steps: seq<Step>)
    requires Named(devs) && TruthfulRun(devs, Start(cache, firstContact, jars), steps)
    ensures Legal(Start(cache, firstContact, jars), steps)
    ensures AllHome(devs, Exec(Start(cache, firstContact, jars), steps).arrived)
      <==> HomingRun(devs, Start(cache, firstContact, jars), steps)
  {
    TruthfulIsLegal(devs, Start(cache, firstContact, jars), steps);
    HomeExactlyWhen(devs, Start(cache, firstContact, jars), steps);
  }

  // ---------------------------------------------------------------- compliant devices are homing

  function Cookie(devs: seq<Dev>, w: World, d: nat): string {
    if d < |devs| && devs[d].cookies && d in w.jars then w.jars[d] else ""
  }

  /** Every device without cookies has an address of its own. */
  predicate Sited(devs: seq<Dev>) {
    forall c, d | 0 <= c < |devs| && 0 <= d < |devs| && c != d && !devs[c].cookies :: devs[c].host != devs[d].host
  }

  ghost predicate HasInformed(w: World, d: nat) {
    exists q :: q in w.arrived && q.dev == d && IsInform(q.post)
  }

  /** Section 3.4.2 of TR-069: a device informs before it says anything else, and shows the cookie it holds. */
  ghost predicate Compliant(devs: seq<Dev>, w: World, s: Step)
    requires Enabled(w, s)
  {
    match s
    case Arrive(d, host, cookie, post) =>
      && d < |devs| && host == devs[d].host && cookie == Cookie(devs, w, d)
      && (IsInform(post) ==> post.msg.id == devs[d].id)
      && (!IsInform(post) && devs[d].cookies ==> d in w.jars && HasInformed(w, d))
    case _ => Truthful(devs, w, s)
  }

  ghost predicate CompliantRun(devs: seq<Dev>, w: World, steps: seq<Step>)
    decreases |steps|
  {
    steps == [] || (Enabled(w, steps[0]) && Compliant(devs, w, steps[0]) && CompliantRun(devs, Do(w, steps[0]), steps[1..]))
  }

  ghost predicate JarsHold(devs: seq<Dev>, jars: map<nat, string>) {
    forall d | d in jars && d < |devs| :: jars[d] == Key(devs, d)
  }

  ghost predicate InformsKnown(w: World) {
    forall q | q in w.arrived && IsInform(q.post) :: q.key in w.acs.sessions
  }

  // ---------------------------------------------------------------- who a session belongs to

  /** A session under a device's id is that device's; any other is idle. */
  ghost predicate Keyed(s: Sess, key: string) {
    if IsProvisional(key) then Idle(s) else s.deviceId == key
  }

  ghost predicate SessionsKeyed(v: Acs) {
    forall k | k in v.sessions :: Keyed(v.sessions[k], k)
  }

  ghost predicate WellRouted(devs: seq<Dev>, v: Acs, q: Routing) {
    Home(devs, q) && q.key in v.sessions && (IsInform(q.post) ==> q.post.msg.id == devs[q.dev].id)
  }

  ghost predicate AllRouted(devs: seq<Dev>, w: World) {
    forall q | q in w.routed :: WellRouted(devs, w.acs, q)
  }

  /** Calls went only to the device whose session they come from. */
  ghost predicate SentHome(devs: seq<Dev>, sent: seq<Sent>) {
    forall x | x in sent :: x.dev < |devs| && x.key == Key(devs, x.dev)
  }

  ghost predicate InPlace(devs: seq<Dev>, w: World) {
    && SessionsKeyed(w.acs) && AllRouted(devs, w) && SentHome(devs, w.sent)
    && AllAddressed(w) && InformsHome(devs, w.arrived)
  }

  lemma ArriveInPlace(devs: seq<Dev>, w: World, s: Step)
    requires Named(devs) && InPlace(devs, w) && s.Arrive? && Truthful(devs, w, s) && Homing(devs, w, s)
    ensures var d := AfterArrival(w, s.dev, s.host, s.cookie, s.post); SessionsKeyed(d.acs) && AllRouted(devs, d)
  {
    RoutedSessions(w.acs, s.host, s.cookie, s.post);
    ArrivalComesHome(devs, w, s);
    ProvisionalIs(s.host);
    if IsInform(s.post) {
      assert !IsProvisional(Key(devs, s.dev));
    }
  }

  /** What handling a request leaves of its session's identity. */
  lemma OutcomeKeyed(devs: seq<Dev>, v: Acs, q: Routing, before: seq<Task>, amid: seq<Task>)
    requires Named(devs) && SessionsKeyed(v) && WellRouted(devs, v, q)
    requires before + amid != [] ==> !IsProvisional(q.key)
    ensures var o := Outcome(v, q, before, amid);
      && Keyed(o.0, q.key)
      && (IsCall(o.1) ==> q.key == Key(devs, q.dev))
      && (o.0.deviceId != "" ==> o.0.deviceId == Key(devs, q.dev))
  {
    var s := Found(v, q);
    assert Keyed(s, q.key);
    if IsProvisional(q.key) {
      assert before == [] && amid == [];
      assert !IsProvisional(Key(devs, q.dev));
      IdleStays(s, q.post, Knows(v.cache, q.post));
    } else {
      HandledDevice(s, q.post, Knows(v.cache, q.post), before, amid);
    }
  }

  lemma HandleInPlace(devs: seq<Dev>, w: World, s: Step)
    requires Named(devs) && InPlace(devs, w) && s.Handle? && Enabled(w, s) && Truthful(devs, w, s)
    ensures var d := AfterHandling(w, s.r, s.received, s.before, s.amid);
      SessionsKeyed(d.acs) && AllRouted(devs, d) && SentHome(devs, d.sent)
  {
    var q := w.routed[s.r];
    assert WellRouted(devs, w.acs, q);
    OutcomeKeyed(devs, w.acs, q, s.before, s.amid);
    var d := AfterHandling(w, s.r, s.received, s.before, s.amid);
    assert d.acs.sessions.Keys == w.acs.sessions.Keys;
    forall p | p in d.routed
      ensures WellRouted(devs, d.acs, p)
    {
      assert p in w.routed;
    }
  }

  lemma StepInPlace(devs: seq<Dev>, w: World, s: Step)
    requires Named(devs) && InPlace(devs, w) && Enabled(w, s) && Truthful(devs, w, s) && Homing(devs, w, s)
    ensures InPlace(devs, Do(w, s))
  {
    StepInformsHome(devs, w, s);
    match s {
      case Queue(key, t) => QueueOutcome(w, key, t);
      case Arrive(d, host, cookie, post) => ArriveInPlace(devs, w, s);
      case Handle(r, received, before, amid) => HandleInPlace(devs, w, s);
      case LoseCookie(d) =>
    }
  }

  lemma {:induction false} RunInPlace(devs: seq<Dev>, w: World, steps: seq<Step>)
    requires Named(devs) && InPlace(devs, w) && TruthfulRun(devs, w, steps) && HomingRun(devs, w, steps)
    ensures Legal(w, steps) && InPlace(devs, Exec(w, steps))
    decreases |steps|
  {
    if steps != [] {
      StepInPlace(devs, w, steps[0]);
      RunInPlace(devs, Do(w, steps[0]), steps[1..]);
    }
  }

  // ---------------------------------------------------------------- compliance

  lemma CompliantStep(devs: seq<Dev>, w: World, s: Step)
    requires Named(devs) && Sited(devs) && InPlace(devs, w) && InformsKnown(w) && JarsHold(devs, w.jars)
    requires Enabled(w, s) && Compliant(devs, w, s)
    ensures Truthful(devs, w, s) && Homing(devs, w, s)
  {
    if s.Arrive? && !IsInform(s.post) {
      KeyIsNotEmpty(devs[s.dev].id);
      if devs[s.dev].cookies {
        var q :| q in w.arrived && q.dev == s.dev && IsInform(q.post);
        assert q.key == Key(devs, s.dev);
      } else if LastInform(w.arrived, s.host).Some? {
        var q := LastInformFrom(w.arrived, s.host);
        assert q.dev == s.dev;
      }
    }
  }

  lemma CompliantKeeps(devs: seq<Dev>, w: World, s: Step)
    requires Named(devs) && InPlace(devs, w) && InformsKnown(w) && JarsHold(devs, w.jars)
    requires Enabled(w, s) && Truthful(devs, w, s)
    ensures InformsKnown(Do(w, s)) && JarsHold(devs, Do(w, s).jars)
  {
    match s {
      case Queue(key, t) => QueueOutcome(w, key, t);
      case Arrive(d, host, cookie, post) => RoutedSessions(w.acs, host, cookie, post);
      case Handle(r, received, before, amid) =>
        assert WellRouted(devs, w.acs, w.routed[r]);
        OutcomeKeyed(devs, w.acs, w.routed[r], before, amid);
        assert Do(w, s).acs.sessions.Keys == w.acs.sessions.Keys;
      case LoseCookie(d) =>
    }
  }

  lemma {:induction false} CompliantFrom(devs: seq<Dev>, w: World, steps: seq<Step>)
    requires Named(devs) && Sited(devs) && InPlace(devs, w) && InformsKnown(w) && JarsHold(devs, w.jars)
    requires CompliantRun(devs, w, steps)
    ensures TruthfulRun(devs, w, steps) && HomingRun(devs, w, steps)
    decreases |steps|
  {
    if steps != [] {
      CompliantStep(devs, w, steps[0]);
      CompliantKeeps(devs, w, steps[0]);
      StepInPlace(devs, w, steps[0]);
      CompliantFrom(devs, Do(w, steps[0]), steps[1..]);
    }
  }

  /** Compliant devices, those without cookies at addresses of their own, are homing, whatever cookies they kept from before a restart. */
  lemma CompliantDevicesAreHoming(devs: seq<Dev>, cache: Cache, firstContact: seq<string>, jars: map<nat, string>, steps: seq<Step>)
    requires Named(devs) && Sited(devs) && JarsHold(devs, jars)
    requires CompliantRun(devs, Start(cache, firstContact, jars), steps)
    ensures TruthfulRun(devs, Start(cache, firstContact, jars), steps) && HomingRun(devs, Start(cache, firstContact, jars), steps)
    ensures Legal(Start(cache, firstContact, jars), steps)
  {
    CompliantFrom(devs, Start(cache, firstContact, jars), steps);
    TruthfulIsLegal(devs, Start(cache, firstContact, jars), steps);
  }
}
