/**
 The ACS: sessions keyed by canonical device id, requests routed by Inform, cookie or source
 address. Routing and handling hold different locks, so they are separate operations.
 */
module Server {
  import opened Wrappers
  import opened Identity
  import opened Cwmp
  import S = Session

  /** The ACS as a value. */
  datatype Acs = Acs(sessions: map<string, S.Sess>, byIP: map<string, string>, cache: Cache, firstContact: seq<string>)

  function DeviceIP(c: Cache, id: string): string {
    if id in c.devices then c.devices[id].ip else ""
  }

  function Opened(v: Acs, id: string): Acs {
    if id in v.sessions then v
    else v.(sessions := v.sessions[id := S.NewSess(v.firstContact).(deviceId := id, ip := DeviceIP(v.cache, id))])
  }

  function Provisional(host: string): string {
    "ip:" + host
  }

  predicate IsInform(post: Post) {
    post.Envelope? && post.msg.Inform?
  }

  /** The key of the session a request goes to: its Inform's device, its cookie, its address, or a provisional one. */
  function KeyFor(v: Acs, host: string, cookie: string, post: Post): string {
    if IsInform(post) then CanonicalID(post.msg.id)
    else if cookie != "" && cookie in v.sessions then cookie
    else if host in v.byIP && v.byIP[host] in v.sessions then v.byIP[host]
    else Provisional(host)
  }

  predicate FallsThrough(v: Acs, host: string, cookie: string, post: Post) {
    && !IsInform(post)
    && !(cookie != "" && cookie in v.sessions)
    && !(host in v.byIP && v.byIP[host] in v.sessions)
  }

  function OpenedProvisional(v: Acs, host: string): Acs {
    var key := Provisional(host);
    var v1 := v.(byIP := v.byIP[host := key]);
    if key in v.sessions then v1 else v1.(sessions := v.sessions[key := S.NewSess(v.firstContact).(ip := host)])
  }

  function Routed(v: Acs, host: string, cookie: string, post: Post): Acs {
    if IsInform(post) then
      var key := CanonicalID(post.msg.id);
      Opened(v.(byIP := v.byIP[host := key]), key)
    else if FallsThrough(v, host, cookie, post) then OpenedProvisional(v, host)
    else v
  }

  /** A request handled in the session of the given key. */
  function Served(v: Acs, key: string, host: string, post: Post): (Acs, Reply)
    requires key in v.sessions
  {
    var s := if host != "" then v.sessions[key].(ip := host) else v.sessions[key];
    var h := S.Handled(s, post, S.Knows(v.cache, post));
    var cache := if post.EmptyPost? then v.cache else Stored(v.cache, s.deviceId, s.ip, post.msg);
    (v.(sessions := v.sessions[key := h.0], cache := cache), h.1)
  }

  function Queued(v: Acs, id: string, t: Task): Acs {
    var o := Opened(v, id);
    o.(sessions := o.sessions[id := S.Enqueue(o.sessions[id], t)])
  }

  class Server {
    var sessions: map<string, S.Session>
    var byIP: map<string, string>
    const store: Store
    const firstContactGPV: seq<string>

    /** Every session is of this server and kept under one key. */
    ghost predicate Valid()
      reads this, sessions.Values
    {
      && (forall k | k in sessions :: sessions[k].store == store)
      && (forall j, k | j in sessions && k in sessions && j != k :: sessions[j] != sessions[k])
    }

    ghost function View(): Acs
      reads this, store, sessions.Values
    {
      Acs(map k | k in sessions :: sessions[k].State(), byIP, store.cache, firstContactGPV)
    }

    constructor (store: Store, firstContact: seq<string>)
      ensures Valid() && View() == Acs(map[], map[], store.cache, firstContact)
      ensures this.store == store
    {
      this.store, firstContactGPV := store, firstContact;
      sessions, byIP := map[], map[];
    }

    /** Adds a session for a device id (empty for a provisional one) under a new key. */
    method NewSession(key: string, id: string, ip: string) returns (s: S.Session)
      requires Valid() && key !in sessions
      modifies this`sessions
      ensures Valid() && fresh(s) && sessions == old(sessions)[key := s]
      ensures s.State() == S.NewSess(firstContactGPV).(deviceId := id, ip := ip)
      ensures View() == old(View()).(sessions := old(View()).sessions[key := s.State()])
    {
      s := new S.Session(store, firstContactGPV);
      s.SetDevice(id, ip);
      Keep(key, s);
    }

    method Keep(key: string, s: S.Session)
      requires Valid() && key !in sessions && s !in sessions.Values && s.store == store
      modifies this`sessions
      ensures Valid() && sessions == old(sessions)[key := s]
      ensures View() == old(View()).(sessions := old(View()).sessions[key := s.State()])
    {
      sessions := sessions[key := s];
      assert View().sessions == old(View()).sessions[key := s.State()];
    }

    method DeviceSession(id: string) returns (s: S.Session)
      requires Valid()
      modifies this`sessions
      ensures Valid() && View() == Opened(old(View()), id)
      ensures id in sessions && s == sessions[id] && Extends(old(sessions), s)
      ensures s !in old(sessions.Values) ==> fresh(s)
    {
      if id in sessions {
        return sessions[id];
      }
      var ip := "";
      if id in store.cache.devices {
        ip := store.cache.devices[id].ip;
      }
      s := NewSession(id, id, ip);
    }

    twostate lemma OneChanged(key: string)
      requires old(Valid()) && key in sessions && sessions == old(sessions) && byIP == old(byIP)
      requires forall k | k in sessions && k != key :: unchanged(sessions[k])
      ensures Valid() && View().sessions == old(View()).sessions[key := sessions[key].State()]
    {
    }

    ghost predicate Extends(before: map<string, S.Session>, s: S.Session)
      reads this
    {
      sessions.Values <= before.Values + {s}
    }

    method Remember(host: string, key: string)
      requires Valid()
      modifies this`byIP
      ensures Valid() && View() == old(View()).(byIP := old(byIP)[host := key])
    {
      byIP := byIP[host := key];
    }

    method ProvisionalSession(host: string) returns (s: S.Session)
      requires Valid()
      modifies this
      ensures Valid() && View() == OpenedProvisional(old(View()), host)
      ensures Provisional(host) in sessions && s == sessions[Provisional(host)]
      ensures Extends(old(sessions), s) && (s !in old(sessions.Values) ==> fresh(s))
    {
      var key := Provisional(host);
      Remember(host, key);
      if key in sessions {
        return sessions[key];
      }
      s := NewSession(key, "", host);
    }

    method InformedSession(host: string, id: string) returns (s: S.Session)
      requires Valid()
      modifies this
      ensures Valid() && View() == Opened(old(View()).(byIP := old(byIP)[host := id]), id)
      ensures id in sessions && s == sessions[id] && Extends(old(sessions), s)
      ensures s !in old(sessions.Values) ==> fresh(s)
    {
      Remember(host, id);
      s := DeviceSession(id);
    }

    method RouteSession(host: string, cookie: string, post: Post) returns (s: S.Session, ghost key: string)
      requires Valid()
      modifies this
      ensures Valid() && View() == Routed(old(View()), host, cookie, post)
      ensures key == KeyFor(old(View()), host, cookie, post) && key in sessions && s == sessions[key]
      ensures Extends(old(sessions), s) && (s !in old(sessions.Values) ==> fresh(s))
    {
      key := KeyFor(View(), host, cookie, post);
      if post.Envelope? && post.msg.Inform? {
        s := InformedSession(host, CanonicalID(post.msg.id));
        return;
      }
      if cookie != "" && cookie in sessions {
        s := sessions[cookie];
        return;
      }
      if host in byIP && byIP[host] in sessions {
        s := sessions[byIP[host]];
        return;
      }
      s := ProvisionalSession(host);
    }

    /** The part of a request done under its session's lock; cookie is the id the device is to echo. */
    method HandleLocked(s: S.Session, ghost key: string, host: string, post: Post) returns (r: Reply, cookie: string)
      requires Valid() && key in sessions && s == sessions[key]
      modifies s, store
      ensures Valid() && (View(), r) == Served(old(View()), key, host, post)
      ensures cookie == View().sessions[key].deviceId
    {
      if host != "" {
        s.SetIP(host);
      }
      r := s.Handle(post);
      cookie := s.deviceId;
      OneChanged(key);
    }

    method ServeHTTP(host: string, cookie: string, post: Post) returns (r: Reply, setCookie: string, ghost key: string)
      requires Valid()
      modifies this, store, sessions.Values
      ensures Valid() && key == KeyFor(old(View()), host, cookie, post)
      ensures key in Routed(old(View()), host, cookie, post).sessions
      ensures (View(), r) == Served(Routed(old(View()), host, cookie, post), key, host, post)
      ensures setCookie == View().sessions[key].deviceId
    {
      var s;
      s, key := RouteSession(host, cookie, post);
      r, setCookie := HandleLocked(s, key, host, post);
    }

    method Accept(s: S.Session, ghost id: string, t: Task)
      requires Valid() && id in sessions && s == sessions[id]
      modifies s
      ensures Valid() && View() == old(View()).(sessions := old(View()).sessions[id := S.Enqueue(old(View()).sessions[id], t)])
    {
      s.EnqueueTask(t);
      OneChanged(id);
    }

    method Enqueue(id: string, t: Task)
      requires Valid()
      modifies this, sessions.Values
      ensures Valid() && View() == Queued(old(View()), id, t)
    {
      var s := DeviceSession(id);
      Accept(s, id, t);
    }
  }
}
