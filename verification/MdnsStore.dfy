/** The two-tier *.local store and the view built from it (internal/mdns/cache.go, internal/mdns/trust.go).

    Times are in nanoseconds. An address is its rank in the order the code sorts by: IPv4 addresses are
    the numbers below 2^32, and IPv6 address x is 2^32 + x. The text that signs an address set is modelled
    by the sorted list it is the text of. */
module MdnsStore {
  import opened Options
  import opened Durations

  const BURST_WINDOW: int := 5 * SECOND
  const MAX_HOSTS: nat := 4096
  const MAX_TTL: nat := 4500
  const STALE_SERVE_TTL: nat := 30
  const TRUSTED_TTL: nat := 120

  type Host = string
  type Addr = nat

  predicate Is6(a: Addr) {
    a >= 0x1_0000_0000
  }

  datatype Entry = Entry(addrs: set<Addr>, freshUntil: int, expiry: int, lastSeen: int, notified: seq<Addr>)

  datatype Allocation = Allocation(addrs: set<Addr>, seen: int)

  datatype Store = Store(hosts: map<Host, Entry>, trusted: map<Host, Allocation>)

  datatype Params = Params(staleGrace: int, goodbyeGrace: int, trustedGrace: int, maxTrusted: int)

  datatype Announcement = Announcement(host: Host, addrs: seq<Addr>, ttl: nat)

  datatype Trust = TrustNone | TrustWeak | TrustStrong

  // ---- sorted address lists ----

  /** The list holds exactly these addresses, each once, smallest first. */
  ghost predicate Ascending(s: seq<Addr>, all: set<Addr>) {
    if s == [] then all == {}
    else s[0] in all && (forall a :: a in all ==> s[0] <= a) && Ascending(s[1..], all - {s[0]})
  }

  lemma {:induction false} HasLeast(s: set<Addr>) returns (x: Addr)
    requires s != {}
    ensures x in s && forall a :: a in s ==> x <= a
  {
    x :| x in s;
    var rest := s - {x};
    if rest != {} {
      var y := HasLeast(rest);
      assert forall a :: a in s ==> a == x || a in rest;
      if y < x { x := y; }
    } else {
      assert forall a :: a in s ==> a == x || a in rest;
    }
  }

  ghost function Least(s: set<Addr>): (x: Addr)
    requires s != {}
    ensures x in s && forall a :: a in s ==> x <= a
  {
    assert exists x :: x in s && forall a :: a in s ==> x <= a by { var x := HasLeast(s); }
    var x :| x in s && forall a :: a in s ==> x <= a;
    x
  }

  ghost function Listed(all: set<Addr>): (s: seq<Addr>)
    ensures Ascending(s, all)
  {
    if all == {} then []
    else
      var rest := Listed(all - {Least(all)});
      assert ([Least(all)] + rest)[1..] == rest;
      [Least(all)] + rest
  }

  lemma {:induction false} AscendingUnique(s: seq<Addr>, t: seq<Addr>, all: set<Addr>)
    requires Ascending(s, all) && Ascending(t, all)
    ensures s == t
  {
    if s != [] {
      AscendingUnique(s[1..], t[1..], all - {s[0]});
      assert s == [s[0]] + s[1..] && t == [t[0]] + t[1..];
    }
  }

  lemma {:induction false} AscendingHolds(s: seq<Addr>, all: set<Addr>)
    requires Ascending(s, all)
    ensures |s| == |all| && forall a :: a in s <==> a in all
  {
    if s != [] {
      AscendingHolds(s[1..], all - {s[0]});
      assert s == [s[0]] + s[1..];
    }
  }

  /** Two sets have the same list only if they are the same. */
  lemma ListedInjective(a: set<Addr>, b: set<Addr>)
    requires Listed(a) == Listed(b)
    ensures a == b
  {
    AscendingHolds(Listed(a), a);
    AscendingHolds(Listed(b), b);
  }

  function InsertAddr(x: Addr, s: seq<Addr>): (r: seq<Addr>) {
    if s == [] || x < s[0] then [x] + s else [s[0]] + InsertAddr(x, s[1..])
  }

  lemma {:induction false} InsertAscending(x: Addr, s: seq<Addr>, all: set<Addr>)
    requires Ascending(s, all) && x !in all
    ensures Ascending(InsertAddr(x, s), all + {x})
  {
    var r := InsertAddr(x, s);
    if s == [] || x < s[0] {
      assert r[1..] == s && all + {x} - {x} == all;
    } else {
      InsertAscending(x, s[1..], all - {s[0]});
      assert r[1..] == InsertAddr(x, s[1..]);
      assert all + {x} - {s[0]} == all - {s[0]} + {x};
    }
  }

  /** Collecting a set in any order and sorting it. */
  method SortAddrs(all: set<Addr>) returns (s: seq<Addr>)
    ensures s == Listed(all)
  {
    s := [];
    var rest := all;
    while rest != {}
      invariant rest <= all && Ascending(s, all - rest)
      decreases rest
    {
      var a :| a in rest;
      InsertAscending(a, s, all - rest);
      assert all - rest + {a} == all - (rest - {a});
      s := InsertAddr(a, s);
      rest := rest - {a};
    }
    assert all - rest == all;
    AscendingUnique(s, Listed(all), all);
  }

  // ---- announcements ----

  function AddrSet(s: seq<Addr>): (r: set<Addr>) {
    set a | a in s
  }

  predicate Goodbye(p: Params, ttl: nat) {
    ttl == 0 && p.goodbyeGrace > 0
  }

  /** The lifetime an announcement is granted, in seconds. */
  function Granted(p: Params, ttl: nat): (t: nat)
    ensures t <= MAX_TTL
  {
    if ttl == 0 && !Goodbye(p, ttl) then 120 else if ttl > MAX_TTL then MAX_TTL else ttl
  }

  /** An announcement soon after the last adds to the set; a later one replaces it. */
  function Joined(had: set<Addr>, last: int, addrs: seq<Addr>, now: int): (r: set<Addr>) {
    (if now - last > BURST_WINDOW then {} else had) + AddrSet(addrs)
  }

  ghost function Refreshed(p: Params, e: Option<Entry>, a: Announcement, now: int): (r: Entry) {
    var addrs := if e.None? then AddrSet(a.addrs) else Joined(e.value.addrs, e.value.lastSeen, a.addrs, now);
    var until := if Goodbye(p, a.ttl) then now else now + Granted(p, a.ttl) * SECOND;
    var expiry := if Goodbye(p, a.ttl) then now + p.goodbyeGrace else until + p.staleGrace;
    Entry(addrs, until, expiry, now, Listed(addrs))
  }

  function Get<T>(m: map<Host, T>, h: Host): (r: Option<T>) {
    if h in m then Some(m[h]) else None
  }

  /** The volatile store after an announcement; v is the host evicted if one must be. */
  ghost function HostsAfter(p: Params, hosts: map<Host, Entry>, a: Announcement, now: int,
                            v: Host): (r: map<Host, Entry>) {
    var room := if a.host !in hosts && |hosts| >= MAX_HOSTS then hosts - {v} else hosts;
    room[a.host := Refreshed(p, Get(hosts, a.host), a, now)]
  }

  /** diffLocked: the sorted set is not the one last notified. */
  ghost predicate Notifies(p: Params, hosts: map<Host, Entry>, a: Announcement, now: int) {
    Refreshed(p, Get(hosts, a.host), a, now).notified != (if a.host in hosts then hosts[a.host].notified else [])
  }

  function Reallocated(t: Option<Allocation>, a: Announcement, now: int): (r: Allocation) {
    Allocation(if t.None? then AddrSet(a.addrs) else Joined(t.value.addrs, t.value.seen, a.addrs, now), now)
  }

  predicate TrustedFull(p: Params, trusted: map<Host, Allocation>) {
    p.maxTrusted > 0 && |trusted| >= p.maxTrusted
  }

  /** applyTrustedLocked; tv is the host evicted if one must be. */
  function TrustedAfter(p: Params, trusted: map<Host, Allocation>, a: Announcement, now: int,
                        tv: Host): (r: map<Host, Allocation>) {
    if a.ttl == 0 then trusted - {a.host}
    else
      var room := if a.host !in trusted && TrustedFull(p, trusted) then trusted - {tv} else trusted;
      room[a.host := Reallocated(Get(trusted, a.host), a, now)]
  }

  ghost predicate Reallocates(trusted: map<Host, Allocation>, a: Announcement, now: int) {
    if a.ttl == 0 then a.host in trusted
    else
      var held := if a.host in trusted then Listed(trusted[a.host].addrs) else [];
      Listed(Reallocated(Get(trusted, a.host), a, now).addrs) != held
  }

  predicate Empty(a: Announcement) {
    a.host == "" || a.addrs == []
  }

  /** Apply: the new store. */
  ghost function Announced(p: Params, s: Store, a: Announcement, now: int, trust: Trust, v: Host,
                           tv: Host): (r: Store) {
    if Empty(a) then s
    else Store(HostsAfter(p, s.hosts, a, now, v),
               if trust.TrustStrong? then TrustedAfter(p, s.trusted, a, now, tv) else s.trusted)
  }

  /** Apply: what it returns. */
  ghost predicate Reports(p: Params, s: Store, a: Announcement, now: int, trust: Trust) {
    !Empty(a) && (Notifies(p, s.hosts, a, now) || (trust.TrustStrong? && Reallocates(s.trusted, a, now)))
  }

  /** The host last seen longest ago. */
  ghost predicate OldestHost(hosts: map<Host, Entry>, v: Host) {
    v in hosts && forall h :: h in hosts ==> hosts[v].lastSeen <= hosts[h].lastSeen
  }

  ghost predicate OldestTrusted(trusted: map<Host, Allocation>, v: Host) {
    v in trusted && forall h :: h in trusted ==> trusted[v].seen <= trusted[h].seen
  }

  /** The evictions, where there are any, are of the longest unseen. */
  ghost predicate Chosen(p: Params, s: Store, a: Announcement, trust: Trust, v: Host, tv: Host) {
    && (!Empty(a) && a.host !in s.hosts && |s.hosts| >= MAX_HOSTS ==> OldestHost(s.hosts, v))
    && (!Empty(a) && trust.TrustStrong? && a.ttl != 0 && a.host !in s.trusted && TrustedFull(p, s.trusted)
        ==> OldestTrusted(s.trusted, tv))
  }

  // ---- expiry ----

  function HostsKept(hosts: map<Host, Entry>, now: int): (r: map<Host, Entry>) {
    map h | h in hosts && now <= hosts[h].expiry :: hosts[h]
  }

  predicate Lapsed(p: Params, t: Allocation, now: int) {
    p.trustedGrace > 0 && now - t.seen > p.trustedGrace
  }

  function TrustedKept(p: Params, trusted: map<Host, Allocation>, now: int): (r: map<Host, Allocation>) {
    map h | h in trusted && !Lapsed(p, trusted[h], now) :: trusted[h]
  }

  /** Expire. */
  function Expired(p: Params, s: Store, now: int): (r: Store) {
    Store(HostsKept(s.hosts, now), TrustedKept(p, s.trusted, now))
  }

  // ---- the view ----

  /** An address record under a host; its type is its family's. */
  datatype ViewRR = ViewRR(addr: Addr, ttl: nat, trusted: bool)

  /** A reverse record: the target is the host under .local. */
  datatype Ptr = Ptr(target: string, ttl: nat)

  datatype View = View(forward: map<Host, seq<ViewRR>>, reverse: map<Addr, seq<Ptr>>)

  /** ttlUntil. */
  function TtlUntil(until: int, now: int): (t: nat) {
    if until - now < SECOND then 1 else (until - now) / SECOND
  }

  /** The TTL of a volatile address: what is left of its lifetime, or a short one once it is stale. */
  function VolatileTtl(e: Entry, now: int): (t: nat) {
    if now > e.freshUntil then
      (if TtlUntil(e.expiry, now) < STALE_SERVE_TTL then TtlUntil(e.expiry, now) else STALE_SERVE_TTL)
    else TtlUntil(e.freshUntil, now)
  }

  /** trustedAddrsLocked. */
  function Live(p: Params, trusted: map<Host, Allocation>, h: Host, now: int): (r: set<Addr>) {
    if h in trusted && !Lapsed(p, trusted[h], now) then trusted[h].addrs else {}
  }

  function Unexpired(hosts: map<Host, Entry>, h: Host, now: int): (r: set<Addr>) {
    if h in hosts && now <= hosts[h].expiry then hosts[h].addrs else {}
  }

  function Marked(s: seq<Addr>, ttl: nat, trusted: bool): (r: seq<ViewRR>)
    ensures |r| == |s| && forall i :: 0 <= i < |s| ==> r[i] == ViewRR(s[i], ttl, trusted)
  {
    seq(|s|, i requires 0 <= i < |s| => ViewRR(s[i], ttl, trusted))
  }

  /** The records of a host: live trusted addresses, then the other unexpired ones, each sorted. */
  ghost function Records(p: Params, s: Store, h: Host, now: int): (r: seq<ViewRR>) {
    var live := Live(p, s.trusted, h, now);
    Marked(Listed(live), TRUSTED_TTL, true)
    + (if h in s.hosts then Marked(Listed(Unexpired(s.hosts, h, now) - live), VolatileTtl(s.hosts[h], now), false)
      else [])
  }

  /** The host under .local. */
  function Local(h: Host): (t: string) {
    h + ".local."
  }

  lemma LocalInjective(g: Host, h: Host)
    requires Local(g) == Local(h)
    ensures g == h
  {
    assert |g| == |h|;
    assert Local(g)[..|g|] == g && Local(h)[..|h|] == h;
  }

  function At(rev: map<Addr, seq<Ptr>>, a: Addr): (r: seq<Ptr>) {
    if a in rev then rev[a] else []
  }

  /** The TTL of an address among records. */
  function TtlOf(recs: seq<ViewRR>, a: Addr): (t: Option<nat>) {
    if recs == [] then None
    else
      var n := |recs| - 1;
      if recs[n].addr == a then Some(recs[n].ttl) else TtlOf(recs[..n], a)
  }

  /** The host's reverse records, after those there are. */
  ghost predicate Appended(before: map<Addr, seq<Ptr>>, after: map<Addr, seq<Ptr>>, h: Host, recs: seq<ViewRR>) {
    forall a :: At(after, a)
      == At(before, a) + (if TtlOf(recs, a).Some? then [Ptr(Local(h), TtlOf(recs, a).value)] else [])
  }

  ghost predicate DistinctAddrs(recs: seq<ViewRR>) {
    forall i, j :: 0 <= i < j < |recs| ==> recs[i].addr != recs[j].addr
  }

  /** The hosts named by either store. */
  function Known(s: Store): (r: set<Host>) {
    s.hosts.Keys + s.trusted.Keys
  }

  /** The host gives the address this reverse record. */
  ghost predicate Claims(p: Params, s: Store, h: Host, a: Addr, now: int, ptr: Ptr) {
    ptr.target == Local(h) && TtlOf(Records(p, s, h, now), a) == Some(ptr.ttl)
  }

  /** The list names each of these hosts that has the address, once, and no other. */
  ghost predicate Enumerates(p: Params, s: Store, hosts: set<Host>, a: Addr, now: int, list: seq<Ptr>) {
    && (forall i, j :: 0 <= i < j < |list| ==> list[i].target != list[j].target)
    && (forall ptr :: ptr in list ==> exists h :: h in hosts && Claims(p, s, h, a, now, ptr))
    && (forall h, ptr :: h in hosts && Claims(p, s, h, a, now, ptr) ==> ptr in list)
  }

  ghost predicate ForwardExact(p: Params, s: Store, hosts: set<Host>, now: int, forward: map<Host, seq<ViewRR>>) {
    && (forall h :: h in forward ==> h in hosts && forward[h] != [] && forward[h] == Records(p, s, h, now))
    && (forall h :: h in hosts && Records(p, s, h, now) != [] ==> h in forward)
  }

  /** A view of the store: which order the hosts were visited in shows only in the reverse lists. */
  ghost predicate ViewOf(p: Params, s: Store, now: int, v: View) {
    ForwardExact(p, s, Known(s), now, v.forward) && forall a :: Enumerates(p, s, Known(s), a, now, At(v.reverse, a))
  }

  // ---- the code ----

  class Cache {
    const p: Params
    var hosts: map<Host, Entry>
    var trusted: map<Host, Allocation>

    ghost function Contents(): (s: Store)
      reads this
    {
      Store(hosts, trusted)
    }

    /** No host is nameless. */
    ghost predicate Valid()
      reads this
    {
      "" !in hosts && "" !in trusted
    }

    constructor (p: Params)
      ensures this.p == p && Valid() && Contents() == Store(map[], map[])
    {
      this.p, hosts, trusted := p, map[], map[];
    }

    /** evictOldestLocked. */
    method EvictOldest() returns (victim: Host)
      requires Valid() && hosts != map[]
      modifies this`hosts
      ensures OldestHost(old(hosts), victim) && hosts == old(hosts) - {victim}
    {
      victim := "";
      var oldest := 0;
      var rest := hosts.Keys;
      while rest != {}
        invariant rest <= hosts.Keys && hosts == old(hosts)
        invariant victim == "" ==> rest == hosts.Keys
        invariant victim != "" ==>
          victim in hosts && oldest == hosts[victim].lastSeen
          && forall h :: h in hosts && h !in rest ==> oldest <= hosts[h].lastSeen
        decreases rest
      {
        var h :| h in rest;
        rest := rest - {h};
        if victim == "" || hosts[h].lastSeen < oldest { victim, oldest := h, hosts[h].lastSeen; }
      }
      if victim != "" { hosts := hosts - {victim}; }
    }

    /** evictOldestTrustedLocked. */
    method EvictOldestTrusted() returns (victim: Host)
      requires Valid() && trusted != map[]
      modifies this`trusted
      ensures OldestTrusted(old(trusted), victim) && trusted == old(trusted) - {victim}
    {
      victim := "";
      var oldest := 0;
      var rest := trusted.Keys;
      while rest != {}
        invariant rest <= trusted.Keys && trusted == old(trusted)
        invariant victim == "" ==> rest == trusted.Keys
        invariant victim != "" ==>
          victim in trusted && oldest == trusted[victim].seen
          && forall h :: h in trusted && h !in rest ==> oldest <= trusted[h].seen
        decreases rest
      {
        var h :| h in rest;
        rest := rest - {h};
        if victim == "" || trusted[h].seen < oldest { victim, oldest := h, trusted[h].seen; }
      }
      if victim != "" { trusted := trusted - {victim}; }
    }

    /** The loop that adds the announced addresses to a set. */
    method Add(had: set<Addr>, addrs: seq<Addr>) returns (r: set<Addr>)
      ensures r == had + AddrSet(addrs)
    {
      r := had;
      for i := 0 to |addrs|
        invariant r == had + AddrSet(addrs[..i])
      {
        assert addrs[..i+1] == addrs[..i] + [addrs[i]];
        r := r + {addrs[i]};
      }
      assert addrs[..|addrs|] == addrs;
    }

    /** The entry an announcement makes of the host's, and diffLocked. */
    method Update(was: Option<Entry>, a: Announcement, now: int) returns (e: Entry, changed: bool)
      ensures e == Refreshed(p, was, a, now)
      ensures changed == (e.notified != if was.Some? then was.value.notified else [])
    {
      var goodbye := a.ttl == 0 && p.goodbyeGrace > 0;
      var ttl := a.ttl;
      if ttl == 0 && !goodbye { ttl := 120; }
      if ttl > MAX_TTL { ttl := MAX_TTL; }
      e := if was.Some? then was.value else Entry({}, 0, 0, 0, []);
      if was.Some? && now - e.lastSeen > BURST_WINDOW { e := e.(addrs := {}); }
      var addrs := Add(e.addrs, a.addrs);
      assert addrs == Refreshed(p, was, a, now).addrs;
      e := e.(addrs := addrs, lastSeen := now);
      if goodbye {
        e := e.(freshUntil := now, expiry := now + p.goodbyeGrace);
      } else {
        e := e.(freshUntil := now + ttl * SECOND, expiry := now + ttl * SECOND + p.staleGrace);
      }
      var key := SortAddrs(e.addrs);
      changed := key != e.notified;
      e := e.(notified := key);
    }

    /** The volatile half of Apply. */
    method ApplyVolatile(a: Announcement, now: int) returns (changed: bool, ghost v: Host)
      requires Valid() && !Empty(a)
      modifies this`hosts
      ensures Valid() && hosts == HostsAfter(p, old(hosts), a, now, v)
      ensures a.host !in old(hosts) && |old(hosts)| >= MAX_HOSTS ==> OldestHost(old(hosts), v)
      ensures changed == Notifies(p, old(hosts), a, now)
    {
      v := "";
      var before := Get(hosts, a.host);
      if before.None? && |hosts| >= MAX_HOSTS { v := EvictOldest(); }
      var e: Entry;
      e, changed := Update(before, a, now);
      hosts := hosts[a.host := e];
    }

    /** applyTrustedLocked. */
    method ApplyTrusted(a: Announcement, now: int) returns (changed: bool, ghost tv: Host)
      requires Valid() && !Empty(a)
      modifies this`trusted
      ensures Valid() && trusted == TrustedAfter(p, old(trusted), a, now, tv)
      ensures a.ttl != 0 && a.host !in old(trusted) && TrustedFull(p, old(trusted)) ==> OldestTrusted(old(trusted), tv)
      ensures changed == Reallocates(old(trusted), a, now)
    {
      tv := "";
      if a.ttl == 0 {
        changed := a.host in trusted;
        trusted := trusted - {a.host};
        return;
      }
      var before := Get(trusted, a.host);
      if before.None? && p.maxTrusted > 0 && |trusted| >= p.maxTrusted { tv := EvictOldestTrusted(); }
      var t: Allocation;
      t, changed := Reallocate(before, a, now);
      trusted := trusted[a.host := t];
    }

    /** The allocation a strong announcement makes of the host's, and whether its signature changed. */
    method Reallocate(was: Option<Allocation>, a: Announcement, now: int) returns (t: Allocation, changed: bool)
      ensures t == Reallocated(was, a, now)
      ensures changed == (Listed(t.addrs) != if was.Some? then Listed(was.value.addrs) else [])
    {
      var before: seq<Addr> := [];
      var had := {};
      if was.Some? {
        before := SortAddrs(was.value.addrs);
        if now - was.value.seen <= BURST_WINDOW { had := was.value.addrs; }
      }
      had := Add(had, a.addrs);
      var after := SortAddrs(had);
      t, changed := Allocation(had, now), after != before;
    }

    method Apply(a: Announcement, now: int, trust: Trust) returns (changed: bool, ghost v: Host, ghost tv: Host)
      requires Valid()
      modifies this
      ensures Valid() && Chosen(p, old(Contents()), a, trust, v, tv)
      ensures Contents() == Announced(p, old(Contents()), a, now, trust, v, tv)
      ensures changed == Reports(p, old(Contents()), a, now, trust)
    {
      v, tv := "", "";
      if a.host == "" || |a.addrs| == 0 { return false, v, tv; }
      changed, v := ApplyVolatile(a, now);
      if trust.TrustStrong? {
        var more: bool;
        more, tv := ApplyTrusted(a, now);
        if more { changed := true; }
      }
    }

    /** expireTrustedLocked. */
    method ExpireTrusted(now: int)
      requires Valid()
      modifies this`trusted
      ensures Valid() && trusted == TrustedKept(p, old(trusted), now)
    {
      if p.trustedGrace <= 0 { return; }
      var rest := trusted.Keys;
      while rest != {}
        invariant rest <= old(trusted).Keys
        invariant trusted == map h | h in old(trusted) && (h in rest || !Lapsed(p, old(trusted)[h], now)) ::
          old(trusted)[h]
        decreases rest
      {
        var h :| h in rest;
        rest := rest - {h};
        if now - trusted[h].seen > p.trustedGrace { trusted := trusted - {h}; }
      }
    }

    method Expire(now: int) returns (removed: nat)
      requires Valid()
      modifies this
      ensures Valid() && Contents() == Expired(p, old(Contents()), now)
      ensures removed == |old(hosts)| - |hosts|
    {
      var gone := {};
      var rest := hosts.Keys;
      while rest != {}
        invariant rest <= hosts.Keys && hosts == old(hosts)
        invariant gone == set h | h in hosts && h !in rest && now > hosts[h].expiry
        decreases rest
      {
        var h :| h in rest;
        rest := rest - {h};
        if now > hosts[h].expiry { gone := gone + {h}; }
      }
      removed := |gone|;
      assert hosts.Keys == (hosts.Keys - gone) + gone;
      hosts := hosts - gone;
      assert hosts == HostsKept(old(hosts), now);
      ExpireTrusted(now);
    }

    method BuildView(now: int) returns (v: View)
      ensures ViewOf(p, Contents(), now, v)
    {
      var rest := hosts.Keys + trusted.Keys;
      v := View(map[], map[]);
      ghost var done: set<Host> := {};
      while rest != {}
        invariant done !! rest && done + rest == Known(Contents())
        invariant ForwardExact(p, Contents(), done, now, v.forward)
        invariant forall a :: Enumerates(p, Contents(), done, a, now, At(v.reverse, a))
        decreases rest
      {
        var h :| h in rest;
        rest := rest - {h};
        var recs := EmitHost(h, now);
        RecordsCover(p, Contents(), h, now);
        if recs != [] { v := v.(forward := v.forward[h := recs]); }
        ghost var before := v.reverse;
        var rev := EmitReverse(v.reverse, h, recs);
        v := v.(reverse := rev);
        forall a ensures Enumerates(p, Contents(), done + {h}, a, now, At(rev, a)) {
          EnumeratesMore(p, Contents(), done, h, a, now, At(before, a), At(rev, a));
        }
        done := done + {h};
      }
      assert done == Known(Contents());
    }

    method EmitReverse(rev: map<Addr, seq<Ptr>>, h: Host, recs: seq<ViewRR>) returns (r: map<Addr, seq<Ptr>>)
      requires DistinctAddrs(recs)
      ensures Appended(rev, r, h, recs)
    {
      r := rev;
      for i := 0 to |recs|
        invariant Appended(rev, r, h, recs[..i])
      {
        assert recs[..i+1][..i] == recs[..i];
        TtlOfNone(recs[..i], recs[i].addr);
        r := r[recs[i].addr := At(r, recs[i].addr) + [Ptr(Local(h), recs[i].ttl)]];
      }
      assert recs[..|recs|] == recs;
    }

    /** The records View emits for one host. */
    method EmitHost(h: Host, now: int) returns (r: seq<ViewRR>)
      ensures r == Records(p, Contents(), h, now)
    {
      r := [];
      var live := Live(p, trusted, h, now);
      var list := SortAddrs(live);
      for i := 0 to |list|
        invariant r == Marked(list[..i], TRUSTED_TTL, true)
      {
        r := r + [ViewRR(list[i], TRUSTED_TTL, true)];
      }
      assert list[..|list|] == list;
      if h !in hosts || now > hosts[h].expiry {
        assert h in hosts ==> Listed(Unexpired(hosts, h, now) - live) == [];
        return;
      }
      var more := EmitVolatile(hosts[h], live, now);
      r := r + more;
    }

    /** The volatile addresses that are not served as trusted. */
    method EmitVolatile(e: Entry, live: set<Addr>, now: int) returns (r: seq<ViewRR>)
      ensures r == Marked(Listed(e.addrs - live), VolatileTtl(e, now), false)
    {
      var ttl := TtlUntil(e.freshUntil, now);
      if now > e.freshUntil {
        ttl := TtlUntil(e.expiry, now);
        if ttl >= STALE_SERVE_TTL { ttl := STALE_SERVE_TTL; }
      }
      var list := SortAddrs(e.addrs);
      r := [];
      ghost var kept: seq<Addr> := [];
      for i := 0 to |list|
        invariant kept == Kept(list[..i], live) && r == Marked(kept, ttl, false)
      {
        assert list[..i+1][..i] == list[..i];
        if list[i] !in live {
          kept := kept + [list[i]];
          r := r + [ViewRR(list[i], ttl, false)];
        }
      }
      assert list[..|list|] == list;
      KeptAscending(list, e.addrs, live);
      AscendingUnique(kept, Listed(e.addrs - live), e.addrs - live);
    }
  }

  /** The addresses of a list outside a set, in their order. */
  function Kept(s: seq<Addr>, skip: set<Addr>): (r: seq<Addr>) {
    if s == [] then []
    else
      var n := |s| - 1;
      if s[n] in skip then Kept(s[..n], skip) else Kept(s[..n], skip) + [s[n]]
  }

  /** Kept, from the front. */
  lemma {:induction false} KeptCons(s: seq<Addr>, skip: set<Addr>)
    requires s != []
    ensures Kept(s, skip) == (if s[0] in skip then [] else [s[0]]) + Kept(s[1..], skip)
  {
    var n := |s| - 1;
    if n > 0 {
      KeptCons(s[..n], skip);
      assert s[..n][1..] == s[1..][..n-1];
    } else {
      assert s[..n] == [] && s[1..] == [];
    }
  }

  lemma {:induction false} KeptAscending(s: seq<Addr>, all: set<Addr>, skip: set<Addr>)
    requires Ascending(s, all)
    ensures Ascending(Kept(s, skip), all - skip)
  {
    if s == [] {
      assert all - skip == {};
    } else {
      KeptCons(s, skip);
      KeptAscending(s[1..], all - {s[0]}, skip);
      if s[0] in skip {
        assert all - {s[0]} - skip == all - skip;
        assert Kept(s, skip) == Kept(s[1..], skip);
      } else {
        assert all - {s[0]} - skip == all - skip - {s[0]};
        assert Kept(s, skip)[1..] == Kept(s[1..], skip);
      }
    }
  }

  lemma {:induction false} TtlOfNone(recs: seq<ViewRR>, a: Addr)
    requires forall i :: 0 <= i < |recs| ==> recs[i].addr != a
    ensures TtlOf(recs, a) == None
  {
    if recs != [] { TtlOfNone(recs[..|recs|-1], a); }
  }

  lemma {:induction false} AscendingDistinct(s: seq<Addr>, all: set<Addr>)
    requires Ascending(s, all)
    ensures forall i, j :: 0 <= i < j < |s| ==> s[i] != s[j]
  {
    if s != [] {
      AscendingDistinct(s[1..], all - {s[0]});
      AscendingHolds(s[1..], all - {s[0]});
      forall i, j | 0 <= i < j < |s| ensures s[i] != s[j] {
        assert s[j] == s[1..][j-1];
        if i > 0 { assert s[i] == s[1..][i-1]; }
      }
    }
  }

  /** The records are of exactly these addresses, each once. */
  ghost predicate Covers(recs: seq<ViewRR>, all: set<Addr>) {
    && DistinctAddrs(recs)
    && (forall i :: 0 <= i < |recs| ==> recs[i].addr in all)
    && forall a :: a in all ==> exists i :: 0 <= i < |recs| && recs[i].addr == a
  }

  lemma MarkedOf(s: seq<Addr>, all: set<Addr>, ttl: nat, trusted: bool)
    requires forall i, j :: 0 <= i < j < |s| ==> s[i] != s[j]
    requires forall a :: a in s <==> a in all
    ensures Covers(Marked(s, ttl, trusted), all)
  {
    var r := Marked(s, ttl, trusted);
    forall a | a in all ensures exists i :: 0 <= i < |r| && r[i].addr == a {
      var i :| 0 <= i < |s| && s[i] == a;
      assert r[i].addr == a;
    }
  }

  lemma MarkedCovers(all: set<Addr>, ttl: nat, trusted: bool)
    ensures Covers(Marked(Listed(all), ttl, trusted), all)
  {
    var s := Listed(all);
    AscendingDistinct(s, all);
    AscendingHolds(s, all);
    MarkedOf(s, all, ttl, trusted);
  }

  lemma CoversBoth(a: seq<ViewRR>, b: seq<ViewRR>, x: set<Addr>, y: set<Addr>)
    requires Covers(a, x) && Covers(b, y) && x !! y
    ensures Covers(a + b, x + y)
  {
    var r := a + b;
    forall i, j | 0 <= i < j < |r| ensures r[i].addr != r[j].addr {
      if i < |a| <= j { assert r[i].addr in x && r[j].addr in y; }
    }
    forall k | k in x + y ensures exists i :: 0 <= i < |r| && r[i].addr == k {
      if k in x {
        var i :| 0 <= i < |a| && a[i].addr == k;
        assert r[i].addr == k;
      } else {
        var i :| 0 <= i < |b| && b[i].addr == k;
        assert r[|a| + i].addr == k;
      }
    }
  }

  /** A host's records cover its live trusted and its unexpired addresses, each once. */
  lemma RecordsCover(p: Params, s: Store, h: Host, now: int)
    ensures Covers(Records(p, s, h, now), Live(p, s.trusted, h, now) + Unexpired(s.hosts, h, now))
  {
    var live := Live(p, s.trusted, h, now);
    var more := Unexpired(s.hosts, h, now) - live;
    MarkedCovers(live, TRUSTED_TTL, true);
    assert live + more == live + Unexpired(s.hosts, h, now);
    if h in s.hosts {
      var ttl := VolatileTtl(s.hosts[h], now);
      MarkedCovers(more, ttl, false);
      CoversBoth(Marked(Listed(live), TRUSTED_TTL, true), Marked(Listed(more), ttl, false), live, more);
    } else {
      assert Records(p, s, h, now) == Marked(Listed(live), TRUSTED_TTL, true);
    }
  }

  lemma EnumeratesMore(p: Params, s: Store, done: set<Host>, h: Host, a: Addr, now: int, before: seq<Ptr>,
                       after: seq<Ptr>)
    requires Enumerates(p, s, done, a, now, before) && h !in done
    requires var t := TtlOf(Records(p, s, h, now), a);
      after == before + (if t.Some? then [Ptr(Local(h), t.value)] else [])
    ensures Enumerates(p, s, done + {h}, a, now, after)
  {
    forall ptr | ptr in before ensures ptr.target != Local(h) {
      var g :| g in done && Claims(p, s, g, a, now, ptr);
      if Local(g) == Local(h) { LocalInjective(g, h); }
    }
    forall ptr | ptr in after ensures exists g :: g in done + {h} && Claims(p, s, g, a, now, ptr) {
      if ptr in before {
        var g :| g in done && Claims(p, s, g, a, now, ptr);
      } else {
        assert Claims(p, s, h, a, now, ptr);
      }
    }
  }
}
