/** What every run of announcements and expiries keeps (internal/mdns/cache.go, internal/mdns/trust.go). */
module MdnsRuns {
  import opened Options
  import opened MdnsStore
  import opened Durations
  import opened Sets

  /** An announcement, with the hosts evicted if any must be, or an expiry sweep. */
  datatype Event =
    | Announce(a: Announcement, now: int, trust: Trust, v: Host, tv: Host)
    | Sweep(now: int)

  ghost function Next(p: Params, s: Store, e: Event): (r: Store) {
    match e
    case Announce(a, now, trust, v, tv) => Announced(p, s, a, now, trust, v, tv)
    case Sweep(now) => Expired(p, s, now)
  }

  ghost function Run(p: Params, es: seq<Event>): (s: Store) {
    if es == [] then Store(map[], map[]) else Next(p, Run(p, es[..|es|-1]), es[|es|-1])
  }

  // ---- noninterference ----

  predicate Strong(e: Event) {
    e.Sweep? || e.trust.TrustStrong?
  }

  /** What the trusted store may see of an event: not the volatile eviction. */
  function Shown(e: Event): (r: Event) {
    if e.Announce? then e.(v := "") else e
  }

  /** The run without the announcements that are not strong. */
  function StrongOnly(es: seq<Event>): (r: seq<Event>) {
    if es == [] then []
    else
      var init := StrongOnly(es[..|es|-1]);
      if Strong(es[|es|-1]) then init + [Shown(es[|es|-1])] else init
  }

  /** The trusted store of a run is that of the run with every other announcement deleted. */
  lemma {:induction false} TrustedIsStrongOnly(p: Params, es: seq<Event>)
    ensures Run(p, es).trusted == Run(p, StrongOnly(es)).trusted
  {
    if es != [] {
      var init, last := es[..|es|-1], es[|es|-1];
      TrustedIsStrongOnly(p, init);
      if Strong(last) {
        assert StrongOnly(es)[..|StrongOnly(init)|] == StrongOnly(init);
        assert Next(p, Run(p, init), last).trusted == Next(p, Run(p, StrongOnly(init)), Shown(last)).trusted;
      }
    }
  }

  /** Runs that differ only in announcements that are not strong end with the same trusted store. */
  lemma Noninterference(p: Params, es: seq<Event>, fs: seq<Event>)
    requires StrongOnly(es) == StrongOnly(fs)
    ensures Run(p, es).trusted == Run(p, fs).trusted
  {
    TrustedIsStrongOnly(p, es);
    TrustedIsStrongOnly(p, fs);
  }

  /** Inserting such an announcement anywhere is such a difference. */
  lemma {:induction false} InsertedUnseen(es: seq<Event>, i: nat, e: Event)
    requires i <= |es| && !Strong(e)
    ensures StrongOnly(es[..i] + [e] + es[i..]) == StrongOnly(es)
  {
    var fs := es[..i] + [e] + es[i..];
    if i == |es| {
      assert fs[..|fs|-1] == es;
    } else {
      var n := |es| - 1;
      InsertedUnseen(es[..n], i, e);
      assert fs[..|fs|-1] == es[..n][..i] + [e] + es[..n][i..];
    }
  }

  // ---- invariants ----

  ghost predicate Legal(p: Params, s: Store, e: Event) {
    e.Announce? ==> Chosen(p, s, e.a, e.trust, e.v, e.tv)
  }

  /** Evictions are of the longest unseen, and the clock, now at now, never ran backwards. */
  ghost predicate LegalRun(p: Params, es: seq<Event>, now: int) {
    es != [] ==>
      && es[|es|-1].now <= now
      && Legal(p, Run(p, es[..|es|-1]), es[|es|-1])
      && LegalRun(p, es[..|es|-1], es[|es|-1].now)
  }

  ghost predicate EntryKept(e: Entry, now: int) {
    e.addrs != {} && e.notified == Listed(e.addrs) && e.lastSeen <= now && e.freshUntil - e.lastSeen <= MAX_TTL * SECOND
  }

  ghost predicate HostsOk(hosts: map<Host, Entry>, now: int) {
    |hosts| <= MAX_HOSTS && "" !in hosts && forall h :: h in hosts ==> EntryKept(hosts[h], now)
  }

  ghost predicate TrustedOk(p: Params, trusted: map<Host, Allocation>) {
    && (p.maxTrusted > 0 ==> |trusted| <= p.maxTrusted)
    && "" !in trusted && forall h :: h in trusted ==> trusted[h].addrs != {}
  }

  lemma RefreshedOk(p: Params, e: Option<Entry>, a: Announcement, now: int)
    requires !Empty(a)
    ensures EntryKept(Refreshed(p, e, a, now), now)
  {
    assert a.addrs[0] in AddrSet(a.addrs);
  }

  /** Admitting a name after evicting one of a full set. */
  lemma Admitted(keys: set<Host>, h: Host, v: Host, cap: nat)
    requires |keys| <= cap && cap >= 1 && (h !in keys && |keys| >= cap ==> v in keys)
    ensures |(if h !in keys && |keys| >= cap then keys - {v} else keys) + {h}| <= cap
  {
    if h in keys { assert keys + {h} == keys; }
  }

  lemma HostsCount(p: Params, hosts: map<Host, Entry>, a: Announcement, now: int, v: Host)
    requires |hosts| <= MAX_HOSTS && (a.host !in hosts && |hosts| >= MAX_HOSTS ==> v in hosts)
    ensures |HostsAfter(p, hosts, a, now, v)| <= MAX_HOSTS
  {
    Admitted(hosts.Keys, a.host, v, MAX_HOSTS);
    var room := if a.host !in hosts && |hosts| >= MAX_HOSTS then hosts.Keys - {v} else hosts.Keys;
    assert HostsAfter(p, hosts, a, now, v).Keys == room + {a.host};
  }

  lemma HostsAfterOk(p: Params, hosts: map<Host, Entry>, a: Announcement, now: int, v: Host)
    requires HostsOk(hosts, now) && !Empty(a)
    requires a.host !in hosts && |hosts| >= MAX_HOSTS ==> OldestHost(hosts, v)
    ensures HostsOk(HostsAfter(p, hosts, a, now, v), now)
  {
    RefreshedOk(p, Get(hosts, a.host), a, now);
    HostsCount(p, hosts, a, now, v);
  }

  lemma TrustedCount(p: Params, trusted: map<Host, Allocation>, a: Announcement, now: int, tv: Host)
    requires 0 < p.maxTrusted && |trusted| <= p.maxTrusted
    requires a.ttl != 0 && a.host !in trusted && TrustedFull(p, trusted) ==> tv in trusted
    ensures |TrustedAfter(p, trusted, a, now, tv)| <= p.maxTrusted
  {
    if a.ttl == 0 {
      SubsetSize((trusted - {a.host}).Keys, trusted.Keys);
    } else {
      Admitted(trusted.Keys, a.host, tv, p.maxTrusted);
      var room := if a.host !in trusted && |trusted| >= p.maxTrusted then trusted.Keys - {tv} else trusted.Keys;
      assert TrustedAfter(p, trusted, a, now, tv).Keys == room + {a.host};
    }
  }

  lemma TrustedAfterOk(p: Params, trusted: map<Host, Allocation>, a: Announcement, now: int, tv: Host)
    requires TrustedOk(p, trusted) && !Empty(a)
    requires a.ttl != 0 && a.host !in trusted && TrustedFull(p, trusted) ==> OldestTrusted(trusted, tv)
    ensures TrustedOk(p, TrustedAfter(p, trusted, a, now, tv))
  {
    assert a.addrs[0] in AddrSet(a.addrs);
    if p.maxTrusted > 0 { TrustedCount(p, trusted, a, now, tv); }
  }

  lemma ExpiredOk(p: Params, s: Store, was: int, now: int)
    requires HostsOk(s.hosts, was) && TrustedOk(p, s.trusted) && was <= now
    ensures HostsOk(Expired(p, s, now).hosts, now) && TrustedOk(p, Expired(p, s, now).trusted)
  {
    SubsetSize(Expired(p, s, now).hosts.Keys, s.hosts.Keys);
    SubsetSize(Expired(p, s, now).trusted.Keys, s.trusted.Keys);
  }

  /** Every run keeps both stores within their bounds, every set non-empty, every signature up to date,
      and every lifetime at most MAX_TTL. */
  lemma {:induction false} RunOk(p: Params, es: seq<Event>, now: int)
    requires LegalRun(p, es, now)
    ensures HostsOk(Run(p, es).hosts, now) && TrustedOk(p, Run(p, es).trusted)
  {
    if es != [] {
      var init, last := es[..|es|-1], es[|es|-1];
      RunOk(p, init, last.now);
      var s := Run(p, init);
      match last
      case Announce(a, at, trust, v, tv) =>
        if !Empty(a) {
          HostsAfterOk(p, s.hosts, a, at, v);
          if trust.TrustStrong? { TrustedAfterOk(p, s.trusted, a, at, tv); }
        }
      case Sweep(at) => ExpiredOk(p, s, at, at);
      Later(Run(p, es).hosts, last.now, now);
    }
  }

  lemma Later(hosts: map<Host, Entry>, was: int, now: int)
    requires HostsOk(hosts, was) && was <= now
    ensures HostsOk(hosts, now)
  {
  }

  // ---- what Apply returns ----

  function VolatileSet(s: Store, h: Host): (r: set<Addr>) {
    if h in s.hosts then s.hosts[h].addrs else {}
  }

  function TrustedSet(s: Store, h: Host): (r: set<Addr>) {
    if h in s.trusted then s.trusted[h].addrs else {}
  }

  lemma SameList(a: set<Addr>, b: set<Addr>)
    ensures Listed(a) == Listed(b) <==> a == b
  {
    if Listed(a) == Listed(b) { ListedInjective(a, b); }
  }

  lemma NotifiesIff(p: Params, hosts: map<Host, Entry>, a: Announcement, now: int, v: Host)
    requires HostsOk(hosts, now) && !Empty(a)
    ensures Notifies(p, hosts, a, now)
      <==> (if a.host in hosts then hosts[a.host].addrs else {}) != HostsAfter(p, hosts, a, now, v)[a.host].addrs
  {
    SameList(if a.host in hosts then hosts[a.host].addrs else {}, Refreshed(p, Get(hosts, a.host), a, now).addrs);
  }

  lemma ReallocatesIff(p: Params, trusted: map<Host, Allocation>, a: Announcement, now: int, tv: Host)
    requires TrustedOk(p, trusted) && !Empty(a)
    ensures var after := Store(map[], TrustedAfter(p, trusted, a, now, tv));
      Reallocates(trusted, a, now) <==> TrustedSet(Store(map[], trusted), a.host) != TrustedSet(after, a.host)
  {
    if a.ttl != 0 {
      SameList(if a.host in trusted then trusted[a.host].addrs else {},
               Reallocated(Get(trusted, a.host), a, now).addrs);
    }
  }

  lemma ReportsIff(p: Params, s: Store, a: Announcement, now: int, trust: Trust, v: Host, tv: Host)
    requires HostsOk(s.hosts, now) && TrustedOk(p, s.trusted) && !Empty(a)
    ensures var t := Announced(p, s, a, now, trust, v, tv);
      Reports(p, s, a, now, trust)
      <==> VolatileSet(s, a.host) != VolatileSet(t, a.host) || TrustedSet(s, a.host) != TrustedSet(t, a.host)
  {
    NotifiesIff(p, s.hosts, a, now, v);
    if trust.TrustStrong? { ReallocatesIff(p, s.trusted, a, now, tv); }
  }

  /** In every run, Apply returns true exactly when the host's volatile or trusted address set changes. */
  lemma ReportsIffChanged(p: Params, es: seq<Event>, a: Announcement, now: int, trust: Trust, v: Host, tv: Host)
    requires LegalRun(p, es, now) && Legal(p, Run(p, es), Announce(a, now, trust, v, tv))
    ensures var s := Run(p, es); var t := Announced(p, s, a, now, trust, v, tv);
      Reports(p, s, a, now, trust)
      <==> VolatileSet(s, a.host) != VolatileSet(t, a.host) || TrustedSet(s, a.host) != TrustedSet(t, a.host)
  {
    RunOk(p, es, now);
    if !Empty(a) { ReportsIff(p, Run(p, es), a, now, trust, v, tv); }
  }

  // ---- what the view serves ----

  lemma VolatileTtlBounds(e: Entry, now: int)
    requires EntryKept(e, now)
    ensures 1 <= VolatileTtl(e, now) <= MAX_TTL
    ensures now > e.freshUntil ==> VolatileTtl(e, now) <= STALE_SERVE_TTL
  {
  }

  ghost predicate ServedRight(p: Params, s: Store, h: Host, now: int, r: ViewRR) {
    if r.addr in Live(p, s.trusted, h, now) then r.trusted && r.ttl == TRUSTED_TTL
    else
      && !r.trusted && 1 <= r.ttl <= MAX_TTL && h in s.hosts
      && (now > s.hosts[h].freshUntil ==> r.ttl <= STALE_SERVE_TTL)
  }

  lemma RecordsServedRight(p: Params, s: Store, h: Host, now: int)
    requires h in s.hosts ==> EntryKept(s.hosts[h], now)
    ensures forall i :: 0 <= i < |Records(p, s, h, now)| ==> ServedRight(p, s, h, now, Records(p, s, h, now)[i])
  {
    var live := Live(p, s.trusted, h, now);
    AscendingHolds(Listed(live), live);
    if h in s.hosts {
      var more := Unexpired(s.hosts, h, now) - live;
      AscendingHolds(Listed(more), more);
      VolatileTtlBounds(s.hosts[h], now);
    }
  }

  /** In every run, a host's records are its live trusted and its other unexpired addresses, each once:
      the trusted ones marked, with TTL 120, the others with a TTL in 1..4500, at most 30 once stale. */
  lemma ViewExact(p: Params, es: seq<Event>, h: Host, now: int)
    requires LegalRun(p, es, now)
    ensures var s := Run(p, es); var recs := Records(p, s, h, now);
      && Covers(recs, Live(p, s.trusted, h, now) + Unexpired(s.hosts, h, now))
      && forall i :: 0 <= i < |recs| ==> ServedRight(p, s, h, now, recs[i])
  {
    RunOk(p, es, now);
    RecordsCover(p, Run(p, es), h, now);
    RecordsServedRight(p, Run(p, es), h, now);
  }
}
