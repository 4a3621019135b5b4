/** Which names under a managed zone announcements that are not strong can move
    (internal/resolver/resolver.go:357-403, 475-516, internal/mdns/trust.go:61-131). */
module SplitHorizonRuns {
  import opened Options
  import opened Names
  import opened Messages
  import opened Replies
  import opened Zones
  import opened ZoneAnswer
  import opened RecencyList
  import opened SplitHorizon
  import opened SplitHorizonFacts
  import M = MdnsStore
  import R = MdnsRuns
  import L = LocalPlane
  import LocalRuns

  /** Two runs of the mDNS store and a view of each. */
  datatype Pair = Pair(es: seq<R.Event>, fs: seq<R.Event>, now: int, v: M.View, w: M.View)

  /** The runs are legal and differ only in announcements that are not strong. */
  ghost predicate Alike(p: M.Params, x: Pair) {
    && R.StrongOnly(x.es) == R.StrongOnly(x.fs) && R.LegalRun(p, x.es, x.now) && R.LegalRun(p, x.fs, x.now)
    && M.ViewOf(p, R.Run(p, x.es), x.now, x.v) && M.ViewOf(p, R.Run(p, x.fs), x.now, x.w)
    && BareKeys(x.v) && BareKeys(x.w)
  }

  /** The name lies under a zone and is past the local plane. */
  ghost predicate Managed(snap: Snapshot, z: Zone, name: Name, apex: Name) {
    && Longest(name, snap.site.apexes) == Some(apex) && Under(name, apex)
    && apex in snap.zones && snap.zones[apex] == Some(z) && SoaFits(z)
    && L.Stripped(name, L.LOCAL).None? && L.Stripped(name, snap.site.localDomain).None?
    && forall i :: 0 <= i < |name| ==> '.' !in name[i] && name[i] != ""
  }

  /** No such difference shows in the reply to the name, whatever the type. */
  ghost predicate Unmoved(snap: Snapshot, p: M.Params, z: Zone, name: Name, apex: Name)
    requires Managed(snap, z, name, apex)
  {
    forall x: Pair, qtype: nat, o1: Order, o2: Order :: Alike(p, x) ==>
      ZoneReply(snap, Some(x.v), name, apex, qtype, o1, o2) == ZoneReply(snap, Some(x.w), name, apex, qtype, o1, o2)
  }

  // ---- a host announced once ----

  function Once(h: M.Host, a: M.Addr, ttl: nat): (es: seq<R.Event>) {
    [R.Announce(M.Announcement(h, [a], ttl), 0, M.TrustNone, "", "")]
  }

  function OnceView(h: M.Host, a: M.Addr, ttl: nat): (v: M.View) {
    M.View(map[h := [M.ViewRR(a, ttl, false)]], map[a := [M.Ptr(M.Local(h), ttl)]])
  }

  lemma OneListed(a: M.Addr)
    ensures M.Listed({a}) == [a] && M.Listed({}) == []
  {
    assert M.Ascending([a], {a}) by { assert [a][1..] == [] && {a} - {a} == {}; }
    M.AscendingUnique(M.Listed({a}), [a], {a});
  }

  lemma OnceStored(p: M.Params, h: M.Host, a: M.Addr, ttl: nat)
    requires h != "" && 1 <= ttl <= M.MAX_TTL && 0 <= p.staleGrace
    ensures R.StrongOnly(Once(h, a, ttl)) == [] && R.LegalRun(p, Once(h, a, ttl), 0)
    ensures var s := R.Run(p, Once(h, a, ttl));
      && s.trusted == map[] && s.hosts.Keys == {h}
      && M.Records(p, s, h, 0) == [M.ViewRR(a, ttl, false)]
  {
    var es := Once(h, a, ttl);
    assert es[..0] == [];
    assert R.Run(p, []) == M.Store(map[], map[]);
    var s := R.Run(p, es);
    assert M.AddrSet([a]) == {a};
    assert s.hosts == map[h := M.Refreshed(p, None, es[0].a, 0)];
    OneListed(a);
    assert {a} - {} == {a};
    assert M.Live(p, s.trusted, h, 0) == {} && M.Unexpired(s.hosts, h, 0) == {a};
    assert M.VolatileTtl(s.hosts[h], 0) == ttl;
  }

  lemma OnlyClaim(p: M.Params, s: M.Store, h: M.Host, a: M.Addr, ttl: nat, b: M.Addr)
    requires M.Known(s) == {h} && M.Records(p, s, h, 0) == [M.ViewRR(a, ttl, false)]
    ensures M.Enumerates(p, s, M.Known(s), b, 0, M.At(OnceView(h, a, ttl).reverse, b))
  {
    var recs := [M.ViewRR(a, ttl, false)];
    assert recs[..0] == [];
    assert M.TtlOf(recs, b) == if b == a then Some(ttl) else None;
    if b == a { assert M.Claims(p, s, h, a, 0, M.Ptr(M.Local(h), ttl)); }
  }

  lemma OnceSeen(p: M.Params, h: M.Host, a: M.Addr, ttl: nat)
    requires h != "" && 1 <= ttl <= M.MAX_TTL && 0 <= p.staleGrace
    ensures M.ViewOf(p, R.Run(p, Once(h, a, ttl)), 0, OnceView(h, a, ttl))
  {
    OnceStored(p, h, a, ttl);
    OnlyView(p, R.Run(p, Once(h, a, ttl)), h, a, ttl);
  }

  lemma OnlyView(p: M.Params, s: M.Store, h: M.Host, a: M.Addr, ttl: nat)
    requires M.Known(s) == {h} && M.Records(p, s, h, 0) == [M.ViewRR(a, ttl, false)]
    ensures M.ViewOf(p, s, 0, OnceView(h, a, ttl))
  {
    forall b ensures M.Enumerates(p, s, M.Known(s), b, 0, M.At(OnceView(h, a, ttl).reverse, b)) {
      OnlyClaim(p, s, h, a, ttl, b);
    }
  }

  /** Announced without trust, for a hundred seconds and for two hundred. */
  function Twice(h: M.Host, a: M.Addr): (x: Pair) {
    Pair(Once(h, a, 100), Once(h, a, 200), 0, OnceView(h, a, 100), OnceView(h, a, 200))
  }

  lemma TwiceAlike(p: M.Params, h: M.Host, a: M.Addr)
    requires h != "" && '.' !in h && 0 <= p.staleGrace
    ensures Alike(p, Twice(h, a))
  {
    OnceStored(p, h, a, 100);
    OnceStored(p, h, a, 200);
    OnceSeen(p, h, a, 100);
    OnceSeen(p, h, a, 200);
  }

  function TypeOf(a: M.Addr): (t: nat) { if M.Is6(a) then AAAA else A }

  lemma RenderedOne(a: M.Addr, ttl: nat, name: Name)
    ensures Matching(L.Rendered([M.ViewRR(a, ttl, false)]), name, TypeOf(a))
      == [RR(name, TypeOf(a), ttl, Address(a))]
  {
    var recs := L.Rendered([M.ViewRR(a, ttl, false)]);
    assert recs == [RR([], TypeOf(a), ttl, Address(a))] && recs[..0] == [];
  }

  // ---- one label under the apex ----

  lemma NoFamily(site: L.Site, recs: seq<M.ViewRR>, six: bool, scopeOnly: bool)
    requires forall a :: !site.servable(a)
    ensures Family(site, recs, six, scopeOnly) == []
  {
    if recs != [] { NoFamily(site, recs[..|recs|-1], six, scopeOnly); }
  }

  lemma FamilyOne(site: L.Site, rr: M.ViewRR, six: bool, scopeOnly: bool)
    ensures Family(site, [rr], six, scopeOnly) == if L.Fits(site, rr, six, scopeOnly) then [rr] else []
  {
    var recs := [rr];
    assert recs[..0] == [] && recs[0] == rr;
    assert Family(site, recs[..0], six, scopeOnly) == [];
    assert [] + [rr] == recs;
  }

  lemma ScopedOne(site: L.Site, rr: M.ViewRR)
    requires site.servable(rr.addr)
    ensures Scoped(site, [rr]) == [rr]
  {
    FamilyOne(site, rr, false, false);
    FamilyOne(site, rr, false, true);
    FamilyOne(site, rr, true, false);
    FamilyOne(site, rr, true, true);
  }

  /** What decides the route of a name one label below the apex. */
  lemma OneLabelRoute(snap: Snapshot, view: M.View, z: Zone, name: Name, apex: Name, l: Label)
    requires Managed(snap, z, name, apex) && Owner(name, apex) == [l]
    ensures var local := Scoped(snap.site, L.ForwardOf(view, l));
      RouteOf(snap, Some(view), name, apex)
      == if VHostCandidate(snap, apex, [l]) then VHost
         else if !Exact(z, [l]) && name !in snap.site.eligible && local != [] then Overlay(local)
         else Plain
  {
    if L.Recovered(snap.site, name).tainted { TaintedIsDeep(snap.site, name, apex); }
    assert Text([l]) == l;
  }

  /** The reply through the overlay shows the TTL announced. */
  lemma OverlayShows(snap: Snapshot, z: Zone, name: Name, apex: Name, l: Label, a: M.Addr, ttl: nat, o1: Order,
                     o2: Order)
    requires Managed(snap, z, name, apex) && Owner(name, apex) == [l] && snap.site.servable(a)
    requires !VHostCandidate(snap, apex, [l]) && !Exact(z, [l]) && name !in snap.site.eligible
    ensures ZoneReply(snap, Some(OnceView(l, a, ttl)), name, apex, TypeOf(a), o1, o2)
      == Positive([RR(name, TypeOf(a), ttl, Address(a))])
  {
    OneLabelRoute(snap, OnceView(l, a, ttl), z, name, apex, l);
    ScopedOne(snap.site, M.ViewRR(a, ttl, false));
    RenderedOne(a, ttl, name);
  }

  /** A name one label below the apex is out of reach of announcements that are not strong exactly when it is
      redirected, has data of its own, is itself eligible for write-back, or no address may be served. */
  lemma OverlayTrust(snap: Snapshot, p: M.Params, z: Zone, name: Name, apex: Name, l: Label)
    requires Managed(snap, z, name, apex) && Owner(name, apex) == [l] && 0 <= p.staleGrace
    ensures Unmoved(snap, p, z, name, apex)
      <==> || VHostCandidate(snap, apex, [l]) || Exact(z, [l]) || name in snap.site.eligible
           || forall a :: !snap.site.servable(a)
  {
    if VHostCandidate(snap, apex, [l]) || Exact(z, [l]) || name in snap.site.eligible
       || forall a :: !snap.site.servable(a)
    {
      forall x: Pair, qtype: nat, o1: Order, o2: Order | Alike(p, x)
        ensures ZoneReply(snap, Some(x.v), name, apex, qtype, o1, o2)
          == ZoneReply(snap, Some(x.w), name, apex, qtype, o1, o2)
      {
        SameRoute(snap, x.v, x.w, z, name, apex, l);
      }
    } else {
      var a :| snap.site.servable(a);
      assert name[0] == l by { assert [l] + apex == name; }
      TwiceAlike(p, l, a);
      OverlayShows(snap, z, name, apex, l, a, 100, Nil, Nil);
      OverlayShows(snap, z, name, apex, l, a, 200, Nil, Nil);
      var x := Twice(l, a);
      assert ZoneReply(snap, Some(x.v), name, apex, TypeOf(a), Nil, Nil)
        != ZoneReply(snap, Some(x.w), name, apex, TypeOf(a), Nil, Nil);
    }
  }

  lemma SameRoute(snap: Snapshot, v: M.View, w: M.View, z: Zone, name: Name, apex: Name, l: Label)
    requires Managed(snap, z, name, apex) && Owner(name, apex) == [l]
    requires VHostCandidate(snap, apex, [l]) || Exact(z, [l]) || name in snap.site.eligible
             || forall a :: !snap.site.servable(a)
    ensures RouteOf(snap, Some(v), name, apex) == RouteOf(snap, Some(w), name, apex)
  {
    OneLabelRoute(snap, v, z, name, apex, l);
    OneLabelRoute(snap, w, z, name, apex, l);
    if forall a :: !snap.site.servable(a) {
      NoScoped(snap.site, L.ForwardOf(v, l));
      NoScoped(snap.site, L.ForwardOf(w, l));
    }
  }

  lemma NoScoped(site: L.Site, recs: seq<M.ViewRR>)
    requires forall a :: !site.servable(a)
    ensures Scoped(site, recs) == []
  {
    NoFamily(site, recs, false, false);
    NoFamily(site, recs, false, true);
    NoFamily(site, recs, true, false);
    NoFamily(site, recs, true, true);
  }

  // ---- tainted names ----

  lemma HostIsFirst(site: L.Site, name: Name)
    requires L.Recovered(site, name).ok
    ensures name != [] && L.Recovered(site, name).host == name[0]
  {
    var ms := L.RecoveredIs(site, name);
  }

  lemma NoTier(site: L.Site, recs: seq<M.ViewRR>, six: bool, trusted: bool)
    requires forall a :: !(site.servable(a) && site.scoped(a))
    ensures L.Tier(site, recs, six, true, trusted) == []
  {
    if recs != [] { NoTier(site, recs[..|recs|-1], six, trusted); }
  }

  lemma NoHostAddrs(snap: Snapshot, view: M.View, host: Label, six: bool)
    requires forall a :: !(snap.site.servable(a) && snap.site.scoped(a))
    ensures HostAddrs(snap, view, host, six) == []
  {
    NoTier(snap.site, L.ForwardOf(view, host), six, true);
    NoTier(snap.site, L.ForwardOf(view, host), six, false);
  }

  lemma TierOne(site: L.Site, rr: M.ViewRR, six: bool, scopeOnly: bool, trusted: bool)
    ensures L.Tier(site, [rr], six, scopeOnly, trusted)
      == if rr.trusted == trusted && L.Fits(site, rr, six, scopeOnly) then [rr] else []
  {
    var recs := [rr];
    assert recs[..0] == [] && recs[0] == rr;
    assert L.Tier(site, recs[..0], six, scopeOnly, trusted) == [];
    assert [] + [rr] == recs;
  }

  lemma OneHostAddr(snap: Snapshot, host: Label, a: M.Addr, ttl: nat, six: bool)
    requires snap.site.servable(a) && snap.site.scoped(a) && !L.Restricted(snap.site, host)
    ensures HostAddrs(snap, OnceView(host, a, ttl), host, six)
      == if M.Is6(a) == six then [M.ViewRR(a, ttl, false)] else []
  {
    var rr := M.ViewRR(a, ttl, false);
    assert L.ForwardOf(OnceView(host, a, ttl), host) == [rr];
    TierOne(snap.site, rr, six, true, true);
    TierOne(snap.site, rr, six, true, false);
  }

  /** The recovered reply shows the TTL announced. */
  lemma RecoveryShows(snap: Snapshot, z: Zone, name: Name, host: Label, a: M.Addr, ttl: nat)
    requires SoaFits(z) && snap.site.servable(a) && snap.site.scoped(a) && !L.Restricted(snap.site, host)
    ensures RecoveredReply(snap, OnceView(host, a, ttl), z, name, host, TypeOf(a))
      == Positive([RR(name, TypeOf(a), ttl, Address(a))])
  {
    OneHostAddr(snap, host, a, ttl, false);
    OneHostAddr(snap, host, a, ttl, true);
    RenderedOne(a, ttl, name);
  }

  lemma SameLocalOnly(snap: Snapshot, p: M.Params, x: Pair, z: Zone, name: Name, qtype: nat)
    requires SoaFits(z) && Alike(p, x)
    requires var rec := L.Recovered(snap.site, name);
      !rec.ok || L.Restricted(snap.site, rec.host) || forall a :: !(snap.site.servable(a) && snap.site.scoped(a))
    ensures LocalOnly(snap, x.v, z, name, qtype) == LocalOnly(snap, x.w, z, name, qtype)
  {
    var host := L.Recovered(snap.site, name).host;
    R.Noninterference(p, x.es, x.fs);
    if L.Restricted(snap.site, host) {
      LocalRuns.RestrictedServed(snap.site, p, R.Run(p, x.es), R.Run(p, x.fs), x.now, x.v, x.w, host, false, true);
      LocalRuns.RestrictedServed(snap.site, p, R.Run(p, x.es), R.Run(p, x.fs), x.now, x.v, x.w, host, true, true);
    } else if forall a :: !(snap.site.servable(a) && snap.site.scoped(a)) {
      NoHostAddrs(snap, x.v, host, false);
      NoHostAddrs(snap, x.w, host, false);
      NoHostAddrs(snap, x.v, host, true);
      NoHostAddrs(snap, x.w, host, true);
    }
  }

  /** A tainted name with nothing published at its owner is out of reach of announcements that are not strong
      exactly when no host is recovered from it, that host is restricted, or no site-local address may be
      served. */
  lemma TaintedTrust(snap: Snapshot, p: M.Params, z: Zone, name: Name, apex: Name)
    requires Managed(snap, z, name, apex) && Tainted(snap, z, name, apex) && 0 <= p.staleGrace
    ensures var rec := L.Recovered(snap.site, name);
      Unmoved(snap, p, z, name, apex)
      <==> || !rec.ok || L.Restricted(snap.site, rec.host)
           || forall a :: !(snap.site.servable(a) && snap.site.scoped(a))
  {
    var rec := L.Recovered(snap.site, name);
    if !rec.ok || L.Restricted(snap.site, rec.host) || forall a :: !(snap.site.servable(a) && snap.site.scoped(a)) {
      forall x: Pair, qtype: nat, o1: Order, o2: Order | Alike(p, x)
        ensures ZoneReply(snap, Some(x.v), name, apex, qtype, o1, o2)
          == ZoneReply(snap, Some(x.w), name, apex, qtype, o1, o2)
      {
        TaintedReply(snap, x.v, z, name, apex, qtype, o1, o2);
        TaintedReply(snap, x.w, z, name, apex, qtype, o1, o2);
        SameLocalOnly(snap, p, x, z, name, qtype);
      }
    } else {
      var a :| snap.site.servable(a) && snap.site.scoped(a);
      HostIsFirst(snap.site, name);
      TwiceAlike(p, rec.host, a);
      var x := Twice(rec.host, a);
      TaintedReply(snap, x.v, z, name, apex, TypeOf(a), Nil, Nil);
      TaintedReply(snap, x.w, z, name, apex, TypeOf(a), Nil, Nil);
      RecoveryShows(snap, z, name, rec.host, a, 100);
      RecoveryShows(snap, z, name, rec.host, a, 200);
      assert ZoneReply(snap, Some(x.v), name, apex, TypeOf(a), Nil, Nil)
        != ZoneReply(snap, Some(x.w), name, apex, TypeOf(a), Nil, Nil);
    }
  }

  // ---- a label restricted through another zone ----

  const HERE: Name := ["here", "example"]
  const THERE: Name := ["there", "example"]

  /** A zone of which only the SOA is known. */
  function Bare(apex: Name, soa: RR): (z: Zone) { Zone(apex, Some(soa), map[], map[], {}, map[]) }

  /** Two such zones; a label eligible for write-back under the second only. */
  function Neighbours(l: Label, soa: RR): (snap: Snapshot) {
    var site := L.Site([], {}, {HERE, THERE}, {[l] + THERE}, _ => true, _ => true);
    Snapshot(site, map[HERE := Some(Bare(HERE, soa)), THERE := Some(Bare(THERE, soa))], {}, None, None)
  }

  /** The label is restricted, so the local plane answers it from the trusted store only; under the first zone
      it is answered from any announcement. */
  lemma RestrictedElsewhere(p: M.Params, l: Label, soa: RR)
    requires l != "" && '.' !in l && soa.data.Soa? && 0 <= p.staleGrace
    ensures var snap, name := Neighbours(l, soa), [l] + HERE;
      && Valid(snap) && L.Restricted(snap.site, l) && Managed(snap, Bare(HERE, soa), name, HERE)
      && !Unmoved(snap, p, Bare(HERE, soa), name, HERE)
  {
    var snap, name := Neighbours(l, soa), [l] + HERE;
    assert THERE in snap.site.apexes && [l] + THERE in snap.site.eligible;
    NeighboursManaged(l, soa);
    assert snap.site.servable(0);
    assert name[1] != ([l] + THERE)[1];
    OverlayTrust(snap, p, Bare(HERE, soa), name, HERE, l);
  }

  lemma NeighboursManaged(l: Label, soa: RR)
    requires l != "" && '.' !in l && soa.data.Soa?
    ensures var snap, name := Neighbours(l, soa), [l] + HERE;
      Valid(snap) && Managed(snap, Bare(HERE, soa), name, HERE) && Owner(name, HERE) == [l]
  {
    var snap, name := Neighbours(l, soa), [l] + HERE;
    assert "here"[0] != "there"[0] && HERE[0] != THERE[0];
    assert name[1..] == HERE && name[0] == l && name[1] == "here" && name[2] == "example";
    assert |name| == 3 && name !in snap.site.apexes;
    assert Longest(name, snap.site.apexes) == Some(HERE);
    assert name[2..] == ["example"] && "example"[0] != "local"[0];
    assert L.Stripped(name, L.LOCAL).None?;
  }
}
