/** Names under a managed zone: the virtual-host redirect, the mDNS overlay, search-list recovery and the
    authoritative answer (internal/resolver/resolver.go:348-412 and 549-749). */
module SplitHorizon {
  import opened Options
  import opened Names
  import opened Messages
  import opened Replies
  import opened Zones
  import opened ZoneAnswer
  import opened RecencyList
  import M = MdnsStore
  import L = LocalPlane

  const VHOST_TTL: nat := 60

  /** What answering uses of a snapshot; a zone may be missing under its apex. The site's apexes are the
      zones'. */
  datatype Snapshot = Snapshot(site: L.Site, zones: map<Name, Option<Zone>>, excluded: set<Name>,
                               proxyV4: Option<M.Addr>, proxyV6: Option<M.Addr>)

  ghost predicate Valid(snap: Snapshot) {
    && snap.site.apexes == snap.zones.Keys
    && forall a :: a in snap.zones && snap.zones[a].Some? ==>
         snap.zones[a].value.apex == a && SoaFits(snap.zones[a].value)
  }

  // ---- redirected names ----

  /** isVHostCandidate. */
  predicate VHostCandidate(snap: Snapshot, apex: Name, owner: Name) {
    && apex !in snap.excluded
    && (snap.proxyV4.Some? || snap.proxyV6.Some?)
    && |owner| <= 1
    && (owner == [] || owner[0] == "www" || owner[0] in snap.site.vhosts)
  }

  /** overrideStripped: types an overridden name does not inherit. */
  const STRIPPED: set<nat> := {A, AAAA, CNAME, HTTPS, SVCB}

  /** vhostInherited. */
  function Inherited(z: Zone, owner: Name): (r: RRsets) {
    if owner == [] then RecordsAt(z, []) else z.wildcards
  }

  function Proxy(addr: Option<M.Addr>, name: Name, typ: nat): (r: seq<RR>) {
    if addr.Some? then [RR(name, typ, VHOST_TTL, Address(addr.value))] else []
  }

  function OrNodata(z: Zone, answer: seq<RR>): (r: Reply)
    requires SoaFits(z)
  {
    if answer != [] then Positive(answer) else Negative(z, NOERROR)
  }

  /** The records vhostReply gives. */
  function VHostRecords(snap: Snapshot, inherited: RRsets, name: Name, qtype: nat, order: Order): (r: seq<RR>) {
    if qtype == A then Proxy(snap.proxyV4, name, A)
    else if qtype == AAAA then Proxy(snap.proxyV6, name, AAAA)
    else if qtype in STRIPPED then []
    else if qtype == ANY then
      Proxy(snap.proxyV4, name, A) + Proxy(snap.proxyV6, name, AAAA)
      + Enumerated(inherited, order, STRIPPED, name)
    else Matching(Of(inherited, qtype), name, qtype)
  }

  /** The name inherits a set of the type, which is then the whole answer. */
  predicate Inherits(inherited: RRsets, qtype: nat) {
    qtype !in STRIPPED && qtype != ANY && Of(inherited, qtype) != []
  }

  /** vhostReply. */
  function VHostAnswer(snap: Snapshot, z: Zone, owner: Name, name: Name, qtype: nat, order: Order): (r: Reply)
    requires SoaFits(z)
  {
    var records := VHostRecords(snap, Inherited(z, owner), name, qtype, order);
    if Inherits(Inherited(z, owner), qtype) then Positive(records) else OrNodata(z, records)
  }

  // ---- the overlay ----

  /** The fitting records of a family, of either tier. */
  function Family(site: L.Site, recs: seq<M.ViewRR>, six: bool, scopeOnly: bool): (r: seq<M.ViewRR>) {
    if recs == [] then []
    else
      var n := |recs| - 1;
      var init := Family(site, recs[..n], six, scopeOnly);
      if L.Fits(site, recs[n], six, scopeOnly) then init + [recs[n]] else init
  }

  function Prefer<T(==)>(loc: seq<T>, all: seq<T>): (r: seq<T>) {
    if loc != [] then loc else all
  }

  /** localScopeAddrs: per family the site-local addresses, or else all. */
  function Scoped(site: L.Site, recs: seq<M.ViewRR>): (r: seq<M.ViewRR>) {
    Prefer(Family(site, recs, false, true), Family(site, recs, false, false))
    + Prefer(Family(site, recs, true, true), Family(site, recs, true, false))
  }

  /** The records mdnsZoneReply gives. */
  function OverlayRecords(z: Zone, name: Name, qtype: nat, local: seq<M.ViewRR>, order: Order): (r: seq<RR>) {
    if qtype == A || qtype == AAAA then Matching(L.Rendered(local), name, qtype)
    else if qtype in STRIPPED then []
    else if qtype == ANY then
      Matching(L.Rendered(local), name, ANY) + Enumerated(z.wildcards, order, STRIPPED, name)
    else Matching(Of(z.wildcards, qtype), name, qtype)
  }

  // ---- recovered names ----

  function HostAddrs(snap: Snapshot, view: M.View, host: Label, six: bool): (r: seq<M.ViewRR>) {
    L.Served(snap.site, L.ForwardOf(view, host), six, L.Restricted(snap.site, host), true)
  }

  /** localRecoveredZoneReply. */
  function RecoveredReply(snap: Snapshot, view: M.View, z: Zone, name: Name, host: Label, qtype: nat): (r: Reply)
    requires SoaFits(z)
  {
    var v4, v6 := HostAddrs(snap, view, host, false), HostAddrs(snap, view, host, true);
    if v4 == [] && v6 == [] then Negative(z, NXDOMAIN) else OrNodata(z, L.Filled(name, qtype, v4, v6))
  }

  // ---- which of them applies ----

  datatype Route =
    | VHost
    | Overlay(local: seq<M.ViewRR>)
    | Recover(host: Label, view: M.View)
    | Gone
    | Plain
    | Unzoned(vhost: bool) // the snapshot has no zone under the apex

  /** The decision of answerZoneOrVHost, which does not look at the type. */
  function RouteOf(snap: Snapshot, view: Option<M.View>, name: Name, apex: Name): (r: Route)
    requires apex in snap.zones && Under(name, apex)
  {
    var owner := Owner(name, apex);
    if snap.zones[apex].None? then Unzoned(VHostCandidate(snap, apex, owner))
    else ZonedRoute(snap, view, snap.zones[apex].value, name, apex, owner)
  }

  function ZonedRoute(snap: Snapshot, view: Option<M.View>, z: Zone, name: Name, apex: Name, owner: Name): (r: Route) {
    var local := if view.Some? then Scoped(snap.site, L.ForwardOf(view.value, Text(owner))) else [];
    var rec := L.Recovered(snap.site, name);
    if VHostCandidate(snap, apex, owner) then VHost
    else if !Exact(z, owner) && name !in snap.site.eligible && local != [] then Overlay(local)
    else if view.Some? && rec.tainted && !Exact(z, owner) && owner !in z.ent then
      if rec.ok then Recover(rec.host, view.value) else Gone
    else Plain
  }

  /** answerZoneOrVHost, where there is a zone. */
  function ZonedReply(snap: Snapshot, z: Zone, route: Route, name: Name, owner: Name, qtype: nat, o1: Order,
                      o2: Order): (r: Reply)
    requires SoaFits(z) && !route.Unzoned?
  {
    match route
    case VHost => VHostAnswer(snap, z, owner, name, qtype, o1)
    case Overlay(local) => OrNodata(z, OverlayRecords(z, name, qtype, local, o1))
    case Recover(host, v) => RecoveredReply(snap, v, z, name, host, qtype)
    case Gone => Negative(z, NXDOMAIN)
    case Plain => Authoritative(z, name, owner, qtype, o1, o2)
  }

  /** answerZoneOrVHost. Without a zone a redirected name has the proxy's addresses only, and any other name
      is a server failure. */
  function ZoneReply(snap: Snapshot, view: Option<M.View>, name: Name, apex: Name, qtype: nat, o1: Order,
                     o2: Order): (r: Reply)
    requires apex in snap.zones && Under(name, apex) && (snap.zones[apex].Some? ==> SoaFits(snap.zones[apex].value))
  {
    var route := RouteOf(snap, view, name, apex);
    if snap.zones[apex].Some? then
      ZonedReply(snap, snap.zones[apex].value, route, name, Owner(name, apex), qtype, o1, o2)
    else if route.vhost then Positive(VHostRecords(snap, map[], name, qtype, o1))
    else Reply(SERVFAIL, [], [])
  }

  /** The orders are of the sets this answer may enumerate. */
  ghost predicate VisitingZone(z: Zone, route: Route, owner: Name, o1: Order, o2: Order) {
    match route
    case VHost => Visits(o1, Inherited(z, owner))
    case Overlay(_) => Visits(o1, z.wildcards)
    case Plain => Orders(z, owner, o1, o2)
    case _ => true
  }

  ghost predicate Visiting(snap: Snapshot, view: Option<M.View>, name: Name, apex: Name, o1: Order, o2: Order)
    requires apex in snap.zones && Under(name, apex)
  {
    snap.zones[apex].Some? ==>
      VisitingZone(snap.zones[apex].value, RouteOf(snap, view, name, apex), Owner(name, apex), o1, o2)
  }

  // ---- the code ----

  /** localScopeAddrs. */
  method LocalScopeAddrs(site: L.Site, recs: seq<M.ViewRR>) returns (r: seq<M.ViewRR>)
    ensures r == Scoped(site, recs)
  {
    var v4loc, v4all, v6loc, v6all: seq<M.ViewRR> := [], [], [], [];
    for i := 0 to |recs|
      invariant v4loc == Family(site, recs[..i], false, true) && v4all == Family(site, recs[..i], false, false)
      invariant v6loc == Family(site, recs[..i], true, true) && v6all == Family(site, recs[..i], true, false)
    {
      assert recs[..i+1][..i] == recs[..i];
      var rr := recs[i];
      if site.servable(rr.addr) {
        var local := site.scoped(rr.addr);
        if !M.Is6(rr.addr) {
          v4all := v4all + [rr];
          if local { v4loc := v4loc + [rr]; }
        } else {
          v6all := v6all + [rr];
          if local { v6loc := v6loc + [rr]; }
        }
      }
    }
    assert recs[..|recs|] == recs;
    r := Prefer(v4loc, v4all) + Prefer(v6loc, v6all);
  }

  /** NODATA with the zone's SOA if nothing was answered. */
  method CloseEmpty(resp: Msg, z: Zone)
    requires SoaFits(z) && resp.rcode == NOERROR && resp.ns == []
    modifies resp
    ensures ReplyOf(resp) == OrNodata(z, old(resp.answer))
  {
    if |resp.answer| == 0 { SetNegativeSoa(resp, z.soa, z.apex, NOERROR); }
  }

  /** The records vhostReply gives, with what the name inherits. */
  method VHostFill(resp: Msg, snap: Snapshot, inherited: RRsets, name: Name, qtype: nat)
    returns (whole: bool, ghost order: Order)
    requires Fresh(resp)
    modifies resp
    ensures whole == Inherits(inherited, qtype) && Visits(order, inherited)
    ensures ReplyOf(resp) == Positive(VHostRecords(snap, inherited, name, qtype, order))
  {
    order := HasOrder(inherited);
    whole := false;
    if qtype == A {
      resp.answer := Proxy(snap.proxyV4, name, A);
    } else if qtype == AAAA {
      resp.answer := Proxy(snap.proxyV6, name, AAAA);
    } else if qtype == CNAME || qtype == HTTPS || qtype == SVCB {
    } else if qtype == ANY {
      order := VHostAny(resp, snap, inherited, name);
    } else {
      whole := |Of(inherited, qtype)| > 0;
      var _ := AppendMatching(resp, Of(inherited, qtype), name, qtype);
    }
  }

  /** The ANY branch of vhostReply: the proxy addresses and what is inherited. */
  method VHostAny(resp: Msg, snap: Snapshot, inherited: RRsets, name: Name) returns (ghost order: Order)
    requires Fresh(resp)
    modifies resp
    ensures Visits(order, inherited)
    ensures ReplyOf(resp) == Positive(VHostRecords(snap, inherited, name, ANY, order))
  {
    resp.answer := Proxy(snap.proxyV4, name, A) + Proxy(snap.proxyV6, name, AAAA);
    order := AppendAll(resp, inherited, STRIPPED, name);
  }

  method VHostReply(resp: Msg, snap: Snapshot, zone: Option<Zone>, name: Name, owner: Name, qtype: nat)
    returns (ghost order: Order)
    requires (zone.Some? ==> SoaFits(zone.value)) && Fresh(resp)
    modifies resp
    ensures Visits(order, if zone.Some? then Inherited(zone.value, owner) else map[])
    ensures zone.None? ==> ReplyOf(resp) == Positive(VHostRecords(snap, map[], name, qtype, order))
    ensures zone.Some? ==> ReplyOf(resp) == VHostAnswer(snap, zone.value, owner, name, qtype, order)
  {
    var whole;
    whole, order := VHostFill(resp, snap, if zone.Some? then Inherited(zone.value, owner) else map[], name, qtype);
    if zone.Some? && !whole { CloseEmpty(resp, zone.value); }
  }

  /** The ANY branch of mdnsZoneReply: the host's addresses and what is inherited. */
  method OverlayAny(resp: Msg, z: Zone, name: Name, local: seq<M.ViewRR>) returns (ghost order: Order)
    requires SoaFits(z) && Fresh(resp) && local != []
    modifies resp
    ensures Visits(order, z.wildcards)
    ensures ReplyOf(resp) == Positive(OverlayRecords(z, name, ANY, local, order)) && resp.answer != []
  {
    var _ := AppendMatching(resp, L.Rendered(local), name, ANY);
    MatchingAny(L.Rendered(local), name);
    order := AppendAll(resp, z.wildcards, STRIPPED, name);
  }

  method MdnsZoneReply(resp: Msg, z: Zone, name: Name, qtype: nat, local: seq<M.ViewRR>) returns (ghost order: Order)
    requires SoaFits(z) && Fresh(resp) && local != []
    modifies resp
    ensures Visits(order, z.wildcards)
    ensures ReplyOf(resp) == OrNodata(z, OverlayRecords(z, name, qtype, local, order))
  {
    order := HasOrder(z.wildcards);
    if qtype == A || qtype == AAAA {
      var _ := AppendMatching(resp, L.Rendered(local), name, qtype);
    } else if qtype == ANY {
      order := OverlayAny(resp, z, name, local);
      return;
    } else if qtype == CNAME || qtype == HTTPS || qtype == SVCB {
    } else {
      var _ := AppendMatching(resp, Of(z.wildcards, qtype), name, qtype);
    }
    CloseEmpty(resp, z);
  }

  method LocalRecoveredZoneReply(resp: Msg, snap: Snapshot, view: M.View, z: Zone, name: Name, host: Label, qtype: nat)
    requires SoaFits(z) && Fresh(resp)
    modifies resp
    ensures ReplyOf(resp) == RecoveredReply(snap, view, z, name, host, qtype)
  {
    var restricted := L.RestrictedLabel(snap.site, host);
    var v4 := L.LocalServeAddrs(snap.site, view, host, false, restricted, true);
    var v6 := L.LocalServeAddrs(snap.site, view, host, true, restricted, true);
    if |v4| == 0 && |v6| == 0 {
      SetNegativeSoa(resp, z.soa, z.apex, NXDOMAIN);
      return;
    }
    L.FillLocalAddrs(resp, name, qtype, v4, v6);
    CloseEmpty(resp, z);
  }

  method AnswerZoneOrVHost(resp: Msg, snap: Snapshot, view: Option<M.View>, name: Name, apex: Name, qtype: nat)
    returns (ghost o1: Order, ghost o2: Order)
    requires Valid(snap) && apex in snap.zones && Under(name, apex) && Fresh(resp)
    modifies resp
    ensures Visiting(snap, view, name, apex, o1, o2)
    ensures ReplyOf(resp) == ZoneReply(snap, view, name, apex, qtype, o1, o2)
  {
    o1, o2 := Nil, Nil;
    var zone := snap.zones[apex];
    var owner := Owner(name, apex);
    var route := Decide(snap, view, name, apex);
    if zone.None? {
      if route.vhost {
        o1 := VHostReply(resp, snap, None, name, owner, qtype);
      } else {
        resp.rcode := SERVFAIL;
      }
      return;
    }
    o1, o2 := AnswerZoned(resp, snap, zone.value, route, name, owner, qtype);
  }

  method AnswerZoned(resp: Msg, snap: Snapshot, z: Zone, route: Route, name: Name, owner: Name, qtype: nat)
    returns (ghost o1: Order, ghost o2: Order)
    requires SoaFits(z) && !route.Unzoned? && (route.Overlay? ==> route.local != []) && Fresh(resp)
    modifies resp
    ensures VisitingZone(z, route, owner, o1, o2)
    ensures ReplyOf(resp) == ZonedReply(snap, z, route, name, owner, qtype, o1, o2)
  {
    o1, o2 := Nil, Nil;
    match route
    case VHost => o1 := VHostReply(resp, snap, Some(z), name, owner, qtype);
    case Overlay(local) => o1 := MdnsZoneReply(resp, z, name, qtype, local);
    case Recover(host, v) => LocalRecoveredZoneReply(resp, snap, v, z, name, host, qtype);
    case Gone => SetNegativeSoa(resp, z.soa, z.apex, NXDOMAIN);
    case Plain => o1, o2 := AnswerAuthoritative(resp, z, name, owner, qtype);
  }

  /** The tests of answerZoneOrVHost, in their order. */
  method Decide(snap: Snapshot, view: Option<M.View>, name: Name, apex: Name) returns (r: Route)
    requires apex in snap.zones && Under(name, apex)
    ensures r == RouteOf(snap, view, name, apex)
    ensures (r.Overlay? ==> r.local != []) && (r.Unzoned? <==> snap.zones[apex].None?)
  {
    var owner := Owner(name, apex);
    var vhost := VHostCandidate(snap, apex, owner);
    if snap.zones[apex].None? { return Unzoned(vhost); }
    if vhost { return VHost; }
    r := DecideZoned(snap, view, snap.zones[apex].value, name, apex, owner);
  }

  method DecideZoned(snap: Snapshot, view: Option<M.View>, z: Zone, name: Name, apex: Name, owner: Name)
    returns (r: Route)
    requires !VHostCandidate(snap, apex, owner)
    ensures r == ZonedRoute(snap, view, z, name, apex, owner)
    ensures (r.Overlay? ==> r.local != []) && !r.Unzoned?
  {
    if view.Some? && !Exact(z, owner) {
      if name !in snap.site.eligible {
        var local := LocalScopeAddrs(snap.site, L.ForwardOf(view.value, Text(owner)));
        if |local| > 0 { return Overlay(local); }
      }
      var rec := L.RecoverLocalHost(snap.site, name);
      if rec.tainted && owner !in z.ent {
        return if rec.ok then Recover(rec.host, view.value) else Gone;
      }
    }
    return Plain;
  }
}
