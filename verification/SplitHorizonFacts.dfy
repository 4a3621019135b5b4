/** What clients can rely on under a managed zone (internal/resolver/resolver.go:348-412). */
module SplitHorizonFacts {
  import opened Options
  import opened Names
  import opened Messages
  import opened Replies
  import opened Zones
  import opened ZoneAnswer
  import opened ZoneFacts
  import opened SplitHorizon
  import M = MdnsStore
  import L = LocalPlane

  // ---- existence consistency ----

  /** Whether the name exists, as the route taken decides. */
  function RouteCode(snap: Snapshot, z: Zone, route: Route, owner: Name): (rcode: nat)
    requires !route.Unzoned?
  {
    match route
    case VHost => NOERROR
    case Overlay(_) => NOERROR
    case Recover(host, v) =>
      if HostAddrs(snap, v, host, false) == [] && HostAddrs(snap, v, host, true) == [] then NXDOMAIN else NOERROR
    case Gone => NXDOMAIN
    case Plain => CodeAt(z, owner)
  }

  lemma OrNodataCoherent(z: Zone, answer: seq<RR>)
    requires SoaFits(z)
    ensures Coherent(z, OrNodata(z, answer)) && OrNodata(z, answer).rcode == NOERROR
  {
  }

  lemma VHostCoherent(snap: Snapshot, z: Zone, owner: Name, name: Name, qtype: nat, order: Order)
    requires WellFormed(z)
    ensures var r := VHostAnswer(snap, z, owner, name, qtype, order); Coherent(z, r) && r.rcode == NOERROR
  {
    var inherited := Inherited(z, owner);
    OrNodataCoherent(z, VHostRecords(snap, inherited, name, qtype, order));
    if Inherits(inherited, qtype) { MatchingAll(Of(inherited, qtype), name, qtype); }
  }

  lemma RecoveredCoherent(snap: Snapshot, view: M.View, z: Zone, name: Name, host: Label, qtype: nat)
    requires SoaFits(z)
    ensures Coherent(z, RecoveredReply(snap, view, z, name, host, qtype))
    ensures RecoveredReply(snap, view, z, name, host, qtype).rcode
      == RouteCode(snap, z, Recover(host, view), [])
  {
  }

  lemma RoutedCoherent(snap: Snapshot, z: Zone, route: Route, name: Name, owner: Name, qtype: nat, o1: Order, o2: Order)
    requires WellFormed(z) && !route.Unzoned? && VisitingZone(z, route, owner, o1, o2)
    ensures ZonedReply(snap, z, route, name, owner, qtype, o1, o2).rcode == RouteCode(snap, z, route, owner)
    ensures Coherent(z, ZonedReply(snap, z, route, name, owner, qtype, o1, o2))
  {
    match route
    case VHost => VHostCoherent(snap, z, owner, name, qtype, o1);
    case Overlay(local) => OrNodataCoherent(z, OverlayRecords(z, name, qtype, local, o1));
    case Recover(host, v) => RecoveredCoherent(snap, v, z, name, host, qtype);
    case Gone =>
    case Plain => AuthoritativeCoherent(z, name, owner, qtype, o1, o2);
  }

  lemma ReplyCoherent(snap: Snapshot, view: Option<M.View>, z: Zone, name: Name, apex: Name, qtype: nat, o1: Order,
                      o2: Order)
    requires apex in snap.zones && snap.zones[apex] == Some(z) && Under(name, apex) && WellFormed(z)
    requires Visiting(snap, view, name, apex, o1, o2)
    ensures !RouteOf(snap, view, name, apex).Unzoned?
    ensures ZoneReply(snap, view, name, apex, qtype, o1, o2).rcode
      == RouteCode(snap, z, RouteOf(snap, view, name, apex), Owner(name, apex))
    ensures Coherent(z, ZoneReply(snap, view, name, apex, qtype, o1, o2))
  {
    RoutedCoherent(snap, z, RouteOf(snap, view, name, apex), name, Owner(name, apex), qtype, o1, o2);
  }

  /** One record: the zone's SOA at its apex, with the smaller of its own TTL and its MINIMUM, when that is
      positive. */
  ghost predicate NegativeSoa(z: Zone, ns: seq<RR>)
    requires z.soa.Some? && z.soa.value.data.Soa?
  {
    var soa := z.soa.value;
    && |ns| == 1 && ns[0].name == z.apex && ns[0].typ == soa.typ && ns[0].data == soa.data
    && ns[0].ttl <= soa.ttl && (soa.data.minimum > 0 ==> ns[0].ttl <= soa.data.minimum)
    && (ns[0].ttl == soa.ttl || (0 < soa.data.minimum && ns[0].ttl == soa.data.minimum))
  }

  /** For every snapshot, every view, every name under a well-formed zone and any two types: the code is the
      same, and the answer is empty exactly when the authority section is the zone's negative SOA, which is
      then all of it. */
  lemma ExistenceConsistency(snap: Snapshot, view: Option<M.View>, z: Zone, name: Name, apex: Name,
                             qtype: nat, o1: Order, o2: Order, other: nat, p1: Order, p2: Order)
    requires apex in snap.zones && snap.zones[apex] == Some(z) && Under(name, apex) && WellFormed(z)
    requires Visiting(snap, view, name, apex, o1, o2) && Visiting(snap, view, name, apex, p1, p2)
    ensures var r := ZoneReply(snap, view, name, apex, qtype, o1, o2);
      && r.rcode == ZoneReply(snap, view, name, apex, other, p1, p2).rcode
      && (r.answer == [] <==> NegativeSoa(z, r.ns)) && (r.answer != [] ==> r.ns == [])
  {
    ReplyCoherent(snap, view, z, name, apex, qtype, o1, o2);
    ReplyCoherent(snap, view, z, name, apex, other, p1, p2);
    NegativeSoaIs(z);
  }

  lemma NegativeSoaIs(z: Zone)
    requires WellFormed(z)
    ensures NegativeSoa(z, Authority(z.soa, z.apex))
  {
  }

  // ---- tainted names ----

  /** View keys are bare host labels. */
  ghost predicate BareKeys(view: M.View) {
    forall h :: h in view.forward ==> '.' !in h
  }

  lemma TextDotted(name: Name)
    requires |name| >= 2
    ensures '.' in Text(name)
  {
    assert (name[0] + ".")[|name[0]|] == '.';
    assert Text(name)[|name[0]|] == '.';
  }

  /** A name under a zone that is past the local plane is stripped of that zone's apex first, so it is only
      tainted when at least two labels are in front of the apex. */
  lemma TaintedIsDeep(site: L.Site, name: Name, apex: Name)
    requires Longest(name, site.apexes) == Some(apex)
    requires L.Stripped(name, L.LOCAL).None? && L.Stripped(name, site.localDomain).None?
    requires L.Recovered(site, name).tainted
    ensures Under(name, apex) && |Owner(name, apex)| >= 2
  {
    LongestIs(name, site.apexes);
    if L.Stripped(name, apex).Some? {
      var owner := Owner(name, apex);
      assert L.Pass(site, name) == Some((owner, false));
      assert L.Passes(site, name, false, false, 8) == L.Passes(site, owner, false, true, 7);
      if |owner| == 1 { OneLabelStays(site, owner); }
    }
  }

  lemma OneLabelStays(site: L.Site, name: Name)
    requires |name| == 1
    ensures L.Pass(site, name).None?
  {
    LongestIs(name, site.apexes);
  }

  /** What a tainted name is answered with. */
  function LocalOnly(snap: Snapshot, view: M.View, z: Zone, name: Name, qtype: nat): (r: Reply)
    requires SoaFits(z)
  {
    var rec := L.Recovered(snap.site, name);
    if rec.ok then RecoveredReply(snap, view, z, name, rec.host, qtype) else Negative(z, NXDOMAIN)
  }

  lemma RecoveredSame(snap: Snapshot, other: Snapshot, view: M.View, z: Zone, y: Zone, name: Name, qtype: nat)
    requires SoaFits(z) && z.apex == y.apex && z.soa == y.soa && snap.site == other.site
    ensures LocalOnly(snap, view, z, name, qtype) == LocalOnly(other, view, y, name, qtype)
  {
  }

  /** The name is past the local plane, tainted, and nothing is published at its owner. */
  ghost predicate Tainted(snap: Snapshot, z: Zone, name: Name, apex: Name) {
    && Longest(name, snap.site.apexes) == Some(apex) && Under(name, apex)
    && apex in snap.zones && snap.zones[apex] == Some(z)
    && L.Stripped(name, L.LOCAL).None? && L.Stripped(name, snap.site.localDomain).None?
    && L.Recovered(snap.site, name).tainted
    && !Exact(z, Owner(name, apex)) && Owner(name, apex) !in z.ent
  }

  lemma TaintedRoute(snap: Snapshot, view: M.View, z: Zone, name: Name, apex: Name)
    requires BareKeys(view) && Tainted(snap, z, name, apex)
    ensures var rec := L.Recovered(snap.site, name);
      RouteOf(snap, Some(view), name, apex) == if rec.ok then Recover(rec.host, view) else Gone
  {
    TaintedIsDeep(snap.site, name, apex);
    TextDotted(Owner(name, apex));
    assert L.ForwardOf(view, Text(Owner(name, apex))) == [];
  }

  lemma TaintedReply(snap: Snapshot, view: M.View, z: Zone, name: Name, apex: Name, qtype: nat, o1: Order, o2: Order)
    requires BareKeys(view) && Tainted(snap, z, name, apex) && SoaFits(z)
    ensures RouteOf(snap, Some(view), name, apex).Recover? || RouteOf(snap, Some(view), name, apex).Gone?
    ensures ZoneReply(snap, Some(view), name, apex, qtype, o1, o2) == LocalOnly(snap, view, z, name, qtype)
  {
    TaintedRoute(snap, view, z, name, apex);
  }

  /** A tainted name with no record, flattened address or name below it at its owner is answered from the
      local plane or not at all: never with the zone's wildcard data. */
  lemma TaintedIsNotWild(snap: Snapshot, other: Snapshot, view: M.View, z: Zone, y: Zone, name: Name, apex: Name,
                         qtype: nat, o1: Order, o2: Order, p1: Order, p2: Order)
    requires BareKeys(view) && Tainted(snap, z, name, apex) && SoaFits(z) && SameButWild(z, y)
    requires other == snap.(zones := snap.zones[apex := Some(y)])
    ensures RouteOf(snap, Some(view), name, apex).Recover? || RouteOf(snap, Some(view), name, apex).Gone?
    ensures ZoneReply(snap, Some(view), name, apex, qtype, o1, o2)
      == ZoneReply(other, Some(view), name, apex, qtype, p1, p2)
  {
    TaintedIsDeep(snap.site, name, apex);
    assert Owner(name, apex) != WILD;
    assert Tainted(other, y, name, apex);
    TaintedReply(snap, view, z, name, apex, qtype, o1, o2);
    TaintedReply(other, view, y, name, apex, qtype, p1, p2);
    RecoveredSame(snap, other, view, z, y, name, qtype);
  }
}
