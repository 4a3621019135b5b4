/** What authoritative answers say about which names exist (internal/resolver/zone.go:14-132,
    internal/mirror/mirror.go:110-125). */
module ZoneFacts {
  import opened Options
  import opened Names
  import opened Messages
  import opened Replies
  import opened Zones
  import opened ZoneAnswer
  import opened RecencyList

  /** The answer is empty exactly when the authority section is exactly the zone's negative SOA, and the
      authority section is otherwise empty. */
  ghost predicate Coherent(z: Zone, r: Reply)
    requires SoaFits(z)
  {
    r.ns == if r.answer == [] then Authority(z.soa, z.apex) else []
  }

  lemma {:induction false} EnumeratedSome(sets: RRsets, order: Order, skip: set<nat>, name: Name, t: nat)
    requires GoodSets(sets) && t in sets && t in Elements(order) && t !in skip
    ensures Enumerated(sets, order, skip, name) != []
  {
    if order.head == t {
      MatchingAll(sets[t], name, t);
    } else {
      EnumeratedSome(sets, order.tail, skip, name, t);
    }
  }

  lemma EnumeratedAll(sets: RRsets, order: Order, name: Name)
    requires GoodSets(sets) && sets != map[] && Visits(order, sets)
    ensures Enumerated(sets, order, {}, name) != []
  {
    assert sets.Keys != {};
    var t :| t in sets;
    EnumeratedSome(sets, order, {}, name, t);
  }

  lemma MatchingSome(sets: RRsets, name: Name, t: nat)
    requires GoodSets(sets) && Of(sets, t) != []
    ensures Matching(Of(sets, t), name, t) != []
  {
    MatchingAll(sets[t], name, t);
  }

  lemma GoodAt(z: Zone, owner: Name)
    requires WellFormed(z)
    ensures GoodSets(RecordsAt(z, owner)) && GoodSets(TunnelAt(z, owner))
    ensures owner in z.records ==> RecordsAt(z, owner) != map[]
    ensures owner in z.tunnel ==> TunnelAt(z, owner) != map[]
  {
  }

  lemma ChasedSome(z: Zone, owner: Name, name: Name, qtype: nat)
    requires WellFormed(z) && Of(RecordsAt(z, owner), CNAME) != []
    ensures Chased(z, owner, name, qtype, 0) != []
  {
    GoodAt(z, owner);
    MatchingSome(RecordsAt(z, owner), name, CNAME);
  }

  lemma OwnSome(z: Zone, name: Name, owner: Name, qtype: nat)
    requires WellFormed(z) && Own(z, name, owner, qtype).Some?
    ensures Own(z, name, owner, qtype).value != [] && Exact(z, owner)
  {
    GoodAt(z, owner);
    var recs, tun := RecordsAt(z, owner), TunnelAt(z, owner);
    if Of(recs, qtype) != [] {
      MatchingSome(recs, name, qtype);
    } else if IsAddress(qtype) && Of(tun, qtype) != [] {
      MatchingSome(tun, name, qtype);
    } else {
      ChasedSome(z, owner, name, qtype);
    }
  }

  predicate HasWild(z: Zone) {
    z.wildcards != map[] || TunnelAt(z, WILD) != map[]
  }

  /** Whether a name exists, in the zone's eyes. */
  function CodeAt(z: Zone, owner: Name): (rcode: nat) {
    if Exact(z, owner) || owner in z.ent || HasWild(z) then NOERROR else NXDOMAIN
  }

  lemma WildCoherent(z: Zone, name: Name, qtype: nat, o1: Order, o2: Order)
    requires WellFormed(z) && Visits(o1, z.wildcards) && Visits(o2, TunnelAt(z, WILD))
    ensures Coherent(z, Wild(z, name, qtype, o1, o2))
    ensures Wild(z, name, qtype, o1, o2).rcode == if HasWild(z) then NOERROR else NXDOMAIN
  {
    GoodAt(z, WILD);
    var wt, wc := TunnelAt(z, WILD), z.wildcards;
    if qtype == ANY {
      if wt != map[] {
        EnumeratedAll(wt, o2, name);
      } else if wc != map[] {
        EnumeratedAll(wc, o1, name);
      }
    } else if IsAddress(qtype) && Of(wt, qtype) != [] {
      MatchingSome(wt, name, qtype);
    } else if Of(wc, qtype) != [] {
      MatchingSome(wc, name, qtype);
    }
  }

  /** For every type the code is that of the owner, and the reply is coherent. */
  lemma AuthoritativeCoherent(z: Zone, name: Name, owner: Name, qtype: nat, o1: Order, o2: Order)
    requires WellFormed(z) && Orders(z, owner, o1, o2)
    ensures Coherent(z, Authoritative(z, name, owner, qtype, o1, o2))
    ensures Authoritative(z, name, owner, qtype, o1, o2).rcode == CodeAt(z, owner)
  {
    GoodAt(z, owner);
    if qtype == ANY && Exact(z, owner) {
      if owner in z.tunnel {
        EnumeratedAll(TunnelAt(z, owner), o2, name);
      } else {
        EnumeratedAll(RecordsAt(z, owner), o1, name);
      }
    } else if Own(z, name, owner, qtype).Some? {
      OwnSome(z, name, owner, qtype);
    } else if !Exact(z, owner) && owner !in z.ent {
      WildCoherent(z, name, qtype, o1, o2);
    }
  }

  // ---- what is answered ----

  /** The zone itself holds the record, under some owner. */
  ghost predicate FromZone(z: Zone, rr: RR) {
    || (exists o, t :: HoldsAs(RecordsAt(z, o), t, rr))
    || (exists o, t :: HoldsAs(TunnelAt(z, o), t, rr))
    || (exists t :: HoldsAs(z.wildcards, t, rr))
  }

  ghost predicate HoldsAs(sets: RRsets, t: nat, rr: RR) {
    exists i :: 0 <= i < |Of(sets, t)| && Of(sets, t)[i].(name := rr.name) == rr
  }

  /** The records are of the type asked or aliases, and the zone holds them all. */
  ghost predicate Sound(z: Zone, qtype: nat, rrs: seq<RR>) {
    forall i :: 0 <= i < |rrs| ==> (rrs[i].typ == qtype || rrs[i].typ == CNAME) && FromZone(z, rrs[i])
  }

  lemma {:induction false} MatchingIs(recs: seq<RR>, name: Name, t: nat, k: nat)
    requires t != ANY && k < |Matching(recs, name, t)|
    ensures var rr := Matching(recs, name, t)[k];
      rr.typ == t && rr.name == name && exists i :: 0 <= i < |recs| && recs[i].(name := name) == rr
  {
    var n := |recs| - 1;
    if k < |Matching(recs[..n], name, t)| {
      MatchingIs(recs[..n], name, t, k);
      var i :| 0 <= i < n && recs[..n][i].(name := name) == Matching(recs, name, t)[k];
      assert recs[i].(name := name) == Matching(recs, name, t)[k];
    } else {
      assert recs[n].(name := name) == Matching(recs, name, t)[k];
    }
  }

  lemma MatchingHolds(sets: RRsets, name: Name, t: nat)
    requires t != ANY
    ensures forall k :: 0 <= k < |Matching(Of(sets, t), name, t)| ==>
      Matching(Of(sets, t), name, t)[k].typ == t && HoldsAs(sets, t, Matching(Of(sets, t), name, t)[k])
  {
    forall k | 0 <= k < |Matching(Of(sets, t), name, t)|
      ensures Matching(Of(sets, t), name, t)[k].typ == t && HoldsAs(sets, t, Matching(Of(sets, t), name, t)[k])
    {
      MatchingIs(Of(sets, t), name, t, k);
    }
  }

  lemma {:induction false} ChasedSound(z: Zone, owner: Name, name: Name, qtype: nat, depth: nat)
    requires qtype != ANY
    ensures Sound(z, qtype, Chased(z, owner, name, qtype, depth))
    decreases MAX_CNAME_CHAIN + 1 - depth, 1
  {
    var cn := Of(RecordsAt(z, owner), CNAME);
    if depth <= MAX_CNAME_CHAIN && cn != [] {
      MatchingHolds(RecordsAt(z, owner), name, CNAME);
      OnwardSound(z, TargetOf(cn[0]), qtype, depth);
    }
  }

  lemma {:induction false} OnwardSound(z: Zone, target: Name, qtype: nat, depth: nat)
    requires qtype != ANY && depth <= MAX_CNAME_CHAIN
    ensures Sound(z, qtype, Onward(z, target, qtype, depth))
    decreases MAX_CNAME_CHAIN + 1 - depth, 0
  {
    if Under(target, z.apex) {
      var o := Owner(target, z.apex);
      MatchingHolds(RecordsAt(z, o), target, qtype);
      MatchingHolds(TunnelAt(z, o), target, qtype);
      ChasedSound(z, o, target, qtype, depth + 1);
    }
  }

  lemma OwnSound(z: Zone, name: Name, owner: Name, qtype: nat)
    requires qtype != ANY && Own(z, name, owner, qtype).Some?
    ensures Sound(z, qtype, Own(z, name, owner, qtype).value)
  {
    MatchingHolds(RecordsAt(z, owner), name, qtype);
    MatchingHolds(TunnelAt(z, owner), name, qtype);
    ChasedSound(z, owner, name, qtype, 0);
  }

  /** Every record answered is one the zone holds, of the type asked or an alias on the way to it. */
  lemma AnswerSound(z: Zone, name: Name, owner: Name, qtype: nat, o1: Order, o2: Order)
    requires SoaFits(z) && qtype != ANY
    ensures Sound(z, qtype, Authoritative(z, name, owner, qtype, o1, o2).answer)
  {
    if Own(z, name, owner, qtype).Some? {
      OwnSound(z, name, owner, qtype);
    } else {
      MatchingHolds(TunnelAt(z, WILD), name, qtype);
      MatchingHolds(z.wildcards, name, qtype);
    }
  }

  // ---- the NXDOMAIN cut ----

  /** In a built zone, a name other than the apex that does not exist has no owner at or below it. */
  lemma NxdomainCut(apex: Name, recs: seq<Fetched>, resolve: Resolver, suffixes: set<Name>, name: Name, owner: Name,
                    qtype: nat, o1: Order, o2: Order)
    requires RealTypes(recs) && owner != []
    requires var z := Built(apex, recs, resolve, suffixes); Orders(z, owner, o1, o2)
    requires Authoritative(Built(apex, recs, resolve, suffixes), name, owner, qtype, o1, o2).rcode == NXDOMAIN
    ensures forall o :: o in Built(apex, recs, resolve, suffixes).records ==> !Below(o, owner)
  {
    var z := Built(apex, recs, resolve, suffixes);
    BuiltWellFormed(apex, recs, resolve, suffixes);
    AuthoritativeCoherent(z, name, owner, qtype, o1, o2);
    forall o | o in z.records ensures !Below(o, owner) {
      if Below(o, owner) { InteriorKnown(z.records, o, owner); }
    }
  }

  lemma NoApexInterior(records: map<Name, RRsets>)
    ensures [] !in Interior(records)
  {
  }

  /** At the apex NXDOMAIN means no owner is below exactly when the apex has data of its own, the zone has a
      wildcard, or there is no owner at all. */
  lemma NxdomainAtApex(apex: Name, recs: seq<Fetched>, resolve: Resolver, suffixes: set<Name>, z: Zone, qtype: nat,
                       o1: Order, o2: Order)
    requires RealTypes(recs) && z == Built(apex, recs, resolve, suffixes) && Orders(z, [], o1, o2)
    ensures (Authoritative(z, apex, [], qtype, o1, o2).rcode == NXDOMAIN ==>
               forall o :: o in z.records ==> !Below(o, []))
      <==> Exact(z, []) || HasWild(z) || z.records == map[]
    ensures (Authoritative(z, apex, [], qtype, o1, o2).rcode == NXDOMAIN ==>
               forall o :: o in z.records || o in z.tunnel ==> !Below(o, []))
      <==> Exact(z, []) || HasWild(z) || (z.records == map[] && z.tunnel == map[])
  {
    BuiltWellFormed(apex, recs, resolve, suffixes);
    AuthoritativeCoherent(z, apex, [], qtype, o1, o2);
    NoApexInterior(z.records);
    BelowApex(z.records);
    BelowApex(z.tunnel);
  }

  lemma BelowApex(m: map<Name, RRsets>)
    ensures m != map[] ==> exists o :: o in m && Below(o, [])
  {
    if m != map[] {
      var o :| o in m.Keys;
      assert o in m && Below(o, []);
    }
  }

  /** Counting flattened owners too, NXDOMAIN at any other name means nothing is at or below it exactly when
      the name exists after all, the zone has a wildcard, or no flattened owner is there. */
  lemma NxdomainCutAll(apex: Name, recs: seq<Fetched>, resolve: Resolver, suffixes: set<Name>, z: Zone, name: Name,
                       owner: Name, qtype: nat, o1: Order, o2: Order)
    requires RealTypes(recs) && z == Built(apex, recs, resolve, suffixes) && owner != [] && Orders(z, owner, o1, o2)
    ensures (Authoritative(z, name, owner, qtype, o1, o2).rcode == NXDOMAIN ==>
               forall o :: o in z.records || o in z.tunnel ==> !Below(o, owner))
      <==> Exact(z, owner) || owner in z.ent || HasWild(z) || forall o :: o in z.tunnel ==> !Below(o, owner)
  {
    BuiltWellFormed(apex, recs, resolve, suffixes);
    AuthoritativeCoherent(z, name, owner, qtype, o1, o2);
    forall o | o in z.records && !Exact(z, owner) && owner !in z.ent ensures !Below(o, owner) {
      if Below(o, owner) { InteriorKnown(z.records, o, owner); }
    }
  }

  lemma DraftedOne(f: Fetched, apex: Name, suffixes: set<Name>)
    ensures Drafted([f], apex, suffixes) == Collected(Draft(map[], map[], {}), f, apex, suffixes)
  {
    assert [f][..0] == [];
  }

  /** A zone of one record at a single label. */
  lemma OneRecord(apex: Name, o: Label, rr: RR, resolve: Resolver)
    requires apex != [] && o != "*"
    ensures var z := Built(apex, [Fetched([o] + apex, Some(rr))], resolve, {});
      z.records.Keys == {[o]} && z.wildcards == map[] && z.ent == {} && z.tunnel == map[]
  {
    var f := Fetched([o] + apex, Some(rr));
    assert f.name[1..] == apex && f.name[..1] == [o];
    DraftedOne(f, apex, {});
  }

  /** A zone that is one flattened alias. */
  lemma OneTunnel(apex: Name, o: Name, rr: RR, resolve: Resolver, suffixes: set<Name>)
    requires apex != [] && o != [] && TunnelTarget(rr, suffixes)
    ensures var z := Built(apex, [Fetched(o + apex, Some(rr))], resolve, suffixes);
      z.records == map[] && z.wildcards == map[] && z.ent == {} && z.tunnel == Tunnels({o}, resolve)
  {
    var f := Fetched(o + apex, Some(rr));
    assert f.name[|o|..] == apex && f.name[..|o|] == o;
    DraftedOne(f, apex, suffixes);
  }

  /** A zone whose apex has no records does not exist at the apex, though names below it do. */
  lemma ApexNotCut(apex: Name, o: Label, rr: RR, resolve: Resolver)
    requires apex != [] && o != "*" && rr.typ == A
    ensures var z := Built(apex, [Fetched([o] + apex, Some(rr))], resolve, {});
      && Authoritative(z, apex, [], A, Nil, Nil).rcode == NXDOMAIN
      && [o] in z.records && Below([o], [])
  {
    OneRecord(apex, o, rr, resolve);
  }

  /** A name whose only descendant is a flattened alias does not exist, though the descendant does. */
  lemma TunnelNotCut(apex: Name, a: Label, b: Label, rr: RR, addr: nat, suffixes: set<Name>)
    requires apex != [] && b != "*" && TunnelTarget(rr, suffixes)
    ensures var z := Built(apex, [Fetched([a, b] + apex, Some(rr))], _ => Some(([addr], [])), suffixes);
      && Authoritative(z, [b] + apex, [b], A, Nil, Nil).rcode == NXDOMAIN
      && Authoritative(z, [a, b] + apex, [a, b], A, Nil, Nil).answer != []
      && Below([a, b], [b])
  {
    var resolve: Resolver := _ => Some(([addr], []));
    OneTunnel(apex, [a, b], rr, resolve, suffixes);
    var z := Built(apex, [Fetched([a, b] + apex, Some(rr))], resolve, suffixes);
    assert resolve([a, b]) == Some(([addr], []));
    assert A in Flattened([addr], []);
    assert [a, b] in z.tunnel && Of(TunnelAt(z, [a, b]), A) == AddressRecords([addr], A);
    MatchingAll(AddressRecords([addr], A), [a, b] + apex, A);
    assert [a, b][1..] == [b];
  }

  // ---- wildcard data ----

  /** The zones differ in their wildcard data only. */
  ghost predicate SameButWild(z: Zone, y: Zone) {
    && z.apex == y.apex && z.soa == y.soa && z.records == y.records && z.ent == y.ent
    && forall o :: o != WILD ==> (o in z.tunnel <==> o in y.tunnel) && TunnelAt(z, o) == TunnelAt(y, o)
  }

  /** The chase, from a target, asks the wildcard owner for its flattened addresses. */
  predicate MeetsWild(z: Zone, target: Name, qtype: nat, depth: nat)
    requires depth <= MAX_CNAME_CHAIN
    decreases MAX_CNAME_CHAIN - depth
  {
    Under(target, z.apex) &&
    var o := Owner(target, z.apex);
    var cn := Of(RecordsAt(z, o), CNAME);
    && Of(RecordsAt(z, o), qtype) == []
    && (|| o == WILD
        || (&& Of(TunnelAt(z, o), qtype) == [] && cn != [] && depth < MAX_CNAME_CHAIN
            && MeetsWild(z, TargetOf(cn[0]), qtype, depth + 1)))
  }

  /** The owner has no address of the type itself, and its alias chain arrives at the wildcard. */
  predicate AliasesWild(z: Zone, owner: Name, qtype: nat) {
    var recs := RecordsAt(z, owner);
    && IsAddress(qtype) && Of(recs, qtype) == [] && Of(TunnelAt(z, owner), qtype) == []
    && Of(recs, CNAME) != [] && MeetsWild(z, TargetOf(Of(recs, CNAME)[0]), qtype, 0)
  }

  lemma {:induction false} ChasedSame(z: Zone, y: Zone, owner: Name, name: Name, qtype: nat, depth: nat)
    requires SameButWild(z, y)
    requires var cn := Of(RecordsAt(z, owner), CNAME);
      depth <= MAX_CNAME_CHAIN && cn != [] && IsAddress(qtype) ==> !MeetsWild(z, TargetOf(cn[0]), qtype, depth)
    ensures Chased(z, owner, name, qtype, depth) == Chased(y, owner, name, qtype, depth)
    decreases MAX_CNAME_CHAIN + 1 - depth, 1
  {
    var cn := Of(RecordsAt(z, owner), CNAME);
    if depth <= MAX_CNAME_CHAIN && cn != [] { OnwardSame(z, y, TargetOf(cn[0]), qtype, depth); }
  }

  lemma {:induction false} OnwardSame(z: Zone, y: Zone, target: Name, qtype: nat, depth: nat)
    requires SameButWild(z, y) && depth <= MAX_CNAME_CHAIN
    requires IsAddress(qtype) ==> !MeetsWild(z, target, qtype, depth)
    ensures Onward(z, target, qtype, depth) == Onward(y, target, qtype, depth)
    decreases MAX_CNAME_CHAIN + 1 - depth, 0
  {
    if Under(target, z.apex) {
      var o := Owner(target, z.apex);
      assert RecordsAt(z, o) == RecordsAt(y, o);
      if Of(RecordsAt(z, o), qtype) == [] && !(IsAddress(qtype) && Of(TunnelAt(z, o), qtype) != []) {
        ChasedSame(z, y, o, target, qtype, depth + 1);
      }
    }
  }

  /** The other zone has one more flattened address of a type at its wildcard. */
  ghost predicate Wider(z: Zone, y: Zone, rr: RR) {
    SameButWild(z, y) && Of(TunnelAt(y, WILD), rr.typ) == Of(TunnelAt(z, WILD), rr.typ) + [rr]
  }

  lemma OwnersWith(m: map<Name, RRsets>, o: Name, sets: RRsets)
    requires GoodOwners(m) && GoodSets(sets) && sets != map[]
    ensures GoodOwners(m[o := sets])
  {
  }

  lemma HasWider(z: Zone, rr: RR) returns (y: Zone)
    requires WellFormed(z) && IsAddress(rr.typ)
    ensures WellFormed(y) && Wider(z, y, rr)
  {
    GoodAt(z, WILD);
    var sets := Added(TunnelAt(z, WILD), rr);
    AddedGood(TunnelAt(z, WILD), rr);
    assert rr.typ in sets;
    y := z.(tunnel := z.tunnel[WILD := sets]);
    WithWild(z, sets, y);
  }

  lemma WithWild(z: Zone, sets: RRsets, y: Zone)
    requires WellFormed(z) && GoodSets(sets) && sets != map[] && sets.Keys <= {A, AAAA}
    requires y == z.(tunnel := z.tunnel[WILD := sets])
    ensures WellFormed(y) && SameButWild(z, y) && TunnelAt(y, WILD) == sets
  {
    OwnersWith(z.tunnel, WILD, sets);
    OtherTunnels(z.tunnel, sets, y.tunnel);
  }

  lemma OtherTunnels(m: map<Name, RRsets>, sets: RRsets, n: map<Name, RRsets>)
    requires n == m[WILD := sets]
    ensures forall o :: o != WILD ==> (o in m <==> o in n) && (o in m ==> m[o] == n[o])
  {
  }

  lemma MatchingMore(recs: seq<RR>, rr: RR, name: Name, t: nat)
    requires rr.typ == t
    ensures Matching(recs + [rr], name, t) == Matching(recs, name, t) + [rr.(name := name)]
  {
    assert (recs + [rr])[..|recs|] == recs;
  }

  predicate EndsWith(rrs: seq<RR>, data: Data) {
    rrs != [] && rrs[|rrs|-1].data == data
  }

  lemma WiderAtWild(z: Zone, y: Zone, rr: RR, target: Name, depth: nat)
    requires Wider(z, y, rr) && IsAddress(rr.typ) && depth <= MAX_CNAME_CHAIN
    requires Under(target, z.apex) && Owner(target, z.apex) == WILD && Of(RecordsAt(z, WILD), rr.typ) == []
    ensures EndsWith(Onward(y, target, rr.typ, depth), rr.data)
  {
    MatchingMore(Of(TunnelAt(z, WILD), rr.typ), rr, target, rr.typ);
    assert Onward(y, target, rr.typ, depth) == Matching(Of(TunnelAt(y, WILD), rr.typ), target, rr.typ);
  }

  /** A chase that meets the wildcard ends with the address added there. */
  lemma {:induction false} WiderOnward(z: Zone, y: Zone, rr: RR, target: Name, depth: nat)
    requires Wider(z, y, rr) && IsAddress(rr.typ) && depth <= MAX_CNAME_CHAIN && MeetsWild(z, target, rr.typ, depth)
    ensures EndsWith(Onward(y, target, rr.typ, depth), rr.data)
    decreases MAX_CNAME_CHAIN - depth
  {
    var o := Owner(target, z.apex);
    if o == WILD {
      WiderAtWild(z, y, rr, target, depth);
    } else {
      var cn := Of(RecordsAt(z, o), CNAME);
      WiderOnward(z, y, rr, TargetOf(cn[0]), depth + 1);
      OneStep(z, y, rr, target, o, depth);
    }
  }

  /** An alias between the target and the wildcard only adds itself in front. */
  lemma OneStep(z: Zone, y: Zone, rr: RR, target: Name, o: Name, depth: nat)
    requires Wider(z, y, rr) && IsAddress(rr.typ) && depth < MAX_CNAME_CHAIN
    requires Under(target, z.apex) && o == Owner(target, z.apex) && o != WILD
    requires Of(RecordsAt(z, o), rr.typ) == [] && Of(TunnelAt(z, o), rr.typ) == [] && Of(RecordsAt(z, o), CNAME) != []
    requires EndsWith(Onward(y, TargetOf(Of(RecordsAt(z, o), CNAME)[0]), rr.typ, depth + 1), rr.data)
    ensures EndsWith(Onward(y, target, rr.typ, depth), rr.data)
  {
    var cn := Of(RecordsAt(z, o), CNAME);
    assert RecordsAt(y, o) == RecordsAt(z, o) && TunnelAt(y, o) == TunnelAt(z, o);
    assert Onward(y, target, rr.typ, depth) == Chased(y, o, target, rr.typ, depth + 1);
    assert Chased(y, o, target, rr.typ, depth + 1)
      == Matching(cn, target, CNAME) + Onward(y, TargetOf(cn[0]), rr.typ, depth + 1);
  }

  /** So zones that differ only there are told apart. */
  lemma WiderAnswer(z: Zone, y: Zone, rr: RR, name: Name, owner: Name, o1: Order, o2: Order)
    requires SoaFits(z) && Wider(z, y, rr) && owner != WILD && AliasesWild(z, owner, rr.typ)
    ensures EndsWith(Authoritative(y, name, owner, rr.typ, o1, o2).answer, rr.data)
  {
    var cn := Of(RecordsAt(z, owner), CNAME);
    assert RecordsAt(y, owner) == RecordsAt(z, owner) && TunnelAt(y, owner) == TunnelAt(z, owner);
    WiderOnward(z, y, rr, TargetOf(cn[0]), 0);
    assert Chased(y, owner, name, rr.typ, 0) == Matching(cn, name, CNAME) + Onward(y, TargetOf(cn[0]), rr.typ, 0);
    assert Own(y, name, owner, rr.typ) == Some(Chased(y, owner, name, rr.typ, 0));
  }

  lemma WildIsServed(z: Zone, name: Name, owner: Name, qtype: nat, o1: Order, o2: Order) returns (x: Zone, y: Zone)
    requires WellFormed(z) && owner != WILD && AliasesWild(z, owner, qtype)
    ensures WellFormed(x) && WellFormed(y) && SameButWild(z, x) && SameButWild(z, y)
    ensures Authoritative(x, name, owner, qtype, o1, o2) != Authoritative(y, name, owner, qtype, o1, o2)
  {
    var p, q := RR([], qtype, 300, Address(0)), RR([], qtype, 300, Address(1));
    x := HasWider(z, p);
    y := HasWider(z, q);
    WiderAnswer(z, x, p, name, owner, o1, o2);
    WiderAnswer(z, y, q, name, owner, o1, o2);
  }

  /** The answer does not depend on the zone's wildcard data. */
  ghost predicate WildFree(z: Zone, name: Name, owner: Name, qtype: nat, o1: Order, o2: Order)
    requires SoaFits(z)
  {
    forall y :: WellFormed(y) && SameButWild(z, y) ==>
      Authoritative(y, name, owner, qtype, o1, o2) == Authoritative(z, name, owner, qtype, o1, o2)
  }

  /** A name with records or flattened addresses, or with owners below it, gets no wildcard data exactly when
      its own alias chain does not arrive at the wildcard in search of an address. */
  lemma ExistingIsNotWild(z: Zone, name: Name, owner: Name, qtype: nat, o1: Order, o2: Order)
    requires WellFormed(z) && owner != WILD && (Exact(z, owner) || owner in z.ent)
    ensures WildFree(z, name, owner, qtype, o1, o2) <==> !AliasesWild(z, owner, qtype)
  {
    if AliasesWild(z, owner, qtype) {
      var x, y := WildIsServed(z, name, owner, qtype, o1, o2);
    } else {
      forall y | WellFormed(y) && SameButWild(z, y)
        ensures Authoritative(y, name, owner, qtype, o1, o2) == Authoritative(z, name, owner, qtype, o1, o2)
      {
        AnswerSame(z, y, name, owner, qtype, o1, o2);
      }
    }
  }

  lemma AnswerSame(z: Zone, y: Zone, name: Name, owner: Name, qtype: nat, o1: Order, o2: Order)
    requires SoaFits(z) && SameButWild(z, y) && owner != WILD && (Exact(z, owner) || owner in z.ent)
    requires !AliasesWild(z, owner, qtype)
    ensures Authoritative(y, name, owner, qtype, o1, o2) == Authoritative(z, name, owner, qtype, o1, o2)
  {
    OwnSame(z, y, name, owner, qtype);
  }

  lemma OwnSame(z: Zone, y: Zone, name: Name, owner: Name, qtype: nat)
    requires SameButWild(z, y) && owner != WILD && !AliasesWild(z, owner, qtype)
    ensures Own(z, name, owner, qtype) == Own(y, name, owner, qtype)
  {
    var recs, tun := RecordsAt(z, owner), TunnelAt(z, owner);
    if Of(recs, qtype) == [] && !(IsAddress(qtype) && Of(tun, qtype) != []) {
      ChasedSame(z, y, owner, name, qtype, 0);
    }
  }

  /** A built zone in which an alias for the wildcard is answered with the wildcard's flattened address. */
  lemma AliasGetsWild(apex: Name, a: Label, alias: RR, star: RR, addr: nat, suffixes: set<Name>, z: Zone)
    requires apex != [] && a != "*" && alias.typ == CNAME && alias.data == Target(WILD + apex)
    requires !TunnelTarget(alias, suffixes) && TunnelTarget(star, suffixes)
    requires z == Built(apex, [Fetched([a] + apex, Some(alias)), Fetched(WILD + apex, Some(star))],
                        _ => Some(([addr], [])), suffixes)
    ensures Exact(z, [a]) && AliasesWild(z, [a], A)
    ensures RR(WILD + apex, A, 300, Address(addr)) in Authoritative(z, [a] + apex, [a], A, Nil, Nil).answer
  {
    AliasZone(apex, a, alias, star, addr, suffixes, z);
    var list, target := AddressRecords([addr], A), WILD + apex;
    assert target[1..] == apex && target[..1] == WILD;
    MatchingMore([], list[0], target, A);
    assert [] + [list[0]] == list;
    var onward := Onward(z, target, A, 0);
    assert onward == [RR(target, A, 300, Address(addr))];
    assert Chased(z, [a], [a] + apex, A, 0) == Matching([alias], [a] + apex, CNAME) + onward;
    assert onward[0] in Chased(z, [a], [a] + apex, A, 0);
  }

  lemma AliasZone(apex: Name, a: Label, alias: RR, star: RR, addr: nat, suffixes: set<Name>, z: Zone)
    requires apex != [] && a != "*" && alias.typ == CNAME
    requires !TunnelTarget(alias, suffixes) && TunnelTarget(star, suffixes)
    requires z == Built(apex, [Fetched([a] + apex, Some(alias)), Fetched(WILD + apex, Some(star))],
                        _ => Some(([addr], [])), suffixes)
    ensures z.apex == apex && SoaFits(z) && z.records.Keys == {[a]}
    ensures Of(RecordsAt(z, [a]), CNAME) == [alias] && Of(RecordsAt(z, [a]), A) == []
    ensures z.tunnel.Keys == {WILD} && Of(TunnelAt(z, WILD), A) == AddressRecords([addr], A)
  {
    var f, g := Fetched([a] + apex, Some(alias)), Fetched(WILD + apex, Some(star));
    var resolve: Resolver := _ => Some(([addr], []));
    assert f.name[1..] == apex && f.name[..1] == [a] && g.name[1..] == apex && g.name[..1] == WILD;
    assert [f, g][..1] == [f];
    DraftedOne(f, apex, suffixes);
    var none: RRsets := map[];
    assert Of(none, CNAME) + [alias] == [alias];
    assert resolve(WILD) == Some(([addr], [])) && A in Flattened([addr], []);
  }
}
