/** Answering from an authoritative zone (internal/resolver/zone.go). Where the code ranges over a map of
    record sets, the order it happens to visit them in is a parameter. */
module ZoneAnswer {
  import opened Options
  import opened Names
  import opened Messages
  import opened Replies
  import opened Zones
  import opened RecencyList

  datatype Reply = Reply(rcode: nat, answer: seq<RR>, ns: seq<RR>)

  function Positive(answer: seq<RR>): (r: Reply) {
    Reply(NOERROR, answer, [])
  }

  /** The zone's SOA, if it has one, is one. */
  predicate SoaFits(z: Zone) {
    z.soa.Some? ==> z.soa.value.data.Soa?
  }

  /** The name exists but not with this type; or does not exist. */
  function Negative(z: Zone, rcode: nat): (r: Reply)
    requires SoaFits(z)
  {
    Reply(rcode, [], Authority(z.soa, z.apex))
  }

  predicate IsAddress(qtype: nat) {
    qtype == A || qtype == AAAA
  }

  /** An order in which the types of a map are visited, the last one first. */
  type Order = List<nat>

  /** The records of every type in the order visited, but for the types skipped. */
  function Enumerated(sets: RRsets, order: Order, skip: set<nat>, name: Name): (r: seq<RR>) {
    if order.Nil? then []
    else
      var before := Enumerated(sets, order.tail, skip, name);
      if order.head in skip then before else before + Matching(Of(sets, order.head), name, order.head)
  }

  /** The order visits every type of the sets. */
  ghost predicate Visits(order: Order, sets: RRsets) {
    Elements(order) == sets.Keys
  }

  /** wildcardOrNX. */
  function Wild(z: Zone, name: Name, qtype: nat, o1: Order, o2: Order): (r: Reply)
    requires SoaFits(z)
  {
    var wt, wc := TunnelAt(z, WILD), z.wildcards;
    if qtype == ANY then
      if wc == map[] && wt == map[] then Negative(z, NXDOMAIN)
      else Positive(Enumerated(wc, o1, if wt != map[] then {CNAME} else {}, name) + Enumerated(wt, o2, {}, name))
    else if IsAddress(qtype) && Of(wt, qtype) != [] then Positive(Matching(Of(wt, qtype), name, qtype))
    else if Of(wc, qtype) != [] then Positive(Matching(Of(wc, qtype), name, qtype))
    else if wc != map[] || wt != map[] then Negative(z, NOERROR)
    else Negative(z, NXDOMAIN)
  }

  const MAX_CNAME_CHAIN: nat := 8

  /** targetOf. */
  function TargetOf(rr: RR): (n: Name) {
    if rr.data.Target? then rr.data.target else []
  }

  /** chaseCNAME: the CNAME records here, and what they lead to inside the zone. */
  function Chased(z: Zone, owner: Name, name: Name, qtype: nat, depth: nat): (r: seq<RR>)
    decreases MAX_CNAME_CHAIN + 1 - depth, 1
  {
    var cn := Of(RecordsAt(z, owner), CNAME);
    if depth > MAX_CNAME_CHAIN || cn == [] then []
    else Matching(cn, name, CNAME) + Onward(z, TargetOf(cn[0]), qtype, depth)
  }

  function Onward(z: Zone, target: Name, qtype: nat, depth: nat): (r: seq<RR>)
    requires depth <= MAX_CNAME_CHAIN
    decreases MAX_CNAME_CHAIN + 1 - depth, 0
  {
    if !Under(target, z.apex) then []
    else
      var o := Owner(target, z.apex);
      if Of(RecordsAt(z, o), qtype) != [] then Matching(Of(RecordsAt(z, o), qtype), target, qtype)
      else if IsAddress(qtype) && Of(TunnelAt(z, o), qtype) != [] then
        Matching(Of(TunnelAt(z, o), qtype), target, qtype)
      else if Of(RecordsAt(z, o), CNAME) != [] then Chased(z, o, target, qtype, depth + 1)
      else []
  }

  predicate Exact(z: Zone, owner: Name) {
    owner in z.records || owner in z.tunnel
  }

  /** The owner's own records of the type, its flattened addresses, or its CNAME chased. */
  function Own(z: Zone, name: Name, owner: Name, qtype: nat): (r: Option<seq<RR>>) {
    var recs, tun := RecordsAt(z, owner), TunnelAt(z, owner);
    if Of(recs, qtype) != [] then Some(Matching(Of(recs, qtype), name, qtype))
    else if IsAddress(qtype) && Of(tun, qtype) != [] then Some(Matching(Of(tun, qtype), name, qtype))
    else if qtype != CNAME && (IsAddress(qtype) || owner != []) && Of(recs, CNAME) != [] then
      Some(Chased(z, owner, name, qtype, 0))
    else None
  }

  /** answerAuthoritative. */
  function Authoritative(z: Zone, name: Name, owner: Name, qtype: nat, o1: Order, o2: Order): (r: Reply)
    requires SoaFits(z)
  {
    var recs, tun := RecordsAt(z, owner), TunnelAt(z, owner);
    if qtype == ANY && Exact(z, owner) then
      Positive(Enumerated(recs, o1, if owner in z.tunnel then {CNAME} else {}, name) + Enumerated(tun, o2, {}, name))
    else if Own(z, name, owner, qtype).Some? then Positive(Own(z, name, owner, qtype).value)
    else if Exact(z, owner) || owner in z.ent then Negative(z, NOERROR)
    else Wild(z, name, qtype, o1, o2)
  }

  lemma HasOrder(sets: RRsets) returns (order: Order)
    ensures Visits(order, sets)
  {
    order := Nil;
    var rest := sets.Keys;
    while rest != {}
      invariant rest <= sets.Keys && Elements(order) == sets.Keys - rest
      decreases rest
    {
      var t :| t in rest;
      rest := rest - {t};
      order := Cons(t, order);
    }
  }

  /** The orders are of the sets an answer at this owner may enumerate. */
  ghost predicate Orders(z: Zone, owner: Name, o1: Order, o2: Order) {
    if Exact(z, owner) then Visits(o1, RecordsAt(z, owner)) && Visits(o2, TunnelAt(z, owner))
    else Visits(o1, z.wildcards) && Visits(o2, TunnelAt(z, WILD))
  }

  // ---- the code ----

  /** Appends every record set, in whatever order the map is visited. */
  method AppendAll(resp: Msg, sets: RRsets, skip: set<nat>, name: Name) returns (ghost order: Order)
    modifies resp
    ensures Visits(order, sets)
    ensures resp.Value() == old(resp.Value()).(answer := old(resp.answer) + Enumerated(sets, order, skip, name))
  {
    order := Nil;
    var rest := sets.Keys;
    while rest != {}
      invariant rest <= sets.Keys && Elements(order) == sets.Keys - rest
      invariant resp.Value() == old(resp.Value()).(answer := old(resp.answer) + Enumerated(sets, order, skip, name))
      decreases rest
    {
      var t :| t in rest;
      rest := rest - {t};
      order := Cons(t, order);
      if t !in skip { var _ := AppendMatching(resp, sets[t], name, t); }
    }
  }

  /** The response is empty so far. */
  ghost predicate Fresh(resp: Msg)
    reads resp
  {
    resp.rcode == NOERROR && resp.answer == [] && resp.ns == []
  }

  ghost function ReplyOf(resp: Msg): (r: Reply)
    reads resp
  {
    Reply(resp.rcode, resp.answer, resp.ns)
  }

  method WildcardOrNx(resp: Msg, z: Zone, name: Name, qtype: nat) returns (ghost o1: Order, ghost o2: Order)
    requires SoaFits(z) && Fresh(resp)
    modifies resp
    ensures Visits(o1, z.wildcards) && Visits(o2, TunnelAt(z, WILD))
    ensures ReplyOf(resp) == Wild(z, name, qtype, o1, o2)
  {
    o1 := HasOrder(z.wildcards);
    o2 := HasOrder(TunnelAt(z, WILD));
    var wt, wc := TunnelAt(z, WILD), z.wildcards;
    if qtype == ANY {
      if wc == map[] && wt == map[] {
        SetNegativeSoa(resp, z.soa, z.apex, NXDOMAIN);
        return;
      }
      o1 := AppendAll(resp, wc, if wt != map[] then {CNAME} else {}, name);
      o2 := AppendAll(resp, wt, {}, name);
      return;
    }
    if (qtype == A || qtype == AAAA) && |Of(wt, qtype)| > 0 {
      var _ := AppendMatching(resp, Of(wt, qtype), name, qtype);
      return;
    }
    if |Of(wc, qtype)| > 0 {
      var _ := AppendMatching(resp, Of(wc, qtype), name, qtype);
      return;
    }
    SetNegativeSoa(resp, z.soa, z.apex, if wc != map[] || wt != map[] then NOERROR else NXDOMAIN);
  }

  method ChaseCname(resp: Msg, z: Zone, owner: Name, name: Name, qtype: nat, depth: nat)
    modifies resp
    ensures resp.Value() == old(resp.Value()).(answer := old(resp.answer) + Chased(z, owner, name, qtype, depth))
    decreases MAX_CNAME_CHAIN + 1 - depth, 1
  {
    if depth > MAX_CNAME_CHAIN { return; }
    var cn := Of(RecordsAt(z, owner), CNAME);
    if |cn| == 0 { return; }
    ghost var before := resp.answer;
    var _ := AppendMatching(resp, cn, name, CNAME);
    FollowTarget(resp, z, TargetOf(cn[0]), qtype, depth);
    assert resp.answer == before + (Matching(cn, name, CNAME) + Onward(z, TargetOf(cn[0]), qtype, depth));
  }

  method FollowTarget(resp: Msg, z: Zone, target: Name, qtype: nat, depth: nat)
    requires depth <= MAX_CNAME_CHAIN
    modifies resp
    ensures resp.Value() == old(resp.Value()).(answer := old(resp.answer) + Onward(z, target, qtype, depth))
    decreases MAX_CNAME_CHAIN + 1 - depth, 0
  {
    if !Under(target, z.apex) { return; }
    var o := Owner(target, z.apex);
    if |Of(RecordsAt(z, o), qtype)| > 0 {
      var _ := AppendMatching(resp, Of(RecordsAt(z, o), qtype), target, qtype);
      return;
    }
    if (qtype == A || qtype == AAAA) && |Of(TunnelAt(z, o), qtype)| > 0 {
      var _ := AppendMatching(resp, Of(TunnelAt(z, o), qtype), target, qtype);
      return;
    }
    if |Of(RecordsAt(z, o), CNAME)| > 0 { ChaseCname(resp, z, o, target, qtype, depth + 1); }
  }

  method AnswerAuthoritative(resp: Msg, z: Zone, name: Name, owner: Name, qtype: nat)
    returns (ghost o1: Order, ghost o2: Order)
    requires SoaFits(z) && Fresh(resp)
    modifies resp
    ensures Orders(z, owner, o1, o2)
    ensures ReplyOf(resp) == Authoritative(z, name, owner, qtype, o1, o2)
  {
    if qtype == ANY && Exact(z, owner) {
      o1, o2 := AppendOwner(resp, z, name, owner);
      return;
    }
    var found := FindExact(resp, z, name, owner, qtype);
    o1, o2 := HasOrders(z, owner);
    if found { return; }
    if Exact(z, owner) || owner in z.ent {
      SetNegativeSoa(resp, z.soa, z.apex, NOERROR);
      return;
    }
    o1, o2 := WildcardOrNx(resp, z, name, qtype);
  }

  lemma HasOrders(z: Zone, owner: Name) returns (o1: Order, o2: Order)
    ensures Orders(z, owner, o1, o2)
  {
    o1 := HasOrder(if Exact(z, owner) then RecordsAt(z, owner) else z.wildcards);
    o2 := HasOrder(if Exact(z, owner) then TunnelAt(z, owner) else TunnelAt(z, WILD));
  }

  /** ANY at an owner that exists. */
  method AppendOwner(resp: Msg, z: Zone, name: Name, owner: Name) returns (ghost o1: Order, ghost o2: Order)
    requires SoaFits(z) && Fresh(resp) && Exact(z, owner)
    modifies resp
    ensures Orders(z, owner, o1, o2)
    ensures ReplyOf(resp) == Authoritative(z, name, owner, ANY, o1, o2)
  {
    o1 := AppendAll(resp, RecordsAt(z, owner), if owner in z.tunnel then {CNAME} else {}, name);
    o2 := AppendAll(resp, TunnelAt(z, owner), {}, name);
  }

  method FindExact(resp: Msg, z: Zone, name: Name, owner: Name, qtype: nat) returns (found: bool)
    requires Fresh(resp)
    modifies resp
    ensures found == Own(z, name, owner, qtype).Some?
    ensures resp.rcode == NOERROR && resp.ns == []
    ensures resp.answer == if found then Own(z, name, owner, qtype).value else []
  {
    var recs, tunnel := RecordsAt(z, owner), TunnelAt(z, owner);
    if |Of(recs, qtype)| > 0 {
      var _ := AppendMatching(resp, Of(recs, qtype), name, qtype);
      return true;
    }
    if (qtype == A || qtype == AAAA) && |Of(tunnel, qtype)| > 0 {
      var _ := AppendMatching(resp, Of(tunnel, qtype), name, qtype);
      return true;
    }
    if qtype != CNAME && (qtype == A || qtype == AAAA || owner != []) && |Of(recs, CNAME)| > 0 {
      ChaseCname(resp, z, owner, name, qtype, 0);
      return true;
    }
    return false;
  }
}
