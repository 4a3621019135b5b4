/** Mirrored authoritative zones and how they are built (internal/mirror/mirror.go:47-125). Owners are
    relative to the apex: [] is the apex itself, ["*"] the wildcard. */
module Zones {
  import opened Options
  import opened Names
  import opened Messages
  import opened Replies

  const SOA: nat := 6

  type RRsets = map<nat, seq<RR>>

  datatype Zone = Zone(apex: Name, soa: Option<RR>, records: map<Name, RRsets>, wildcards: RRsets,
                       ent: set<Name>, tunnel: map<Name, RRsets>)

  const WILD: Name := ["*"]

  function Of(sets: RRsets, typ: nat): (r: seq<RR>) {
    if typ in sets then sets[typ] else []
  }

  function RecordsAt(z: Zone, owner: Name): (r: RRsets) {
    if owner in z.records then z.records[owner] else map[]
  }

  function TunnelAt(z: Zone, owner: Name): (r: RRsets) {
    if owner in z.tunnel then z.tunnel[owner] else map[]
  }

  /** Every list is non-empty and of its type, and no type is ANY. */
  ghost predicate GoodSets(sets: RRsets) {
    forall t :: t in sets ==> t != ANY && sets[t] != [] && forall i :: 0 <= i < |sets[t]| ==> sets[t][i].typ == t
  }

  ghost predicate GoodOwners(m: map<Name, RRsets>) {
    forall o :: o in m ==> m[o] != map[] && GoodSets(m[o])
  }

  ghost predicate WellFormed(z: Zone) {
    && z.soa.Some? && z.soa.value.data.Soa?
    && GoodSets(z.wildcards) && GoodOwners(z.records) && GoodOwners(z.tunnel)
    && (forall o :: o in z.tunnel ==> z.tunnel[o].Keys <= {A, AAAA})
  }

  // ---- building ----

  /** A fetched record: its name, and its model record when it is of a served type and renders. */
  datatype Fetched = Fetched(name: Name, rr: Option<RR>)

  /** The label ends in the text of the other, and has more in front. */
  predicate EndsIn(l: Label, end: Label) {
    |end| < |l| && l[|l| - |end|..] == end
  }

  /** relOwner cuts the text of the apex off the end of the name's, wherever that falls: at a label boundary,
      or inside a label. A name that does not end in that text keeps all its labels. */
  function RelOwner(name: Name, apex: Name): (o: Name) {
    var n := |name| - |apex|;
    if Under(name, apex) then Owner(name, apex)
    else if apex != [] && n >= 0 && EndsIn(name[n], apex[0]) && name[n+1..] == apex[1..] then
      name[..n] + [name[n][..|name[n]| - |apex[0]|]]
    else name
  }

  /** isTunnelTarget: the target is below one of the tunnel suffixes. */
  predicate TunnelTarget(rr: RR, suffixes: set<Name>) {
    && rr.typ == CNAME && rr.data.Target?
    && exists s :: s in suffixes && s != [] && Under(rr.data.target, s) && rr.data.target != s
  }

  function Added(sets: RRsets, rr: RR): (r: RRsets) {
    sets[rr.typ := Of(sets, rr.typ) + [rr]]
  }

  /** What BuildZone collects: wildcard and owner records, and the owners to flatten. */
  datatype Draft = Draft(records: map<Name, RRsets>, wildcards: RRsets, flatten: set<Name>)

  function Collected(d: Draft, f: Fetched, apex: Name, suffixes: set<Name>): (r: Draft) {
    var o := RelOwner(f.name, apex);
    if f.rr.None? then d
    else if TunnelTarget(f.rr.value, suffixes) then d.(flatten := d.flatten + {o})
    else if o == WILD then d.(wildcards := Added(d.wildcards, f.rr.value))
    else d.(records := d.records[o := Added(if o in d.records then d.records[o] else map[], f.rr.value)])
  }

  function Drafted(recs: seq<Fetched>, apex: Name, suffixes: set<Name>): (d: Draft) {
    if recs == [] then Draft(map[], map[], {})
    else Collected(Drafted(recs[..|recs|-1], apex, suffixes), recs[|recs|-1], apex, suffixes)
  }

  /** The addresses an owner currently resolves to, if it does. */
  type Resolver = Name -> Option<(seq<nat>, seq<nat>)>

  function AddressRecords(addrs: seq<nat>, typ: nat): (r: seq<RR>)
    ensures |r| == |addrs| && forall i :: 0 <= i < |addrs| ==> r[i] == RR([], typ, 300, Address(addrs[i]))
  {
    seq(|addrs|, i requires 0 <= i < |addrs| => RR([], typ, 300, Address(addrs[i])))
  }

  /** The flattened addresses of an owner. */
  function Flattened(v4: seq<nat>, v6: seq<nat>): (r: RRsets) {
    var a := if v4 == [] then map[] else map[A := AddressRecords(v4, A)];
    if v6 == [] then a else a[AAAA := AddressRecords(v6, AAAA)]
  }

  predicate Flattens(resolve: Resolver, o: Name) {
    resolve(o).Some? && Flattened(resolve(o).value.0, resolve(o).value.1) != map[]
  }

  function Tunnels(owners: set<Name>, resolve: Resolver): (r: map<Name, RRsets>) {
    map o | o in owners && Flattens(resolve, o) :: Flattened(resolve(o).value.0, resolve(o).value.1)
  }

  /** The proper ancestors of an owner, below the apex. */
  function Ancestors(o: Name): (r: set<Name>) {
    set i | 0 < i < |o| :: o[i..]
  }

  /** deriveENT: the ancestors of owners that are not owners. */
  ghost function Interior(records: map<Name, RRsets>): (r: set<Name>) {
    set o, a | o in records && a in Ancestors(o) && a !in records :: a
  }

  function SynthSoa(apex: Name): (rr: RR) {
    RR(apex, SOA, 3600, Soa(300))
  }

  /** BuildZone. */
  ghost function Built(apex: Name, recs: seq<Fetched>, resolve: Resolver, suffixes: set<Name>): (z: Zone) {
    var d := Drafted(recs, apex, suffixes);
    Zone(apex, Some(SynthSoa(apex)), d.records, d.wildcards, Interior(d.records), Tunnels(d.flatten, resolve))
  }

  method BuildZone(apex: Name, recs: seq<Fetched>, resolve: Resolver, suffixes: set<Name>) returns (z: Zone)
    ensures z == Built(apex, recs, resolve, suffixes)
  {
    var d := Draft(map[], map[], {});
    for i := 0 to |recs|
      invariant d == Drafted(recs[..i], apex, suffixes)
    {
      assert recs[..i+1][..i] == recs[..i];
      var o := RelOwner(recs[i].name, apex);
      if recs[i].rr.Some? {
        var rr := recs[i].rr.value;
        if TunnelTarget(rr, suffixes) {
          d := d.(flatten := d.flatten + {o});
        } else if o == WILD {
          d := d.(wildcards := Added(d.wildcards, rr));
        } else {
          var sets := if o in d.records then d.records[o] else map[];
          d := d.(records := d.records[o := Added(sets, rr)]);
        }
      }
    }
    assert recs[..|recs|] == recs;
    var tunnel := Flatten(d.flatten, resolve);
    var ent := DeriveEnt(d.records);
    z := Zone(apex, Some(SynthSoa(apex)), d.records, d.wildcards, ent, tunnel);
  }

  method Flatten(owners: set<Name>, resolve: Resolver) returns (tunnel: map<Name, RRsets>)
    ensures tunnel == Tunnels(owners, resolve)
  {
    tunnel := map[];
    var rest := owners;
    while rest != {}
      invariant rest <= owners && tunnel == Tunnels(owners - rest, resolve)
      decreases rest
    {
      var o :| o in rest;
      var done := owners - rest;
      rest := rest - {o};
      assert owners - rest == done + {o};
      var addrs := resolve(o);
      if addrs.Some? {
        var ta := Flattened(addrs.value.0, addrs.value.1);
        if ta != map[] { tunnel := tunnel[o := ta]; }
      }
    }
  }

  method DeriveEnt(records: map<Name, RRsets>) returns (ent: set<Name>)
    ensures ent == Interior(records)
  {
    ent := {};
    var rest := records.Keys;
    while rest != {}
      invariant rest <= records.Keys
      invariant ent == set o, a | o in records && o !in rest && a in Ancestors(o) && a !in records :: a
      decreases rest
    {
      var o :| o in rest;
      rest := rest - {o};
      ghost var before := ent;
      var i := 1;
      while i < |o|
        invariant 1 <= i && (o != [] ==> i <= |o|)
        invariant ent == before + set j | 0 < j < i && j < |o| && o[j..] !in records :: o[j..]
      {
        if o[i..] !in records { ent := ent + {o[i..]}; }
        i := i + 1;
      }
    }
  }

  /** The fetched records are of real types. */
  predicate RealTypes(recs: seq<Fetched>) {
    forall i :: 0 <= i < |recs| && recs[i].rr.Some? ==> recs[i].rr.value.typ != ANY
  }

  lemma AddedGood(sets: RRsets, rr: RR)
    requires GoodSets(sets) && rr.typ != ANY
    ensures GoodSets(Added(sets, rr))
  {
  }

  lemma {:induction false} DraftedGood(recs: seq<Fetched>, apex: Name, suffixes: set<Name>)
    requires RealTypes(recs)
    ensures GoodOwners(Drafted(recs, apex, suffixes).records) && GoodSets(Drafted(recs, apex, suffixes).wildcards)
  {
    if recs != [] {
      var init, f := recs[..|recs|-1], recs[|recs|-1];
      DraftedGood(init, apex, suffixes);
      var d := Drafted(init, apex, suffixes);
      if f.rr.Some? {
        var o := RelOwner(f.name, apex);
        AddedGood(d.wildcards, f.rr.value);
        AddedGood(if o in d.records then d.records[o] else map[], f.rr.value);
      }
    }
  }

  lemma FlattenedGood(v4: seq<nat>, v6: seq<nat>)
    ensures GoodSets(Flattened(v4, v6)) && Flattened(v4, v6).Keys <= {A, AAAA}
  {
  }

  lemma TunnelsGood(owners: set<Name>, resolve: Resolver)
    ensures GoodOwners(Tunnels(owners, resolve))
    ensures forall o :: o in Tunnels(owners, resolve) ==> Tunnels(owners, resolve)[o].Keys <= {A, AAAA}
  {
    forall o | o in Tunnels(owners, resolve)
      ensures GoodSets(Tunnels(owners, resolve)[o]) && Tunnels(owners, resolve)[o].Keys <= {A, AAAA}
    {
      FlattenedGood(resolve(o).value.0, resolve(o).value.1);
    }
  }

  /** Every zone BuildZone makes is well formed. */
  lemma BuiltWellFormed(apex: Name, recs: seq<Fetched>, resolve: Resolver, suffixes: set<Name>)
    requires RealTypes(recs)
    ensures WellFormed(Built(apex, recs, resolve, suffixes))
  {
    DraftedGood(recs, apex, suffixes);
    TunnelsGood(Drafted(recs, apex, suffixes).flatten, resolve);
  }

  // ---- which names a built zone knows ----

  /** The owner is at or below the other. */
  predicate Below(o: Name, other: Name) {
    |o| >= |other| && o[|o| - |other|..] == other
  }

  /** An interior name of a zone is an owner or marked as an empty non-terminal. */
  lemma InteriorKnown(records: map<Name, RRsets>, o: Name, other: Name)
    requires o in records && Below(o, other) && other != []
    ensures other in records || other in Interior(records)
  {
    if o != other {
      assert 0 < |o| - |other| < |o|;
      assert other in Ancestors(o);
    }
  }
}
