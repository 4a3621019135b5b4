/** The dynamic-DNS edit plan (internal/ddns/ddns.go:371-520).

    An address is its canonical text; `Rec.addr` is the record's content in that form (normAddr),
    `Rec.content` the text the provider holds. `Plan` is what buildPlan computes; `BuildPlan` is
    the code. Providers are maps from record identity to record. */
module Planner {
  import opened Sorting

  type Addr = string

  predicate Is6(a: Addr) { ':' in a }

  datatype RRType = A | AAAA | OTHER

  function TypeOf(a: Addr): (t: RRType) { if Is6(a) then AAAA else A }

  datatype Key = Key(zone: string, id: string)

  datatype Rec = Rec(key: Key, name: string, typ: RRType, proxied: bool, content: string, addr: Addr)

  datatype Edit = Edit(rec: Rec, addr: Addr)
  datatype Create = Create(zone: string, name: string, addr: Addr)
  datatype Plan = Plan(edits: seq<Edit>, creates: seq<Create>, deletes: seq<Rec>)

  function Text(a: Addr): (t: string) { a }

  function Content(r: Rec): (t: string) { r.content }

  /** What sort.Slice makes of a list of records: it is in order of content, and how records of equal content
      are arranged is left open. */
  type Sort = seq<Rec> -> seq<Rec>

  ghost predicate Sorts(sort: Sort) {
    forall s :: multiset(sort(s)) == multiset(s) && InOrder(Content, sort(s))
  }

  lemma {:induction false} StableSorts()
    ensures Sorts(s => SortBy(Content, s))
  {
    forall s: seq<Rec> ensures InOrder(Content, SortBy(Content, s)) { SortInOrder(Content, s); }
  }

  // ---- what changes ----

  function AddrsOf(records: seq<Rec>): (s: set<Addr>) {
    set r | r in records :: r.addr
  }

  function Wanted(desired: seq<Addr>): (s: set<Addr>) {
    set a | a in desired
  }

  /** Desired addresses of a family that no record holds, in order of first mention. */
  function Added(desired: seq<Addr>, held: set<Addr>, is6: bool): (r: seq<Addr>) {
    if desired == [] then []
    else
      var a := desired[|desired|-1];
      var init := desired[..|desired|-1];
      if a in init || a in held || Is6(a) != is6 then Added(init, held, is6)
      else Added(init, held, is6) + [a]
  }

  /** Records of a family whose address is not wanted, in order. */
  function Surplus(records: seq<Rec>, wanted: set<Addr>, is6: bool): (r: seq<Rec>) {
    if records == [] then []
    else
      var rec := records[|records|-1];
      var init := Surplus(records[..|records|-1], wanted, is6);
      if rec.addr !in wanted && (rec.typ == AAAA) == is6 then init + [rec] else init
  }

  function Min(a: nat, b: nat): (m: nat) { if a < b then a else b }

  function Pairs(d: seq<Rec>, a: seq<Addr>, n: nat): (e: seq<Edit>)
    requires n <= |d| && n <= |a|
    ensures |e| == n && forall i :: 0 <= i < n ==> e[i] == Edit(d[i], a[i])
  {
    seq(n, i requires 0 <= i < n => Edit(d[i], a[i]))
  }

  function Creates(first: Rec, a: seq<Addr>): (c: seq<Create>)
    ensures |c| == |a| && forall i :: 0 <= i < |a| ==> c[i] == Create(first.key.zone, first.name, a[i])
  {
    seq(|a|, i requires 0 <= i < |a| => Create(first.key.zone, first.name, a[i]))
  }

  /** One family's share of the plan: pair what can be paired, create or delete the rest. */
  function Share(first: Rec, a: seq<Addr>, d: seq<Rec>): (p: Plan) {
    var n := Min(|a|, |d|);
    Plan(Pairs(d, a, n), Creates(first, a[n..]), d[n..])
  }

  function Join(p: Plan, q: Plan): (r: Plan) {
    Plan(p.edits + q.edits, p.creates + q.creates, p.deletes + q.deletes)
  }

  function FamilyShare(sort: Sort, records: seq<Rec>, desired: seq<Addr>, is6: bool): (p: Plan)
    requires records != []
  {
    Share(records[0],
          SortBy(Text, Added(desired, AddrsOf(records), is6)),
          sort(Surplus(records, Wanted(desired), is6)))
  }

  /** buildPlan: IPv4 before IPv6. */
  function PlanFor(sort: Sort, records: seq<Rec>, desired: seq<Addr>): (p: Plan)
    requires records != []
  {
    Join(FamilyShare(sort, records, desired, false), FamilyShare(sort, records, desired, true))
  }

  predicate Empty(p: Plan) {
    p.edits == [] && p.creates == [] && p.deletes == []
  }

  // ---- the code ----

  method BuildPlan(sort: Sort, records: seq<Rec>, desired: seq<Addr>) returns (p: Plan)
    requires records != []
    ensures p == PlanFor(sort, records, desired)
  {
    var curSet := CollectHeld(records);
    var desiredSet, added4, added6 := CollectAdded(desired, curSet);
    var deleted4, deleted6 := CollectSurplus(records, desiredSet);
    var v4 := PairFamily(sort, records[0], added4, deleted4);
    var v6 := PairFamily(sort, records[0], added6, deleted6);
    p := Join(v4, v6);
  }

  method CollectHeld(records: seq<Rec>) returns (curSet: set<Addr>)
    ensures curSet == AddrsOf(records)
  {
    curSet := {};
    for i := 0 to |records|
      invariant curSet == AddrsOf(records[..i])
    {
      assert records[..i+1] == records[..i] + [records[i]];
      curSet := curSet + {records[i].addr};
    }
    assert records[..|records|] == records;
  }

  /** The deduplicating loop over the announced addresses, one list per family. */
  method CollectAdded(desired: seq<Addr>, curSet: set<Addr>)
    returns (desiredSet: set<Addr>, added4: seq<Addr>, added6: seq<Addr>)
    ensures desiredSet == Wanted(desired)
    ensures added4 == Added(desired, curSet, false) && added6 == Added(desired, curSet, true)
  {
    desiredSet, added4, added6 := {}, [], [];
    for i := 0 to |desired|
      invariant desiredSet == Wanted(desired[..i])
      invariant added4 == Added(desired[..i], curSet, false) && added6 == Added(desired[..i], curSet, true)
    {
      var a := desired[i];
      assert desired[..i+1][..i] == desired[..i] && desired[..i+1][i] == a;
      if a in desiredSet { continue; }
      desiredSet := desiredSet + {a};
      if a !in curSet {
        if Is6(a) { added6 := added6 + [a]; } else { added4 := added4 + [a]; }
      }
    }
    assert desired[..|desired|] == desired;
  }

  method CollectSurplus(records: seq<Rec>, desiredSet: set<Addr>) returns (deleted4: seq<Rec>, deleted6: seq<Rec>)
    ensures deleted4 == Surplus(records, desiredSet, false) && deleted6 == Surplus(records, desiredSet, true)
  {
    deleted4, deleted6 := [], [];
    for i := 0 to |records|
      invariant deleted4 == Surplus(records[..i], desiredSet, false)
      invariant deleted6 == Surplus(records[..i], desiredSet, true)
    {
      var r := records[i];
      assert records[..i+1][..i] == records[..i] && records[..i+1][i] == r;
      if r.addr !in desiredSet {
        if r.typ == AAAA { deleted6 := deleted6 + [r]; } else { deleted4 := deleted4 + [r]; }
      }
    }
    assert records[..|records|] == records;
  }

  /** The pairing loops for one family. */
  method PairFamily(sort: Sort, first: Rec, addedIn: seq<Addr>, deletedIn: seq<Rec>) returns (p: Plan)
    ensures p == Share(first, SortBy(Text, addedIn), sort(deletedIn))
  {
    var added := SortBy(Text, addedIn);
    var deleted := sort(deletedIn);
    var n := Min(|added|, |deleted|);
    var edits := PairUp(deleted, added, n);
    var creates := CreateRest(first, added, n);
    var deletes := DeleteRest(deleted, n);
    p := Plan(edits, creates, deletes);
  }

  method DeleteRest(deleted: seq<Rec>, n: nat) returns (deletes: seq<Rec>)
    requires n <= |deleted|
    ensures deletes == deleted[n..]
  {
    deletes := [];
    for i := n to |deleted|
      invariant deletes == deleted[n..i]
    {
      deletes := deletes + [deleted[i]];
    }
  }

  method PairUp(deleted: seq<Rec>, added: seq<Addr>, n: nat) returns (edits: seq<Edit>)
    requires n <= |deleted| && n <= |added|
    ensures edits == Pairs(deleted, added, n)
  {
    edits := [];
    for i := 0 to n
      invariant |edits| == i && forall j :: 0 <= j < i ==> edits[j] == Edit(deleted[j], added[j])
    {
      edits := edits + [Edit(deleted[i], added[i])];
    }
  }

  method CreateRest(first: Rec, added: seq<Addr>, n: nat) returns (creates: seq<Create>)
    requires n <= |added|
    ensures creates == Creates(first, added[n..])
  {
    creates := [];
    for i := n to |added|
      invariant |creates| == i - n
      invariant forall j :: 0 <= j < i - n ==> creates[j] == Create(first.key.zone, first.name, added[n + j])
    {
      creates := creates + [Create(first.key.zone, first.name, added[i])];
    }
  }

  /** filterEligibleRecords; names are compared as the source normalises them. */
  method FilterEligible(records: seq<Rec>, allow: set<string>) returns (out: seq<Rec>)
    ensures out == Filtered(records, allow)
  {
    out := [];
    for i := 0 to |records|
      invariant out == Filtered(records[..i], allow)
    {
      var r := records[i];
      assert records[..i+1][..i] == records[..i] && records[..i+1][i] == r;
      if r.proxied { continue; }
      if r.typ != A && r.typ != AAAA { continue; }
      if allow != {} && r.name !in allow { continue; }
      out := out + [r];
    }
    assert records[..|records|] == records;
  }

  predicate Admissible(r: Rec, allow: set<string>) {
    !r.proxied && r.typ != OTHER && (allow == {} || r.name in allow)
  }

  function Filtered(records: seq<Rec>, allow: set<string>): (out: seq<Rec>)
    ensures forall r :: r in out <==> r in records && Admissible(r, allow)
  {
    if records == [] then []
    else
      var r := records[|records|-1];
      var init := Filtered(records[..|records|-1], allow);
      assert records == records[..|records|-1] + [r];
      if Admissible(r, allow) then init + [r] else init
  }
}
