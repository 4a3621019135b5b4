/** What applying a plan does to the provider (internal/ddns/ddns.go:371-390, 434-485): it
    converges, as cheaply as any family-preserving sequence of edits can, and may stop anywhere. */
module PlanRuns {
  import opened Sets
  import opened Sorting
  import opened Planner

  /** A host's records at the provider, by identity. */
  type Provider = map<Key, Rec>

  /** One provider call; `id` is the identity the provider gives a new record. */
  datatype Op =
    | Update(rec: Rec, addr: Addr)
    | Add(zone: string, name: string, addr: Addr, id: string)
    | Remove(rec: Rec)

  /** Records sit under their own identity and are of the type their address calls for. */
  ghost predicate Typed(m: Provider) {
    forall k :: k in m ==> m[k].key == k && m[k].typ == TypeOf(m[k].addr)
  }

  function Applied(m: Provider, op: Op): (m': Provider) {
    match op
    case Update(r, a) => m[r.key := r.(typ := TypeOf(a), content := a, addr := a)]
    case Add(z, n, a, id) => m[Key(z, id) := Rec(Key(z, id), n, TypeOf(a), false, a, a)]
    case Remove(r) => m - {r.key}
  }

  function AppliedAll(m: Provider, ops: seq<Op>): (m': Provider)
    decreases |ops|
  {
    if ops == [] then m else AppliedAll(Applied(m, ops[0]), ops[1..])
  }

  /** An update or removal names a current record, an update stays in its family, a new record gets
      an unused identity. */
  predicate Legal(m: Provider, op: Op) {
    match op
    case Update(r, a) => r.key in m && m[r.key] == r && Is6(a) == Is6(r.addr)
    case Add(z, n, a, id) => Key(z, id) !in m
    case Remove(r) => r.key in m && m[r.key] == r
  }

  ghost predicate LegalRun(m: Provider, ops: seq<Op>)
    decreases |ops|
  {
    ops == [] || (Legal(m, ops[0]) && LegalRun(Applied(m, ops[0]), ops[1..]))
  }

  function Addrs(m: Provider): (s: set<Addr>) {
    set k | k in m :: m[k].addr
  }

  /** Wanted addresses of a family that no record holds. */
  function Missing(m: Provider, want: set<Addr>, is6: bool): (s: set<Addr>) {
    set a | a in want && a !in Addrs(m) && Is6(a) == is6
  }

  /** Records of a family that hold an unwanted address. */
  function Stale(m: Provider, want: set<Addr>, is6: bool): (s: set<Rec>) {
    set k | k in m && m[k].addr !in want && Is6(m[k].addr) == is6 :: m[k]
  }

  function Max(a: nat, b: nat): (r: nat) { if a < b then b else a }

  function Cost(m: Provider, want: set<Addr>): (n: nat) {
    Max(|Missing(m, want, false)|, |Stale(m, want, false)|) + Max(|Missing(m, want, true)|, |Stale(m, want, true)|)
  }

  // ---- no plan is cheaper ----

  lemma {:induction false} WithinOne<T>(a: set<T>, b: set<T>, x: T)
    requires a <= b + {x}
    ensures |a| <= |b| + 1
  {
    SubsetSize(a, b + {x});
  }

  /** The family an operation works in. */
  function FamilyOf(op: Op): (is6: bool) {
    match op
    case Update(_, a) => Is6(a)
    case Add(_, _, a, _) => Is6(a)
    case Remove(r) => Is6(r.addr)
  }

  lemma {:induction false} AppliedTyped(m: Provider, op: Op)
    requires Typed(m) && Legal(m, op)
    ensures Typed(Applied(m, op))
  {
  }

  lemma {:induction false} MissingStep(m: Provider, op: Op, want: set<Addr>, is6: bool)
    requires Typed(m) && Legal(m, op)
    ensures is6 != FamilyOf(op) ==> Missing(m, want, is6) <= Missing(Applied(m, op), want, is6)
    ensures !op.Remove? ==> Missing(m, want, is6) <= Missing(Applied(m, op), want, is6) + {op.addr}
    ensures op.Remove? ==> Missing(m, want, is6) <= Missing(Applied(m, op), want, is6)
  {
    var m' := Applied(m, op);
    forall a | a in Missing(m, want, is6) && (op.Remove? || a != op.addr)
      ensures a in Missing(m', want, is6)
    {
      AddrsBack(m, op, a);
    }
  }

  /** An address a step did not bring in was there before. */
  lemma {:induction false} AddrsBack(m: Provider, op: Op, a: Addr)
    requires Typed(m) && Legal(m, op) && (op.Remove? || a != op.addr)
    ensures a in Addrs(Applied(m, op)) ==> a in Addrs(m)
  {
    var m' := Applied(m, op);
    if a in Addrs(m') {
      var k :| k in m' && m'[k].addr == a;
      assert k in m && m[k].addr == a;
    }
  }

  lemma {:induction false} StaleStep(m: Provider, op: Op, want: set<Addr>, is6: bool)
    requires Typed(m) && Legal(m, op)
    ensures is6 != FamilyOf(op) ==> Stale(m, want, is6) <= Stale(Applied(m, op), want, is6)
    ensures !op.Add? ==> Stale(m, want, is6) <= Stale(Applied(m, op), want, is6) + {op.rec}
    ensures op.Add? ==> Stale(m, want, is6) <= Stale(Applied(m, op), want, is6)
  {
    var m' := Applied(m, op);
    forall r | r in Stale(m, want, is6) && (op.Add? || r != op.rec)
      ensures r in Stale(m', want, is6)
    {
      assert r.key in m && m[r.key] == r;
      assert r.key in m' && m'[r.key] == r;
    }
  }

  /** One operation brings the cost down by at most one: it works in one family, takes at most one
      address off the missing and at most one record off the stale. */
  lemma {:induction false} StepCost(m: Provider, op: Op, want: set<Addr>)
    requires Typed(m) && Legal(m, op)
    ensures Cost(m, want) <= Cost(Applied(m, op), want) + 1
  {
    var m' := Applied(m, op);
    forall f: bool
      ensures var c := if f == FamilyOf(op) then 1 else 0;
              && |Missing(m, want, f)| <= |Missing(m', want, f)| + c
              && |Stale(m, want, f)| <= |Stale(m', want, f)| + c
    {
      MissingStep(m, op, want, f);
      StaleStep(m, op, want, f);
      if f == FamilyOf(op) {
        if !op.Remove? { WithinOne(Missing(m, want, f), Missing(m', want, f), op.addr); }
        else { SubsetSize(Missing(m, want, f), Missing(m', want, f)); }
        if !op.Add? { WithinOne(Stale(m, want, f), Stale(m', want, f), op.rec); }
        else { SubsetSize(Stale(m, want, f), Stale(m', want, f)); }
      } else {
        SubsetSize(Missing(m, want, f), Missing(m', want, f));
        SubsetSize(Stale(m, want, f), Stale(m', want, f));
      }
    }
  }

  lemma {:induction false} RunCost(m: Provider, ops: seq<Op>, want: set<Addr>)
    requires Typed(m) && LegalRun(m, ops)
    ensures Typed(AppliedAll(m, ops))
    ensures Cost(m, want) <= Cost(AppliedAll(m, ops), want) + |ops|
    decreases |ops|
  {
    if ops != [] {
      AppliedTyped(m, ops[0]);
      StepCost(m, ops[0], want);
      RunCost(Applied(m, ops[0]), ops[1..], want);
    }
  }

  lemma {:induction false} CostZero(m: Provider, want: set<Addr>)
    ensures Cost(m, want) == 0 <==> Addrs(m) == want
  {
    if Addrs(m) == want {
      assert forall f :: Missing(m, want, f) == {} && Stale(m, want, f) == {};
    } else if a :| a in want && a !in Addrs(m) {
      assert a in Missing(m, want, Is6(a));
    } else {
      var a :| a in Addrs(m) && a !in want;
      var k :| k in m && m[k].addr == a;
      assert m[k] in Stale(m, want, Is6(a));
    }
  }

  /** No family-preserving sequence of operations reaches the wanted address set with fewer. */
  lemma {:induction false} Minimal(m: Provider, ops: seq<Op>, want: set<Addr>)
    requires Typed(m) && LegalRun(m, ops) && Addrs(AppliedAll(m, ops)) == want
    ensures |ops| >= Cost(m, want)
  {
    RunCost(m, ops, want);
    CostZero(AppliedAll(m, ops), want);
  }

  // ---- what a suitable sequence of operations does ----

  /** The records a sequence replaces or removes, and the addresses it brings in. */
  function Olds(ops: seq<Op>): (s: seq<Rec>) {
    if ops == [] then [] else (if ops[0].Add? then [] else [ops[0].rec]) + Olds(ops[1..])
  }

  function News(ops: seq<Op>): (s: seq<Addr>) {
    if ops == [] then [] else (if ops[0].Remove? then [] else [ops[0].addr]) + News(ops[1..])
  }

  function AllStale(m: Provider, want: set<Addr>): (s: set<Rec>) {
    set k | k in m && m[k].addr !in want :: m[k]
  }

  /** `s` lists the members of `all`, each exactly once. */
  ghost predicate OneEach<T(!new)>(s: seq<T>, all: set<T>) {
    (forall x :: x in s <==> x in all) && forall i, j :: 0 <= i < j < |s| ==> s[i] != s[j]
  }

  /** Uses each stale record and each missing address exactly once, updates within families, gives
      new records unused identities, and removes last. */
  ghost predicate Suits(m: Provider, want: set<Addr>, ops: seq<Op>) {
    && OneEach(Olds(ops), AllStale(m, want))
    && OneEach(News(ops), want - Addrs(m))
    && (forall i :: 0 <= i < |ops| && ops[i].Update? ==> Is6(ops[i].addr) == Is6(ops[i].rec.addr))
    && (forall i, j :: 0 <= i < j < |ops| && ops[i].Remove? ==> ops[j].Remove?)
    && FreshKeys(m.Keys, ops)
  }

  /** The identities given to new records are unused when they are given. */
  ghost predicate FreshKeys(used: set<Key>, ops: seq<Op>)
    decreases |ops|
  {
    ops == [] ||
    if ops[0].Add? then
      Key(ops[0].zone, ops[0].id) !in used && FreshKeys(used + {Key(ops[0].zone, ops[0].id)}, ops[1..])
    else FreshKeys(used, ops[1..])
  }

  lemma {:induction false} FreshKeysFewer(used: set<Key>, less: set<Key>, ops: seq<Op>)
    requires FreshKeys(used, ops) && less <= used
    ensures FreshKeys(less, ops)
    decreases |ops|
  {
    if ops != [] {
      if ops[0].Add? {
        var k := Key(ops[0].zone, ops[0].id);
        FreshKeysFewer(used + {k}, less + {k}, ops[1..]);
      } else {
        FreshKeysFewer(used, less, ops[1..]);
      }
    }
  }

  lemma {:induction false} SuitsLegal(m: Provider, want: set<Addr>, ops: seq<Op>)
    requires Typed(m) && Suits(m, want, ops) && ops != []
    ensures Legal(m, ops[0])
    ensures !ops[0].Add? ==> ops[0].rec.addr !in want
    ensures !ops[0].Remove? ==> ops[0].addr in want && ops[0].addr !in Addrs(m)
  {
    if !ops[0].Add? { assert ops[0].rec in Olds(ops); }
    if !ops[0].Remove? { assert ops[0].addr in News(ops); }
  }

  lemma {:induction false} AddrsStep(m: Provider, want: set<Addr>, op: Op)
    requires Typed(m) && Legal(m, op) && (!op.Add? ==> op.rec.addr !in want)
    ensures want - Addrs(Applied(m, op)) == if op.Remove? then want - Addrs(m) else (want - Addrs(m)) - {op.addr}
  {
    var m' := Applied(m, op);
    forall a | a in want ensures a in Addrs(m') <==> a in Addrs(m) || (!op.Remove? && a == op.addr) {
      if a in Addrs(m) {
        var k :| k in m && m[k].addr == a;
        assert k in m' && m'[k].addr == a;
      }
      if !op.Remove? && a == op.addr {
        var k := if op.Add? then Key(op.zone, op.id) else op.rec.key;
        assert k in m' && m'[k].addr == a;
      }
      if op.Remove? || a != op.addr { AddrsBack(m, op, a); }
    }
  }

  lemma {:induction false} AllStaleStep(m: Provider, want: set<Addr>, op: Op)
    requires Typed(m) && Legal(m, op) && (!op.Remove? ==> op.addr in want)
    ensures AllStale(Applied(m, op), want) == if op.Add? then AllStale(m, want) else AllStale(m, want) - {op.rec}
  {
    var m' := Applied(m, op);
    forall r ensures r in AllStale(m', want) <==> r in AllStale(m, want) && (op.Add? || r != op.rec) {
      if r in AllStale(m', want) {
        assert r.key in m' && m'[r.key] == r by { AppliedTyped(m, op); }
      }
      if r in AllStale(m, want) && (op.Add? || r != op.rec) {
        assert r.key in m' && m'[r.key] == r;
      }
    }
  }

  lemma {:induction false} DropFirst<T(!new)>(x: T, rest: seq<T>, all: set<T>)
    requires OneEach([x] + rest, all)
    ensures OneEach(rest, all - {x})
  {
    var s := [x] + rest;
    forall i, j | 0 <= i < j < |rest| ensures rest[i] != rest[j] { assert s[i+1] != s[j+1]; }
    forall y ensures y in rest <==> y in all - {x} {
      if y in rest {
        var i :| 0 <= i < |rest| && rest[i] == y;
        assert s[i+1] == y && s[0] == x;
      }
      if y in all - {x} { assert y in s; }
    }
  }

  /** After the first operation, the others suit what is left. */
  lemma {:induction false} SuitsStep(m: Provider, want: set<Addr>, ops: seq<Op>)
    requires Typed(m) && Suits(m, want, ops) && ops != []
    ensures Legal(m, ops[0]) && Typed(Applied(m, ops[0]))
    ensures Suits(Applied(m, ops[0]), want, ops[1..])
  {
    var op := ops[0];
    SuitsLegal(m, want, ops);
    AppliedTyped(m, op);
    AddrsStep(m, want, op);
    AllStaleStep(m, want, op);
    SuitsOlds(m, want, ops);
    SuitsNews(m, want, ops);
    SuitsFresh(m, want, ops);
  }

  lemma {:induction false} SuitsOlds(m: Provider, want: set<Addr>, ops: seq<Op>)
    requires ops != [] && OneEach(Olds(ops), AllStale(m, want))
    ensures OneEach(Olds(ops[1..]), if ops[0].Add? then AllStale(m, want) else AllStale(m, want) - {ops[0].rec})
  {
    if ops[0].Add? { assert Olds(ops) == Olds(ops[1..]); }
    else { DropFirst(ops[0].rec, Olds(ops[1..]), AllStale(m, want)); }
  }

  lemma {:induction false} SuitsNews(m: Provider, want: set<Addr>, ops: seq<Op>)
    requires ops != [] && OneEach(News(ops), want - Addrs(m))
    ensures OneEach(News(ops[1..]), if ops[0].Remove? then want - Addrs(m) else want - Addrs(m) - {ops[0].addr})
  {
    if ops[0].Remove? { assert News(ops) == News(ops[1..]); }
    else { DropFirst(ops[0].addr, News(ops[1..]), want - Addrs(m)); }
  }

  lemma {:induction false} SuitsFresh(m: Provider, want: set<Addr>, ops: seq<Op>)
    requires ops != [] && FreshKeys(m.Keys, ops) && Legal(m, ops[0])
    ensures FreshKeys(Applied(m, ops[0]).Keys, ops[1..])
  {
    var m' := Applied(m, ops[0]);
    if ops[0].Add? {
      assert m'.Keys == m.Keys + {Key(ops[0].zone, ops[0].id)};
    } else {
      FreshKeysFewer(m.Keys, m'.Keys, ops[1..]);
    }
  }

  lemma {:induction false} NothingLeft(m: Provider, want: set<Addr>)
    requires OneEach([], AllStale(m, want)) && OneEach([], want - Addrs(m))
    ensures Addrs(m) == want
  {
    forall k | k in m ensures m[k].addr in want {
      assert m[k] !in AllStale(m, want);
    }
    forall a | a in want ensures a in Addrs(m) { assert a !in want - Addrs(m); }
  }

  /** A suitable sequence is legal throughout and ends with exactly the wanted addresses. */
  lemma {:induction false} SuitsConverges(m: Provider, want: set<Addr>, ops: seq<Op>)
    requires Typed(m) && Suits(m, want, ops)
    ensures LegalRun(m, ops) && Addrs(AppliedAll(m, ops)) == want
    decreases |ops|
  {
    if ops == [] {
      NothingLeft(m, want);
    } else {
      SuitsStep(m, want, ops);
      SuitsConverges(Applied(m, ops[0]), want, ops[1..]);
    }
  }

  /** After any prefix: the rest suits what is left. */
  lemma {:induction false} SuitsPrefix(m: Provider, want: set<Addr>, ops: seq<Op>, k: nat)
    requires Typed(m) && Suits(m, want, ops) && k <= |ops|
    ensures Typed(AppliedAll(m, ops[..k])) && Suits(AppliedAll(m, ops[..k]), want, ops[k..])
    ensures LegalRun(m, ops[..k])
    decreases k
  {
    if k == 0 {
      assert ops[..0] == [] && ops[0..] == ops;
    } else {
      SuitsStep(m, want, ops);
      SuitsPrefix(Applied(m, ops[0]), want, ops[1..], k - 1);
      assert ops[..k][0] == ops[0] && ops[..k][1..] == ops[1..][..k-1] && ops[1..][k-1..] == ops[k..];
    }
  }

  /** A record that is already right is untouched by every prefix. */
  lemma {:induction false} CorrectUntouched(m: Provider, want: set<Addr>, ops: seq<Op>, k: nat, key: Key)
    requires Typed(m) && Suits(m, want, ops) && k <= |ops| && key in m && m[key].addr in want
    ensures key in AppliedAll(m, ops[..k]) && AppliedAll(m, ops[..k])[key] == m[key]
    decreases k
  {
    if k > 0 {
      SuitsLegal(m, want, ops);
      SuitsStep(m, want, ops);
      CorrectUntouched(Applied(m, ops[0]), want, ops[1..], k - 1, key);
      assert ops[..k][0] == ops[0] && ops[..k][1..] == ops[1..][..k-1];
    }
  }

  lemma {:induction false} OneLeft(m: Provider, want: set<Addr>, ops: seq<Op>)
    requires Typed(m) && Suits(m, want, ops) && ops != [] && want != {}
    ensures Applied(m, ops[0]) != map[]
  {
    SuitsLegal(m, want, ops);
    if ops[0].Remove? {
      OnlyRemovals(ops);
      var a :| a in want;
      assert a !in News(ops) && a !in want - Addrs(m);
      var key :| key in m && m[key].addr == a;
      assert key in Applied(m, ops[0]);
    } else {
      var key := if ops[0].Add? then Key(ops[0].zone, ops[0].id) else ops[0].rec.key;
      assert key in Applied(m, ops[0]);
    }
  }

  /** The host is never left without a record. */
  lemma {:induction false} NeverBare(m: Provider, want: set<Addr>, ops: seq<Op>, k: nat)
    requires Typed(m) && Suits(m, want, ops) && k <= |ops| && m != map[] && want != {}
    ensures AppliedAll(m, ops[..k]) != map[]
    decreases k
  {
    if k > 0 {
      SuitsLegal(m, want, ops);
      SuitsStep(m, want, ops);
      var m' := Applied(m, ops[0]);
      OneLeft(m, want, ops);
      NeverBare(m', want, ops[1..], k - 1);
      assert ops[..k][0] == ops[0] && ops[..k][1..] == ops[1..][..k-1];
    }
  }

  lemma {:induction false} OnlyRemovals(ops: seq<Op>)
    requires ops != [] && ops[0].Remove? && forall i, j :: 0 <= i < j < |ops| && ops[i].Remove? ==> ops[j].Remove?
    ensures News(ops) == []
    decreases |ops|
  {
    if |ops| > 1 {
      assert ops[1..][0] == ops[1];
      OnlyRemovals(ops[1..]);
    }
  }

  // ---- the plan suits ----

  function Updates(e: seq<Edit>): (ops: seq<Op>)
    ensures |ops| == |e| && forall i :: 0 <= i < |e| ==> ops[i] == Update(e[i].rec, e[i].addr)
  {
    seq(|e|, i requires 0 <= i < |e| => Update(e[i].rec, e[i].addr))
  }

  function Adds(c: seq<Create>, ids: seq<string>): (ops: seq<Op>)
    requires |ids| == |c|
    ensures |ops| == |c| && forall i :: 0 <= i < |c| ==> ops[i] == Add(c[i].zone, c[i].name, c[i].addr, ids[i])
  {
    seq(|c|, i requires 0 <= i < |c| => Add(c[i].zone, c[i].name, c[i].addr, ids[i]))
  }

  function Removes(d: seq<Rec>): (ops: seq<Op>)
    ensures |ops| == |d| && forall i :: 0 <= i < |d| ==> ops[i] == Remove(d[i])
  {
    seq(|d|, i requires 0 <= i < |d| => Remove(d[i]))
  }

  /** The provider calls of a plan, in the order apply makes them. */
  function OpsOf(p: Plan, ids: seq<string>): (ops: seq<Op>)
    requires |ids| == |p.creates|
    ensures |ops| == |p.edits| + |p.creates| + |p.deletes|
  {
    Updates(p.edits) + Adds(p.creates, ids) + Removes(p.deletes)
  }

  lemma {:induction false} Grow<T(!new)>(s: seq<T>, all: set<T>, x: T)
    requires OneEach(s, all) && x !in all
    ensures OneEach(s + [x], all + {x})
  {
  }

  lemma {:induction false} DropLast<T(!new)>(init: seq<T>, x: T, all: set<T>)
    requires OneEach(init + [x], all)
    ensures OneEach(init, all - {x}) && x in all
  {
    var s := init + [x];
    forall i, j | 0 <= i < j < |init| ensures init[i] != init[j] { assert s[i] != s[j]; }
    forall y ensures y in init <==> y in all - {x} {
      if y in init {
        var i :| 0 <= i < |init| && init[i] == y;
        assert s[i] == y && s[|init|] == x;
      }
      if y in all - {x} { assert y in s; }
    }
    assert x in s;
  }

  lemma {:induction false} AddedIs(desired: seq<Addr>, held: set<Addr>, is6: bool)
    ensures OneEach(Added(desired, held, is6), set a | a in desired && a !in held && Is6(a) == is6)
    decreases |desired|
  {
    if desired != [] {
      var a, init := desired[|desired|-1], desired[..|desired|-1];
      assert desired == init + [a];
      AddedIs(init, held, is6);
      var before := set x | x in init && x !in held && Is6(x) == is6;
      var after := set x | x in desired && x !in held && Is6(x) == is6;
      if a in init || a in held || Is6(a) != is6 {
        assert before == after;
      } else {
        assert after == before + {a};
        Grow(Added(init, held, is6), before, a);
      }
    }
  }

  lemma {:induction false} SurplusIs(records: seq<Rec>, all: set<Rec>, wanted: set<Addr>, is6: bool)
    requires OneEach(records, all)
    ensures OneEach(Surplus(records, wanted, is6), set r | r in all && r.addr !in wanted && (r.typ == AAAA) == is6)
    decreases |records|
  {
    if records != [] {
      var r, init := records[|records|-1], records[..|records|-1];
      assert records == init + [r];
      DropLast(init, r, all);
      SurplusIs(init, all - {r}, wanted, is6);
      var before := set x | x in all - {r} && x.addr !in wanted && (x.typ == AAAA) == is6;
      var after := set x | x in all && x.addr !in wanted && (x.typ == AAAA) == is6;
      if r.addr !in wanted && (r.typ == AAAA) == is6 {
        assert after == before + {r};
        Grow(Surplus(init, wanted, is6), before, r);
      } else {
        assert after == before;
      }
    }
  }

  lemma {:induction false} Rearranged<T(!new)>(s: seq<T>, t: seq<T>, all: set<T>)
    requires multiset(s) == multiset(t) && OneEach(t, all)
    ensures OneEach(s, all)
    decreases |s|
  {
    if s == [] {
      assert t == [] by { assert |multiset(t)| == 0; }
    } else {
      var x, rest := s[0], s[1..];
      assert s == [x] + rest;
      assert x in multiset(t);
      var i :| 0 <= i < |t| && t[i] == x;
      Without(t, i, all);
      TakeOut(x, rest, t, i);
      Rearranged(rest, t[..i] + t[i+1..], all - {x});
      Prepend(x, rest, all - {x});
      assert {x} + (all - {x}) == all;
    }
  }

  lemma {:induction false} TakeOut<T>(x: T, rest: seq<T>, t: seq<T>, i: nat)
    requires i < |t| && t[i] == x && multiset([x] + rest) == multiset(t)
    ensures multiset(rest) == multiset(t[..i] + t[i+1..])
  {
    assert t == t[..i] + [x] + t[i+1..];
    assert multiset(t) == multiset(t[..i]) + multiset{x} + multiset(t[i+1..]);
    assert multiset([x] + rest) == multiset{x} + multiset(rest);
    assert multiset(t[..i] + t[i+1..]) == multiset(t[..i]) + multiset(t[i+1..]);
    forall y ensures multiset(rest)[y] == multiset(t[..i] + t[i+1..])[y] {
      assert multiset([x] + rest)[y] == multiset(t)[y];
    }
  }

  lemma {:induction false} Without<T(!new)>(t: seq<T>, i: nat, all: set<T>)
    requires i < |t| && OneEach(t, all)
    ensures OneEach(t[..i] + t[i+1..], all - {t[i]}) && t[i] in all
  {
    var t' := t[..i] + t[i+1..];
    forall y ensures y in t' <==> y in all - {t[i]} {
      if y in t' {
        var j :| 0 <= j < |t'| && t'[j] == y;
        assert y == t[if j < i then j else j + 1];
      }
      if y in all - {t[i]} {
        assert y in t;
        var j :| 0 <= j < |t| && t[j] == y;
        assert t'[if j < i then j else j - 1] == y;
      }
    }
    forall a, b | 0 <= a < b < |t'| ensures t'[a] != t'[b] {
      assert t[if a < i then a else a + 1] != t[if b < i then b else b + 1];
    }
  }

  lemma {:induction false} Prepend<T(!new)>(x: T, s: seq<T>, all: set<T>)
    requires OneEach(s, all) && x !in all
    ensures OneEach([x] + s, {x} + all)
  {
  }

  lemma {:induction false} Disjoined<T(!new)>(s: seq<T>, t: seq<T>, a: set<T>, b: set<T>)
    requires OneEach(s, a) && OneEach(t, b) && a !! b
    ensures OneEach(s + t, a + b)
  {
    var u := s + t;
    forall i, j | 0 <= i < j < |u| ensures u[i] != u[j] {
      if i < |s| <= j { assert u[i] in s && u[j] in t; }
      else if j < |s| { assert s[i] != s[j]; }
      else { assert t[i - |s|] != t[j - |s|]; }
    }
  }

  lemma {:induction false} SizeOfAll<T(!new)>(s: seq<T>, all: set<T>)
    requires OneEach(s, all)
    ensures |s| == |all|
    decreases |s|
  {
    if s == [] {
      if x :| x in all { assert x in s; }
    } else {
      assert s == [s[0]] + s[1..];
      DropFirst(s[0], s[1..], all);
      SizeOfAll(s[1..], all - {s[0]});
      assert s[0] in s;
    }
  }

  /** `records` lists the provider's records, each once, in any order. */
  ghost predicate Lists(records: seq<Rec>, m: Provider) {
    OneEach(records, m.Values)
  }

  function Recs(e: seq<Edit>): (s: seq<Rec>)
    ensures |s| == |e| && forall i :: 0 <= i < |e| ==> s[i] == e[i].rec
  {
    seq(|e|, i requires 0 <= i < |e| => e[i].rec)
  }

  function EditAddrs(e: seq<Edit>): (s: seq<Addr>)
    ensures |s| == |e| && forall i :: 0 <= i < |e| ==> s[i] == e[i].addr
  {
    seq(|e|, i requires 0 <= i < |e| => e[i].addr)
  }

  function CreateAddrs(c: seq<Create>): (s: seq<Addr>)
    ensures |s| == |c| && forall i :: 0 <= i < |c| ==> s[i] == c[i].addr
  {
    seq(|c|, i requires 0 <= i < |c| => c[i].addr)
  }

  lemma {:induction false} OldsConcat(a: seq<Op>, b: seq<Op>)
    ensures Olds(a + b) == Olds(a) + Olds(b)
    decreases |a|
  {
    if a == [] {
      assert a + b == b;
    } else {
      assert (a + b)[0] == a[0] && (a + b)[1..] == a[1..] + b;
      OldsConcat(a[1..], b);
      var first: seq<Rec> := if a[0].Add? then [] else [a[0].rec];
      assert Olds(a) == first + Olds(a[1..]);
    }
  }

  lemma {:induction false} NewsConcat(a: seq<Op>, b: seq<Op>)
    ensures News(a + b) == News(a) + News(b)
    decreases |a|
  {
    if a == [] {
      assert a + b == b;
    } else {
      assert (a + b)[0] == a[0] && (a + b)[1..] == a[1..] + b;
      NewsConcat(a[1..], b);
      var first: seq<Addr> := if a[0].Remove? then [] else [a[0].addr];
      assert News(a) == first + News(a[1..]);
    }
  }

  lemma {:induction false} OldsUpdates(e: seq<Edit>)
    ensures Olds(Updates(e)) == Recs(e)
    decreases |e|
  {
    if e != [] {
      var u := Updates(e);
      assert u[0] == Update(e[0].rec, e[0].addr) && u[1..] == Updates(e[1..]);
      OldsUpdates(e[1..]);
      assert Recs(e) == [e[0].rec] + Recs(e[1..]);
      assert Olds(u) == [u[0].rec] + Olds(u[1..]);
    }
  }

  lemma {:induction false} NewsUpdates(e: seq<Edit>)
    ensures News(Updates(e)) == EditAddrs(e)
    decreases |e|
  {
    if e != [] {
      var u := Updates(e);
      assert u[0] == Update(e[0].rec, e[0].addr) && u[1..] == Updates(e[1..]);
      NewsUpdates(e[1..]);
      assert EditAddrs(e) == [e[0].addr] + EditAddrs(e[1..]);
      assert News(u) == [u[0].addr] + News(u[1..]);
    }
  }

  lemma {:induction false} OldsAdds(c: seq<Create>, ids: seq<string>)
    requires |ids| == |c|
    ensures Olds(Adds(c, ids)) == [] && News(Adds(c, ids)) == CreateAddrs(c)
    decreases |c|
  {
    if c != [] {
      assert Adds(c, ids)[1..] == Adds(c[1..], ids[1..]);
      assert CreateAddrs(c) == [c[0].addr] + CreateAddrs(c[1..]);
      OldsAdds(c[1..], ids[1..]);
    }
  }

  lemma {:induction false} OldsRemoves(d: seq<Rec>)
    ensures Olds(Removes(d)) == d && News(Removes(d)) == []
    decreases |d|
  {
    if d != [] {
      assert Removes(d)[1..] == Removes(d[1..]);
      OldsRemoves(d[1..]);
    }
  }

  /** What a plan's calls replace and bring in, read off its three lists. */
  lemma {:induction false} OldsNews(p: Plan, ids: seq<string>)
    requires |ids| == |p.creates|
    ensures Olds(OpsOf(p, ids)) == Recs(p.edits) + p.deletes
    ensures News(OpsOf(p, ids)) == EditAddrs(p.edits) + CreateAddrs(p.creates)
  {
    OldsConcat(Updates(p.edits) + Adds(p.creates, ids), Removes(p.deletes));
    OldsConcat(Updates(p.edits), Adds(p.creates, ids));
    NewsConcat(Updates(p.edits) + Adds(p.creates, ids), Removes(p.deletes));
    NewsConcat(Updates(p.edits), Adds(p.creates, ids));
    OldsUpdates(p.edits);
    NewsUpdates(p.edits);
    OldsAdds(p.creates, ids);
    OldsRemoves(p.deletes);
  }

  /** The sorted addresses and records the plan for one family is made of. */
  ghost function FamilyAddrs(records: seq<Rec>, desired: seq<Addr>, f: bool): (s: seq<Addr>) {
    SortBy(Text, Added(desired, AddrsOf(records), f))
  }

  ghost function FamilyRecs(sort: Sort, records: seq<Rec>, desired: seq<Addr>, f: bool): (s: seq<Rec>) {
    sort(Surplus(records, Wanted(desired), f))
  }

  lemma {:induction false} FamilyParts(sort: Sort, records: seq<Rec>, desired: seq<Addr>, m: Provider, f: bool)
    requires Sorts(sort) && Typed(m) && Lists(records, m)
    ensures OneEach(FamilyAddrs(records, desired, f), Missing(m, Wanted(desired), f))
    ensures OneEach(FamilyRecs(sort, records, desired, f), Stale(m, Wanted(desired), f))
    ensures AddrsOf(records) == Addrs(m)
  {
    var want := Wanted(desired);
    HeldIs(records, m);
    AddedIs(desired, AddrsOf(records), f);
    assert Missing(m, want, f) == set a | a in desired && a !in AddrsOf(records) && Is6(a) == f;
    Rearranged(FamilyAddrs(records, desired, f), Added(desired, AddrsOf(records), f), Missing(m, want, f));
    SurplusIs(records, m.Values, want, f);
    StaleIs(m, want, f);
    Rearranged(FamilyRecs(sort, records, desired, f), Surplus(records, want, f), Stale(m, want, f));
  }

  lemma {:induction false} HeldIs(records: seq<Rec>, m: Provider)
    requires Lists(records, m)
    ensures AddrsOf(records) == Addrs(m)
  {
    forall a ensures a in AddrsOf(records) <==> a in Addrs(m) {
      if a in AddrsOf(records) {
        var r :| r in records && r.addr == a;
        assert r in m.Values;
      }
      if a in Addrs(m) {
        var k :| k in m && m[k].addr == a;
        assert m[k] in m.Values;
        assert m[k] in records;
      }
    }
  }

  lemma {:induction false} StaleIs(m: Provider, want: set<Addr>, f: bool)
    requires Typed(m)
    ensures Stale(m, want, f) == set r | r in m.Values && r.addr !in want && (r.typ == AAAA) == f
  {
  }

  /** One family's share: its records and addresses, split between the lists. */
  lemma {:induction false} ShareParts(first: Rec, a: seq<Addr>, d: seq<Rec>)
    ensures var p, n := Share(first, a, d), Min(|a|, |d|);
            && Recs(p.edits) == d[..n] && p.deletes == d[n..]
            && EditAddrs(p.edits) == a[..n] && CreateAddrs(p.creates) == a[n..]
            && |p.edits| + |p.creates| + |p.deletes| == Max(|a|, |d|)
  {
  }

  lemma {:induction false} Shuffled<T>(s: seq<T>, t: seq<T>, n: nat, k: nat)
    requires n <= |s| && k <= |t|
    ensures multiset(s[..n] + t[..k] + (s[n..] + t[k..])) == multiset(s + t)
  {
    assert s[..n] + s[n..] == s && t[..k] + t[k..] == t;
    assert multiset(s[..n] + t[..k] + (s[n..] + t[k..]))
      == multiset(s[..n]) + multiset(t[..k]) + (multiset(s[n..]) + multiset(t[k..]));
    assert multiset(s) == multiset(s[..n]) + multiset(s[n..]);
    assert multiset(t) == multiset(t[..k]) + multiset(t[k..]);
  }

  /** Two listings of disjoint sets, dealt out in part, list the union. */
  lemma {:induction false} Dealt<T(!new)>(s: seq<T>, t: seq<T>, n: nat, k: nat, a: set<T>, b: set<T>)
    requires n <= |s| && k <= |t| && OneEach(s, a) && OneEach(t, b) && a !! b
    ensures OneEach(s[..n] + t[..k] + (s[n..] + t[k..]), a + b)
  {
    Shuffled(s, t, n, k);
    Disjoined(s, t, a, b);
    Rearranged(s[..n] + t[..k] + (s[n..] + t[k..]), s + t, a + b);
  }

  /** The plan's calls are as many as the cost, use every stale record and every missing address
      exactly once, and never cross families. */
  lemma {:induction false} PlanParts(sort: Sort, records: seq<Rec>, desired: seq<Addr>, m: Provider, ids: seq<string>)
    requires Sorts(sort) && Typed(m) && Lists(records, m)
    requires records != [] && |ids| == |PlanFor(sort, records, desired).creates|
    ensures var ops, want := OpsOf(PlanFor(sort, records, desired), ids), Wanted(desired);
            && |ops| == Cost(m, want)
            && OneEach(Olds(ops), AllStale(m, want)) && OneEach(News(ops), want - Addrs(m))
  {
    var want := Wanted(desired);
    var a4, a6 := FamilyAddrs(records, desired, false), FamilyAddrs(records, desired, true);
    var d4, d6 := FamilyRecs(sort, records, desired, false), FamilyRecs(sort, records, desired, true);
    FamilyParts(sort, records, desired, m, false);
    FamilyParts(sort, records, desired, m, true);
    SizeOfAll(a4, Missing(m, want, false));
    SizeOfAll(a6, Missing(m, want, true));
    SizeOfAll(d4, Stale(m, want, false));
    SizeOfAll(d6, Stale(m, want, true));
    ShareParts(records[0], a4, d4);
    ShareParts(records[0], a6, d6);
    SharesList(records[0], a4, a6, d4, d6, ids, m, want);
  }

  lemma {:induction false} SharesList(first: Rec, a4: seq<Addr>, a6: seq<Addr>, d4: seq<Rec>, d6: seq<Rec>,
                                      ids: seq<string>, m: Provider, want: set<Addr>)
    requires |ids| == |Join(Share(first, a4, d4), Share(first, a6, d6)).creates|
    requires OneEach(a4, Missing(m, want, false)) && OneEach(a6, Missing(m, want, true))
    requires OneEach(d4, Stale(m, want, false)) && OneEach(d6, Stale(m, want, true))
    ensures var ops := OpsOf(Join(Share(first, a4, d4), Share(first, a6, d6)), ids);
            OneEach(Olds(ops), AllStale(m, want)) && OneEach(News(ops), want - Addrs(m))
  {
    var p := Join(Share(first, a4, d4), Share(first, a6, d6));
    var n4, n6 := Min(|a4|, |d4|), Min(|a6|, |d6|);
    OldsNews(p, ids);
    JoinParts(first, a4, a6, d4, d6);
    BothFamilies(m, want);
    Dealt(d4, d6, n4, n6, Stale(m, want, false), Stale(m, want, true));
    Dealt(a4, a6, n4, n6, Missing(m, want, false), Missing(m, want, true));
  }

  lemma {:induction false} JoinParts(first: Rec, a4: seq<Addr>, a6: seq<Addr>, d4: seq<Rec>, d6: seq<Rec>)
    ensures var p, n4, n6 := Join(Share(first, a4, d4), Share(first, a6, d6)), Min(|a4|, |d4|), Min(|a6|, |d6|);
            && Recs(p.edits) == d4[..n4] + d6[..n6] && p.deletes == d4[n4..] + d6[n6..]
            && EditAddrs(p.edits) == a4[..n4] + a6[..n6]
            && CreateAddrs(p.creates) == a4[n4..] + a6[n6..]
  {
    ShareParts(first, a4, d4);
    ShareParts(first, a6, d6);
  }

  lemma {:induction false} BothFamilies(m: Provider, want: set<Addr>)
    ensures Stale(m, want, false) !! Stale(m, want, true)
    ensures Stale(m, want, false) + Stale(m, want, true) == AllStale(m, want)
    ensures Missing(m, want, false) !! Missing(m, want, true)
    ensures Missing(m, want, false) + Missing(m, want, true) == want - Addrs(m)
  {
  }

  lemma {:induction false} EditFamilies(sort: Sort, records: seq<Rec>, desired: seq<Addr>, m: Provider, i: nat)
    requires Sorts(sort) && Typed(m) && Lists(records, m) && records != []
      && i < |PlanFor(sort, records, desired).edits|
    ensures var e := PlanFor(sort, records, desired).edits[i]; Is6(e.addr) == Is6(e.rec.addr)
  {
    FamilyParts(sort, records, desired, m, false);
    FamilyParts(sort, records, desired, m, true);
    var p4 := FamilyShare(sort, records, desired, false);
    var f := i >= |p4.edits|;
    var j := if f then i - |p4.edits| else i;
    var e := PlanFor(sort, records, desired).edits[i];
    assert e == FamilyShare(sort, records, desired, f).edits[j];
    assert e.rec == FamilyRecs(sort, records, desired, f)[j] && e.addr == FamilyAddrs(records, desired, f)[j];
    assert e.rec in Stale(m, Wanted(desired), f);
    assert e.addr in Missing(m, Wanted(desired), f);
  }

  /** Updates first, removals last. */
  lemma {:induction false} OpsOrdered(p: Plan, ids: seq<string>)
    requires |ids| == |p.creates|
    ensures var ops := OpsOf(p, ids);
            && (forall i :: 0 <= i < |ops| && ops[i].Update? ==>
                  i < |p.edits| && ops[i] == Update(p.edits[i].rec, p.edits[i].addr))
            && (forall i, j :: 0 <= i < j < |ops| && ops[i].Remove? ==> ops[j].Remove?)
  {
  }

  lemma {:induction false} PlanSuits(sort: Sort, records: seq<Rec>, desired: seq<Addr>, m: Provider, ids: seq<string>)
    requires Sorts(sort) && Typed(m) && Lists(records, m)
    requires records != [] && |ids| == |PlanFor(sort, records, desired).creates|
    requires FreshKeys(m.Keys, OpsOf(PlanFor(sort, records, desired), ids))
    ensures Suits(m, Wanted(desired), OpsOf(PlanFor(sort, records, desired), ids))
    ensures |OpsOf(PlanFor(sort, records, desired), ids)| == Cost(m, Wanted(desired))
  {
    var p := PlanFor(sort, records, desired);
    var ops := OpsOf(p, ids);
    PlanParts(sort, records, desired, m, ids);
    OpsOrdered(p, ids);
    forall i | 0 <= i < |ops| && ops[i].Update? ensures Is6(ops[i].addr) == Is6(ops[i].rec.addr) {
      EditFamilies(sort, records, desired, m, i);
    }
  }

  // ---- what every plan guarantees ----

  /** Applying the plan leaves exactly the desired addresses, by calls that all go through and never
      change a record's family; and no sequence of family-preserving calls that gets there is shorter. */
  lemma {:induction false} PlanConverges(sort: Sort, records: seq<Rec>, desired: seq<Addr>, m: Provider,
                                         ids: seq<string>)
    requires Sorts(sort) && Typed(m) && Lists(records, m)
    requires records != [] && |ids| == |PlanFor(sort, records, desired).creates|
    requires FreshKeys(m.Keys, OpsOf(PlanFor(sort, records, desired), ids))
    ensures var ops := OpsOf(PlanFor(sort, records, desired), ids);
            && LegalRun(m, ops) && Addrs(AppliedAll(m, ops)) == Wanted(desired)
            && forall other :: LegalRun(m, other) && Addrs(AppliedAll(m, other)) == Wanted(desired) ==> |other| >= |ops|
  {
    var ops := OpsOf(PlanFor(sort, records, desired), ids);
    PlanSuits(sort, records, desired, m, ids);
    SuitsConverges(m, Wanted(desired), ops);
    forall other | LegalRun(m, other) && Addrs(AppliedAll(m, other)) == Wanted(desired) ensures |other| >= |ops| {
      Minimal(m, other, Wanted(desired));
    }
  }

  /** There is nothing to do exactly when the address sets already agree. */
  lemma {:induction false} PlanEmptyIff(sort: Sort, records: seq<Rec>, desired: seq<Addr>, m: Provider)
    requires Sorts(sort) && Typed(m) && Lists(records, m) && records != []
    ensures Empty(PlanFor(sort, records, desired)) <==> Addrs(m) == Wanted(desired)
  {
    var p := PlanFor(sort, records, desired);
    var ids := seq(|p.creates|, _ => "");
    PlanParts(sort, records, desired, m, ids);
    CostZero(m, Wanted(desired));
  }

  /** Stopping after any k of the n calls is safe: what is left costs exactly n - k, so a new plan
      made from the records then listed has exactly n - k calls and reaches the same address set. */
  lemma {:induction false} PlanRestarts(sort: Sort, records: seq<Rec>, desired: seq<Addr>, m: Provider,
                                        ids: seq<string>, k: nat, records': seq<Rec>, ids': seq<string>)
    requires Sorts(sort) && Typed(m) && Lists(records, m)
    requires records != [] && |ids| == |PlanFor(sort, records, desired).creates|
    requires FreshKeys(m.Keys, OpsOf(PlanFor(sort, records, desired), ids))
    requires k <= |OpsOf(PlanFor(sort, records, desired), ids)|
    requires var m' := AppliedAll(m, OpsOf(PlanFor(sort, records, desired), ids)[..k]);
             && Lists(records', m') && records' != [] && |ids'| == |PlanFor(sort, records', desired).creates|
             && FreshKeys(m'.Keys, OpsOf(PlanFor(sort, records', desired), ids'))
    ensures var ops := OpsOf(PlanFor(sort, records, desired), ids);
            var again := OpsOf(PlanFor(sort, records', desired), ids');
            && |again| == |ops| - k
            && Addrs(AppliedAll(AppliedAll(m, ops[..k]), again)) == Wanted(desired)
  {
    var want, ops := Wanted(desired), OpsOf(PlanFor(sort, records, desired), ids);
    var m' := AppliedAll(m, ops[..k]);
    PlanSuits(sort, records, desired, m, ids);
    SuitsPrefix(m, want, ops, k);
    CostAfter(m, want, ops, k);
    PlanSuits(sort, records', desired, m', ids');
    SuitsConverges(m', want, OpsOf(PlanFor(sort, records', desired), ids'));
  }

  /** Each call of a cost-sized suitable sequence takes exactly one off the cost. */
  lemma {:induction false} CostAfter(m: Provider, want: set<Addr>, ops: seq<Op>, k: nat)
    requires Typed(m) && Suits(m, want, ops) && |ops| == Cost(m, want) && k <= |ops|
    ensures Cost(AppliedAll(m, ops[..k]), want) == |ops| - k
  {
    SuitsPrefix(m, want, ops, k);
    var m' := AppliedAll(m, ops[..k]);
    RunCost(m, ops[..k], want);
    SuitsConverges(m', want, ops[k..]);
    RunCost(m', ops[k..], want);
    CostZero(AppliedAll(m', ops[k..]), want);
  }

  /** During the whole of it the host keeps a record and every record already right is untouched. */
  lemma {:induction false} PlanIsGentle(sort: Sort, records: seq<Rec>, desired: seq<Addr>, m: Provider,
                                        ids: seq<string>, k: nat)
    requires Sorts(sort) && Typed(m) && Lists(records, m)
    requires records != [] && |ids| == |PlanFor(sort, records, desired).creates|
    requires FreshKeys(m.Keys, OpsOf(PlanFor(sort, records, desired), ids)) && desired != []
    requires k <= |OpsOf(PlanFor(sort, records, desired), ids)|
    ensures var m' := AppliedAll(m, OpsOf(PlanFor(sort, records, desired), ids)[..k]);
            && m' != map[]
            && forall key :: key in m && m[key].addr in desired ==> key in m' && m'[key] == m[key]
  {
    var want, ops := Wanted(desired), OpsOf(PlanFor(sort, records, desired), ids);
    PlanSuits(sort, records, desired, m, ids);
    assert desired[0] in want;
    assert records[0] in records;
    assert m != map[];
    NeverBare(m, want, ops, k);
    forall key | key in m && m[key].addr in desired
      ensures key in AppliedAll(m, ops[..k]) && AppliedAll(m, ops[..k])[key] == m[key]
    {
      CorrectUntouched(m, want, ops, k, key);
    }
  }

  // ---- each family's records only grow or only shrink ----

  function FamilyKeys(m: Provider, f: bool): (s: set<Key>) {
    set k | k in m && Is6(m[k].addr) == f
  }

  lemma {:induction false} FamilyKeysRun(m: Provider, ops: seq<Op>, f: bool)
    requires Typed(m) && LegalRun(m, ops)
    ensures (forall i :: 0 <= i < |ops| ==> !(ops[i].Remove? && FamilyOf(ops[i]) == f)) ==>
              FamilyKeys(m, f) <= FamilyKeys(AppliedAll(m, ops), f)
    ensures (forall i :: 0 <= i < |ops| ==> !(ops[i].Add? && FamilyOf(ops[i]) == f)) ==>
              FamilyKeys(AppliedAll(m, ops), f) <= FamilyKeys(m, f)
    decreases |ops|
  {
    if ops != [] {
      AppliedTyped(m, ops[0]);
      FamilyKeysStep(m, ops[0], f);
      FamilyKeysRun(Applied(m, ops[0]), ops[1..], f);
    }
  }

  lemma {:induction false} FamilyKeysStep(m: Provider, op: Op, f: bool)
    requires Typed(m) && Legal(m, op)
    ensures !(op.Remove? && FamilyOf(op) == f) ==> FamilyKeys(m, f) <= FamilyKeys(Applied(m, op), f)
    ensures !(op.Add? && FamilyOf(op) == f) ==> FamilyKeys(Applied(m, op), f) <= FamilyKeys(m, f)
  {
  }

  /** A plan removes from a family or adds to it, never both: a family's removals are what its
      addresses could not be paired with, and the other way round. */
  lemma {:induction false} OneDirection(sort: Sort, records: seq<Rec>, desired: seq<Addr>, m: Provider,
                                        ids: seq<string>, f: bool)
    requires Sorts(sort) && Typed(m) && Lists(records, m)
    requires records != [] && |ids| == |PlanFor(sort, records, desired).creates|
    ensures var ops := OpsOf(PlanFor(sort, records, desired), ids);
            || (forall i :: 0 <= i < |ops| ==> !(ops[i].Remove? && FamilyOf(ops[i]) == f))
            || (forall i :: 0 <= i < |ops| ==> !(ops[i].Add? && FamilyOf(ops[i]) == f))
  {
    var want := Wanted(desired);
    FamilyParts(sort, records, desired, m, false);
    FamilyParts(sort, records, desired, m, true);
    SharesOneWay(records[0], FamilyAddrs(records, desired, false), FamilyAddrs(records, desired, true),
                 FamilyRecs(sort, records, desired, false), FamilyRecs(sort, records, desired, true), m, want, f);
    OpsKinds(PlanFor(sort, records, desired), ids, f);
  }

  lemma {:induction false} SharesOneWay(first: Rec, a4: seq<Addr>, a6: seq<Addr>, d4: seq<Rec>, d6: seq<Rec>,
                                        m: Provider, want: set<Addr>, f: bool)
    requires OneEach(a4, Missing(m, want, false)) && OneEach(a6, Missing(m, want, true))
    requires OneEach(d4, Stale(m, want, false)) && OneEach(d6, Stale(m, want, true))
    ensures var p := Join(Share(first, a4, d4), Share(first, a6, d6));
            || (forall i :: 0 <= i < |p.deletes| ==> Is6(p.deletes[i].addr) != f)
            || (forall i :: 0 <= i < |p.creates| ==> Is6(p.creates[i].addr) != f)
  {
    var p, n4, n6 := Join(Share(first, a4, d4), Share(first, a6, d6)), Min(|a4|, |d4|), Min(|a6|, |d6|);
    JoinParts(first, a4, a6, d4, d6);
    forall i | 0 <= i < |d4| ensures !Is6(d4[i].addr) { assert d4[i] in d4; }
    forall i | 0 <= i < |d6| ensures Is6(d6[i].addr) { assert d6[i] in d6; }
    forall i | 0 <= i < |a4| ensures !Is6(a4[i]) { assert a4[i] in a4; }
    forall i | 0 <= i < |a6| ensures Is6(a6[i]) { assert a6[i] in a6; }
    assert forall i :: 0 <= i < |p.creates| ==> p.creates[i].addr == CreateAddrs(p.creates)[i];
  }

  lemma {:induction false} OpsKinds(p: Plan, ids: seq<string>, f: bool)
    requires |ids| == |p.creates|
    ensures var ops := OpsOf(p, ids);
            && ((forall i :: 0 <= i < |p.deletes| ==> Is6(p.deletes[i].addr) != f) ==>
                  forall i :: 0 <= i < |ops| ==> !(ops[i].Remove? && FamilyOf(ops[i]) == f))
            && ((forall i :: 0 <= i < |p.creates| ==> Is6(p.creates[i].addr) != f) ==>
                  forall i :: 0 <= i < |ops| ==> !(ops[i].Add? && FamilyOf(ops[i]) == f))
  {
  }

  lemma {:induction false} SplitRun(m: Provider, a: seq<Op>, b: seq<Op>)
    ensures AppliedAll(m, a + b) == AppliedAll(AppliedAll(m, a), b)
    ensures LegalRun(m, a + b) <==> LegalRun(m, a) && LegalRun(AppliedAll(m, a), b)
    decreases |a|
  {
    if a == [] {
      assert a + b == b;
    } else {
      assert (a + b)[0] == a[0] && (a + b)[1..] == a[1..] + b;
      SplitRun(Applied(m, a[0]), a[1..], b);
    }
  }

  lemma {:induction false} KeysBetween(m: Provider, ops: seq<Op>, f: bool, i: nat, j: nat)
    requires Typed(m) && LegalRun(m, ops) && i <= j <= |ops|
    ensures (forall l :: 0 <= l < |ops| ==> !(ops[l].Remove? && FamilyOf(ops[l]) == f)) ==>
              FamilyKeys(AppliedAll(m, ops[..i]), f) <= FamilyKeys(AppliedAll(m, ops[..j]), f)
    ensures (forall l :: 0 <= l < |ops| ==> !(ops[l].Add? && FamilyOf(ops[l]) == f)) ==>
              FamilyKeys(AppliedAll(m, ops[..j]), f) <= FamilyKeys(AppliedAll(m, ops[..i]), f)
  {
    assert ops == ops[..i] + ops[i..j] + ops[j..] && ops[..j] == ops[..i] + ops[i..j];
    SplitRun(m, ops[..i] + ops[i..j], ops[j..]);
    SplitRun(m, ops[..i], ops[i..j]);
    RunCost(m, ops[..i], {});
    FamilyKeysRun(AppliedAll(m, ops[..i]), ops[i..j], f);
  }

  /** While a plan is applied, the records of each family only grow in number or only shrink, and
      no identity comes back. */
  lemma {:induction false} FamilyMonotone(sort: Sort, records: seq<Rec>, desired: seq<Addr>, m: Provider,
                                          ids: seq<string>, f: bool)
    requires Sorts(sort) && Typed(m) && Lists(records, m)
    requires records != [] && |ids| == |PlanFor(sort, records, desired).creates|
    requires FreshKeys(m.Keys, OpsOf(PlanFor(sort, records, desired), ids))
    ensures var ops := OpsOf(PlanFor(sort, records, desired), ids);
            || (forall i, j :: 0 <= i <= j <= |ops| ==>
                  FamilyKeys(AppliedAll(m, ops[..i]), f) <= FamilyKeys(AppliedAll(m, ops[..j]), f))
            || (forall i, j :: 0 <= i <= j <= |ops| ==>
                  FamilyKeys(AppliedAll(m, ops[..j]), f) <= FamilyKeys(AppliedAll(m, ops[..i]), f))
  {
    var ops := OpsOf(PlanFor(sort, records, desired), ids);
    PlanConverges(sort, records, desired, m, ids);
    OneDirection(sort, records, desired, m, ids, f);
    if forall l :: 0 <= l < |ops| ==> !(ops[l].Remove? && FamilyOf(ops[l]) == f) {
      forall i, j | 0 <= i <= j <= |ops|
        ensures FamilyKeys(AppliedAll(m, ops[..i]), f) <= FamilyKeys(AppliedAll(m, ops[..j]), f)
      {
        KeysBetween(m, ops, f, i, j);
      }
    } else {
      forall i, j | 0 <= i <= j <= |ops|
        ensures FamilyKeys(AppliedAll(m, ops[..j]), f) <= FamilyKeys(AppliedAll(m, ops[..i]), f)
      {
        KeysBetween(m, ops, f, i, j);
      }
    }
  }

  // ---- a plan stays within the records it was given ----

  lemma {:induction false} SurplusWithin(records: seq<Rec>, wanted: set<Addr>, f: bool, r: Rec)
    requires r in Surplus(records, wanted, f)
    ensures r in records
    decreases |records|
  {
    var init := records[..|records|-1];
    if r in Surplus(init, wanted, f) { SurplusWithin(init, wanted, f, r); }
  }

  lemma {:induction false} FamilyWithin(sort: Sort, records: seq<Rec>, desired: seq<Addr>, f: bool, r: Rec)
    requires Sorts(sort) && r in FamilyRecs(sort, records, desired, f)
    ensures r in records
  {
    assert r in multiset(FamilyRecs(sort, records, desired, f));
    SurplusWithin(records, Wanted(desired), f, r);
  }

  /** Every record a plan edits or deletes was listed, and every record it creates carries the name
      and zone of a listed one. */
  lemma {:induction false} PlanWithin(sort: Sort, records: seq<Rec>, desired: seq<Addr>)
    requires Sorts(sort) && records != []
    ensures var p := PlanFor(sort, records, desired);
            && (forall i :: 0 <= i < |p.edits| ==> p.edits[i].rec in records)
            && (forall i :: 0 <= i < |p.deletes| ==> p.deletes[i] in records)
            && (forall i :: 0 <= i < |p.creates| ==>
                  p.creates[i].name == records[0].name && p.creates[i].zone == records[0].key.zone)
  {
    var d4, d6 := FamilyRecs(sort, records, desired, false), FamilyRecs(sort, records, desired, true);
    forall i | 0 <= i < |d4| ensures d4[i] in records { FamilyWithin(sort, records, desired, false, d4[i]); }
    forall i | 0 <= i < |d6| ensures d6[i] in records { FamilyWithin(sort, records, desired, true, d6[i]); }
    SharesWithin(records, FamilyAddrs(records, desired, false), FamilyAddrs(records, desired, true), d4, d6);
  }

  lemma {:induction false} SharesWithin(records: seq<Rec>, a4: seq<Addr>, a6: seq<Addr>, d4: seq<Rec>, d6: seq<Rec>)
    requires records != []
    requires forall i :: 0 <= i < |d4| ==> d4[i] in records
    requires forall i :: 0 <= i < |d6| ==> d6[i] in records
    ensures var p := Join(Share(records[0], a4, d4), Share(records[0], a6, d6));
            && (forall i :: 0 <= i < |p.edits| ==> p.edits[i].rec in records)
            && (forall i :: 0 <= i < |p.deletes| ==> p.deletes[i] in records)
            && (forall i :: 0 <= i < |p.creates| ==>
                  p.creates[i].name == records[0].name && p.creates[i].zone == records[0].key.zone)
  {
    JoinParts(records[0], a4, a6, d4, d6);
    var p := Join(Share(records[0], a4, d4), Share(records[0], a6, d6));
    assert forall i :: 0 <= i < |p.edits| ==> p.edits[i].rec == Recs(p.edits)[i];
  }

  // ---- the plan does not depend on the order of the announcement ----

  lemma {:induction false} OrderUnique(s: seq<Addr>, t: seq<Addr>, all: set<Addr>)
    requires OneEach(s, all) && OneEach(t, all) && InOrder(Text, s) && InOrder(Text, t)
    ensures s == t
    decreases |s|
  {
    SizeOfAll(s, all);
    SizeOfAll(t, all);
    if s != [] {
      var x, y := s[0], t[0];
      assert x in s && y in t;
      var i :| 0 <= i < |t| && t[i] == x;
      var j :| 0 <= j < |s| && s[j] == y;
      assert !Lex(Text(x), Text(y)) && !Lex(Text(y), Text(x)) by {
        if i > 0 { assert !Lex(Text(t[i]), Text(t[0])); } else { if Lex(x, x) { LexAsym(x, x); } }
        if j > 0 { assert !Lex(Text(s[j]), Text(s[0])); } else { if Lex(x, x) { LexAsym(x, x); } }
      }
      LexTotal(x, y);
      assert s == [x] + s[1..] && t == [x] + t[1..];
      DropFirst(x, s[1..], all);
      DropFirst(x, t[1..], all);
      OrderUnique(s[1..], t[1..], all - {x});
    }
  }

  lemma {:induction false} FamilyAddrsFree(records: seq<Rec>, desired: seq<Addr>, desired': seq<Addr>, f: bool)
    requires Wanted(desired) == Wanted(desired')
    ensures FamilyAddrs(records, desired, f) == FamilyAddrs(records, desired', f)
  {
    var held := AddrsOf(records);
    var all := set a | a in Wanted(desired) && a !in held && Is6(a) == f;
    AddedIs(desired, held, f);
    AddedIs(desired', held, f);
    assert all == set a | a in desired && a !in held && Is6(a) == f;
    assert all == (set a | a in desired' && a !in held && Is6(a) == f) by {
      assert forall a :: a in desired' <==> a in Wanted(desired');
    }
    Rearranged(FamilyAddrs(records, desired, f), Added(desired, held, f), all);
    Rearranged(FamilyAddrs(records, desired', f), Added(desired', held, f), all);
    SortInOrder(Text, Added(desired, held, f));
    SortInOrder(Text, Added(desired', held, f));
    OrderUnique(FamilyAddrs(records, desired, f), FamilyAddrs(records, desired', f), all);
  }

  /** Announcing the same addresses in another order, or more than once, gives the same plan; and
      within a family the addresses are handed out in byte order. */
  lemma {:induction false} PlanOrderFree(sort: Sort, records: seq<Rec>, desired: seq<Addr>, desired': seq<Addr>)
    requires Sorts(sort) && records != [] && Wanted(desired) == Wanted(desired')
    ensures PlanFor(sort, records, desired) == PlanFor(sort, records, desired')
    ensures forall f ::
      InOrder(Text, FamilyAddrs(records, desired, f)) && InOrder(Content, FamilyRecs(sort, records, desired, f))
  {
    FamilyAddrsFree(records, desired, desired', false);
    FamilyAddrsFree(records, desired, desired', true);
    forall f
      ensures InOrder(Text, FamilyAddrs(records, desired, f)) && InOrder(Content, FamilyRecs(sort, records, desired, f))
    {
      SortInOrder(Text, Added(desired, AddrsOf(records), f));
      SortInOrder(Content, Surplus(records, Wanted(desired), f));
    }
  }

  // ---- which names keep a record ----

  function NamesIn(m: Provider): (s: set<string>) {
    set k | k in m :: m[k].name
  }

  /** The name has a record in `m` that no call of `ops` removes, or `ops` creates one. */
  ghost predicate Spared(m: Provider, ops: seq<Op>, name: string) {
    || (exists k :: k in m && m[k].name == name && Remove(m[k]) !in ops)
    || (exists i :: 0 <= i < |ops| && ops[i].Add? && ops[i].name == name)
  }

  lemma {:induction false} OldsHas(ops: seq<Op>, r: Rec)
    requires Remove(r) in ops
    ensures r in Olds(ops)
    decreases |ops|
  {
    if ops[0] != Remove(r) { OldsHas(ops[1..], r); }
  }

  /** A record that is right is not removed, and none is both changed and removed. */
  lemma {:induction false} NotRemoved(m: Provider, want: set<Addr>, ops: seq<Op>, r: Rec)
    requires OneEach(Olds(ops), AllStale(m, want))
    ensures r.addr in want ==> Remove(r) !in ops
    ensures ops != [] && !ops[0].Add? && ops[0].rec == r ==> Remove(r) !in ops[1..]
  {
    if Remove(r) in ops { OldsHas(ops, r); }
    if ops != [] && !ops[0].Add? && ops[0].rec == r {
      DropFirst(r, Olds(ops[1..]), AllStale(m, want));
      if Remove(r) in ops[1..] { OldsHas(ops[1..], r); }
    }
  }

  lemma {:induction false} SparedStep(m: Provider, want: set<Addr>, ops: seq<Op>, name: string)
    requires Typed(m) && Suits(m, want, ops) && ops != []
    ensures Spared(m, ops, name) <==> Spared(Applied(m, ops[0]), ops[1..], name)
  {
    SuitsStep(m, want, ops);
    SuitsLegal(m, want, ops);
    if Spared(m, ops, name) { SparedOn(m, want, ops, name); }
    if Spared(Applied(m, ops[0]), ops[1..], name) { SparedBack(m, want, ops, name); }
  }

  lemma {:induction false} SparedOn(m: Provider, want: set<Addr>, ops: seq<Op>, name: string)
    requires ops != [] && Legal(m, ops[0]) && Suits(Applied(m, ops[0]), want, ops[1..])
    requires !ops[0].Remove? ==> ops[0].addr in want
    requires Spared(m, ops, name)
    ensures Spared(Applied(m, ops[0]), ops[1..], name)
  {
    var op, m' := ops[0], Applied(m, ops[0]);
    if k :| k in m && m[k].name == name && Remove(m[k]) !in ops {
      if !op.Update? || k != op.rec.key {
        assert k in m' && m'[k] == m[k] && Remove(m'[k]) !in ops[1..];
      } else {
        NotRemoved(m', want, ops[1..], m'[k]);
      }
    } else {
      var i :| 0 <= i < |ops| && ops[i].Add? && ops[i].name == name;
      if i == 0 {
        var k := Key(op.zone, op.id);
        assert k in m' && m'[k].name == name;
        NotRemoved(m', want, ops[1..], m'[k]);
      } else {
        assert ops[1..][i-1] == ops[i];
      }
    }
  }

  lemma {:induction false} SparedBack(m: Provider, want: set<Addr>, ops: seq<Op>, name: string)
    requires Typed(m) && OneEach(Olds(ops), AllStale(m, want)) && ops != [] && Legal(m, ops[0])
    requires Spared(Applied(m, ops[0]), ops[1..], name)
    ensures Spared(m, ops, name)
  {
    var op, m' := ops[0], Applied(m, ops[0]);
    if k :| k in m' && m'[k].name == name && Remove(m'[k]) !in ops[1..] {
      if op.Add? && k == Key(op.zone, op.id) {
        assert ops[0].name == name;
      } else if op.Update? && k == op.rec.key {
        NotRemoved(m, want, ops, m[k]);
        assert m[k].name == name && Remove(m[k]) !in ops;
      } else {
        assert k in m && m[k] == m'[k];
        assert op != Remove(m[k]);
      }
    } else {
      var i :| 0 <= i < |ops[1..]| && ops[1..][i].Add? && ops[1..][i].name == name;
      assert ops[i+1] == ops[1..][i];
    }
  }

  /** A name has a record in the end exactly when it is spared. */
  lemma {:induction false} NamesAfter(m: Provider, want: set<Addr>, ops: seq<Op>, name: string)
    requires Typed(m) && Suits(m, want, ops)
    ensures name in NamesIn(AppliedAll(m, ops)) <==> Spared(m, ops, name)
    decreases |ops|
  {
    if ops != [] {
      SuitsStep(m, want, ops);
      SparedStep(m, want, ops, name);
      NamesAfter(Applied(m, ops[0]), want, ops[1..], name);
    }
  }

  /** A spared name that has a record keeps one throughout. */
  lemma {:induction false} NamesDuring(m: Provider, want: set<Addr>, ops: seq<Op>, k: nat, name: string)
    requires Typed(m) && Suits(m, want, ops) && k <= |ops| && name in NamesIn(m) && Spared(m, ops, name)
    ensures name in NamesIn(AppliedAll(m, ops[..k]))
    decreases k
  {
    if k > 0 {
      SuitsStep(m, want, ops);
      SparedStep(m, want, ops, name);
      StillNamed(m, want, ops, name);
      NamesDuring(Applied(m, ops[0]), want, ops[1..], k - 1, name);
      assert ops[..k][0] == ops[0] && ops[..k][1..] == ops[1..][..k-1];
    }
  }

  lemma {:induction false} StillNamed(m: Provider, want: set<Addr>, ops: seq<Op>, name: string)
    requires Typed(m) && Suits(m, want, ops) && ops != [] && name in NamesIn(m) && Spared(m, ops, name)
    ensures name in NamesIn(Applied(m, ops[0]))
  {
    SuitsLegal(m, want, ops);
    var op := ops[0];
    var key :| key in m && m[key].name == name && (op.Remove? ==> Remove(m[key]) !in ops);
    assert op.Remove? ==> key != op.rec.key;
    assert key in Applied(m, op) && Applied(m, op)[key].name == name;
  }

  /** The record comes after as many others as there are addresses. */
  ghost predicate Beyond(a: seq<Addr>, d: seq<Rec>, r: Rec) {
    exists i :: |a| <= i < |d| && d[i] == r
  }

  /** A record the plan removes: its address is unwanted, and in the order of their contents it comes after as
      many unwanted records of its family as the family has missing addresses. */
  ghost predicate Dropped(sort: Sort, records: seq<Rec>, desired: seq<Addr>, r: Rec) {
    || Beyond(FamilyAddrs(records, desired, false), FamilyRecs(sort, records, desired, false), r)
    || Beyond(FamilyAddrs(records, desired, true), FamilyRecs(sort, records, desired, true), r)
  }

  /** A family has more missing addresses than unwanted records. */
  ghost predicate Short(sort: Sort, records: seq<Rec>, desired: seq<Addr>) {
    || |FamilyAddrs(records, desired, false)| > |FamilyRecs(sort, records, desired, false)|
    || |FamilyAddrs(records, desired, true)| > |FamilyRecs(sort, records, desired, true)|
  }

  lemma {:induction false} BeyondIs(first: Rec, a: seq<Addr>, d: seq<Rec>, r: Rec)
    ensures r in Share(first, a, d).deletes <==> Beyond(a, d, r)
    ensures Share(first, a, d).creates != [] <==> |a| > |d|
  {
    var n := Min(|a|, |d|);
    if i :| |a| <= i < |d| && d[i] == r { assert d[n..][i - n] == r; }
  }

  lemma {:induction false} DroppedIs(sort: Sort, records: seq<Rec>, desired: seq<Addr>, r: Rec)
    requires records != []
    ensures r in PlanFor(sort, records, desired).deletes <==> Dropped(sort, records, desired, r)
    ensures PlanFor(sort, records, desired).creates != [] <==> Short(sort, records, desired)
  {
    BeyondIs(records[0], FamilyAddrs(records, desired, false), FamilyRecs(sort, records, desired, false), r);
    BeyondIs(records[0], FamilyAddrs(records, desired, true), FamilyRecs(sort, records, desired, true), r);
  }

  lemma {:induction false} OpsSpare(p: Plan, ids: seq<string>, r: Rec)
    requires |ids| == |p.creates|
    ensures Remove(r) in OpsOf(p, ids) <==> r in p.deletes
  {
    var ops, n := OpsOf(p, ids), |p.edits| + |p.creates|;
    if r in p.deletes {
      var i :| 0 <= i < |p.deletes| && p.deletes[i] == r;
      assert ops[n + i] == Remove(r);
    }
  }

  lemma {:induction false} OpsCreate(p: Plan, ids: seq<string>, name: string)
    requires |ids| == |p.creates| && forall i :: 0 <= i < |p.creates| ==> p.creates[i].name == name
    ensures forall i :: 0 <= i < |OpsOf(p, ids)| && OpsOf(p, ids)[i].Add? ==> OpsOf(p, ids)[i].name == name
    ensures p.creates != [] <==> exists i :: 0 <= i < |OpsOf(p, ids)| && OpsOf(p, ids)[i].Add?
  {
    if p.creates != [] { assert OpsOf(p, ids)[|p.edits|].Add?; }
  }

  lemma {:induction false} PlanSpares(sort: Sort, records: seq<Rec>, desired: seq<Addr>, m: Provider, ids: seq<string>,
                                      name: string)
    requires Sorts(sort) && Lists(records, m) && records != [] && |ids| == |PlanFor(sort, records, desired).creates|
    ensures Spared(m, OpsOf(PlanFor(sort, records, desired), ids), name) <==> Keeps(sort, records, desired, name)
  {
    var p := PlanFor(sort, records, desired);
    forall r ensures Remove(r) in OpsOf(p, ids) <==> Dropped(sort, records, desired, r) {
      OpsSpare(p, ids, r);
      DroppedIs(sort, records, desired, r);
    }
    DroppedIs(sort, records, desired, records[0]);
    PlanWithin(sort, records, desired);
    OpsCreate(p, ids, records[0].name);
    SparesKeeps(sort, records, desired, m, OpsOf(p, ids), name);
  }

  lemma {:induction false} SparesKeeps(sort: Sort, records: seq<Rec>, desired: seq<Addr>, m: Provider, ops: seq<Op>,
                                       name: string)
    requires Lists(records, m) && records != []
    requires forall r :: Remove(r) in ops <==> Dropped(sort, records, desired, r)
    requires forall i :: 0 <= i < |ops| && ops[i].Add? ==> ops[i].name == records[0].name
    requires Short(sort, records, desired) <==> exists i :: 0 <= i < |ops| && ops[i].Add?
    ensures Spared(m, ops, name) <==> Keeps(sort, records, desired, name)
  {
    if k :| k in m && m[k].name == name && Remove(m[k]) !in ops { assert m[k] in m.Values && m[k] in records; }
    if r :| r in records && r.name == name && !Dropped(sort, records, desired, r) { assert r in m.Values; }
  }

  /** One of the name's records is not dropped, or it is the name new records get and there are some. */
  ghost predicate Keeps(sort: Sort, records: seq<Rec>, desired: seq<Addr>, name: string)
    requires records != []
  {
    || (exists r :: r in records && r.name == name && !Dropped(sort, records, desired, r))
    || (name == records[0].name && Short(sort, records, desired))
  }

  /** All records of a host share one plan, whatever their names. A name has a record at the end of it exactly
      when one of its records is not dropped, or when it is the name of the first record listed and a family
      is short of records; and if it had one before, it then has one after every call. */
  lemma {:induction false} NameKeepsRecord(sort: Sort, records: seq<Rec>, desired: seq<Addr>, m: Provider,
                                           ids: seq<string>, name: string)
    requires Sorts(sort) && Typed(m) && Lists(records, m)
    requires records != [] && |ids| == |PlanFor(sort, records, desired).creates|
    requires FreshKeys(m.Keys, OpsOf(PlanFor(sort, records, desired), ids))
    ensures var ops := OpsOf(PlanFor(sort, records, desired), ids);
      && (name in NamesIn(AppliedAll(m, ops)) <==> Keeps(sort, records, desired, name))
      && (Keeps(sort, records, desired, name) && name in NamesIn(m) ==>
            forall k :: 0 <= k <= |ops| ==> name in NamesIn(AppliedAll(m, ops[..k])))
  {
    var want, ops := Wanted(desired), OpsOf(PlanFor(sort, records, desired), ids);
    PlanSuits(sort, records, desired, m, ids);
    NamesAfter(m, want, ops, name);
    PlanSpares(sort, records, desired, m, ids, name);
    if Spared(m, ops, name) && name in NamesIn(m) {
      forall k | 0 <= k <= |ops| ensures name in NamesIn(AppliedAll(m, ops[..k])) {
        NamesDuring(m, want, ops, k, name);
      }
    }
  }

  const HELD_A: Rec := Rec(Key("z", "1"), "h.a", A, false, "192.0.2.1", "192.0.2.1")
  const HELD_B: Rec := Rec(Key("z", "2"), "h.b", A, false, "203.0.113.1", "203.0.113.1")
  const BOTH_HELD: Provider := map[HELD_A.key := HELD_A, HELD_B.key := HELD_B]
  const NEWCOMER: Addr := "198.51.100.2"

  lemma {:induction false} TwoHeld()
    ensures Typed(BOTH_HELD) && Lists([HELD_A, HELD_B], BOTH_HELD)
  {
    var m := BOTH_HELD;
    assert "1"[0] != "2"[0] && HELD_A.key != HELD_B.key;
    assert m[HELD_A.key] == HELD_A && m[HELD_B.key] == HELD_B;
    forall r ensures r in [HELD_A, HELD_B] <==> r in m.Values {
      if r == HELD_A { assert m[HELD_A.key] in m.Values; }
      if r == HELD_B { assert m[HELD_B.key] in m.Values; }
    }
  }

  lemma {:induction false} TwoSurplus(is6: bool)
    ensures Added([NEWCOMER], AddrsOf([HELD_A, HELD_B]), is6) == if is6 then [] else [NEWCOMER]
    ensures Surplus([HELD_A, HELD_B], Wanted([NEWCOMER]), is6) == if is6 then [] else [HELD_A, HELD_B]
  {
    assert "192.0.2.1"[2] != "198.51.100.2"[2] && "203.0.113.1"[0] != "198.51.100.2"[0];
    var records := [HELD_A, HELD_B];
    assert records[..1] == [HELD_A] && records[..1][..0] == [];
    assert Wanted([NEWCOMER]) == {NEWCOMER};
    assert Surplus([HELD_A], {NEWCOMER}, is6) == if is6 then [] else [HELD_A];
    assert [NEWCOMER][..0] == [];
  }

  /** Two records of different content have one order. */
  lemma {:induction false} SortTwo(sort: Sort, r: Rec, t: Rec)
    requires Sorts(sort) && Lex(Content(r), Content(t))
    ensures sort([r, t]) == [r, t]
  {
    var s := sort([r, t]);
    assert multiset(s) == multiset([r, t]) == multiset{r, t} && |s| == |multiset(s)| == 2;
    assert s == [s[0], s[1]] && multiset(s) == multiset{s[0], s[1]};
    assert s[0] in multiset{r, t} && s[1] in multiset{r, t};
    LexAsym(Content(r), Content(t));
    assert r != t;
  }

  lemma {:induction false} SortNone(sort: Sort, a: Addr)
    requires Sorts(sort)
    ensures SortBy(Text, [a]) == [a] && SortBy(Text, []) == [] && sort([]) == []
  {
    assert [a][1..] == [];
    var s := sort([]);
    assert multiset(s) == multiset([]) && |s| == |multiset(s)| == 0;
  }

  lemma {:induction false} ShareTwo(r: Rec, t: Rec, a: Addr)
    ensures Join(Share(r, [a], [r, t]), Share(r, [], [])) == Plan([Edit(r, a)], [], [t])
  {
    assert [r, t][1..] == [t] && [a][1..] == [];
  }

  lemma {:induction false} TwoPlan(sort: Sort)
    requires Sorts(sort)
    ensures PlanFor(sort, [HELD_A, HELD_B], [NEWCOMER]) == Plan([Edit(HELD_A, NEWCOMER)], [], [HELD_B])
  {
    TwoSurplus(false);
    TwoSurplus(true);
    SortTwo(sort, HELD_A, HELD_B);
    SortNone(sort, NEWCOMER);
    ShareTwo(HELD_A, HELD_B, NEWCOMER);
  }

  /** An update of one record and the removal of the only other leave the first one's name. */
  lemma {:induction false} OneNameLeft(m: Provider, r: Rec, t: Rec, a: Addr, p: Plan)
    requires m == map[r.key := r, t.key := t] && r.key != t.key && p == Plan([Edit(r, a)], [], [t])
    ensures NamesIn(m) == {r.name, t.name} && NamesIn(AppliedAll(m, OpsOf(p, []))) == {r.name}
  {
    var ops := OpsOf(p, []);
    assert ops == [Update(r, a), Remove(t)] && ops[1..] == [Remove(t)] && ops[1..][1..] == [];
    var m1 := Applied(m, ops[0]);
    var m2 := m1 - {t.key};
    assert AppliedAll(m1, ops[1..]) == m2;
    assert m2.Keys == {r.key} && m2[r.key].name == r.name;
    assert m[r.key].name in NamesIn(m) && m[t.key].name in NamesIn(m);
  }

  /** Two names of a host, each with one record holding an old address, and one new address announced: the
      first record in order of content gets it, the other is removed, and its name is left without a record. */
  lemma {:induction false} NameLosesRecord(sort: Sort)
    requires Sorts(sort)
    ensures Typed(BOTH_HELD) && Lists([HELD_A, HELD_B], BOTH_HELD) && NamesIn(BOTH_HELD) == {"h.a", "h.b"}
    ensures var p := PlanFor(sort, [HELD_A, HELD_B], [NEWCOMER]);
      p.creates == [] && NamesIn(AppliedAll(BOTH_HELD, OpsOf(p, []))) == {"h.a"}
  {
    TwoHeld();
    TwoPlan(sort);
    assert HELD_A.key != HELD_B.key by { assert "1"[0] != "2"[0]; }
    OneNameLeft(BOTH_HELD, HELD_A, HELD_B, NEWCOMER, PlanFor(sort, [HELD_A, HELD_B], [NEWCOMER]));
  }
}
