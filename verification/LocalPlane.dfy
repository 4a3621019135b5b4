/** The local plane: *.local and the local domain, from the mDNS view (internal/resolver/resolver.go:231-346
    and 414-542). The address-class tests are parameters; names are lower case. */
module LocalPlane {
  import opened Options
  import opened Names
  import opened Messages
  import opened MdnsStore
  import opened Replies
  import Sorting

  /** What the plane uses of a snapshot: the local domain ([] when there is none), the virtual hosts, the
      managed apexes and the names eligible for write-back; and the address classes. */
  datatype Site = Site(localDomain: Name, vhosts: set<string>, apexes: set<Name>, eligible: set<Name>,
                       servable: Addr -> bool, scoped: Addr -> bool)

  const LOCAL: Name := ["local"]

  // ---- the canonical reverse name ----

  predicate IsHex(c: char) {
    '0' <= c <= '9' || 'a' <= c <= 'f' || 'A' <= c <= 'F'
  }

  /** The number of hexadecimal digits, of a text of such digits and dashes. */
  function HexDigits(s: string): (n: Option<nat>) {
    if s == [] then Some(0)
    else
      var n := HexDigits(s[..|s|-1]);
      var c := s[|s|-1];
      if n.None? then None else if IsHex(c) then Some(n.value + 1) else if c == '-' then n else None
  }

  /** looksLikeID. */
  predicate LooksLikeId(s: string) {
    HexDigits(s).Some? && HexDigits(s).value >= 16
  }

  method IsId(s: string) returns (b: bool)
    ensures b == LooksLikeId(s)
  {
    var hex := 0;
    for i := 0 to |s|
      invariant HexDigits(s[..i]) == Some(hex)
    {
      assert s[..i+1][..i] == s[..i];
      if IsHex(s[i]) {
        hex := hex + 1;
      } else if s[i] != '-' {
        NotHex(s, i + 1);
        return false;
      }
    }
    assert s[..|s|] == s;
    return hex >= 16;
  }

  lemma {:induction false} NotHex(s: string, i: nat)
    requires i <= |s| && HexDigits(s[..i]).None?
    ensures HexDigits(s).None?
    decreases |s| - i
  {
    if i == |s| {
      assert s[..i] == s;
    } else {
      assert s[..i+1][..i] == s[..i];
      NotHex(s, i + 1);
    }
  }

  /** betterCanonical: a hostname before an id, then the lexically smaller. */
  predicate Better(c: string, b: string) {
    if LooksLikeId(c) != LooksLikeId(b) then LooksLikeId(b) else Sorting.Lex(c, b)
  }

  lemma BetterTotal(a: string, b: string)
    requires !Better(a, b) && !Better(b, a)
    ensures a == b
  {
    Sorting.LexTotal(a, b);
  }

  lemma NotBetterTrans(a: string, b: string, c: string)
    requires !Better(b, a) && !Better(c, b)
    ensures !Better(c, a)
  {
    if LooksLikeId(a) == LooksLikeId(b) == LooksLikeId(c) { Sorting.NotLexTrans(a, b, c); }
  }

  lemma BetterAsym(a: string, b: string)
    requires Better(a, b)
    ensures !Better(b, a)
  {
    if LooksLikeId(a) == LooksLikeId(b) { Sorting.LexAsym(a, b); }
  }

  const SUFFIX: string := ".local."

  /** The host a reverse record names, if it names one. */
  function HostOf(ptr: Ptr): (h: Option<string>) {
    var n := |ptr.target| - |SUFFIX|;
    if n > 0 && ptr.target[n..] == SUFFIX then Some(ptr.target[..n]) else None
  }

  /** The best named host of a list is this one, with this TTL. */
  ghost predicate BestOf(ptrs: seq<Ptr>, best: Option<(string, nat)>) {
    && (best.None? ==> forall i :: 0 <= i < |ptrs| ==> HostOf(ptrs[i]).None?)
    && (best.Some? ==>
         && (exists i :: 0 <= i < |ptrs| && HostOf(ptrs[i]) == Some(best.value.0) && ptrs[i].ttl == best.value.1)
         && (forall i :: 0 <= i < |ptrs| && HostOf(ptrs[i]).Some? ==> !Better(HostOf(ptrs[i]).value, best.value.0)))
  }

  /** The loop of canonicalReversePTR. */
  method CanonicalHost(ptrs: seq<Ptr>) returns (best: Option<(string, nat)>)
    ensures BestOf(ptrs, best)
  {
    best := None;
    for i := 0 to |ptrs|
      invariant BestOf(ptrs[..i], best)
    {
      var h := HostOf(ptrs[i]);
      assert ptrs[..i+1] == ptrs[..i] + [ptrs[i]];
      if h.Some? && (best.None? || Better(h.value, best.value.0)) {
        BestReplaced(ptrs[..i], best, ptrs[i]);
        best := Some((h.value, ptrs[i].ttl));
      } else {
        BestKept(ptrs[..i], best, ptrs[i]);
      }
    }
    assert ptrs[..|ptrs|] == ptrs;
  }

  lemma BestKept(ptrs: seq<Ptr>, best: Option<(string, nat)>, ptr: Ptr)
    requires BestOf(ptrs, best) && (HostOf(ptr).Some? ==> best.Some? && !Better(HostOf(ptr).value, best.value.0))
    ensures BestOf(ptrs + [ptr], best)
  {
    if best.Some? {
      var j :| 0 <= j < |ptrs| && HostOf(ptrs[j]) == Some(best.value.0) && ptrs[j].ttl == best.value.1;
      assert (ptrs + [ptr])[j] == ptrs[j];
    }
  }

  lemma BestReplaced(ptrs: seq<Ptr>, best: Option<(string, nat)>, ptr: Ptr)
    requires BestOf(ptrs, best) && HostOf(ptr).Some? && (best.None? || Better(HostOf(ptr).value, best.value.0))
    ensures BestOf(ptrs + [ptr], Some((HostOf(ptr).value, ptr.ttl)))
  {
    var h, all := HostOf(ptr).value, ptrs + [ptr];
    assert all[|ptrs|] == ptr;
    forall i | 0 <= i < |all| && HostOf(all[i]).Some? ensures !Better(HostOf(all[i]).value, h) {
      if i < |ptrs| {
        assert all[i] == ptrs[i];
        BetterAsym(h, best.value.0);
        NotBetterTrans(h, best.value.0, HostOf(ptrs[i]).value);
      } else if Better(h, h) {
        BetterAsym(h, h);
      }
    }
  }

  /** Lists of the same records, with no target twice, have the same best host, whatever their order. */
  lemma BestOrderFree(s: seq<Ptr>, t: seq<Ptr>, a: Option<(string, nat)>, b: Option<(string, nat)>)
    requires forall ptr :: ptr in s <==> ptr in t
    requires forall i, j :: 0 <= i < j < |s| ==> s[i].target != s[j].target
    requires BestOf(s, a) && BestOf(t, b)
    ensures a == b
  {
    if a.Some? {
      var i :| 0 <= i < |s| && HostOf(s[i]) == Some(a.value.0) && s[i].ttl == a.value.1;
      assert s[i] in t;
      var i' :| 0 <= i' < |t| && t[i'] == s[i];
      var j :| 0 <= j < |t| && HostOf(t[j]) == Some(b.value.0) && t[j].ttl == b.value.1;
      assert t[j] in s;
      var j' :| 0 <= j' < |s| && s[j'] == t[j];
      BetterTotal(a.value.0, b.value.0);
      SameTarget(s[i], t[j]);
      assert i == j';
    } else {
      forall i | 0 <= i < |t| ensures HostOf(t[i]).None? {
        assert t[i] in t;
      }
    }
  }

  lemma SameTarget(p: Ptr, q: Ptr)
    requires HostOf(p).Some? && HostOf(p) == HostOf(q)
    ensures p.target == q.target
  {
    var n := |p.target| - |SUFFIX|;
    assert p.target == p.target[..n] + p.target[n..];
    assert q.target == q.target[..n] + q.target[n..];
  }

  /** canonicalReversePTR: the one record for a reverse name, under the local domain when there is one. */
  function ReversePtr(site: Site, best: Option<(string, nat)>): (r: Option<Ptr>) {
    if best.None? then None
    else
      var suffix := if site.localDomain != [] then "." + Text(site.localDomain) + "." else SUFFIX;
      Some(Ptr(best.value.0 + suffix, if best.value.1 == 0 then 120 else best.value.1))
  }

  method CanonicalReversePtr(site: Site, ptrs: seq<Ptr>) returns (r: Option<Ptr>, ghost best: Option<(string, nat)>)
    ensures BestOf(ptrs, best) && r == ReversePtr(site, best)
  {
    var found := CanonicalHost(ptrs);
    r, best := ReversePtr(site, found), found;
  }

  /** The PTR for an address does not depend on the order in which the view's hosts were visited. */
  lemma ReverseOrderFree(p: Params, s: Store, now: int, v: View, w: View, a: Addr,
                         x: Option<(string, nat)>, y: Option<(string, nat)>)
    requires ViewOf(p, s, now, v) && ViewOf(p, s, now, w)
    requires BestOf(At(v.reverse, a), x) && BestOf(At(w.reverse, a), y)
    ensures v.forward == w.forward && x == y
  {
    var l, m := At(v.reverse, a), At(w.reverse, a);
    forall ptr | ptr in l ensures ptr in m {
      var h :| h in Known(s) && Claims(p, s, h, a, now, ptr);
    }
    forall ptr | ptr in m ensures ptr in l {
      var h :| h in Known(s) && Claims(p, s, h, a, now, ptr);
    }
    BestOrderFree(l, m, x, y);
    assert v.forward.Keys == w.forward.Keys;
  }

  // ---- search-list recovery ----

  /** stripMember: the name without a member behind at least one label. */
  function Stripped(name: Name, member: Name): (r: Option<Name>) {
    if member != [] && Under(name, member) && name != member then Some(Owner(name, member)) else None
  }

  /** One pass of the recovery loop: what is left, and whether a local member went. */
  function Pass(site: Site, name: Name): (r: Option<(Name, bool)>) {
    if Stripped(name, LOCAL).Some? then Some((Stripped(name, LOCAL).value, true))
    else if Stripped(name, site.localDomain).Some? then Some((Stripped(name, site.localDomain).value, true))
    else
      var apex := Longest(name, site.apexes);
      if apex.Some? && Stripped(name, apex.value).Some? then Some((Stripped(name, apex.value).value, false))
      else None
  }

  datatype Recovery = Recovery(host: Label, tainted: bool, ok: bool)

  /** The verdict on what is left after the passes. */
  function Verdict(site: Site, left: Name, tainted: bool, stripped: bool): (r: Recovery) {
    if !stripped then Recovery("", false, false)
    else if |left| != 1 || left[0] == "" || left[0][0] == '_' then Recovery("", tainted, false)
    else if left == LOCAL || left == site.localDomain then Recovery("", tainted, false)
    else Recovery(left[0], tainted, true)
  }

  /** A run of members, each local or an apex. */
  predicate Members(site: Site, ms: seq<Name>) {
    forall i :: 0 <= i < |ms| ==> ms[i] != [] && (IsLocal(site, ms[i]) || ms[i] in site.apexes)
  }

  predicate IsLocal(site: Site, m: Name) {
    m == LOCAL || m == site.localDomain
  }

  predicate AnyLocal(site: Site, ms: seq<Name>) {
    exists i :: 0 <= i < |ms| && IsLocal(site, ms[i])
  }

  function Concat(ms: seq<Name>): (r: Name) {
    if ms == [] then [] else ms[0] + Concat(ms[1..])
  }

  /** The name is what is left followed by these members, some of them local exactly when tainted. */
  ghost predicate Split(site: Site, name: Name, left: Name, ms: seq<Name>, tainted: bool) {
    name == left + Concat(ms) && Members(site, ms) && (tainted <==> AnyLocal(site, ms))
  }

  lemma PassSplits(site: Site, left: Name) returns (m: Name)
    requires Pass(site, left).Some?
    ensures m != [] && left == Pass(site, left).value.0 + m && Pass(site, left).value.0 != []
    ensures Pass(site, left).value.1 <==> IsLocal(site, m)
    ensures IsLocal(site, m) || m in site.apexes
  {
    if Stripped(left, LOCAL).Some? {
      m := LOCAL;
    } else if Stripped(left, site.localDomain).Some? {
      m := site.localDomain;
    } else {
      m := Longest(left, site.apexes).value;
      LongestIs(left, site.apexes);
    }
  }

  lemma SplitMore(site: Site, name: Name, left: Name, ms: seq<Name>, tainted: bool, rest: Name, m: Name)
    requires Split(site, name, left, ms, tainted) && left == rest + m
    requires m != [] && (IsLocal(site, m) || m in site.apexes)
    ensures Split(site, name, rest, [m] + ms, tainted || IsLocal(site, m))
  {
    var ns := [m] + ms;
    assert ns[1..] == ms;
    assert rest + m + Concat(ms) == rest + (m + Concat(ms));
    if AnyLocal(site, ms) {
      var i :| 0 <= i < |ms| && IsLocal(site, ms[i]);
      assert IsLocal(site, ns[i + 1]);
    }
    if IsLocal(site, m) { assert IsLocal(site, ns[0]); }
    if AnyLocal(site, ns) {
      var i :| 0 <= i < |ns| && IsLocal(site, ns[i]);
      if i > 0 { assert IsLocal(site, ms[i - 1]); }
    }
  }

  /** What the passes leave of a name, at most n of them. */
  function Passes(site: Site, left: Name, tainted: bool, stripped: bool, n: nat): (r: (Name, bool, bool)) {
    if n == 0 || Pass(site, left).None? then (left, tainted, stripped)
    else Passes(site, Pass(site, left).value.0, tainted || Pass(site, left).value.1, true, n - 1)
  }

  /** recoverLocalHost. */
  function Recovered(site: Site, name: Name): (r: Recovery) {
    var (left, tainted, stripped) := Passes(site, name, false, false, 8);
    Verdict(site, left, tainted, stripped)
  }

  method RecoverLocalHost(site: Site, name: Name) returns (r: Recovery)
    ensures r == Recovered(site, name)
  {
    var cur, tainted, stripped := StripMembers(site, name, 8);
    r := Verdict(site, cur, tainted, stripped);
  }

  /** The bounded loop of recoverLocalHost. */
  method StripMembers(site: Site, name: Name, n: nat) returns (cur: Name, tainted: bool, stripped: bool)
    ensures (cur, tainted, stripped) == Passes(site, name, false, false, n)
  {
    cur, tainted, stripped := name, false, false;
    for i := 0 to n
      invariant Passes(site, name, false, false, n) == Passes(site, cur, tainted, stripped, n - i)
    {
      var pass := OnePass(site, cur);
      if pass.None? {
        PassesStop(site, cur, tainted, stripped, n - i);
        return;
      }
      PassesMore(site, cur, tainted, stripped, n - i, pass.value.0, pass.value.1);
      cur, tainted, stripped := pass.value.0, tainted || pass.value.1, true;
    }
  }

  lemma PassesStop(site: Site, left: Name, tainted: bool, stripped: bool, n: nat)
    requires Pass(site, left) == None
    ensures Passes(site, left, tainted, stripped, n) == (left, tainted, stripped)
  {
  }

  lemma PassesMore(site: Site, left: Name, tainted: bool, stripped: bool, n: nat, rest: Name, local: bool)
    requires n > 0 && Pass(site, left) == Some((rest, local))
    ensures Passes(site, left, tainted, stripped, n) == Passes(site, rest, tainted || local, true, n - 1)
  {
  }

  method OnePass(site: Site, name: Name) returns (r: Option<(Name, bool)>)
    ensures r == Pass(site, name)
  {
    var h := Stripped(name, LOCAL);
    if h.Some? { return Some((h.value, true)); }
    if site.localDomain != [] {
      h := Stripped(name, site.localDomain);
      if h.Some? { return Some((h.value, true)); }
    }
    var apex := LongestSuffix(name, site.apexes);
    if apex.Some? {
      h := Stripped(name, apex.value);
      if h.Some? { return Some((h.value, false)); }
    }
    return None;
  }

  lemma {:induction false} PassesSplit(site: Site, name: Name, left: Name, ms: seq<Name>, tainted: bool, stripped: bool,
                                       n: nat)
    returns (ns: seq<Name>)
    requires Split(site, name, left, ms, tainted) && (stripped <==> ms != []) && |ms| <= 8 - n <= 8
    ensures var (rest, t, st) := Passes(site, left, tainted, stripped, n);
      Split(site, name, rest, ns, t) && (st <==> ns != []) && |ns| <= 8
    decreases n
  {
    ns := ms;
    if n > 0 && Pass(site, left).Some? {
      var m := PassSplits(site, left);
      var (rest, local) := Pass(site, left).value;
      SplitMore(site, name, left, ms, tainted, rest, m);
      ns := PassesSplit(site, name, rest, [m] + ms, tainted || local, true, n - 1);
    }
  }

  /** A recovered name is one host label and 1 to 8 members, and is tainted exactly when one is local. */
  lemma RecoveredIs(site: Site, name: Name) returns (ms: seq<Name>)
    ensures Recovered(site, name).tainted ==> ms != [] && AnyLocal(site, ms)
    ensures Recovered(site, name).ok ==>
      var r := Recovered(site, name);
      && 1 <= |ms| <= 8 && Split(site, name, [r.host], ms, r.tainted)
      && r.host != "" && r.host[0] != '_' && !IsLocal(site, [r.host])
  {
    assert Split(site, name, name, [], false) by { assert name + [] == name; }
    ms := PassesSplit(site, name, name, [], false, false, 8);
    var (left, tainted, stripped) := Passes(site, name, false, false, 8);
    if |left| == 1 { assert left == [left[0]]; }
  }

  // ---- which addresses a host is answered with ----

  /** restrictedLabel: a managed name, served from the trusted tier only. */
  predicate Restricted(site: Site, host: Label) {
    host == "www" || host in site.vhosts || exists apex :: apex in site.apexes && [host] + apex in site.eligible
  }

  method RestrictedLabel(site: Site, host: Label) returns (b: bool)
    ensures b == Restricted(site, host)
  {
    if host == "www" || host in site.vhosts { return true; }
    var rest := site.apexes;
    while rest != {}
      invariant rest <= site.apexes
      invariant forall apex :: apex in site.apexes - rest ==> [host] + apex !in site.eligible
      decreases rest
    {
      var apex :| apex in rest;
      rest := rest - {apex};
      if [host] + apex in site.eligible { return true; }
    }
    return false;
  }

  function ForwardOf(view: View, host: Host): (r: seq<ViewRR>) {
    if host in view.forward then view.forward[host] else []
  }

  predicate Fits(site: Site, rr: ViewRR, six: bool, scopeOnly: bool) {
    Is6(rr.addr) == six && site.servable(rr.addr) && (scopeOnly ==> site.scoped(rr.addr))
  }

  /** The fitting records of one tier, in their order. */
  function Tier(site: Site, recs: seq<ViewRR>, six: bool, scopeOnly: bool, trusted: bool): (r: seq<ViewRR>) {
    if recs == [] then []
    else
      var n := |recs| - 1;
      var init := Tier(site, recs[..n], six, scopeOnly, trusted);
      if recs[n].trusted == trusted && Fits(site, recs[n], six, scopeOnly) then init + [recs[n]] else init
  }

  lemma {:induction false} TierNext(site: Site, recs: seq<ViewRR>, i: nat, six: bool, scopeOnly: bool, trusted: bool)
    requires i < |recs|
    ensures var done := Tier(site, recs[..i], six, scopeOnly, trusted);
      Tier(site, recs[..i+1], six, scopeOnly, trusted)
      == if recs[i].trusted == trusted && Fits(site, recs[i], six, scopeOnly) then done + [recs[i]] else done
  {
    assert recs[..i+1][..i] == recs[..i];
  }

  /** localServeAddrs: the trusted tier if it has any; else, unless restricted, the other. */
  function Served(site: Site, recs: seq<ViewRR>, six: bool, restricted: bool, scopeOnly: bool): (r: seq<ViewRR>) {
    if Tier(site, recs, six, scopeOnly, true) != [] then Tier(site, recs, six, scopeOnly, true)
    else if restricted then []
    else Tier(site, recs, six, scopeOnly, false)
  }

  method LocalServeAddrs(site: Site, view: View, host: Host, six: bool, restricted: bool, scopeOnly: bool)
    returns (r: seq<ViewRR>)
    ensures r == Served(site, ForwardOf(view, host), six, restricted, scopeOnly)
  {
    var recs := ForwardOf(view, host);
    var trusted, self: seq<ViewRR> := [], [];
    for i := 0 to |recs|
      invariant trusted == Tier(site, recs[..i], six, scopeOnly, true)
      invariant self == Tier(site, recs[..i], six, scopeOnly, false)
    {
      TierNext(site, recs, i, six, scopeOnly, true);
      TierNext(site, recs, i, six, scopeOnly, false);
      var rr := recs[i];
      if Is6(rr.addr) == six && site.servable(rr.addr) && (!scopeOnly || site.scoped(rr.addr)) {
        if rr.trusted { trusted := trusted + [rr]; } else { self := self + [rr]; }
      }
    }
    assert recs[..|recs|] == recs;
    if |trusted| > 0 { return trusted; }
    if restricted { return []; }
    return self;
  }

  function Rendered(recs: seq<ViewRR>): (r: seq<RR>)
    ensures |r| == |recs|
    ensures forall i :: 0 <= i < |recs| ==>
      r[i] == RR([], if Is6(recs[i].addr) then AAAA else A, recs[i].ttl, Address(recs[i].addr))
  {
    seq(|recs|, i requires 0 <= i < |recs| =>
      RR([], if Is6(recs[i].addr) then AAAA else A, recs[i].ttl, Address(recs[i].addr)))
  }

  /** fillLocalAddrs. */
  function Filled(name: Name, qtype: nat, v4: seq<ViewRR>, v6: seq<ViewRR>): (r: seq<RR>) {
    if qtype == A then Matching(Rendered(v4), name, A)
    else if qtype == AAAA then Matching(Rendered(v6), name, AAAA)
    else if qtype == ANY then Matching(Rendered(v4), name, A) + Matching(Rendered(v6), name, AAAA)
    else []
  }

  method FillLocalAddrs(resp: Msg, name: Name, qtype: nat, v4: seq<ViewRR>, v6: seq<ViewRR>)
    modifies resp
    ensures resp.Value() == old(resp.Value()).(answer := old(resp.answer) + Filled(name, qtype, v4, v6))
  {
    if qtype == A {
      var _ := AppendMatching(resp, Rendered(v4), name, A);
    } else if qtype == AAAA {
      var _ := AppendMatching(resp, Rendered(v6), name, AAAA);
    } else if qtype == ANY {
      var before := resp.answer;
      var _ := AppendMatching(resp, Rendered(v4), name, A);
      var _ := AppendMatching(resp, Rendered(v6), name, AAAA);
      assert resp.answer == before + (Matching(Rendered(v4), name, A) + Matching(Rendered(v6), name, AAAA));
    }
  }

  /** The reply to a local name: its code, its answer section, and the host that may be solicited. */
  datatype Outcome = Outcome(rcode: nat, answer: seq<RR>, solicit: Option<Label>)

  predicate AddressQuery(qtype: nat) {
    qtype == A || qtype == AAAA || qtype == ANY
  }

  /** The answer for a recovered host. */
  function HostAnswered(site: Site, view: View, host: Label, name: Name, qtype: nat): (r: Outcome) {
    var restricted := Restricted(site, host);
    var v4 := Served(site, ForwardOf(view, host), false, restricted, false);
    var v6 := Served(site, ForwardOf(view, host), true, restricted, false);
    if v4 == [] && v6 == [] then
      Outcome(NXDOMAIN, [], if !restricted && AddressQuery(qtype) then Some(host) else None)
    else Outcome(NOERROR, Filled(name, qtype, v4, v6), None)
  }

  /** answerLocal, for a name that is not a DNS-SD node. */
  function Answered(site: Site, view: View, name: Name, qtype: nat): (r: Outcome) {
    if Recovered(site, name).ok then HostAnswered(site, view, Recovered(site, name).host, name, qtype)
    else Outcome(NXDOMAIN, [], None)
  }

  method AnswerLocal(site: Site, view: View, name: Name, qtype: nat, id: nat)
    returns (resp: Msg, solicit: Option<Label>)
    ensures fresh(resp) && Outcome(resp.rcode, resp.answer, solicit) == Answered(site, view, name, qtype)
    ensures resp.ns == []
  {
    resp := new Msg(Blank(id, [Question(name, qtype, INET)]));
    var rec := RecoverLocalHost(site, name);
    if !rec.ok {
      resp.rcode := NXDOMAIN;
      return resp, None;
    }
    solicit := AnswerHost(resp, site, view, rec.host, name, qtype);
  }

  method AnswerHost(resp: Msg, site: Site, view: View, host: Label, name: Name, qtype: nat)
    returns (solicit: Option<Label>)
    requires resp.rcode == NOERROR && resp.answer == []
    modifies resp
    ensures resp.ns == old(resp.ns)
    ensures Outcome(resp.rcode, resp.answer, solicit) == HostAnswered(site, view, host, name, qtype)
  {
    var restricted := RestrictedLabel(site, host);
    var v4 := LocalServeAddrs(site, view, host, false, restricted, false);
    var v6 := LocalServeAddrs(site, view, host, true, restricted, false);
    if |v4| == 0 && |v6| == 0 {
      resp.rcode := NXDOMAIN;
      return if !restricted && AddressQuery(qtype) then Some(host) else None;
    }
    FillLocalAddrs(resp, name, qtype, v4, v6);
    return None;
  }
}
