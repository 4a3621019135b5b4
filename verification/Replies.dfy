/** Filling a response (internal/resolver/helpers.go:77-145). Every record is taken to render. */
module Replies {
  import opened Options
  import opened Names
  import opened Messages

  const A: nat := 1
  const CNAME: nat := 5
  const AAAA: nat := 28
  const SVCB: nat := 64
  const HTTPS: nat := 65

  /** The records of a type (ANY: all), owned by name. */
  function Matching(recs: seq<RR>, name: Name, qtype: nat): (r: seq<RR>) {
    if recs == [] then []
    else
      var n := |recs| - 1;
      var init := Matching(recs[..n], name, qtype);
      if qtype == ANY || recs[n].typ == qtype then init + [recs[n].(name := name)] else init
  }

  /** appendMatching. */
  method AppendMatching(resp: Msg, recs: seq<RR>, name: Name, qtype: nat) returns (matched: bool)
    modifies resp
    ensures resp.Value() == old(resp.Value()).(answer := old(resp.answer) + Matching(recs, name, qtype))
    ensures matched == (Matching(recs, name, qtype) != [])
  {
    matched := false;
    ghost var done: seq<RR> := [];
    for i := 0 to |recs|
      invariant done == Matching(recs[..i], name, qtype) && matched == (done != [])
      invariant resp.Value() == old(resp.Value()).(answer := old(resp.answer) + done)
    {
      assert recs[..i+1][..i] == recs[..i];
      if qtype == ANY || recs[i].typ == qtype {
        var rr := recs[i].(name := name);
        done := done + [rr];
        resp.answer := resp.answer + [rr];
        matched := true;
      }
    }
    assert recs[..|recs|] == recs;
  }

  /** min(SOA TTL, MINIMUM when positive). */
  function NegativeTtl(soa: RR): (t: nat)
    requires soa.data.Soa?
  {
    if 0 < soa.data.minimum < soa.ttl then soa.data.minimum else soa.ttl
  }

  /** The authority records of a negative answer: the SOA, if there is one, at the apex. */
  function Authority(soa: Option<RR>, apex: Name): (r: seq<RR>)
    requires soa.Some? ==> soa.value.data.Soa?
  {
    if soa.None? then [] else [soa.value.(name := apex, ttl := NegativeTtl(soa.value))]
  }

  /** setNegativeSOA. */
  method SetNegativeSoa(resp: Msg, soa: Option<RR>, apex: Name, rcode: nat)
    requires soa.Some? ==> soa.value.data.Soa?
    modifies resp
    ensures resp.Value() == old(resp.Value()).(rcode := rcode, ns := old(resp.ns) + Authority(soa, apex))
  {
    resp.rcode := rcode;
    if soa.None? { return; }
    var neg := soa.value.ttl;
    var m := soa.value.data.minimum;
    if m > 0 && m < neg { neg := m; }
    resp.ns := resp.ns + [soa.value.(name := apex, ttl := neg)];
  }

  /** A new response to a question. */
  function Blank(id: nat, questions: seq<Question>): (m: Message) {
    Message(id, NOERROR, false, questions, [], [], [])
  }

  lemma {:induction false} MatchingAll(recs: seq<RR>, name: Name, qtype: nat)
    requires forall i :: 0 <= i < |recs| ==> recs[i].typ == qtype
    ensures |Matching(recs, name, qtype)| == |recs|
  {
    if recs != [] { MatchingAll(recs[..|recs|-1], name, qtype); }
  }

  lemma {:induction false} MatchingAny(recs: seq<RR>, name: Name)
    ensures |Matching(recs, name, ANY)| == |recs|
  {
    if recs != [] { MatchingAny(recs[..|recs|-1], name); }
  }
}
