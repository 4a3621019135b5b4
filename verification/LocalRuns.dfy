/** Restricted names are answered from the trusted store alone, over whole runs
    (internal/mdns/cache.go:91-152, internal/mdns/trust.go:61-131, internal/resolver/resolver.go:311-346). */
module LocalRuns {
  import opened Names
  import opened MdnsStore
  import opened MdnsRuns
  import opened LocalPlane

  lemma {:induction false} TierConcat(site: Site, a: seq<ViewRR>, b: seq<ViewRR>, six: bool, scopeOnly: bool,
                                      trusted: bool)
    ensures Tier(site, a + b, six, scopeOnly, trusted)
      == Tier(site, a, six, scopeOnly, trusted) + Tier(site, b, six, scopeOnly, trusted)
  {
    if b == [] {
      assert a + b == a;
    } else {
      var n := |b| - 1;
      TierConcat(site, a, b[..n], six, scopeOnly, trusted);
      assert (a + b)[..|a|+n] == a + b[..n];
    }
  }

  lemma {:induction false} TierNone(site: Site, recs: seq<ViewRR>, six: bool, scopeOnly: bool)
    requires forall i :: 0 <= i < |recs| ==> !recs[i].trusted
    ensures Tier(site, recs, six, scopeOnly, true) == []
  {
    if recs != [] { TierNone(site, recs[..|recs|-1], six, scopeOnly); }
  }

  /** The trusted tier of a host's records depends on the trusted store only. */
  lemma TrustedTier(site: Site, p: Params, s: Store, h: Host, now: int, six: bool, scopeOnly: bool)
    ensures Tier(site, Records(p, s, h, now), six, scopeOnly, true)
      == Tier(site, Marked(Listed(Live(p, s.trusted, h, now)), TRUSTED_TTL, true), six, scopeOnly, true)
  {
    var live := Live(p, s.trusted, h, now);
    var a := Marked(Listed(live), TRUSTED_TTL, true);
    var b :=
      if h in s.hosts then Marked(Listed(Unexpired(s.hosts, h, now) - live), VolatileTtl(s.hosts[h], now), false)
      else [];
    TierConcat(site, a, b, six, scopeOnly, true);
    TierNone(site, b, six, scopeOnly);
  }

  lemma RecordsOfView(p: Params, s: Store, now: int, v: View, h: Host)
    requires ViewOf(p, s, now, v)
    ensures ForwardOf(v, h) == Records(p, s, h, now)
  {
    if h !in v.forward && h !in Known(s) {
      AscendingHolds(Listed(Live(p, s.trusted, h, now)), {});
    }
  }

  lemma RestrictedServed(site: Site, p: Params, s: Store, t: Store, now: int, v: View, w: View, h: Host, six: bool,
                         scopeOnly: bool)
    requires s.trusted == t.trusted && ViewOf(p, s, now, v) && ViewOf(p, t, now, w)
    ensures Served(site, ForwardOf(v, h), six, true, scopeOnly) == Served(site, ForwardOf(w, h), six, true, scopeOnly)
  {
    RecordsOfView(p, s, now, v, h);
    RecordsOfView(p, t, now, w, h);
    TrustedTier(site, p, s, h, now, six, scopeOnly);
    TrustedTier(site, p, t, h, now, six, scopeOnly);
  }

  /** A restricted host's local answer, for every type, is the same after any two runs that differ only in
      announcements that are not strong, and whatever order their views were built in. */
  lemma RestrictedAnswer(site: Site, p: Params, es: seq<Event>, fs: seq<Event>, now: int, v: View, w: View, name: Name,
                         qtype: nat)
    requires StrongOnly(es) == StrongOnly(fs)
    requires ViewOf(p, Run(p, es), now, v) && ViewOf(p, Run(p, fs), now, w)
    requires Recovered(site, name).ok ==> Restricted(site, Recovered(site, name).host)
    ensures Answered(site, v, name, qtype) == Answered(site, w, name, qtype)
  {
    Noninterference(p, es, fs);
    var h := Recovered(site, name).host;
    RestrictedServed(site, p, Run(p, es), Run(p, fs), now, v, w, h, false, false);
    RestrictedServed(site, p, Run(p, es), Run(p, fs), now, v, w, h, true, false);
  }
}
