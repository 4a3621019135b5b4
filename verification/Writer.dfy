/** The dynamic-DNS writer: one reconcile, its guards, and write rates over whole runs
    (internal/ddns/ddns.go:102-137, 188-258, 487-558).

    The record source, the public-address filter and the number of provider calls that go through
    before one fails are parameters; `host` is the label as the source normalises it. */
module Writer {
  import opened Options
  import opened TokenBucket
  import opened Planner
  import opened PlanRuns

  datatype Config = Config(enabled: bool, dryRun: bool, rate: int, eligible: set<string>, burst: int, refill: int)

  /** New's safety gate: an empty allowlist forces dry-run. */
  function Armed(c: Config): (r: Config) {
    if c.enabled && !c.dryRun && c.eligible == {} then c.(dryRun := true) else c
  }

  datatype Tokens = Tokens(level: real, last: int)

  datatype Guards = Guards(last: map<string, int>, bucket: Option<Tokens>)

  predicate Metering(c: Config) { c.burst > 0 && c.refill > 0 }

  function Start(c: Config, now: int): (g: Guards) {
    Guards(map[], if Metering(c) then Some(Tokens(c.burst as real, now)) else None)
  }

  function Seconds(d: int): (r: real) { d as real / 1000000000.0 }

  function MinReal(a: real, b: real): (r: real) { if a < b then a else b }

  /** tokenBucket.allow. */
  function TakeToken(c: Config, b: Tokens, now: int): (r: (Tokens, bool))
    requires Metering(c)
  {
    var level := MinReal(c.burst as real, b.level + Seconds(now - b.last) / Seconds(c.refill));
    if level >= 1.0 then (Tokens(level - 1.0, now), true) else (Tokens(level, now), false)
  }

  datatype Verdict = Passed | HostLimited | BucketLimited

  /** The two rate guards: the host's interval first, then the shared bucket. */
  function Gate(c: Config, g: Guards, host: string, now: int): (r: (Guards, Verdict))
    requires g.bucket.Some? ==> Metering(c)
  {
    if c.rate > 0 && host in g.last && now - g.last[host] < c.rate then (g, HostLimited)
    else if g.bucket.Some? then
      var (b, ok) := TakeToken(c, g.bucket.value, now);
      if ok then (Guards(g.last[host := now], Some(b)), Passed) else (g.(bucket := Some(b)), BucketLimited)
    else (g.(last := g.last[host := now]), Passed)
  }

  datatype Outcome = Disabled | NotEligible | NoPublic | Unchanged | RateLimited | DryRun | Done | Error

  /** What one reconcile did: its outcome, the guard verdict if it got that far, the plan it then had,
      and how many provider calls went through. */
  datatype Report = Report(outcome: Outcome, verdict: Option<Verdict>, plan: Option<Plan>, calls: nat)

  /** One reconcile's surroundings: what the record source says, the clock, the provider's records, the
      identities it would give new ones, how many calls it lets through before one fails, and how records of
      equal content are arranged. */
  datatype Request = Request(host: string, announced: seq<Addr>, source: Option<seq<Rec>>, now: int,
                             provider: Provider, ids: nat -> string, working: nat, sort: Sort)

  function Ids(p: Plan, ids: nat -> string): (s: seq<string>)
    ensures |s| == |p.creates|
  {
    seq(|p.creates|, i requires 0 <= i < |p.creates| => ids(i))
  }

  /** The provider after the first `calls` calls of a plan. */
  function Written(m: Provider, p: Plan, ids: seq<string>, calls: nat): (m': Provider)
    requires |ids| == |p.creates| && calls <= Size(p)
  {
    AppliedAll(m, OpsOf(p, ids)[..calls])
  }

  function Public(announced: seq<Addr>, public: Addr -> bool): (r: seq<Addr>) {
    if announced == [] then []
    else
      var a := announced[|announced|-1];
      var init := Public(announced[..|announced|-1], public);
      if public(a) then init + [a] else init
  }

  function Size(p: Plan): (n: nat) { |p.edits| + |p.creates| + |p.deletes| }

  /** What a reconcile wants to do before the guards: nothing, and why, or a plan. */
  datatype Intent = Skip(outcome: Outcome) | Proceed(plan: Plan)

  function Intended(c: Config, public: Addr -> bool, q: Request): (i: Intent) {
    if !c.enabled then Skip(Disabled)
    else
      var desired := Public(q.announced, public);
      if desired == [] then Skip(NoPublic)
      else if q.source.None? then Skip(Error)
      else
        var records := Filtered(q.source.value, c.eligible);
        if records == [] then Skip(NotEligible)
        else IntentFor(q.sort, records, desired)
  }

  function IntentFor(sort: Sort, records: seq<Rec>, desired: seq<Addr>): (i: Intent)
    requires records != []
    ensures i.Proceed? ==> i.plan == PlanFor(sort, records, desired)
  {
    var p := PlanFor(sort, records, desired);
    if Empty(p) then Skip(Unchanged) else Proceed(p)
  }

  /** The guards and the writing. */
  function Decided(c: Config, g: Guards, i: Intent, q: Request): (r: (Guards, Report))
    requires g.bucket.Some? ==> Metering(c)
  {
    match i
    case Skip(o) => (g, Report(o, None, None, 0))
    case Proceed(p) =>
      var (g', v) := Gate(c, g, q.host, q.now);
      if v != Passed then (g', Report(RateLimited, Some(v), Some(p), 0))
      else if c.dryRun then (g', Report(DryRun, Some(v), Some(p), 0))
      else if q.working < Size(p) then (g', Report(Error, Some(v), Some(p), q.working))
      else (g', Report(Done, Some(v), Some(p), Size(p)))
  }

  /** Reconcile. */
  function Reconciled(c: Config, g: Guards, public: Addr -> bool, q: Request): (r: (Guards, Report))
    requires g.bucket.Some? ==> Metering(c)
  {
    Decided(c, g, Intended(c, public, q), q)
  }

  // ---- the code ----

  class Writer {
    const cfg: Config
    var lastByHost: map<string, int>
    var global: Option<Tokens>

    constructor (c: Config, now: int)
      ensures cfg == Armed(c) && State() == Start(cfg, now) && (global.Some? <==> Metering(cfg))
    {
      cfg := Armed(c);
      lastByHost := map[];
      global := if Metering(c) then Some(Tokens(c.burst as real, now)) else None;
    }

    ghost function State(): (g: Guards)
      reads this
    {
      Guards(lastByHost, global)
    }

    method Guard(host: string, now: int) returns (v: Verdict)
      requires global.Some? ==> Metering(cfg)
      modifies this
      ensures (State(), v) == Gate(cfg, old(State()), host, now) && (global.Some? <==> old(global).Some?)
    {
      if cfg.rate > 0 {
        if host in lastByHost && now - lastByHost[host] < cfg.rate { return HostLimited; }
      }
      if global.Some? {
        var (b, ok) := TakeToken(cfg, global.value, now);
        global := Some(b);
        if !ok { return BucketLimited; }
      }
      lastByHost := lastByHost[host := now];
      v := Passed;
    }

    method Reconcile(public: Addr -> bool, q: Request) returns (r: Report, provider: Provider)
      requires global.Some? ==> Metering(cfg)
      modifies this
      ensures (State(), r) == Reconciled(cfg, old(State()), public, q) && (global.Some? <==> old(global).Some?)
      ensures r.calls == 0 ==> provider == q.provider
      ensures r.calls > 0 ==> r.plan.Some? && r.calls <= Size(r.plan.value)
                              && provider == Written(q.provider, r.plan.value, Ids(r.plan.value, q.ids), r.calls)
    {
      provider := q.provider;
      if !cfg.enabled { return Report(Disabled, None, None, 0), provider; }
      var desired: seq<Addr> := [];
      for i := 0 to |q.announced|
        invariant desired == Public(q.announced[..i], public)
      {
        assert q.announced[..i+1][..i] == q.announced[..i] && q.announced[..i+1][i] == q.announced[i];
        if public(q.announced[i]) { desired := desired + [q.announced[i]]; }
      }
      assert q.announced[..|q.announced|] == q.announced;
      if desired == [] { return Report(NoPublic, None, None, 0), provider; }
      if q.source.None? { return Report(Error, None, None, 0), provider; }
      var records := FilterEligible(q.source.value, cfg.eligible);
      if records == [] { return Report(NotEligible, None, None, 0), provider; }
      var p := BuildPlan(q.sort, records, desired);
      if Empty(p) { return Report(Unchanged, None, None, 0), provider; }
      var v := Guard(q.host, q.now);
      if v != Passed { return Report(RateLimited, Some(v), Some(p), 0), provider; }
      if cfg.dryRun { return Report(DryRun, Some(v), Some(p), 0), provider; }
      var calls;
      calls, provider := ApplyPlan(p, Ids(p, q.ids), q.provider, q.working);
      r := Report(if calls < Size(p) then Error else Done, Some(v), Some(p), calls);
    }

    /** apply: edits, then creates, then deletes, up to the first call that fails. */
    method ApplyPlan(p: Plan, ids: seq<string>, m: Provider, working: nat) returns (calls: nat, provider: Provider)
      requires |ids| == |p.creates|
      ensures calls == Min(working, Size(p)) && provider == Written(m, p, ids, calls)
    {
      calls, provider := 0, m;
      for i := 0 to |p.edits|
        invariant calls == i <= working && provider == Written(m, p, ids, calls)
      {
        if calls == working { return; }
        WrittenNext(m, p, ids, calls);
        provider := Applied(provider, Update(p.edits[i].rec, p.edits[i].addr));
        calls := calls + 1;
      }
      for i := 0 to |p.creates|
        invariant calls == |p.edits| + i <= working && provider == Written(m, p, ids, calls)
      {
        if calls == working { return; }
        WrittenNext(m, p, ids, calls);
        provider := Applied(provider, Add(p.creates[i].zone, p.creates[i].name, p.creates[i].addr, ids[i]));
        calls := calls + 1;
      }
      for i := 0 to |p.deletes|
        invariant calls == |p.edits| + |p.creates| + i <= working && provider == Written(m, p, ids, calls)
      {
        if calls == working { return; }
        WrittenNext(m, p, ids, calls);
        provider := Applied(provider, Remove(p.deletes[i]));
        calls := calls + 1;
      }
    }
  }

  lemma {:induction false} WrittenNext(m: Provider, p: Plan, ids: seq<string>, k: nat)
    requires |ids| == |p.creates| && k < Size(p)
    ensures Written(m, p, ids, k + 1) == Applied(Written(m, p, ids, k), OpsOf(p, ids)[k])
  {
    var ops := OpsOf(p, ids);
    assert ops[..k+1] == ops[..k] + [ops[k]];
    SplitRun(m, ops[..k], [ops[k]]);
  }

  // ---- convergence, end to end ----

  /** The provider's records that are, and that are not, in a list. */
  function Listed(m: Provider, records: seq<Rec>): (r: Provider) { map k | k in m && m[k] in records :: m[k] }

  function Unlisted(m: Provider, records: seq<Rec>): (r: Provider) { map k | k in m && m[k] !in records :: m[k] }

  /** The source lists current records of the provider, each once; those that may be written are of the type
      their address calls for. */
  ghost predicate Sound(m: Provider, records: seq<Rec>, allow: set<string>) {
    && (forall rec :: rec in records ==> rec.key in m && m[rec.key] == rec)
    && (forall k :: k in m ==> m[k].key == k)
    && (forall rec :: rec in records && Admissible(rec, allow) ==> rec.typ == TypeOf(rec.addr))
    && forall i, j :: 0 <= i < j < |records| ==> records[i] != records[j]
  }

  /** Of the records listed, those that may be written end up, after a reconcile that reports success, with
      exactly the public addresses announced; one that fails part way leaves them in a state from which the
      same announcement needs exactly the calls that were left. No other record is touched, whether it was
      not listed or may not be written. */
  lemma {:induction false} ReconcileConverges(c: Config, g: Guards, public: Addr -> bool, q: Request, r: Report)
    requires g.bucket.Some? ==> Metering(c)
    requires r == Reconciled(c, g, public, q).1 && r.plan.Some? && r.calls <= Size(r.plan.value)
    requires Sorts(q.sort) && q.source.Some? && Sound(q.provider, q.source.value, c.eligible)
    requires FreshKeys(q.provider.Keys, OpsOf(r.plan.value, Ids(r.plan.value, q.ids)))
    ensures var want := Wanted(Public(q.announced, public));
            var after := Written(q.provider, r.plan.value, Ids(r.plan.value, q.ids), r.calls);
            var others := Unlisted(q.provider, Filtered(q.source.value, c.eligible));
            && (r.outcome == Done ==> Addrs(after - others.Keys) == want)
            && PlanRuns.Cost(after - others.Keys, want) == Size(r.plan.value) - r.calls
            && (forall k :: k in others ==> k in after && after[k] == q.provider[k])
  {
    DecidedPlan(c, g, Intended(c, public, q), q);
    IntendedPlan(c, public, q);
    FilteredListed(q.provider, q.source.value, c.eligible);
    PlanBeside(q.sort, q.provider, Filtered(q.source.value, c.eligible), Public(q.announced, public), r.plan.value,
               Ids(r.plan.value, q.ids), r.calls);
  }

  /** A plan for some of the provider's records brings those to the wanted addresses, call by call, and leaves
      the others as they are. */
  lemma {:induction false} PlanBeside(sort: Sort, m: Provider, records: seq<Rec>, desired: seq<Addr>, p: Plan,
                                      ids: seq<string>, k: nat)
    requires Sorts(sort) && records != [] && p == PlanFor(sort, records, desired) && |ids| == |p.creates|
      && k <= Size(p)
    requires Lists(records, Listed(m, records)) && Typed(Listed(m, records)) && FreshKeys(m.Keys, OpsOf(p, ids))
    ensures var after, others := Written(m, p, ids, k), Unlisted(m, records);
            && PlanRuns.Cost(after - others.Keys, Wanted(desired)) == Size(p) - k
            && (k == Size(p) ==> Addrs(after - others.Keys) == Wanted(desired))
            && (forall key :: key in others ==> key in after && after[key] == m[key])
  {
    var part, ops, want := Listed(m, records), OpsOf(p, ids), Wanted(desired);
    FreshKeysFewer(m.Keys, part.Keys, ops);
    PlanSuits(sort, records, desired, part, ids);
    CostAfter(part, want, ops, k);
    CostZero(AppliedAll(part, ops[..k]), want);
    SuitsPrefix(part, want, ops, k);
    FreshKeysPrefix(m.Keys, ops, k);
    PartApart(m, records, ops[..k]);
  }

  lemma {:induction false} PartApart(m: Provider, records: seq<Rec>, ops: seq<Op>)
    requires FreshKeys(m.Keys, ops) && LegalRun(Listed(m, records), ops)
    ensures var after, others := AppliedAll(m, ops), Unlisted(m, records);
            && after - others.Keys == AppliedAll(Listed(m, records), ops)
            && (forall key :: key in others ==> key in after && after[key] == m[key])
  {
    var part, rest := Listed(m, records), Unlisted(m, records);
    assert rest + part == m;
    Beside(rest, part, m.Keys, ops);
  }

  /** What is kept of a sound listing lists the provider's records it is about. */
  lemma {:induction false} FilteredListed(m: Provider, records: seq<Rec>, allow: set<string>)
    requires Sound(m, records, allow)
    ensures Lists(Filtered(records, allow), Listed(m, Filtered(records, allow)))
    ensures Typed(Listed(m, Filtered(records, allow)))
  {
    FilteredOnce(records, allow);
    var some := Filtered(records, allow);
    var part := Listed(m, some);
    forall rec ensures rec in some <==> rec in part.Values {
      if rec in some { assert rec.key in part && part[rec.key] == rec; }
    }
  }

  lemma {:induction false} FilteredOnce(records: seq<Rec>, allow: set<string>)
    requires forall i, j :: 0 <= i < j < |records| ==> records[i] != records[j]
    ensures var some := Filtered(records, allow);
      && (forall rec :: rec in some ==> rec in records && Admissible(rec, allow))
      && forall i, j :: 0 <= i < j < |some| ==> some[i] != some[j]
  {
    if records != [] { FilteredOnce(records[..|records|-1], allow); }
  }

  lemma {:induction false} FreshKeysPrefix(used: set<Key>, ops: seq<Op>, n: nat)
    requires FreshKeys(used, ops) && n <= |ops|
    ensures FreshKeys(used, ops[..n])
    decreases |ops|
  {
    if n > 0 {
      var used' := if ops[0].Add? then used + {Key(ops[0].zone, ops[0].id)} else used;
      FreshKeysPrefix(used', ops[1..], n - 1);
      assert ops[..n][0] == ops[0] && ops[..n][1..] == ops[1..][..n-1];
    }
  }

  /** Calls that are legal on a part of the provider leave the rest alone. */
  lemma {:induction false} Beside(rest: Provider, part: Provider, used: set<Key>, ops: seq<Op>)
    requires rest.Keys !! part.Keys && rest.Keys <= used && FreshKeys(used, ops) && LegalRun(part, ops)
    ensures rest.Keys !! AppliedAll(part, ops).Keys && AppliedAll(rest + part, ops) == rest + AppliedAll(part, ops)
    decreases |ops|
  {
    if ops != [] {
      var op := ops[0];
      var used' := if op.Add? then used + {Key(op.zone, op.id)} else used;
      assert Applied(rest + part, op) == rest + Applied(part, op);
      Beside(rest, Applied(part, op), used', ops[1..]);
    }
  }

  lemma {:induction false} DecidedPlan(c: Config, g: Guards, i: Intent, q: Request)
    requires (g.bucket.Some? ==> Metering(c)) && Decided(c, g, i, q).1.plan.Some?
    ensures i == Proceed(Decided(c, g, i, q).1.plan.value)
    ensures Decided(c, g, i, q).1.outcome == Done ==> Decided(c, g, i, q).1.calls == Size(i.plan)
  {
  }

  lemma {:induction false} IntendedPlan(c: Config, public: Addr -> bool, q: Request)
    requires Intended(c, public, q).Proceed? && q.source.Some?
    ensures Filtered(q.source.value, c.eligible) != []
    ensures Intended(c, public, q).plan
      == PlanFor(q.sort, Filtered(q.source.value, c.eligible), Public(q.announced, public))
  {
  }

  // ---- what a live write may touch ----

  lemma {:induction false} IntendedWithin(c: Config, public: Addr -> bool, q: Request)
    requires Sorts(q.sort) && Intended(c, public, q).Proceed?
    ensures var p := Intended(c, public, q).plan;
            && (forall i :: 0 <= i < |p.edits| ==> Admissible(p.edits[i].rec, c.eligible))
            && (forall i :: 0 <= i < |p.deletes| ==> Admissible(p.deletes[i], c.eligible))
            && (forall i :: 0 <= i < |p.creates| ==> c.eligible == {} || p.creates[i].name in c.eligible)
  {
    var records := Filtered(q.source.value, c.eligible);
    PlanWithin(q.sort, records, Public(q.announced, public));
    assert records[0] in records;
  }

  /** A writer that makes a provider call is enabled, live, and has a non-empty allowlist; every record
      it edits or deletes is an unproxied A or AAAA record on that allowlist, and so is the name of
      every record it creates. */
  lemma {:induction false} WritesStayEligible(c: Config, g: Guards, public: Addr -> bool, q: Request, r: Report)
    requires g.bucket.Some? ==> Metering(c)
    requires Sorts(q.sort) && r == Reconciled(Armed(c), g, public, q).1 && r.calls > 0
    ensures c.enabled && !c.dryRun && c.eligible != {}
    ensures r.plan.Some?
    ensures forall i :: 0 <= i < |r.plan.value.edits| ==> Admissible(r.plan.value.edits[i].rec, c.eligible)
    ensures forall i :: 0 <= i < |r.plan.value.deletes| ==> Admissible(r.plan.value.deletes[i], c.eligible)
    ensures forall i :: 0 <= i < |r.plan.value.creates| ==> r.plan.value.creates[i].name in c.eligible
  {
    var i := Intended(Armed(c), public, q);
    IntendedWithin(Armed(c), public, q);
    LiveOnly(c, g, i, q);
  }

  lemma {:induction false} LiveOnly(c: Config, g: Guards, i: Intent, q: Request)
    requires (g.bucket.Some? ==> Metering(c)) && (i.Proceed? ==> c.enabled)
    requires Decided(Armed(c), g, i, q).1.calls > 0
    ensures c.enabled && !c.dryRun && c.eligible != {}
    ensures i.Proceed? && Decided(Armed(c), g, i, q).1.plan == Some(i.plan)
  {
  }

  /** A reconcile turned away by a guard takes no token and leaves every host's timestamp alone. */
  lemma {:induction false} RejectedKeepsTokens(c: Config, g: Guards, host: string, now: int)
    requires g.bucket.Some? ==> Metering(c) && g.bucket.value.level <= c.burst as real && g.bucket.value.last <= now
    requires Gate(c, g, host, now).1 != Passed
    ensures Gate(c, g, host, now).0.last == g.last
    ensures g.bucket.Some? ==> Gate(c, g, host, now).0.bucket.Some?
                               && Gate(c, g, host, now).0.bucket.value.level >= g.bucket.value.level
  {
    if g.bucket.Some? {
      var d := Seconds(now - g.bucket.value.last);
      assert d / Seconds(c.refill) >= 0.0;
    }
  }

  // ---- whole runs ----

  datatype Pass = Pass(host: string, at: int)

  datatype World = World(guards: Guards, clock: int, calls: seq<Call<string>>, passes: seq<Pass>)

  ghost function After(c: Config, w: World, i: Intent, q: Request): (w': World)
    requires w.guards.bucket.Some? ==> Metering(c)
    ensures w'.guards.bucket.Some? <==> w.guards.bucket.Some?
  {
    var (g', r) := Decided(c, w.guards, i, q);
    World(g', q.now,
          if r.verdict.Some? && r.verdict != Some(HostLimited) && g'.bucket.Some?
          then w.calls + [Call(q.now, g'.bucket.value.level, r.verdict == Some(Passed), q.host)] else w.calls,
          if r.verdict == Some(Passed) then w.passes + [Pass(q.host, q.now)] else w.passes)
  }

  ghost predicate Inv(c: Config, start: int, w: World) {
    && (w.guards.bucket.Some? <==> Metering(c))
    && start <= w.clock
    && HostInv(c, w.guards.last, w.passes, w.clock)
    && (Metering(c) ==>
          && Metered(w.calls, Rate(c), c.burst as real)
          && BucketInv(c, start, w.guards.bucket.value, w.calls, w.clock)
          && forall x :: PassesSince(w.passes, x) == AdmittedSince(w.calls, x))
  }

  ghost predicate HostInv(c: Config, last: map<string, int>, passes: seq<Pass>, clock: int) {
    && (forall i :: 0 <= i < |passes| ==>
          passes[i].at <= clock && passes[i].host in last && passes[i].at <= last[passes[i].host])
    && (forall i, j :: 0 <= i < j < |passes| && passes[i].host == passes[j].host && c.rate > 0 ==>
          passes[j].at - passes[i].at >= c.rate)
  }

  /** The bucket is where its last call left it, or still full. */
  ghost predicate BucketInv(c: Config, start: int, b: Tokens, calls: seq<Call<string>>, clock: int)
  {
    if calls == [] then b == Tokens(c.burst as real, start)
    else b == Tokens(calls[|calls|-1].level, calls[|calls|-1].at) && calls[|calls|-1].at <= clock
  }

  /** Tokens per second. */
  function Rate(c: Config): (r: real)
    requires Metering(c)
    ensures r > 0.0
  {
    1.0 / Seconds(c.refill)
  }

  lemma {:induction false} GainIsAccrual(c: Config, d: int)
    requires Metering(c)
    ensures Seconds(d) / Seconds(c.refill) == Accrued(d, Rate(c))
  {
    var x, y := Seconds(d), Seconds(c.refill);
    assert x / y == x * (1.0 / y);
  }

  ghost function PassesSince(passes: seq<Pass>, x: int): (n: nat) {
    if passes == [] then 0
    else PassesSince(passes[..|passes|-1], x) + (if passes[|passes|-1].at >= x then 1 else 0)
  }

  lemma {:induction false} TakeMetered(c: Config, start: int, b: Tokens, calls: seq<Call<string>>, clock: int, now: int,
                                       host: string)
    requires Metering(c) && Metered(calls, Rate(c), c.burst as real) && BucketInv(c, start, b, calls, clock)
    requires start <= clock <= now
    ensures var (b', ok) := TakeToken(c, b, now);
            var calls' := calls + [Call(now, b'.level, ok, host)];
            Metered(calls', Rate(c), c.burst as real) && BucketInv(c, start, b', calls', now)
  {
    var (b', ok) := TakeToken(c, b, now);
    GainIsAccrual(c, now - b.last);
    AccruedMonotone(0, now - b.last, Rate(c));
    if calls != [] { assert MeteredAt(calls, |calls|-1, Rate(c), c.burst as real); }
    MeteredExtend(calls, Call(now, b'.level, ok, host), Rate(c), c.burst as real);
  }

  lemma {:induction false} PassExtends(c: Config, last: map<string, int>, passes: seq<Pass>, clock: int, host: string,
                                       now: int)
    requires HostInv(c, last, passes, clock) && clock <= now
    requires c.rate > 0 && host in last ==> now - last[host] >= c.rate
    ensures HostInv(c, last[host := now], passes + [Pass(host, now)], now)
  {
    var all := passes + [Pass(host, now)];
    forall i, j | 0 <= i < j < |all| && all[i].host == all[j].host && c.rate > 0
      ensures all[j].at - all[i].at >= c.rate
    {
      assert all[i] == passes[i];
    }
  }

  lemma {:induction false} CountExtends(passes: seq<Pass>, calls: seq<Call<string>>, p: Pass, k: Call<string>)
    requires forall x :: PassesSince(passes, x) == AdmittedSince(calls, x)
    requires p.at == k.at
    ensures k.admitted ==> forall x :: PassesSince(passes + [p], x) == AdmittedSince(calls + [k], x)
    ensures !k.admitted ==> forall x :: PassesSince(passes, x) == AdmittedSince(calls + [k], x)
  {
    assert (passes + [p])[..|passes|] == passes && (calls + [k])[..|calls|] == calls;
  }

  lemma {:induction false} AfterKeeps(c: Config, start: int, w: World, i: Intent, q: Request)
    requires Inv(c, start, w) && w.clock <= q.now
    ensures Inv(c, start, After(c, w, i, q))
  {
    var (g', r) := Decided(c, w.guards, i, q);
    if r.verdict.Some? {
      if Metering(c) && r.verdict != Some(HostLimited) {
        TakeMetered(c, start, w.guards.bucket.value, w.calls, w.clock, q.now, q.host);
        CountExtends(w.passes, w.calls, Pass(q.host, q.now),
                     Call(q.now, g'.bucket.value.level, r.verdict == Some(Passed), q.host));
      }
      if r.verdict == Some(Passed) {
        PassExtends(c, w.guards.last, w.passes, w.clock, q.host, q.now);
      }
    }
  }

  ghost function Play(c: Config, start: int, public: Addr -> bool, qs: seq<Request>): (w: World)
    ensures w.guards.bucket.Some? <==> Metering(c)
    decreases |qs|
  {
    if qs == [] then World(Start(c, start), start, [], [])
    else After(c, Play(c, start, public, qs[..|qs|-1]), Intended(c, public, qs[|qs|-1]), qs[|qs|-1])
  }

  predicate Timely(start: int, qs: seq<Request>) {
    && (forall i :: 0 <= i < |qs| ==> start <= qs[i].now)
    && forall i, j :: 0 <= i < j < |qs| ==> qs[i].now <= qs[j].now
  }

  lemma {:induction false} PlayKeeps(c: Config, start: int, public: Addr -> bool, qs: seq<Request>)
    requires Timely(start, qs)
    ensures Inv(c, start, Play(c, start, public, qs))
    ensures Play(c, start, public, qs).clock == if qs == [] then start else qs[|qs|-1].now
    decreases |qs|
  {
    if qs != [] {
      PlayKeeps(c, start, public, qs[..|qs|-1]);
      AfterKeeps(c, start, Play(c, start, public, qs[..|qs|-1]), Intended(c, public, qs[|qs|-1]), qs[|qs|-1]);
    }
  }

  /** In every run, reconciles of one host that pass the guards are at least Rate apart. */
  lemma {:induction false} HostRate(c: Config, start: int, public: Addr -> bool, qs: seq<Request>, i: nat, j: nat)
    requires Timely(start, qs) && c.rate > 0
    requires i < j < |Play(c, start, public, qs).passes|
    requires Play(c, start, public, qs).passes[i].host == Play(c, start, public, qs).passes[j].host
    ensures Play(c, start, public, qs).passes[j].at - Play(c, start, public, qs).passes[i].at >= c.rate
  {
    PlayKeeps(c, start, public, qs);
  }

  /** In every run, the reconciles that pass the guards in an interval [x, t], over all hosts, number at
      most the burst plus one per refill interval. */
  lemma {:induction false} GlobalRate(c: Config, start: int, public: Addr -> bool, qs: seq<Request>, x: int)
    requires Timely(start, qs) && Metering(c) && x <= Play(c, start, public, qs).clock
    ensures var w := Play(c, start, public, qs);
            PassesSince(w.passes, x) as real <= c.burst as real + Seconds(w.clock - x) / Seconds(c.refill)
  {
    PlayKeeps(c, start, public, qs);
    var w := Play(c, start, public, qs);
    AdmissionCurve(w.calls, Rate(c), c.burst as real, x, w.clock);
    GainIsAccrual(c, w.clock - x);
  }
}
