/** Upstream failover under circuit breakers (internal/forwarder/forwarder.go:177-247, 375-407).

    The transport is an oracle: the n-th exchange with an upstream either answers or fails. The
    clock is an oracle too: the n-th breaker call reads `clock(n)`. */
module Failover {
  import opened Options
  import opened Breaker

  datatype Upstream = Upstream(addr: string, net: string, serverName: string)

  datatype Key = Key(net: string, addr: string)

  function KeyOf(u: Upstream): (k: Key) { Key(u.net, u.addr) }

  type Reply = nat

  datatype Env = Env(clock: nat -> int, exchange: (nat, Upstream) -> Option<Reply>)

  datatype Error = NoServerName(addr: string) | Disabled(addr: string) | BreakerOpen(addr: string) | Exchange(n: nat)

  /** What tryAll returns; `Nothing` is its nil reply with a nil error. */
  datatype Result = Answer(reply: Reply) | Failure(error: Error) | Nothing

  /** One verdict of a breaker, one exchange with an upstream, or one outcome recorded on a breaker. */
  datatype Event =
    | Judged(key: Key, at: int, ok: bool)
    | Tried(upstream: Upstream, n: nat)
    | Settled(key: Key, at: int, ok: bool)

  /** What a forwarder is configured with when it handles a request. */
  datatype Setup = Setup(policy: Policy, enabled: bool, disabled: set<string>, requireSNI: bool)

  datatype Progress = Progress(breakers: map<Key, Model>, ticks: nat, attempts: nat, trace: seq<Event>)

  ghost predicate Sound(c: Setup, s: Progress) {
    && Usable(c.policy)
    && forall k :: k in s.breakers ==> |s.breakers[k].ring| == c.policy.buckets
  }

  predicate Verifiable(c: Setup, u: Upstream) {
    !(c.requireSNI && u.net == "tcp-tls" && u.serverName == "")
  }

  predicate Eligible(c: Setup, u: Upstream) {
    Verifiable(c, u) && u.addr !in c.disabled
  }

  /** Why an ineligible upstream is passed over. */
  function Reason(c: Setup, u: Upstream): (e: Error) {
    if !Verifiable(c, u) then NoServerName(u.addr) else Disabled(u.addr)
  }

  function BreakerOf(c: Setup, s: Progress, k: Key): (m: Model)
    requires Usable(c.policy)
  {
    if k in s.breakers then s.breakers[k] else Fresh(c.policy)
  }

  /** Asks the upstream's breaker, creating it if need be. */
  function Asked(c: Setup, env: Env, s: Progress, u: Upstream): (r: (Progress, bool))
    requires Usable(c.policy)
  {
    if !c.enabled then (s, true)
    else
      var (m, ok) := Allow(c.policy, BreakerOf(c, s, KeyOf(u)), env.clock(s.ticks));
      (s.(breakers := s.breakers[KeyOf(u) := m], ticks := s.ticks + 1,
          trace := s.trace + [Judged(KeyOf(u), env.clock(s.ticks), ok)]), ok)
  }

  /** One exchange and the record it leaves. */
  function Attempted(c: Setup, env: Env, s: Progress, u: Upstream): (r: (Progress, Option<Reply>))
    requires Sound(c, s)
  {
    var reply := env.exchange(s.attempts, u);
    var tried := s.(attempts := s.attempts + 1, trace := s.trace + [Tried(u, s.attempts)]);
    if !c.enabled then (tried, reply)
    else
      var m := Record(c.policy, BreakerOf(c, s, KeyOf(u)), env.clock(s.ticks), reply.Some?);
      (tried.(breakers := s.breakers[KeyOf(u) := m], ticks := s.ticks + 1,
              trace := tried.trace + [Settled(KeyOf(u), env.clock(s.ticks), reply.Some?)]), reply)
  }

  lemma {:induction false} AskedSound(c: Setup, env: Env, s: Progress, u: Upstream)
    requires Sound(c, s)
    ensures Sound(c, Asked(c, env, s, u).0)
  {
  }

  lemma {:induction false} AttemptedSound(c: Setup, env: Env, s: Progress, u: Upstream)
    requires Sound(c, s)
    ensures Sound(c, Attempted(c, env, s, u).0)
  {
  }

  /** The state of the guarded pass over the rest of a list: progress, the last error seen, and
      whether any upstream has been let through. */
  datatype Scan = Scan(s: Progress, last: Option<Error>, any: bool, reply: Option<Reply>)

  /** The guarded pass, upstream by upstream, until one answers. */
  function Guarded(c: Setup, env: Env, ups: seq<Upstream>, s: Progress, last: Option<Error>, any: bool): (r: Scan)
    requires Sound(c, s)
    ensures Sound(c, r.s)
    decreases |ups|
  {
    if ups == [] then Scan(s, last, any, None)
    else if !Eligible(c, ups[0]) then Guarded(c, env, ups[1..], s, Some(Reason(c, ups[0])), any)
    else
      AskedSound(c, env, s, ups[0]);
      var (asked, ok) := Asked(c, env, s, ups[0]);
      if !ok then Guarded(c, env, ups[1..], asked, Some(BreakerOpen(ups[0].addr)), any)
      else
        AttemptedSound(c, env, asked, ups[0]);
        var (tried, reply) := Attempted(c, env, asked, ups[0]);
        if reply.Some? then Scan(tried, last, true, reply)
        else Guarded(c, env, ups[1..], tried, Some(Exchange(asked.attempts)), true)
  }

  /** One step of that pass. */
  function GuardedOne(c: Setup, env: Env, u: Upstream, s: Progress, last: Option<Error>, any: bool): (r: Scan)
    requires Sound(c, s)
    ensures Sound(c, r.s)
  {
    if !Eligible(c, u) then Scan(s, Some(Reason(c, u)), any, None)
    else
      AskedSound(c, env, s, u);
      var (asked, ok) := Asked(c, env, s, u);
      if !ok then Scan(asked, Some(BreakerOpen(u.addr)), any, None)
      else
        AttemptedSound(c, env, asked, u);
        var (tried, reply) := Attempted(c, env, asked, u);
        Scan(tried, if reply.Some? then last else Some(Exchange(asked.attempts)), true, reply)
  }

  lemma {:induction false} GuardedStep(c: Setup, env: Env, ups: seq<Upstream>, s: Progress, last: Option<Error>,
                                       any: bool)
    requires Sound(c, s) && ups != []
    ensures var one := GuardedOne(c, env, ups[0], s, last, any);
      Guarded(c, env, ups, s, last, any)
      == if one.reply.Some? then one else Guarded(c, env, ups[1..], one.s, one.last, one.any)
  {
  }

  /** The fail-open pass: the same upstreams, breakers not consulted. */
  function Forced(c: Setup, env: Env, ups: seq<Upstream>, s: Progress, last: Option<Error>): (r: Scan)
    requires Sound(c, s)
    ensures Sound(c, r.s)
    decreases |ups|
  {
    if ups == [] then Scan(s, last, false, None)
    else if !Eligible(c, ups[0]) then Forced(c, env, ups[1..], s, last)
    else
      AttemptedSound(c, env, s, ups[0]);
      var (tried, reply) := Attempted(c, env, s, ups[0]);
      if reply.Some? then Scan(tried, last, false, reply)
      else Forced(c, env, ups[1..], tried, Some(Exchange(s.attempts)))
  }

  function Concluded(r: Scan): (res: Result) {
    if r.reply.Some? then Answer(r.reply.value) else if r.last.Some? then Failure(r.last.value) else Nothing
  }

  /** tryAll. */
  function TryAll(c: Setup, env: Env, ups: seq<Upstream>, s: Progress): (r: (Progress, Result))
    requires Sound(c, s)
    ensures Sound(c, r.0)
  {
    var g := Guarded(c, env, ups, s, None, false);
    if g.reply.Some? || !c.enabled || g.any then (g.s, Concluded(g))
    else
      var f := Forced(c, env, ups, g.s, g.last);
      (f.s, Concluded(f))
  }

  // ---- the code ----

  class Forwarder {
    const policy: Policy
    const breakerEnabled: bool
    var disabled: set<string>
    var breakers: map<Key, Model>
    var ticks: nat
    var attempts: nat
    var trace: seq<Event>

    constructor (policy: Policy, breakerEnabled: bool)
      requires Usable(Normal(policy))
      ensures this.policy == Normal(policy) && this.breakerEnabled == breakerEnabled && disabled == {}
      ensures State() == Progress(map[], 0, 0, [])
    {
      this.policy, this.breakerEnabled := Normal(policy), breakerEnabled;
      disabled, breakers, ticks, attempts, trace := {}, map[], 0, 0, [];
    }

    ghost function State(): (s: Progress)
      reads this
    {
      Progress(breakers, ticks, attempts, trace)
    }

    function SetupFor(requireSNI: bool): (c: Setup)
      reads this
    {
      Setup(policy, breakerEnabled, disabled, requireSNI)
    }

    method Ask(env: Env, u: Upstream, ghost c: Setup) returns (ok: bool)
      requires c == SetupFor(c.requireSNI) && Sound(c, State())
      modifies this`breakers, this`ticks, this`trace
      ensures (State(), ok) == Asked(c, env, old(State()), u) && Sound(c, State())
    {
      AskedSound(c, env, State(), u);
      if !breakerEnabled { return true; }
      var br := if KeyOf(u) in breakers then breakers[KeyOf(u)] else Fresh(policy);
      var (m, verdict) := Allow(policy, br, env.clock(ticks));
      trace := trace + [Judged(KeyOf(u), env.clock(ticks), verdict)];
      breakers, ticks := breakers[KeyOf(u) := m], ticks + 1;
      ok := verdict;
    }

    method Attempt(env: Env, u: Upstream, ghost c: Setup) returns (reply: Option<Reply>)
      requires c == SetupFor(c.requireSNI) && Sound(c, State())
      modifies this`breakers, this`ticks, this`attempts, this`trace
      ensures (State(), reply) == Attempted(c, env, old(State()), u) && Sound(c, State())
    {
      AttemptedSound(c, env, State(), u);
      reply := env.exchange(attempts, u);
      trace := trace + [Tried(u, attempts)];
      attempts := attempts + 1;
      if breakerEnabled {
        var br := if KeyOf(u) in breakers then breakers[KeyOf(u)] else Fresh(policy);
        breakers := breakers[KeyOf(u) := Record(policy, br, env.clock(ticks), reply.Some?)];
        trace := trace + [Settled(KeyOf(u), env.clock(ticks), reply.Some?)];
        ticks := ticks + 1;
      }
    }

    method TryAllUpstreams(env: Env, ups: seq<Upstream>, requireSNI: bool) returns (res: Result)
      requires Sound(SetupFor(requireSNI), State())
      modifies this
      ensures disabled == old(disabled)
      ensures (State(), res) == TryAll(old(SetupFor(requireSNI)), env, ups, old(State()))
    {
      var reply, last, any := GuardAll(env, ups, requireSNI);
      if reply.Some? { return Answer(reply.value); }
      if breakerEnabled && !any {
        res := ForceAll(env, ups, requireSNI, last);
      } else {
        res := if last.Some? then Failure(last.value) else Nothing;
      }
    }

    /** One turn of the first loop of tryAll. */
    method GuardOne(env: Env, u: Upstream, requireSNI: bool, before: Option<Error>, anyBefore: bool, ghost c: Setup)
      returns (reply: Option<Reply>, last: Option<Error>, any: bool)
      requires c == SetupFor(requireSNI) && Sound(c, State())
      modifies this`breakers, this`ticks, this`attempts, this`trace
      ensures Scan(State(), last, any, reply) == GuardedOne(c, env, u, old(State()), before, anyBefore)
    {
      reply, last, any := None, before, anyBefore;
      if requireSNI && u.net == "tcp-tls" && u.serverName == "" {
        last := Some(NoServerName(u.addr));
        return;
      }
      if u.addr in disabled {
        last := Some(Disabled(u.addr));
        return;
      }
      var ok := Ask(env, u, c);
      if !ok {
        last := Some(BreakerOpen(u.addr));
        return;
      }
      any := true;
      reply := Attempt(env, u, c);
      if reply.None? { last := Some(Exchange(attempts - 1)); }
    }

    /** The first loop of tryAll: the reply, the last error, and whether any upstream was let through. */
    method GuardAll(env: Env, ups: seq<Upstream>, requireSNI: bool)
      returns (reply: Option<Reply>, last: Option<Error>, any: bool)
      requires Sound(SetupFor(requireSNI), State())
      modifies this`breakers, this`ticks, this`attempts, this`trace
      ensures Scan(State(), last, any, reply)
        == Guarded(old(SetupFor(requireSNI)), env, ups, old(State()), None, false)
    {
      ghost var c := SetupFor(requireSNI);
      reply, last, any := None, None, false;
      for i := 0 to |ups|
        invariant c == SetupFor(requireSNI) && Sound(c, State()) && reply.None?
        invariant Guarded(c, env, ups[i..], State(), last, any) == Guarded(c, env, ups, old(State()), None, false)
      {
        assert ups[i..][0] == ups[i] && ups[i..][1..] == ups[i+1..];
        GuardedStep(c, env, ups[i..], State(), last, any);
        reply, last, any := GuardOne(env, ups[i], requireSNI, last, any, c);
        if reply.Some? { return; }
      }
    }

    /** The fail-open pass of tryAll. */
    method ForceAll(env: Env, ups: seq<Upstream>, requireSNI: bool, before: Option<Error>) returns (res: Result)
      requires Sound(SetupFor(requireSNI), State())
      modifies this`breakers, this`ticks, this`attempts, this`trace
      ensures var f := Forced(old(SetupFor(requireSNI)), env, ups, old(State()), before);
              State() == f.s && res == Concluded(f)
    {
      ghost var c := SetupFor(requireSNI);
      var last := before;
      for i := 0 to |ups|
        invariant c == SetupFor(requireSNI) && Sound(c, State())
        invariant Forced(c, env, ups[i..], State(), last) == Forced(c, env, ups, old(State()), before)
      {
        var u := ups[i];
        assert ups[i..][0] == u && ups[i..][1..] == ups[i+1..];
        if requireSNI && u.net == "tcp-tls" && u.serverName == "" { continue; }
        if u.addr in disabled { continue; } // a manual disable is absolute
        var reply := Attempt(env, u, c);
        if reply.Some? { return Answer(reply.value); }
        last := Some(Exchange(attempts - 1));
      }
      res := if last.Some? then Failure(last.value) else Nothing;
    }
  }

  // ---- what every call guarantees ----

  /** The record of an exchange: its own outcome, on its own breaker. */
  predicate Settles(env: Env, e: Event, tried: Event)
    requires tried.Tried?
  {
    e.Settled? && e.key == KeyOf(tried.upstream) && e.ok == env.exchange(tried.n, tried.upstream).Some?
  }

  /** The event is an admission of the upstream by its own breaker. */
  predicate Admits(e: Event, u: Upstream) {
    e.Judged? && e.key == KeyOf(u) && e.ok
  }

  /** What the events of one call are like. Only eligible upstreams of the list are tried. With breakers on,
      an exchange is followed by its record, there are no other records, and before the fail-open pass an
      exchange comes right after an admission. With breakers off, there are exchanges only. */
  ghost predicate InPlace(c: Setup, env: Env, ups: seq<Upstream>, trace: seq<Event>, from: nat, guarded: bool, i: nat)
    requires from <= i < |trace|
  {
    match trace[i]
    case Judged(_, _, _) => c.enabled
    case Tried(u, n) =>
      && u in ups && Eligible(c, u)
      && (c.enabled ==> i + 1 < |trace| && Settles(env, trace[i+1], trace[i]))
      && (c.enabled && guarded ==> i > from && Admits(trace[i-1], u))
    case Settled(_, _, _) => c.enabled && i > from && trace[i-1].Tried? && Settles(env, trace[i], trace[i-1])
  }

  ghost predicate AllInPlace(c: Setup, env: Env, ups: seq<Upstream>, trace: seq<Event>, from: nat, guarded: bool) {
    from <= |trace| && forall i :: from <= i < |trace| ==> InPlace(c, env, ups, trace, from, guarded, i)
  }

  lemma {:induction false} AskedInPlace(c: Setup, env: Env, all: seq<Upstream>, s: Progress, u: Upstream, from: nat,
                                        guarded: bool)
    requires Sound(c, s) && AllInPlace(c, env, all, s.trace, from, guarded)
    ensures var (asked, ok) := Asked(c, env, s, u);
      && AllInPlace(c, env, all, asked.trace, from, guarded)
      && (c.enabled && ok ==> |asked.trace| > from && Admits(asked.trace[|asked.trace|-1], u))
  {
    var t, t' := s.trace, Asked(c, env, s, u).0.trace;
    forall i | from <= i < |t'| ensures InPlace(c, env, all, t', from, guarded, i) {
      if i < |t| { assert InPlace(c, env, all, t, from, guarded, i); }
    }
  }

  lemma {:induction false} AttemptedInPlace(c: Setup, env: Env, all: seq<Upstream>, s: Progress, u: Upstream,
                                            from: nat, guarded: bool)
    requires Sound(c, s) && u in all && Eligible(c, u) && AllInPlace(c, env, all, s.trace, from, guarded)
    requires c.enabled && guarded ==> |s.trace| > from && Admits(s.trace[|s.trace|-1], u)
    ensures AllInPlace(c, env, all, Attempted(c, env, s, u).0.trace, from, guarded)
  {
    var t, t' := s.trace, Attempted(c, env, s, u).0.trace;
    forall i | from <= i < |t'| ensures InPlace(c, env, all, t', from, guarded, i) {
      if i < |t| { assert InPlace(c, env, all, t, from, guarded, i); }
    }
  }

  lemma {:induction false} GuardedInPlace(c: Setup, env: Env, all: seq<Upstream>, ups: seq<Upstream>, s: Progress,
                                          last: Option<Error>, any: bool, from: nat)
    requires Sound(c, s) && (forall u :: u in ups ==> u in all)
    requires AllInPlace(c, env, all, s.trace, from, true)
    ensures AllInPlace(c, env, all, Guarded(c, env, ups, s, last, any).s.trace, from, true)
    decreases |ups|
  {
    if ups != [] {
      if !Eligible(c, ups[0]) {
        GuardedInPlace(c, env, all, ups[1..], s, Some(Reason(c, ups[0])), any, from);
      } else {
        AskedSound(c, env, s, ups[0]);
        AskedInPlace(c, env, all, s, ups[0], from, true);
        var (asked, ok) := Asked(c, env, s, ups[0]);
        if !ok {
          GuardedInPlace(c, env, all, ups[1..], asked, Some(BreakerOpen(ups[0].addr)), any, from);
        } else {
          AttemptedSound(c, env, asked, ups[0]);
          AttemptedInPlace(c, env, all, asked, ups[0], from, true);
          var (tried, reply) := Attempted(c, env, asked, ups[0]);
          if reply.None? {
            GuardedInPlace(c, env, all, ups[1..], tried, Some(Exchange(asked.attempts)), true, from);
          }
        }
      }
    }
  }

  lemma {:induction false} ForcedInPlace(c: Setup, env: Env, all: seq<Upstream>, ups: seq<Upstream>, s: Progress,
                                         last: Option<Error>, from: nat)
    requires Sound(c, s) && (forall u :: u in ups ==> u in all) && AllInPlace(c, env, all, s.trace, from, false)
    ensures AllInPlace(c, env, all, Forced(c, env, ups, s, last).s.trace, from, false)
    decreases |ups|
  {
    if ups != [] {
      if !Eligible(c, ups[0]) {
        ForcedInPlace(c, env, all, ups[1..], s, last, from);
      } else {
        AttemptedSound(c, env, s, ups[0]);
        AttemptedInPlace(c, env, all, s, ups[0], from, false);
        var (tried, reply) := Attempted(c, env, s, ups[0]);
        if reply.None? { ForcedInPlace(c, env, all, ups[1..], tried, Some(Exchange(s.attempts)), from); }
      }
    }
  }

  lemma {:induction false} Unguarded(c: Setup, env: Env, ups: seq<Upstream>, trace: seq<Event>, from: nat)
    requires AllInPlace(c, env, ups, trace, from, true)
    ensures AllInPlace(c, env, ups, trace, from, false)
  {
    forall i | from <= i < |trace| ensures InPlace(c, env, ups, trace, from, false, i) {
      assert InPlace(c, env, ups, trace, from, true, i);
    }
  }

  lemma {:induction false} CallInPlace(c: Setup, env: Env, ups: seq<Upstream>, s: Progress)
    requires Sound(c, s)
    ensures AllInPlace(c, env, ups, TryAll(c, env, ups, s).0.trace, |s.trace|, false)
    ensures !c.enabled || Guarded(c, env, ups, s, None, false).any ==>
      AllInPlace(c, env, ups, TryAll(c, env, ups, s).0.trace, |s.trace|, true)
  {
    GuardedInPlace(c, env, ups, ups, s, None, false, |s.trace|);
    GuardedCounts(c, env, ups, s, None, false);
    var g := Guarded(c, env, ups, s, None, false);
    Unguarded(c, env, ups, g.s.trace, |s.trace|);
    ForcedInPlace(c, env, ups, ups, g.s, g.last, |s.trace|);
  }

  /** With breakers or without, a disabled or unverifiable upstream is never tried; without, no breaker is
      touched. */
  lemma {:induction false} OnlyEligibleTried(c: Setup, env: Env, ups: seq<Upstream>, s: Progress)
    requires Sound(c, s)
    ensures var t := TryAll(c, env, ups, s).0.trace;
      forall i :: |s.trace| <= i < |t| ==>
        if t[i].Tried? then t[i].upstream in ups && Eligible(c, t[i].upstream) else c.enabled
  {
    CallInPlace(c, env, ups, s);
    var t := TryAll(c, env, ups, s).0.trace;
    forall i | |s.trace| <= i < |t|
      ensures if t[i].Tried? then t[i].upstream in ups && Eligible(c, t[i].upstream) else c.enabled
    {
      assert InPlace(c, env, ups, t, |s.trace|, false, i);
    }
  }

  /** An exchange is followed by its record, and a record follows its exchange. */
  ghost predicate OneRecord(env: Env, t: seq<Event>, from: nat, i: nat)
    requires from <= i < |t|
  {
    && (t[i].Tried? ==> i + 1 < |t| && Settles(env, t[i+1], t[i]))
    && (t[i].Settled? ==> i > from && t[i-1].Tried? && Settles(env, t[i], t[i-1]))
  }

  /** With breakers on, every exchange is followed by one record of its own outcome, on its own breaker, and
      there are no other records. */
  lemma {:induction false} EveryAttemptSettled(c: Setup, env: Env, ups: seq<Upstream>, s: Progress)
    requires Sound(c, s) && c.enabled
    ensures var t := TryAll(c, env, ups, s).0.trace;
      forall i :: |s.trace| <= i < |t| ==> OneRecord(env, t, |s.trace|, i)
  {
    CallInPlace(c, env, ups, s);
    var t := TryAll(c, env, ups, s).0.trace;
    forall i | |s.trace| <= i < |t| ensures OneRecord(env, t, |s.trace|, i) {
      assert InPlace(c, env, ups, t, |s.trace|, false, i);
    }
  }

  lemma {:induction false} GuardedCounts(c: Setup, env: Env, ups: seq<Upstream>, s: Progress, last: Option<Error>,
                                         any: bool)
    requires Sound(c, s)
    ensures var g := Guarded(c, env, ups, s, last, any);
            && g.s.attempts >= s.attempts
            && (any ==> g.any)
            && (g.any && !any ==> g.s.attempts > s.attempts)
            && (!g.any ==> g.s.attempts == s.attempts && g.reply.None?)
    decreases |ups|
  {
    if ups != [] {
      if !Eligible(c, ups[0]) {
        GuardedCounts(c, env, ups[1..], s, Some(Reason(c, ups[0])), any);
      } else {
        AskedSound(c, env, s, ups[0]);
        var (asked, ok) := Asked(c, env, s, ups[0]);
        if !ok {
          GuardedCounts(c, env, ups[1..], asked, Some(BreakerOpen(ups[0].addr)), any);
        } else {
          AttemptedSound(c, env, asked, ups[0]);
          GuardedCounts(c, env, ups[1..], Attempted(c, env, asked, ups[0]).0, Some(Exchange(asked.attempts)), true);
        }
      }
    }
  }

  lemma {:induction false} ForcedCounts(c: Setup, env: Env, ups: seq<Upstream>, s: Progress, last: Option<Error>)
    requires Sound(c, s)
    ensures Forced(c, env, ups, s, last).s.attempts >= s.attempts
    ensures (exists u :: u in ups && Eligible(c, u)) ==> Forced(c, env, ups, s, last).s.attempts > s.attempts
    decreases |ups|
  {
    if ups != [] {
      if !Eligible(c, ups[0]) {
        ForcedCounts(c, env, ups[1..], s, last);
      } else {
        AttemptedSound(c, env, s, ups[0]);
        ForcedCounts(c, env, ups[1..], Attempted(c, env, s, ups[0]).0, Some(Exchange(s.attempts)));
      }
    }
  }

  lemma {:induction false} UnguardedAny(c: Setup, env: Env, ups: seq<Upstream>, s: Progress, last: Option<Error>,
                                        any: bool)
    requires Sound(c, s) && !c.enabled && exists u :: u in ups && Eligible(c, u)
    ensures Guarded(c, env, ups, s, last, any).any
    decreases |ups|
  {
    if !Eligible(c, ups[0]) {
      UnguardedAny(c, env, ups[1..], s, Some(Reason(c, ups[0])), any);
    } else {
      AttemptedSound(c, env, s, ups[0]);
      GuardedCounts(c, env, ups[1..], Attempted(c, env, s, ups[0]).0, Some(Exchange(s.attempts)), true);
    }
  }

  /** As long as some upstream is eligible, at least one is tried, whatever the breakers say. */
  lemma {:induction false} EligibleMeansAttempt(c: Setup, env: Env, ups: seq<Upstream>, s: Progress)
    requires Sound(c, s) && exists u :: u in ups && Eligible(c, u)
    ensures TryAll(c, env, ups, s).0.attempts > s.attempts
  {
    GuardedCounts(c, env, ups, s, None, false);
    var g := Guarded(c, env, ups, s, None, false);
    ForcedCounts(c, env, ups, g.s, g.last);
    if !c.enabled { UnguardedAny(c, env, ups, s, None, false); }
  }

  // ---- a breaker is the work of its own events ----

  /** What the events of a trace that are about a key make of a new breaker. */
  function Replayed(p: Policy, k: Key, trace: seq<Event>): (m: Model)
    requires Usable(p)
    ensures |m.ring| == p.buckets
  {
    if trace == [] then Fresh(p)
    else
      var m := Replayed(p, k, trace[..|trace|-1]);
      match trace[|trace|-1]
      case Judged(j, at, _) => if j == k then Allow(p, m, at).0 else m
      case Tried(_, _) => m
      case Settled(j, at, ok) => if j == k then Record(p, m, at, ok) else m
  }

  /** Every verdict in the trace is the one its breaker gives at that point. */
  ghost predicate TrueVerdicts(p: Policy, trace: seq<Event>)
    requires Usable(p)
  {
    forall i :: 0 <= i < |trace| && trace[i].Judged? ==>
      trace[i].ok == Allow(p, Replayed(p, trace[i].key, trace[..i]), trace[i].at).1
  }

  ghost predicate Traced(c: Setup, s: Progress) {
    && Sound(c, s) && TrueVerdicts(c.policy, s.trace)
    && forall k :: BreakerOf(c, s, k) == Replayed(c.policy, k, s.trace)
  }

  lemma {:induction false} VerdictsExtend(p: Policy, trace: seq<Event>, e: Event)
    requires Usable(p) && TrueVerdicts(p, trace)
    requires e.Judged? ==> e.ok == Allow(p, Replayed(p, e.key, trace), e.at).1
    ensures TrueVerdicts(p, trace + [e])
  {
    var t := trace + [e];
    forall i | 0 <= i < |t| && t[i].Judged? ensures t[i].ok == Allow(p, Replayed(p, t[i].key, t[..i]), t[i].at).1 {
      if i < |trace| { assert t[..i] == trace[..i]; } else { assert t[..i] == trace; }
    }
  }

  lemma {:induction false} ReplayedExtend(p: Policy, k: Key, trace: seq<Event>, e: Event)
    requires Usable(p)
    ensures Replayed(p, k, trace + [e]) ==
      match e
      case Judged(j, at, _) => if j == k then Allow(p, Replayed(p, k, trace), at).0 else Replayed(p, k, trace)
      case Tried(_, _) => Replayed(p, k, trace)
      case Settled(j, at, ok) => if j == k then Record(p, Replayed(p, k, trace), at, ok) else Replayed(p, k, trace)
  {
    assert (trace + [e])[..|trace|] == trace;
  }

  lemma {:induction false} AskedTraced(c: Setup, env: Env, s: Progress, u: Upstream)
    requires Traced(c, s)
    ensures Traced(c, Asked(c, env, s, u).0)
  {
    AskedSound(c, env, s, u);
    if c.enabled {
      var asked := Asked(c, env, s, u).0;
      var e := asked.trace[|s.trace|];
      VerdictsExtend(c.policy, s.trace, e);
      forall k ensures BreakerOf(c, asked, k) == Replayed(c.policy, k, asked.trace) {
        ReplayedExtend(c.policy, k, s.trace, e);
      }
    }
  }

  lemma {:induction false} AttemptedTraced(c: Setup, env: Env, s: Progress, u: Upstream)
    requires Traced(c, s)
    ensures Traced(c, Attempted(c, env, s, u).0)
  {
    AttemptedSound(c, env, s, u);
    var tried := Attempted(c, env, s, u).0;
    var t := s.trace + [Tried(u, s.attempts)];
    VerdictsExtend(c.policy, s.trace, Tried(u, s.attempts));
    if c.enabled { VerdictsExtend(c.policy, t, tried.trace[|t|]); }
    forall k ensures BreakerOf(c, tried, k) == Replayed(c.policy, k, tried.trace) {
      ReplayedExtend(c.policy, k, s.trace, Tried(u, s.attempts));
      if c.enabled { ReplayedExtend(c.policy, k, t, tried.trace[|t|]); }
    }
  }

  lemma {:induction false} GuardedTraced(c: Setup, env: Env, ups: seq<Upstream>, s: Progress, last: Option<Error>,
                                         any: bool)
    requires Traced(c, s)
    ensures Traced(c, Guarded(c, env, ups, s, last, any).s)
    decreases |ups|
  {
    if ups != [] {
      if !Eligible(c, ups[0]) {
        GuardedTraced(c, env, ups[1..], s, Some(Reason(c, ups[0])), any);
      } else {
        AskedTraced(c, env, s, ups[0]);
        var (asked, ok) := Asked(c, env, s, ups[0]);
        if !ok {
          GuardedTraced(c, env, ups[1..], asked, Some(BreakerOpen(ups[0].addr)), any);
        } else {
          AttemptedTraced(c, env, asked, ups[0]);
          GuardedTraced(c, env, ups[1..], Attempted(c, env, asked, ups[0]).0, Some(Exchange(asked.attempts)), true);
        }
      }
    }
  }

  lemma {:induction false} ForcedTraced(c: Setup, env: Env, ups: seq<Upstream>, s: Progress, last: Option<Error>)
    requires Traced(c, s)
    ensures Traced(c, Forced(c, env, ups, s, last).s)
    decreases |ups|
  {
    if ups != [] {
      if !Eligible(c, ups[0]) {
        ForcedTraced(c, env, ups[1..], s, last);
      } else {
        AttemptedTraced(c, env, s, ups[0]);
        ForcedTraced(c, env, ups[1..], Attempted(c, env, s, ups[0]).0, Some(Exchange(s.attempts)));
      }
    }
  }

  /** A request: the upstreams it may go to, and what is configured and disabled when it comes in. */
  datatype Request = Request(c: Setup, ups: seq<Upstream>)

  const START: Progress := Progress(map[], 0, 0, [])

  /** The forwarder after a run of requests, all under one policy. */
  function After(p: Policy, env: Env, reqs: seq<Request>): (s: Progress)
    requires Usable(p) && forall i :: 0 <= i < |reqs| ==> reqs[i].c.policy == p
    ensures forall k :: k in s.breakers ==> |s.breakers[k].ring| == p.buckets
  {
    if reqs == [] then START
    else
      var r := reqs[|reqs|-1];
      TryAll(r.c, env, r.ups, After(p, env, reqs[..|reqs|-1])).0
  }

  /** In every run of requests, with upstreams disabled and enabled in between, each upstream's breaker is what
      its own verdicts and outcomes make of a new breaker, and every verdict is the one that breaker gives. */
  lemma {:induction false} BreakersApart(p: Policy, env: Env, reqs: seq<Request>, k: Key)
    requires Usable(p) && forall i :: 0 <= i < |reqs| ==> reqs[i].c.policy == p
    ensures var s := After(p, env, reqs);
      && TrueVerdicts(p, s.trace)
      && (if k in s.breakers then s.breakers[k] else Fresh(p)) == Replayed(p, k, s.trace)
  {
    var c := Setup(p, true, {}, false);
    RunTraced(p, env, reqs, c);
    assert BreakerOf(c, After(p, env, reqs), k) == Replayed(p, k, After(p, env, reqs).trace);
  }

  lemma {:induction false} RunTraced(p: Policy, env: Env, reqs: seq<Request>, c: Setup)
    requires Usable(p) && c.policy == p && forall i :: 0 <= i < |reqs| ==> reqs[i].c.policy == p
    ensures Traced(c, After(p, env, reqs))
  {
    if reqs != [] {
      var r, init := reqs[|reqs|-1], reqs[..|reqs|-1];
      RunTraced(p, env, init, r.c);
      var s := After(p, env, init);
      GuardedTraced(r.c, env, r.ups, s, None, false);
      var g := Guarded(r.c, env, r.ups, s, None, false);
      ForcedTraced(r.c, env, r.ups, g.s, g.last);
      SamePolicy(r.c, c, After(p, env, reqs));
    }
  }

  lemma {:induction false} SamePolicy(c: Setup, d: Setup, s: Progress)
    requires Traced(c, s) && c.policy == d.policy
    ensures Traced(d, s)
  {
    forall k ensures BreakerOf(d, s, k) == Replayed(d.policy, k, s.trace) {
      assert BreakerOf(c, s, k) == Replayed(c.policy, k, s.trace);
    }
  }

  // ---- failing open ----

  /** The loop without breakers: the reference for the fail-open pass. */
  function Plain(c: Setup, env: Env, ups: seq<Upstream>, n: nat, last: Option<Error>): (r: Result)
    decreases |ups|
  {
    if ups == [] then if last.Some? then Failure(last.value) else Nothing
    else if !Eligible(c, ups[0]) then Plain(c, env, ups[1..], n, Some(Reason(c, ups[0])))
    else if env.exchange(n, ups[0]).Some? then Answer(env.exchange(n, ups[0]).value)
    else Plain(c, env, ups[1..], n + 1, Some(Exchange(n)))
  }

  /** With breakers switched off, tryAll is that loop. */
  lemma {:induction false} DisabledIsPlain(c: Setup, env: Env, ups: seq<Upstream>, s: Progress, last: Option<Error>,
                                           any: bool)
    requires Sound(c, s) && !c.enabled
    ensures Concluded(Guarded(c, env, ups, s, last, any)) == Plain(c, env, ups, s.attempts, last)
    ensures last.None? && !any ==> TryAll(c, env, ups, s).1 == Plain(c, env, ups, s.attempts, None)
    decreases |ups|
  {
    if ups != [] {
      if !Eligible(c, ups[0]) {
        DisabledIsPlain(c, env, ups[1..], s, Some(Reason(c, ups[0])), any);
      } else {
        AttemptedSound(c, env, s, ups[0]);
        var (tried, reply) := Attempted(c, env, s, ups[0]);
        if reply.None? { DisabledIsPlain(c, env, ups[1..], tried, Some(Exchange(s.attempts)), true); }
      }
    }
  }

  /** Every eligible upstream of the list is refused by its breaker when its turn comes. A refusal
      changes no breaker, so only the clock moves. */
  predicate AllDenied(c: Setup, env: Env, ups: seq<Upstream>, s: Progress)
    requires Usable(c.policy)
    decreases |ups|
  {
    ups == [] ||
    if !Eligible(c, ups[0]) then AllDenied(c, env, ups[1..], s)
    else
      && !Asked(c, env, s, ups[0]).1
      && AllDenied(c, env, ups[1..], Asked(c, env, s, ups[0]).0)
  }

  lemma {:induction false} DeniedPass(c: Setup, env: Env, ups: seq<Upstream>, s: Progress, last: Option<Error>)
    requires Sound(c, s)
    ensures !Guarded(c, env, ups, s, last, false).any <==> AllDenied(c, env, ups, s)
    decreases |ups|
  {
    if ups != [] {
      if !Eligible(c, ups[0]) {
        DeniedPass(c, env, ups[1..], s, Some(Reason(c, ups[0])));
      } else {
        AskedSound(c, env, s, ups[0]);
        var (asked, ok) := Asked(c, env, s, ups[0]);
        if !ok {
          DeniedPass(c, env, ups[1..], asked, Some(BreakerOpen(ups[0].addr)));
        } else {
          AttemptedSound(c, env, asked, ups[0]);
          GuardedCounts(c, env, ups[1..], Attempted(c, env, asked, ups[0]).0, Some(Exchange(asked.attempts)), true);
        }
      }
    }
  }

  function EligibleCount(c: Setup, ups: seq<Upstream>): (n: nat) {
    if ups == [] then 0 else (if Eligible(c, ups[0]) then 1 else 0) + EligibleCount(c, ups[1..])
  }

  /** The guarded pass over a denied list: no exchange, and the last upstream's reason. */
  lemma {:induction false} DeniedLast(c: Setup, env: Env, ups: seq<Upstream>, s: Progress, last: Option<Error>)
    requires Sound(c, s) && AllDenied(c, env, ups, s)
    ensures var g := Guarded(c, env, ups, s, last, false);
            && g.s.attempts == s.attempts && g.reply.None? && !g.any
            && g.last == if ups == [] then last
                         else if Eligible(c, ups[|ups|-1]) then Some(BreakerOpen(ups[|ups|-1].addr))
                         else Some(Reason(c, ups[|ups|-1]))
    decreases |ups|
  {
    if ups != [] {
      if !Eligible(c, ups[0]) {
        DeniedLast(c, env, ups[1..], s, Some(Reason(c, ups[0])));
      } else {
        AskedSound(c, env, s, ups[0]);
        DeniedLast(c, env, ups[1..], Asked(c, env, s, ups[0]).0, Some(BreakerOpen(ups[0].addr)));
      }
    }
  }

  /** It has asked last the breaker of an eligible upstream, which refused. */
  lemma {:induction false} DeniedTrace(c: Setup, env: Env, ups: seq<Upstream>, s: Progress, last: Option<Error>)
    requires Sound(c, s) && c.enabled && AllDenied(c, env, ups, s)
    requires (exists u :: u in ups && Eligible(c, u)) || (s.trace != [] && Refusal(s.trace[|s.trace|-1]))
    ensures var t := Guarded(c, env, ups, s, last, false).s.trace;
      |t| >= |s.trace| && t != [] && Refusal(t[|t|-1])
    decreases |ups|
  {
    if ups != [] {
      if !Eligible(c, ups[0]) {
        DeniedTrace(c, env, ups[1..], s, Some(Reason(c, ups[0])));
      } else {
        AskedSound(c, env, s, ups[0]);
        DeniedTrace(c, env, ups[1..], Asked(c, env, s, ups[0]).0, Some(BreakerOpen(ups[0].addr)));
      }
    }
  }

  predicate Refusal(e: Event) { e.Judged? && !e.ok }

  lemma {:induction false} ForcedExtends(c: Setup, env: Env, ups: seq<Upstream>, s: Progress, last: Option<Error>)
    requires Sound(c, s)
    ensures s.trace <= Forced(c, env, ups, s, last).s.trace
    decreases |ups|
  {
    if ups != [] {
      if !Eligible(c, ups[0]) {
        ForcedExtends(c, env, ups[1..], s, last);
      } else {
        AttemptedSound(c, env, s, ups[0]);
        ForcedExtends(c, env, ups[1..], Attempted(c, env, s, ups[0]).0, Some(Exchange(s.attempts)));
      }
    }
  }

  /** Its first event, if some upstream is eligible, is an exchange. */
  lemma {:induction false} ForcedFirst(c: Setup, env: Env, ups: seq<Upstream>, s: Progress, last: Option<Error>)
    requires Sound(c, s) && exists u :: u in ups && Eligible(c, u)
    ensures var t := Forced(c, env, ups, s, last).s.trace;
      s.trace < t && t[|s.trace|].Tried?
    decreases |ups|
  {
    if !Eligible(c, ups[0]) {
      ForcedFirst(c, env, ups[1..], s, last);
    } else {
      AttemptedSound(c, env, s, ups[0]);
      var tried := Attempted(c, env, s, ups[0]).0;
      assert s.trace < tried.trace && tried.trace[|s.trace|].Tried?;
      ForcedExtends(c, env, ups[1..], tried, Some(Exchange(s.attempts)));
    }
  }

  /** An exchange of this call that no admission by the upstream's own breaker comes right before. */
  ghost predicate Unadmitted(t: seq<Event>, from: nat) {
    exists i :: from <= i < |t| && t[i].Tried? && !(i > from && Admits(t[i-1], t[i].upstream))
  }

  /** With breakers on, the fail-open pass runs exactly when every eligible upstream is denied; so an upstream
      is tried without its own breaker's admission exactly when all of them are, and there is one. */
  lemma {:induction false} FailsOpenIff(c: Setup, env: Env, ups: seq<Upstream>, s: Progress)
    requires Sound(c, s) && c.enabled
    ensures Unadmitted(TryAll(c, env, ups, s).0.trace, |s.trace|)
      <==> AllDenied(c, env, ups, s) && exists u :: u in ups && Eligible(c, u)
  {
    DeniedPass(c, env, ups, s, None);
    CallInPlace(c, env, ups, s);
    var t := TryAll(c, env, ups, s).0.trace;
    if AllDenied(c, env, ups, s) {
      DeniedLast(c, env, ups, s, None);
      if exists u :: u in ups && Eligible(c, u) {
        var g := Guarded(c, env, ups, s, None, false);
        DeniedTrace(c, env, ups, s, None);
        ForcedFirst(c, env, ups, g.s, g.last);
        assert t[|g.s.trace|].Tried? && t[|g.s.trace|-1] == g.s.trace[|g.s.trace|-1];
      } else {
        NoneTried(c, env, ups, t, |s.trace|);
      }
    } else {
      forall i | |s.trace| <= i < |t| && t[i].Tried? ensures i > |s.trace| && Admits(t[i-1], t[i].upstream) {
        assert InPlace(c, env, ups, t, |s.trace|, true, i);
      }
    }
  }

  lemma {:induction false} NoneTried(c: Setup, env: Env, ups: seq<Upstream>, t: seq<Event>, from: nat)
    requires AllInPlace(c, env, ups, t, from, false) && !exists u :: u in ups && Eligible(c, u)
    ensures forall i :: from <= i < |t| ==> !t[i].Tried?
  {
    forall i | from <= i < |t| ensures !t[i].Tried? {
      assert InPlace(c, env, ups, t, from, false, i);
    }
  }

  /** The fail-open pass finds the answer the plain loop finds, or none; and then keeps the error of
      its last exchange. */
  lemma {:induction false} ForcedOutcome(c: Setup, env: Env, ups: seq<Upstream>, s: Progress,
                                         last: Option<Error>, last': Option<Error>)
    requires Sound(c, s)
    ensures var f, p := Forced(c, env, ups, s, last), Plain(c, env, ups, s.attempts, last');
            && (f.reply.Some? <==> p.Answer?)
            && (f.reply.Some? ==> f.reply.value == p.reply)
            && (f.reply.None? ==>
                  f.last == if EligibleCount(c, ups) == 0 then last
                            else Some(Exchange(s.attempts + EligibleCount(c, ups) - 1)))
    decreases |ups|
  {
    if ups != [] {
      if !Eligible(c, ups[0]) {
        ForcedOutcome(c, env, ups[1..], s, last, Some(Reason(c, ups[0])));
      } else {
        AttemptedSound(c, env, s, ups[0]);
        var (tried, reply) := Attempted(c, env, s, ups[0]);
        if reply.None? {
          var e := Some(Exchange(s.attempts));
          ForcedOutcome(c, env, ups[1..], tried, e, e);
        }
      }
    }
  }

  lemma {:induction false} PlainError(c: Setup, env: Env, ups: seq<Upstream>, n: nat, last: Option<Error>)
    requires ups != [] && !Plain(c, env, ups, n, last).Answer?
    ensures Eligible(c, ups[|ups|-1]) ==> EligibleCount(c, ups) > 0
    ensures Plain(c, env, ups, n, last) ==
            if Eligible(c, ups[|ups|-1]) then Failure(Exchange(n + EligibleCount(c, ups) - 1))
            else Failure(Reason(c, ups[|ups|-1]))
    decreases |ups|
  {
    if |ups| == 1 {
      assert ups[1..] == [];
    } else if !Eligible(c, ups[0]) {
      PlainError(c, env, ups[1..], n, Some(Reason(c, ups[0])));
    } else {
      PlainError(c, env, ups[1..], n + 1, Some(Exchange(n)));
    }
  }

  /** When every eligible upstream is denied, the breakers cost nothing: tryAll answers exactly when
      the breaker-free loop does, and with the same reply. On failure the reported error is the
      loop's too, if and only if the last upstream listed is eligible or none is. */
  lemma {:induction false} FailOpen(c: Setup, env: Env, ups: seq<Upstream>, s: Progress)
    requires Sound(c, s) && c.enabled && AllDenied(c, env, ups, s)
    ensures var r, p := TryAll(c, env, ups, s).1, Plain(c, env, ups, s.attempts, None);
            && (r.Answer? <==> p.Answer?)
            && (r.Nothing? <==> p.Nothing?)
            && (r == p <==> p.Answer? || ups == [] || Eligible(c, ups[|ups|-1]) || EligibleCount(c, ups) == 0)
  {
    DeniedLast(c, env, ups, s, None);
    var g := Guarded(c, env, ups, s, None, false);
    ForcedOutcome(c, env, ups, g.s, g.last, None);
    if ups != [] && !Plain(c, env, ups, s.attempts, None).Answer? { PlainError(c, env, ups, s.attempts, None); }
  }

  lemma {:induction false} OneOfTwo(c: Setup, a: Upstream, b: Upstream)
    requires Eligible(c, a) && !Eligible(c, b)
    ensures EligibleCount(c, [a, b]) == 1
  {
    var ups := [a, b];
    assert ups[1..] == [b] && [b][1..] == [];
    assert EligibleCount(c, ups) == 1 + EligibleCount(c, ups[1..]);
    assert EligibleCount(c, [b]) == EligibleCount(c, [b][1..]);
  }

  /** Two upstreams, the first denied by its breaker and failing, the second disabled: tryAll reports the
      failed exchange where the plain loop reports the disabled upstream. */
  lemma {:induction false} DeniedThenDisabled(c: Setup, env: Env, a: Upstream, b: Upstream, s: Progress)
    requires Sound(c, s) && c.enabled && Eligible(c, a) && !Eligible(c, b)
    requires !Asked(c, env, s, a).1 && env.exchange(s.attempts, a).None?
    ensures AllDenied(c, env, [a, b], s)
    ensures TryAll(c, env, [a, b], s).1 != Plain(c, env, [a, b], s.attempts, None)
  {
    var ups := [a, b];
    assert ups[1..] == [b] && [b][1..] == [];
    assert AllDenied(c, env, [b], Asked(c, env, s, a).0);
    FailOpen(c, env, ups, s);
    OneOfTwo(c, a, b);
    assert Plain(c, env, ups, s.attempts, None) == Plain(c, env, [b], s.attempts + 1, Some(Exchange(s.attempts)));
    assert Plain(c, env, [b], s.attempts + 1, Some(Exchange(s.attempts))).Failure?;
  }

  /** The forwarder after one request to one upstream that fails. */
  lemma {:induction false} AfterFailure(c: Setup, env: Env, a: Upstream)
    requires Usable(c.policy) && c.enabled && Eligible(c, a) && env.exchange(0, a).None?
    ensures TryAll(c, env, [a], START).0
      == Progress(map[KeyOf(a) := Record(c.policy, Fresh(c.policy), env.clock(1), false)], 2, 1,
                  [Judged(KeyOf(a), env.clock(0), true), Tried(a, 0), Settled(KeyOf(a), env.clock(1), false)])
  {
    var ups := [a];
    assert ups[1..] == [];
    AskedSound(c, env, START, a);
    var asked := Asked(c, env, START, a).0;
    assert asked == Progress(map[KeyOf(a) := Fresh(c.policy)], 1, 0, [Judged(KeyOf(a), env.clock(0), true)]);
    AttemptedSound(c, env, asked, a);
    var tried := Attempted(c, env, asked, a).0;
    assert tried.breakers == map[KeyOf(a) := Record(c.policy, Fresh(c.policy), env.clock(1), false)];
    assert Guarded(c, env, ups, START, None, false) == Guarded(c, env, [], tried, Some(Exchange(0)), true);
  }

  /** It happens on a new forwarder's second request: the first upstream fails once, which opens its breaker,
      and fails again. */
  lemma {:induction false} FailOpenErrorDiffers() returns (c: Setup, env: Env, a: Upstream, b: Upstream)
    ensures Sound(c, START) && c.enabled
    ensures var s := TryAll(c, env, [a], START).0;
            && AllDenied(c, env, [a, b], s)
            && TryAll(c, env, [a, b], s).1 != Plain(c, env, [a, b], s.attempts, None)
  {
    a, b := Upstream("a", "udp", ""), Upstream("b", "udp", "");
    var pol := Policy(10, 1, 1, 1.0, 1, 5, 1);
    c := Setup(pol, true, {"b"}, false);
    env := Env(_ => 0, (_, _) => None);
    AfterFailure(c, env, a);
    var open := Record(pol, Fresh(pol), 0, false);
    assert open.phase == Open(0) && Allow(pol, open, 0) == (open, false);
    DeniedThenDisabled(c, env, a, b, TryAll(c, env, [a], START).0);
  }
}
