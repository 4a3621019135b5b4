# splitdns in Dafny

splitdns is a split-horizon DNS daemon. It mirrors authoritative zones, answers `*.local` and a local
domain from mDNS announcements, writes dynamic records back to a provider, and forwards everything else to
public upstreams through circuit breakers and an answer cache. This project models its decision logic and
proves what that logic promises over whole runs, all inputs and all reachable states. `dafny verify
dfyconfig.toml` checks everything.

Each part that changes state in place is a class or a method whose contract equates its new state with a
specification function or relation; theorems over runs are then proved about the specification.

| part | files |
|---|---|
| on-demand mDNS solicitation | `TokenBucket`, `Solicitation`, `SolicitationRuns` |
| two-tier mDNS store, its view, and the local plane | `MdnsStore`, `MdnsRuns`, `LocalPlane`, `LocalRuns` |
| dynamic-DNS planner, writer and queue | `Sorting`, `Planner`, `PlanRuns`, `Writer`, `ChangeQueue` |
| circuit breaker and failover | `Breaker`, `BreakerRuns`, `Failover` |
| answer cache and its egress path | `Messages`, `RecencyList`, `AnswerCache`, `AnswerCacheRuns`, `ForwardPath`, `ForwardRuns`, `ForwardInterleaving` |
| zone building, authoritative answers, split horizon | `Replies`, `Zones`, `ZoneAnswer`, `ZoneFacts`, `SplitHorizon`, `SplitHorizonFacts`, `SplitHorizonRuns` |
| reverse zones and suffix matching | `Names`, `ReverseZone` |
| shared | `Options`, `Durations`, `Sets` |

Conventions. Names are sequences of lower-case labels, leftmost first. Times are integers in nanoseconds
that do not run backwards within a run; Go's zero time is `None`. Token counts are reals. Where Go ranges
over a map, the order visited is either an arbitrary choice or a parameter, so the results hold for every
order. Where 32-bit arithmetic can wrap it is written out. The transport, the record source, the clock,
tunnel resolution, the address-class predicates and the order in which Go leaves equal records are parameters.

## What the code does that its comments do not say

- The breaker's advance loop never ends when 0 < Window < Buckets; `BreakerRuns.RollEnds` is the exact
  condition. The rest is proved for Window >= Buckets and for Window <= 0, where the ring never counts
  anything but the outcome at hand: `BreakerRuns.NoWindow`.
- The breaker's documentation says the window fills only while it is closed. The code counts outcomes in
  every state; the model follows the code.
- When every eligible upstream is denied, `tryAll` answers as the breaker-free loop would, but the error it
  returns on failure can differ; `Failover.FailOpen` says exactly when, `Failover.FailOpenErrorDiffers` shows one case.
- `ZoneFor` indexes out of range on IPv4-mapped IPv6 prefixes on an octet boundary; `ReverseZone.ZoneKinds`
  says exactly which.
- Called one after the other, handlers never put a failure marker over a usable answer for its own name, but
  in a full cache a marker evicts another name's entry, which may be fresh: `ForwardRuns.MarkerDisplaces`,
  `ForwardRuns.MarkerMayEvictFresh` and, on two concrete calls, `ForwardRuns.MarkerEvictsFresh`.
- Handlers that overlap can: one that missed and fails late overwrites the answer another has kept in the
  meantime. `ForwardInterleaving.MarkerOverwritesFresh` is the input, `ForwardInterleaving.OverwritesIff` the
  exact condition.
- The overlay tests whether the name itself is eligible for write-back, so a label restricted through another
  zone is answered from any announcement: `SplitHorizonRuns.RestrictedElsewhere` is the input,
  `SplitHorizonRuns.OverlayTrust` the exact condition.
- `decrementTTL` is exact for ages below 2^32 - 1 seconds; `AnswerCache.AgedIsLeft` says for which others.
- NXDOMAIN does not mean "nothing below" at an apex without records, nor above a name that exists only by
  its flattened tunnel addresses: `ZoneFacts.ApexNotCut` and `ZoneFacts.TunnelNotCut` are the inputs,
  `ZoneFacts.NxdomainAtApex` and `ZoneFacts.NxdomainCutAll` the exact conditions.
- An existing name can be answered with wildcard data: an alias for the wildcard name itself gets the
  wildcard's flattened addresses. `ZoneFacts.AliasGetsWild` is the input, `ZoneFacts.ExistingIsNotWild` the
  exact condition.
- The edit plan keeps a record for the host but not for each of its names: `PlanRuns.NameLosesRecord` is an
  input that leaves a name without one, `PlanRuns.NameKeepsRecord` the exact condition.

## Model

| member | source | states |
|---|---|---|
| `TokenBucket.AdmissionCurve` | internal/mdns/resolve.go:34-49 | any trace of a bucket that refills at `rate` up to `burst` admits at most burst + rate * (t - x) calls in every interval [x, t] |
| `Solicitation.Solicitor.TrimClients` | internal/mdns/resolve.go:138-168 | over the cap, idle client buckets go first, then arbitrary ones down to the cap |
| `Solicitation.Solicitor.ClientAllow` | internal/mdns/resolve.go:138-168 | one client call acts on the client table as the relation says, for any order the map is visited in |
| `Solicitation.Solicitor.BoundRecent` | internal/mdns/resolve.go:171-184 | the loop prunes expired suppression entries and resets the table only if that is not enough |
| `Solicitation.Solicitor.Enter` | internal/mdns/resolve.go:73-122 | the first critical section joins, suppresses, refuses or starts a query, and changes exactly the tables that decision names |
| `Solicitation.Solicitor.Finish` | internal/mdns/resolve.go:112-121 | the owner's second critical section removes its own flight and no other |
| `Solicitation.Solicitor.CompleteInflight` | internal/mdns/resolve.go:188-200 | closes each pending flight of the hosts once and forgets it; no closed channel is closed again |
| `SolicitationRuns.IdleDropNeutral` | internal/mdns/resolve.go:138-168 | dropping a client bucket idle for more than the window changes no later verdict |
| `SolicitationRuns.QueryRate` | internal/mdns/resolve.go:73-122 | in every interleaving, at most 20 + 10 (t - x) queries are sent in any interval |
| `SolicitationRuns.QueriesSpaced` | internal/mdns/resolve.go:73-122 | two queries for one host are never less than ten seconds apart |
| `SolicitationRuns.SuppressionBounded` | internal/mdns/resolve.go:171-184 | the suppression table stays within its cap and at most 120 of its entries are fresh |
| `SolicitationRuns.HardResetUnreachable` | internal/mdns/resolve.go:171-184 | the hard reset of the suppression table is never taken in any run |
| `SolicitationRuns.ActiveClientsKept` | internal/mdns/resolve.go:138-168 | at most 120 clients are active whenever a call comes in, so no active client is ever trimmed |
| `SolicitationRuns.InFlightOwned` | internal/mdns/resolve.go:73-122 | at most 64 queries are in flight, and each has a live owner whose leaving step is enabled and removes it |
| `SolicitationRuns.LeavesForGood` | internal/mdns/resolve.go:73-122 | once an owner has left, its flight is in no later table |
| `SolicitationRuns.WakeOnce` | internal/mdns/resolve.go:188-200 | no wake channel is closed twice in any interleaving |
| `SolicitationRuns.ClientQueryRate` | internal/mdns/resolve.go:138-168 | one client causes at most 10 + 5 (t - x) queries in any interval, table trimming included |
| `MdnsStore.SortAddrs` | internal/mdns/cache.go:369-371 | collecting a set in any order and sorting it gives its one ascending list |
| `MdnsStore.ListedInjective` | internal/mdns/trust.go:135-142 | two address sets have the same signature only if they are the same set |
| `MdnsStore.Cache.EvictOldest` | internal/mdns/cache.go:208-220 | removes one host, and that one was last seen no later than any other |
| `MdnsStore.Cache.EvictOldestTrusted` | internal/mdns/trust.go:120-131 | the same for the trusted store |
| `MdnsStore.Cache.Apply` | internal/mdns/cache.go:91-152 | the new store and the returned flag are the specification's, for an eviction of some longest-unseen host where one is needed |
| `MdnsStore.Cache.ApplyTrusted` | internal/mdns/trust.go:61-88 | a strong announcement withdraws, joins or replaces the host's allocation and reports whether its signature changed |
| `MdnsStore.Cache.Expire` | internal/mdns/cache.go:225-247 | removes exactly the hosts past their expiry and the allocations past the grace, and counts the hosts |
| `MdnsStore.Cache.ExpireTrusted` | internal/mdns/trust.go:107-116 | removes exactly the allocations past the grace, and none when there is no grace |
| `MdnsStore.Cache.BuildView` | internal/mdns/cache.go:269-360 | forward records per host are the specified list; each reverse list names every host that has the address, once, and no other |
| `MdnsRuns.TrustedIsStrongOnly` | internal/mdns/cache.go:91-152 | the trusted store of every run is that of the run with every announcement that is not strong deleted |
| `MdnsRuns.Noninterference` | internal/mdns/trust.go:61-131 | runs that differ only in such announcements end with the same trusted store |
| `MdnsRuns.InsertedUnseen` | internal/mdns/trust.go:61-131 | inserting such an announcement at any place of a run is such a difference |
| `MdnsRuns.RunOk` | internal/mdns/cache.go:91-152 | every run keeps both stores within their bounds, no address set empty, every signature up to date, every lifetime at most 4500 s |
| `MdnsRuns.ReportsIffChanged` | internal/mdns/cache.go:91-152 | in every run, Apply returns true exactly when the host's volatile or trusted address set changes |
| `MdnsRuns.ViewExact` | internal/mdns/cache.go:269-360 | in every run, a host's records are its live trusted and other unexpired addresses, each once; trusted ones with TTL 120, others with a TTL in 1..4500, at most 30 once stale |
| `LocalPlane.IsId` | internal/resolver/resolver.go:297-309 | the loop decides whether a name is hexadecimal digits and dashes with at least sixteen digits |
| `LocalPlane.CanonicalHost` | internal/resolver/resolver.go:253-283 | the loop finds a named host that no other named host of the list is better than, or none if there is none |
| `LocalPlane.CanonicalReversePtr` | internal/resolver/resolver.go:253-283 | the one PTR is that host under the local domain, or .local without one, with TTL 120 when it has none |
| `LocalPlane.ReverseOrderFree` | internal/resolver/resolver.go:253-295 | any two views of one store have the same forward records and lead to the same PTR for every address, whatever order their hosts were visited in |
| `LocalPlane.RecoverLocalHost` | internal/resolver/resolver.go:423-456 | the bounded stripping loop computes the recovery function |
| `LocalPlane.RecoveredIs` | internal/resolver/resolver.go:423-469 | a recovered name is one valid host label and 1 to 8 complete members, each local, the local domain or a managed apex, and is tainted exactly when one is local |
| `LocalPlane.RestrictedLabel` | internal/resolver/resolver.go:475-485 | true exactly for www, a virtual host, or a label eligible for write-back under some zone |
| `LocalPlane.LocalServeAddrs` | internal/resolver/resolver.go:493-516 | the fitting trusted records if there are any, else the fitting others, or none for a restricted name |
| `LocalPlane.AnswerLocal` | internal/resolver/resolver.go:311-346 | code, answer section and solicitation signal of a local name that is not a DNS-SD node |
| `LocalRuns.RestrictedAnswer` | internal/resolver/resolver.go:311-346 | a restricted host's whole local answer, for every type, is the same after any two runs that differ only in announcements that are not strong |
| `Planner.BuildPlan` | internal/ddns/ddns.go:441-485 | the loops build the specified plan: per family, pair what can be paired in byte order, create or delete the rest, for any arrangement of records of equal content |
| `Planner.StableSorts` | internal/ddns/ddns.go:472-473 | a stable sort is one of the arrangements the plan results are for |
| `Planner.FilterEligible` | internal/ddns/ddns.go:489-504 | keeps exactly the unproxied A and AAAA records on the allowlist, in order |
| `PlanRuns.PlanConverges` | internal/ddns/ddns.go:441-485 | applying the plan gives exactly the desired addresses by legal, family-preserving calls, and no legal sequence that gets there is shorter |
| `PlanRuns.PlanEmptyIff` | internal/ddns/ddns.go:441-485 | the plan is empty exactly when the address sets already agree |
| `PlanRuns.PlanParts` | internal/ddns/ddns.go:441-485 | the plan uses every stale record and every missing address exactly once and never crosses families |
| `PlanRuns.PlanRestarts` | internal/ddns/ddns.go:373-390 | after any k of n calls, a new plan from the records then listed has exactly n - k calls and reaches the same address set |
| `PlanRuns.PlanIsGentle` | internal/ddns/ddns.go:373-390 | after every prefix the host still has a record and every record already right is untouched |
| `PlanRuns.NameKeepsRecord` | internal/ddns/ddns.go:441-485 | a name has a record at the end of a plan exactly when one of its records is not among the unwanted ones beyond its family's missing addresses, or it is the first record's name and a family is short of records; if it had one before, it then has one after every call |
| `PlanRuns.NameLosesRecord` | internal/ddns/ddns.go:441-485 | two names with one record each and one new address: the record first in order of content gets it, and the other name ends with none |
| `PlanRuns.FamilyMonotone` | internal/ddns/ddns.go:373-390 | while a plan is applied, each family's records only grow or only shrink |
| `PlanRuns.PlanWithin` | internal/ddns/ddns.go:441-485 | every record edited or deleted was listed, and every created one carries the name and zone of a listed one |
| `PlanRuns.PlanOrderFree` | internal/ddns/ddns.go:441-485 | announcing the same addresses in another order, or twice, gives the same plan |
| `Writer.Writer.Guard` | internal/ddns/ddns.go:191-258 | the per-host and global guards, in the code's order |
| `Writer.Writer.Reconcile` | internal/ddns/ddns.go:191-258 | outcome, plan and guard state of one reconcile are the specification's |
| `Writer.Writer.ApplyPlan` | internal/ddns/ddns.go:373-390 | edits, then creates, then deletes, up to the first call that fails |
| `Writer.ReconcileConverges` | internal/ddns/ddns.go:191-258 | of the records listed, those that may be written end up, after a reconcile that reports success, with exactly the announced public addresses; one that fails part way leaves exactly the calls that were left; every other record of the provider is untouched |
| `Writer.WritesStayEligible` | internal/ddns/ddns.go:104-137 | a writer that makes a provider call is enabled, live and has an allowlist, and touches only records on it |
| `Writer.RejectedKeepsTokens` | internal/ddns/ddns.go:530-551 | a reconcile turned away by a guard takes no token and leaves every host's timestamp alone |
| `Writer.HostRate` | internal/ddns/ddns.go:191-258 | in every run, reconciles of one host that pass the guards are at least Rate apart |
| `Writer.GlobalRate` | internal/ddns/ddns.go:530-551 | in every run, the reconciles of all hosts that pass in an interval number at most the burst plus one per refill interval |
| `ChangeQueue.QueueIsNewest` | internal/ddns/ddns.go:142-186 | in every interleaving the queue holds at most 64 changes: the newest ones sent, contiguous and in order |
| `ChangeQueue.SubmitSucceeds` | internal/ddns/ddns.go:142-162 | when a submitter is done its own change is the newest in the queue |
| `ChangeQueue.SubmitEnds` | internal/ddns/ddns.go:142-162 | a submission that finds the queue full ends with its second further step, whatever is received in between: one drops the oldest change, the next sends its own |
| `ChangeQueue.DeliveriesInOrder` | internal/ddns/ddns.go:142-186 | deliveries are an in-order subsequence of submissions; each change is delivered, dropped or queued, exactly once |
| `Breaker.Breaker.AdvanceTo` | internal/forwarder/breaker.go:195-215 | the loop over the ring's array, with its moving head, shifts the window as the rotation-free model does, and clears it when there is no window |
| `Breaker.Breaker.Permit` | internal/forwarder/breaker.go:86-106 | the verdict and the new state of allow |
| `Breaker.Breaker.Settle` | internal/forwarder/breaker.go:109-132 | the new state of record, on the model without the ring index |
| `Breaker.Breaker.ShouldTripNow` | internal/forwarder/breaker.go:150-161 | the summing loop decides the trip rule |
| `BreakerRuns.WindowCounts` | internal/forwarder/breaker.go:195-215 | after any run, the advanced totals count exactly the outcomes since the last recovery and since the oldest bucket began, which is between (Buckets - 1) * bucketDur and Window ago |
| `BreakerRuns.TripDecision` | internal/forwarder/breaker.go:109-161 | a closed breaker opens on a failure exactly when the failure streak or the ratio over the outcomes since the oldest bucket began says so |
| `BreakerRuns.NoWindow` | internal/forwarder/breaker.go:195-215 | with Window <= 0, in every run, the ring is empty after every advance and a closed breaker opens on a failure exactly when the failure streak, or one failure alone, says so |
| `BreakerRuns.RecoveryIsFresh` | internal/forwarder/breaker.go:109-147 | in every run, what is admitted after a success that ends an open or half-open phase is what a new breaker would admit |
| `BreakerRuns.OpenHolds` | internal/forwarder/breaker.go:86-106 | an open breaker admits nothing before its cooldown and admits the first request at or after it |
| `BreakerRuns.ProbesBounded` | internal/forwarder/breaker.go:86-106 | between entering half-open and the next outcome, exactly the first HalfOpenMax requests are admitted |
| `BreakerRuns.RollEnds` | internal/forwarder/breaker.go:195-215 | the advance loop ends, for every elapsed time within the window, exactly when Window >= Buckets |
| `Failover.Forwarder.TryAllUpstreams` | internal/forwarder/forwarder.go:182-232 | the two loops over the upstreams compute the specified result, trace and breaker states |
| `Failover.EveryAttemptSettled` | internal/forwarder/forwarder.go:182-247 | with breakers on, every exchange is followed by one record, of its own outcome, on its own breaker, and there are no other records |
| `Failover.OnlyEligibleTried` | internal/forwarder/forwarder.go:182-247 | with breakers or without, only eligible upstreams of the list are tried, and without breakers none is touched |
| `Failover.EligibleMeansAttempt` | internal/forwarder/forwarder.go:182-232 | as long as some upstream is eligible, at least one is tried, whatever the breakers say |
| `Failover.FailsOpenIff` | internal/forwarder/forwarder.go:177-232 | with breakers on, an upstream is tried without an admission by its own breaker exactly when every eligible upstream is denied and there is one |
| `Failover.BreakersApart` | internal/forwarder/forwarder.go:182-247 | in every run of requests each breaker is what its own verdicts and outcomes make of a new one, and every verdict is the one that breaker gives |
| `Failover.DisabledIsPlain` | internal/forwarder/forwarder.go:182-232 | with breakers switched off, tryAll is the breaker-free loop |
| `Failover.FailOpen` | internal/forwarder/forwarder.go:182-232 | when every eligible upstream is denied, tryAll answers exactly when the breaker-free loop does, with the same reply; the error is the loop's if and only if the last upstream is eligible or none is |
| `Failover.FailOpenErrorDiffers` | internal/forwarder/forwarder.go:211-232 | a new forwarder's second request for which the two errors differ |
| `AnswerCache.AgedIsLeft` | internal/anscache/anscache.go:462-479 | every TTL becomes max(1, ttl - whole seconds) exactly for ages below 2^32 - 1 seconds and those that wrap to 2^32 - 2 |
| `AnswerCache.Completed` | internal/anscache/anscache.go:131-164 | every configuration is completed to one with positive bounds and a failure lifetime of at most five minutes |
| `AnswerCache.CacheableIs` | internal/anscache/anscache.go:338-458 | which responses are kept, and that none outlives its shortest-lived record, or its SOA and MINIMUM, except up to the floor |
| `AnswerCache.Cache.Judge` | internal/anscache/anscache.go:338-368 | the loops decide cacheability and the lifetime as specified |
| `AnswerCache.Cache.RemoveEl` | internal/anscache/anscache.go:404-407 | unlinks the element from the list and its own key from the map |
| `AnswerCache.Cache.Lookup` | internal/anscache/anscache.go:170-211 | acts on the recency list as specified and returns a new message made of the stored one, never the stored one |
| `AnswerCache.Cache.Put` | internal/anscache/anscache.go:383-401 | the entry goes to the front and the eviction loop leaves the list within capacity |
| `AnswerCache.Cache.Store` | internal/anscache/anscache.go:223-232 | keeps a new copy without OPT and id, if the response is cacheable |
| `AnswerCache.Cache.StoreFail` | internal/anscache/anscache.go:236-238 | puts a failure marker |
| `AnswerCache.Cache.Flush` | internal/anscache/anscache.go:261-267 | an empty cache with zero counters |
| `AnswerCache.UnlinkedIs` | internal/anscache/anscache.go:404-407 | removing an element from list and map keeps them in agreement and removes its key from the recency list |
| `AnswerCache.BroughtIs` | internal/anscache/anscache.go:383-391 | putting an element in front, new or not, keeps them in agreement and moves its key to the front |
| `AnswerCacheRuns.RunKeeps` | internal/anscache/anscache.go:170-407 | in every run no key occurs twice, list and map hold the same keys in order of last touch, the size is within capacity, and entries = inserts - replacements - evictions - expiries since the last flush |
| `AnswerCacheRuns.PutEvicts` | internal/anscache/anscache.go:383-401 | in every run a put stores its own entry and changes no other, except that a new key in a full cache costs exactly the least recently touched one |
| `ForwardPath.UnblockedIs` | internal/server/server.go:336-355 | the filter drops exactly the blocked addresses |
| `ForwardPath.Server.ApplyRebindFilter` | internal/server/server.go:336-355 | the in-place loop filters the answer section unless the name is under an allowed suffix |
| `ForwardPath.Server.ServeAside` | internal/server/server.go:321-325 | stamping and filtering a served message alters no stored one |
| `ForwardPath.Server.ForwardCached` | internal/server/server.go:262-316 | cache contents by value and reply of one call are the specification's |
| `ForwardRuns.FreshHit` | internal/server/server.go:262-325 | in every run a fresh hit serves the upstream message last stored for its key, every TTL aged by the whole seconds since and at least one, with the request's id, through the current filter |
| `ForwardRuns.HeldIsServed` | internal/server/server.go:262-316 | while a fresh or stale-eligible answer is held no call is refused |
| `ForwardRuns.MarkerDisplaces` | internal/server/server.go:300-316 | in every run of calls, one after the other, a failure marker replaces only a marker or an answer past its stale window, leaves every other entry as it is, and costs another key its entry exactly when its own is new and the cache is full: the least recently touched one |
| `ForwardRuns.MarkerMayEvictFresh` | internal/server/server.go:300-316 | with one entry of capacity, a failure after any kept answer of another name evicts that answer while it is fresh |
| `ForwardRuns.MarkerEvictsFresh` | internal/server/server.go:300-316 | two such calls |
| `ForwardRuns.RunIsOps` | internal/server/server.go:262-316 | every run of calls is a run of cache operations |
| `ForwardInterleaving.CallIsSteps` | internal/server/server.go:262-316 | a handler that nothing interrupts does what one call does |
| `ForwardInterleaving.InterleavingIsOps` | internal/server/server.go:262-316 | every interleaving of handlers is a run of cache operations |
| `ForwardInterleaving.OverwritesIff` | internal/server/server.go:262-316 | in every interleaving, the marker of a handler that missed and failed goes over a usable answer exactly when another handler of the same key kept one after that lookup, and it is still held and of use |
| `ForwardInterleaving.MarkerOverwritesFresh` | internal/server/server.go:300-316 | four steps of two handlers after which a key with a fresh answer is refused |
| `ForwardInterleaving.FreshAmid` | internal/server/server.go:262-325 | in every interleaving a fresh hit returns the upstream message last kept for its key, every TTL aged by the whole seconds since and at least one |
| `Replies.AppendMatching` | internal/resolver/helpers.go:79-91 | appends the records of the type, in order, owned by the name asked |
| `Replies.SetNegativeSoa` | internal/resolver/helpers.go:116-131 | sets the code and appends the zone's SOA with TTL min(TTL, MINIMUM when positive) |
| `Zones.BuildZone` | internal/mirror/mirror.go:48-106 | the loops build the specified zone |
| `Zones.DeriveEnt` | internal/mirror/mirror.go:110-125 | marks exactly the proper ancestors of owners that are not owners |
| `Zones.BuiltWellFormed` | internal/mirror/mirror.go:48-106 | every built zone has an SOA, and non-empty record sets of their own type |
| `ZoneAnswer.ChaseCname` | internal/resolver/zone.go:136-161 | the bounded chase appends the chain in order and its terminal records |
| `ZoneAnswer.WildcardOrNx` | internal/resolver/zone.go:95-132 | the wildcard answer, for any order the sets are visited in |
| `ZoneAnswer.AnswerAuthoritative` | internal/resolver/zone.go:14-91 | the authoritative answer, for any order the sets are visited in |
| `ZoneFacts.AuthoritativeCoherent` | internal/resolver/zone.go:14-132 | for well-formed zones the code is the same for every type, and the answer is empty exactly when the authority section is exactly the SOA |
| `ZoneFacts.AnswerSound` | internal/resolver/zone.go:14-161 | every record answered is one the zone holds, of the type asked or an alias on the way |
| `ZoneFacts.NxdomainCut` | internal/resolver/zone.go:14-132 | in a built zone, NXDOMAIN at a name other than the apex means no owner is at or below it |
| `ZoneFacts.NxdomainAtApex` | internal/mirror/mirror.go:110-125 | at the apex, NXDOMAIN means no owner exactly when the apex has data, the zone has a wildcard, or it has no owner; likewise counting flattened owners |
| `ZoneFacts.NxdomainCutAll` | internal/mirror/mirror.go:110-125 | counting flattened owners, NXDOMAIN at any other name means nothing is at or below it exactly when the name exists, the zone has a wildcard, or no flattened owner is there |
| `ZoneFacts.ApexNotCut` | internal/mirror/mirror.go:110-125 | a family of zones whose apex is NXDOMAIN although a name below it exists |
| `ZoneFacts.TunnelNotCut` | internal/mirror/mirror.go:110-125 | a family of zones with NXDOMAIN above a name that is answered from flattened addresses |
| `ZoneFacts.ExistingIsNotWild` | internal/resolver/zone.go:14-161 | an existing owner or empty non-terminal gets the same answer whatever the zone's wildcard data exactly when its own alias chain does not arrive at the wildcard in search of an address |
| `ZoneFacts.AliasGetsWild` | internal/resolver/zone.go:136-161 | a family of built zones in which an alias for the wildcard is answered with the wildcard's flattened address |
| `SplitHorizon.LocalScopeAddrs` | internal/resolver/resolver.go:595-623 | per family the site-local addresses, or all servable ones when there are none |
| `SplitHorizon.VHostReply` | internal/resolver/resolver.go:701-749 | the redirect reply, for any order the inherited sets are visited in |
| `SplitHorizon.MdnsZoneReply` | internal/resolver/resolver.go:648-673 | the overlay reply |
| `SplitHorizon.LocalRecoveredZoneReply` | internal/resolver/resolver.go:549-562 | the recovered-host reply |
| `SplitHorizon.AnswerZoneOrVHost` | internal/resolver/resolver.go:348-403 | which of the replies a name gets, and that reply; without a zone under the apex, a redirected name gets the proxy's addresses only and any other name a server failure |
| `SplitHorizonFacts.ExistenceConsistency` | internal/resolver/resolver.go:348-412 | for every snapshot, every view and every name under a well-formed zone: the code is the same for every type, and the answer is empty exactly when the authority section is one record, the zone's SOA at the apex with the smaller of its TTL and its MINIMUM when positive |
| `SplitHorizonFacts.TaintedIsNotWild` | internal/resolver/resolver.go:383-403 | a tainted name without record, flattened address or empty non-terminal at its owner gets a local-plane reply or NXDOMAIN, the same whatever the zone's wildcard data |
| `SplitHorizonRuns.OverlayTrust` | internal/resolver/resolver.go:357-379 | a name one label below its apex is out of reach of announcements that are not strong exactly when it is redirected, has data of its own, is itself eligible for write-back, or no address may be served |
| `SplitHorizonRuns.RestrictedElsewhere` | internal/resolver/resolver.go:368-369 | two zones and a label restricted through one of them that any announcement moves under the other |
| `SplitHorizonRuns.TaintedTrust` | internal/resolver/resolver.go:380-403 | a tainted name with nothing published at its owner is out of reach of announcements that are not strong exactly when no host is recovered, that host is restricted, or no site-local address may be served |
| `Names.LongestSuffix` | internal/resolver/helpers.go:40-59 | the loop over the map finds the longest matching suffix, whatever the order |
| `Names.LongestIs` | internal/resolver/helpers.go:40-59 | that suffix is a member the name is under and is itself under every other such member |
| `ReverseZone.ZoneFor` | internal/revzone/revzone.go:54-88 | the loops build the zone name of a prefix, or refuse it |
| `ReverseZone.Derive` | internal/revzone/revzone.go:34-50 | the zones derived are exactly those of the prefixes, each once and sorted; the unaligned prefixes are listed; a prefix that makes the code index out of range makes it fail |
| `ReverseZone.ZoneKinds` | internal/revzone/revzone.go:54-88 | which prefixes have a zone, which are refused, and which make the code index out of range |
| `ReverseZone.ContainsIffCovers` | internal/revzone/revzone.go:195-200 | the name test on two zones holds exactly when one prefix contains the other |
| `ReverseZone.ZoneInjective` | internal/revzone/revzone.go:54-88 | distinct prefixes have distinct zones |
| `ReverseZone.LongestPrefixMatch` | internal/resolver/helpers.go:50-59 | over the zones of any set of prefixes, the zone found for any address, IPv4-mapped ones included, is that of the most specific aligned covering prefix, and none is found exactly when none covers it |
| `ReverseZone.DerivedMatch` | internal/resolver/helpers.go:50-59 | the zones derived from a list of prefixes find, for any address, the most specific aligned covering prefix of the list, or none exactly when none covers it |

## Left out

- Sockets, TLS, HTTP, netlink, files, TSIG, the diagnostics page and the command-line programs.
- Record rendering: every model record is taken to render, and record data the logic does not read is opaque.
- `Resolve`'s other steps (resolver.arpa, static names, stub zones, `answerReverse`, minimal ANY): one lookup each.
- LocalPlane.AnswerLocal: is for names that are not DNS-SD nodes; the projection of services to SRV, TXT and PTR is not modelled.
- EDNS framing and truncation in `respond`, and query logging.
- `Peek`, `Entries` and `Stats` of the answer cache; `Simulate`, the audit log and `Backends` status.
- Services and descriptions attached to mDNS hosts, and the `onChange` callback; they do not affect resolution.
- ForwardPath.Server.ForwardCached: the code is one sequential step; overlapping handlers are modelled by their cache steps, in `ForwardInterleaving`.
- AnswerCache.Cache.Put: list elements are numbers with a table of what each holds, not heap cells.
- Failover.Forwarder.TryAllUpstreams: breakers are held by value in the breaker map; per-upstream statistics are not kept.
- Breaker.Breaker.AdvanceTo: policies with 0 < Window < Buckets are excluded, because the loop then never ends.
- Writer.Writer.ApplyPlan: the number of provider calls that go through before one fails is a parameter.
- Planner.BuildPlan: addresses are their texts.
- MdnsStore.Cache.BuildView: IPv6 zones, and lifetimes of 2^32 seconds or more, are not modelled.
- Zones.BuildZone: the NS list, which answers do not use, is not built.
