# Cheshmhayash: a verified model

Cheshmhayash is a NATS administration dashboard: a Go server that polls clusters, caches their JetStream
overview, streams it to browsers, exposes the clusters to MCP clients and gates access by role, and a React
front end that aggregates the replies and draws the topology. This project models the parts of it whose
behaviour spans several functions or many interleavings, and proves what they promise.

`dafny verify dfyconfig.toml` checks everything (Dafny 4.11).

## What is modelled

**The overview cache** (`CacheProtocol`, `CacheInvariant`, `CacheRuns`, `CacheOffers`, `CacheObject`). The cache's two locks,
its refreshers and its subscribers are a transition system whose steps are the lock regions and the single
sends. An inductive invariant over every interleaving gives delivery without gaps, conservation of offers,
monotonic reads, a broadcast that never waits, and the exact condition under which a send meets a closed
channel and stops the process: every run that stops contains an `Unsubscribe` between a broadcast's copy and its
send, or a `closeSubs` inside a `Subscribe` that found a snapshot. `CacheObject` is the program's own
layout, with slices shifted in place on shared arrays, proved step by step against the transition system.

**The overview pipeline** (`Overview`, `AggregateSpec`, `AggregateProofs`, `AggregateTheorems`,
`AggregateConsumers`, `AggregateOverview`, `OverviewFields`, `OverviewProofs`, `OverviewEntries`, `StableSort`,
`Topology`, `TopologyFields`, `TopologyProofs`, `TopologyListing`, `BuildTopology`, `Pipeline`, `PipelineLeaders`,
`Counting`). The nested loops over two maps of shared records are an imperative method on heap objects, proved
equal to a fold; the fold's totals are proved to be sums over leader reports, whatever the order of the replies;
`OverviewFields` and `TopologyFields` say what comes out in terms of the replies' and the overview's own fields.
The topology view's chart is proved to count exactly what the heatmap shows, and the two stages are composed: the
consumers and streams the header counts are compared with the consumer rows and the leaderships on the chart.

**Signed tokens** (`Base64Url`, `SignedToken`). Unpadded base64url (RFC 4648, sections 3.2 and 5) with the
tolerances of Go's decoder, and the token format over it, with the MAC as an arbitrary 32-byte function.

**The environment overlay** (`Strings`, `EnvText`, `Settings`, `EnvPaths`, `EnvPathProofs`, `EnvOverlay`,
`EnvValues`, `EnvKeys`, `EnvOrder`, `EnvValidate`, `EnvObject`). Every settable leaf of the settings has a getter and a setter with lens
laws; the nested switches are proved to implement one table of key paths; the overlay's result is described
without reference to order, and order independence is characterised exactly. `EnvObject` is the settings object
the program updates in place.

**The MCP server** (`McpFrames`, `McpTools`, `McpProtocol`, `McpServer`, `McpTheorems`, `McpStandard`, `NatsSubjects`,
`ToolRequests`, `GoQuote`). A line's JSON members as Go's decoder stores them, against what JSON-RPC 2.0 makes of them. The tool
registry, the frame dispatcher and the read loop over arbitrary transcripts, arbitrary JSON decoding and arbitrary
cluster replies, down to the NATS subjects the requests are published on. `GoQuote` is Go's string quoting, read back
by the grammar of JSON strings.

**JSON arrays and event streams** (`JsonText`, `JsonSplit`, `JsonArray`, `EventStream`, `OverviewHandler`). RFC 8259 texts as concrete
syntax trees; the three functions that join replies into an array; a grammar-free scanner that cuts the array
back into exactly those replies; and the server-sent event framing read back by the HTML standard's algorithm
(section 9.2.6, "Interpreting an event stream").

**Smaller pieces.** `Advisory` (JetStream advisory subjects), `Authorize` (role resolution and group claims),
`StreamHook` (the browser's stream-or-poll state machine).

**End to end** (`EndToEnd`). The cache's runs, the handler's stream and the hook together: what a subscriber reads is
what the dashboard shows, refresh by refresh.

## Where the code differs from what is said about it

- Subscribers are told to call `Unsubscribe` when they are done, and it is safe to repeat
  (`CacheRuns.UnsubscribeNoOp`). But called while a broadcast is under way it can make that broadcast's send hit the
  closed channel and stop the process; so can a shutdown inside `Subscribe`. `CacheRuns.BroadcastPanicHappens` and
  `InitialPanicHappens` are such runs; `BroadcastPanicIff` and `InitialPanicIff` say of every send whether it stops the
  process, and `PanicCause` that nothing else does.
- `Subscribe` delivers the current snapshot "immediately", but a broadcast can overtake it, and then an older snapshot
  follows a newer one (`CacheRuns.InitialComesLate`); it is the only one that can come late
  (`CacheRuns.ReceivedInOrder`).
- `aggregateOverview` names the cluster from the meta information of the replies before the current one, so with
  two or more replies a name that only the last reply carries is lost (`AggregateOverview.ClusterNameLost`);
  `AggregateOverview.ClusterNameExact` says when the name is right.
- Its map key joins account and stream with a slash: stream names without one are kept apart
  (`AggregateTheorems.SlashFreeStreams`), but of two streams that share a key one is lost (`CollisionLosesStream`, and
  `CollisionHappens` for two replies where it is).
- The handler takes the overview for one line. `discover` passes replies on as they came, so a reply printed over
  several lines does not arrive (`OverviewHandler.PrettyReplyBroken`); `OverviewHandler.SnapshotsDelivered` says exactly
  which streams do.
- A signed empty payload is refused by `verify`, although a hand-made token for it is accepted
  (`SignedToken.Signer.VerifySigned`, `EmptyPayloadAccepted`).
- A negative list position in an environment key crashes the process instead of being reported
  (`EnvPathProofs.PanicsExactly`, and `EnvOverlay.NegativePositionCrashes` for one such entry); for `mcp_keys` only when
  the field name is known.
- Against JSON-RPC 2.0, who is answered (sections 4, 4.1 and 5): `initialized` with an id is not, nor is an object
  without an id that has no method, or parameters that are no array or object, nor anything that has neither the version nor an
  id, null included (`McpStandard.AnsweredExactly`, with `HandshakeWithIdUnanswered`, `MethodlessUnanswered` and
  `VersionlessUnanswered`). What they are answered (section 5.1): JSON of the wrong shape gets the code of text that is
  not JSON, a request without a method that of an unknown method, and an id or parameters of a kind the standard does not
  allow are accepted (`McpStandard.CodeExact`, with `WrongShapeCode`, `MethodlessCode`, `ObjectIdAccepted` and
  `NumberParamsAccepted`). Member names are matched whatever their letter case (section 3; `MisspelledAnswered`).
- `stream_update` takes a Go-quoted name to be a JSON string, which it is exactly without control characters JSON cannot
  escape, deletes, and unprintable characters above U+FFFF (`GoQuote.QuoteValid`); otherwise the tool fails
  (`McpTools.UnnamedUpdateExact`, `BellRefused`).
- The two readers of a group claim differ on a claim that is the empty string, and then a user who may only read can be
  an administrator at one of them (`Authorize.ReadersAgreeExactly`, `EmptyClaimPromotes`).
- A request that fails after its effect was cancelled still reports its error for the cluster now shown
  (`StreamHook.LateCallbackExact`, `LateErrorHappens`).
- The event stream carries the error of a failed refresh, but the dashboard never reads it and shows "reconnecting"
  (`StreamHook.ServerErrorUnread`).

## Model

| member | source | states |
|---|---|---|
| CacheInvariant.StepInv | internal/natsx/cache.go:65-195 | every atomic step of refreshers, subscribers and shutdown keeps the protocol invariant unless it stops the process |
| CacheInvariant.OnlySendsPanic | internal/natsx/cache.go:142-195 | of all steps only a send can stop the process, and only a send on a closed channel; no close ever does |
| CacheRuns.RunInv | internal/natsx/cache.go:65-195 | the invariant holds in every state of every interleaving |
| CacheRuns.RegisteredMeansOpen | internal/natsx/cache.go:142-195 | a channel is open exactly while registered, registered once, and only under the cluster it subscribed to |
| CacheRuns.NoDoubleClose | internal/natsx/cache.go:160-195 | no run closes a channel twice |
| CacheRuns.StepCloses | internal/natsx/cache.go:160-195 | a channel becomes closed exactly by closeSubs of its cluster or by the Unsubscribe that names both; nothing reopens it |
| CacheRuns.ShutdownIsAsked | internal/natsx/cache.go:71-98 | closeSubs runs only after the cancellation, and only for a cluster that has been refreshed |
| CacheRuns.UnsubscribeNoOp | internal/natsx/cache.go:157-171 | Unsubscribe changes nothing exactly when the channel is already closed or belongs to another cluster |
| CacheRuns.BroadcastPanicIff | internal/natsx/cache.go:173-186 | every broadcast send has the copy of its own broadcast before it, and stops the process iff its channel was unsubscribed between that copy and the send |
| CacheRuns.InitialPanicIff | internal/natsx/cache.go:142-155 | every initial send follows its channel's registration, and stops the process iff Get found a snapshot and closeSubs ran in between |
| CacheRuns.BroadcastPanicHappens | internal/natsx/cache.go:160-186 | a concrete run in which a broadcast sends on a closed channel |
| CacheRuns.InitialPanicHappens | internal/natsx/cache.go:142-155 | a concrete run in which Subscribe sends on a channel closeSubs has closed |
| CacheRuns.PanicCause | internal/natsx/cache.go:142-195 | any run that stops the process ends in one of these two kinds of send, with the cause between copy or registration and that send; no close ever stops it |
| CacheRuns.NoGaps | internal/natsx/cache.go:142-155 | from the version Subscribe read onward every stored version is offered to a registered channel, except the newest while its broadcast is under way |
| CacheRuns.OffersIncrease | internal/natsx/cache.go:173-186 | offers to one channel carry strictly increasing versions, apart from the one initial snapshot |
| CacheRuns.Conservation | internal/natsx/cache.go:142-186 | received plus buffered are the accepted offers in order, offers = received + buffered + dropped, and at most four wait |
| CacheOffers.QueueExact | internal/natsx/cache.go:143-186 | in any run an offer joins the end of its channel unless four wait, and then leaves it alone; a read takes the head; no other step touches the buffer |
| CacheOffers.DroppedExact | internal/natsx/cache.go:149-184 | nothing has been dropped iff never four waited when something was offered |
| CacheOffers.KeepingUpSeesEverything | internal/natsx/cache.go:136-155 | a subscriber that never had four waiting when something was offered has, received or waiting, every version from where it started |
| CacheRuns.VersionsGrow | internal/natsx/cache.go:118-134 | the stored version of a cluster never decreases along a run |
| CacheRuns.MonotonicReads | internal/natsx/cache.go:118-134 | after a subscriber received version v every Get of its cluster returns a version of at least v |
| CacheRuns.ReceivedInOrder | internal/natsx/cache.go:142-186 | the versions a subscriber reads increase strictly, but for one place, that of the initial snapshot |
| CacheRuns.InitialComesLate | internal/natsx/cache.go:148-153 | a concrete run in which a subscriber reads version 2 before version 1 |
| CacheRuns.RefresherNeverBlocks | internal/natsx/cache.go:71-98 | a refresher always has a step it can take, whatever the subscribers do |
| CacheRuns.SubscriberSteps | internal/natsx/cache.go:142-171 | a subscriber's next step is always possible, but for reading an empty channel |
| CacheRuns.BroadcastLength | internal/natsx/cache.go:173-186 | a finished broadcast made exactly one send per channel on the list it copied |
| CacheObject.Append | internal/natsx/cache.go:145 | append, in place or in a new array, adds one element at the end |
| CacheObject.DeleteAt | internal/natsx/cache.go:166 | the in-place shift removes one element and keeps the order of the rest, within the same array |
| CacheObject.Find | internal/natsx/cache.go:163-165 | the scan finds the first index of the channel, or there is none |
| CacheObject.SubscriberLists.Add | internal/natsx/cache.go:144-146 | registering extends one cluster's list and keeps every other list, over backing arrays that no two clusters share |
| CacheObject.SubscriberLists.Remove | internal/natsx/cache.go:163-170 | removing takes the first occurrence out of one cluster's list and keeps every other list |
| CacheObject.OverviewCache.Register | internal/natsx/cache.go:143-146 | the lock region of Subscribe is the registration step of the transition system |
| CacheObject.OverviewCache.TrySend | internal/natsx/cache.go:149-152 | a non-blocking send is accepted, dropped or stops the process as the transition system says |
| CacheObject.OverviewCache.Unsubscribe | internal/natsx/cache.go:160-171 | Unsubscribe is its step of the transition system |
| CacheObject.OverviewCache.CopyList | internal/natsx/cache.go:176-178 | the broadcast's copy is a new array with the current list |
| CacheObject.OverviewCache.CloseSubs | internal/natsx/cache.go:188-195 | closeSubs closes each listed channel in turn and removes the list |
| CacheObject.CopySurvives | internal/natsx/cache.go:163-179 | no sequence of registrations, removals and shutdowns changes a list a broadcast has copied |
| AggregateOverview.StreamRecord.Promote | frontend/src/api.ts:157-184 | a leader's report replaces state, cluster, configuration and consumers of the shared record and yields its share of the totals |
| AggregateOverview.Accumulator.VisitStreamReport | frontend/src/api.ts:141-185 | one iteration of the stream loop on the heap is one step of the fold |
| AggregateOverview.AggregateOverview | frontend/src/api.ts:115-200 | over the replies' own fields: the totals, overall and of each account, count the streams their leaders report, their messages, bytes and own consumers; each account is listed once with what its first mention says, sorted by streams; each of its streams is listed once with the fields of its leader's last report or its first; meta and cluster name are those of the first reply that knows one |
| AggregateOverview.ClusterNameExact | frontend/src/api.ts:120-127 | the cluster's name is that of the reported meta cluster iff there is at most one reply, an earlier reply has a meta cluster, or the last one has no name |
| AggregateOverview.ClusterNameLost | frontend/src/api.ts:120-127 | two replies after which the meta cluster has a name and the cluster none |
| AggregateTheorems.TotalsAreLeaderSums | frontend/src/api.ts:123-199 | for every input each account's totals and the overall totals are the sums over leader reports |
| OverviewProofs.ReplyTotals | frontend/src/api.ts:157-183 | the totals are sums over the replies' own accounts, streams and fields |
| OverviewEntries.ListDescribed | frontend/src/api.ts:130-189 | the listed accounts, their totals and their streams, in terms of the replies' own fields |
| OverviewEntries.EntryFields | frontend/src/api.ts:140-184 | creation from the first report; state, configuration, cluster and own consumers, in order, from the leader's last one or all from the first |
| AggregateTheorems.ReplyOrderKeepsTotals | frontend/src/api.ts:123-199 | permuting the replies keeps the accounts and all totals |
| AggregateTheorems.ReplyOrderKeepsLedStream | frontend/src/api.ts:157-184 | with a single leader report a stream's state, cluster, configuration and consumers do not depend on the order of the replies |
| AggregateTheorems.KeyInjective | frontend/src/api.ts:141 | with slash-free stream names the map key is injective |
| AggregateTheorems.KeyCollides | frontend/src/api.ts:141 | exactly which account and stream names share a key |
| AggregateTheorems.StreamsInTheirAccount | frontend/src/api.ts:143-156 | without a collision each reported stream has one entry, listed once and only by its own account, holding its authoritative report |
| AggregateTheorems.SlashFreeStreams | frontend/src/api.ts:141-156 | with slash-free stream names each reported stream has one entry, listed once and only by its own account, holding its authoritative report |
| AggregateTheorems.CollisionLosesStream | frontend/src/api.ts:141-156 | two streams of different accounts that share a key are never both listed |
| AggregateTheorems.CollisionHappens | frontend/src/api.ts:141-156 | two replies after which the second account lists nothing and no entry has its stream's name |
| AggregateProofs.EntryAuthoritative | frontend/src/api.ts:140-184 | an entry's name, account and creation come from the first report, the rest from the last leader report or, without one, from the first |
| AggregateProofs.AccountTotals | frontend/src/api.ts:157-183 | an account's running totals are the sum of its leaders' reports |
| AggregateProofs.OverallTotals | frontend/src/api.ts:189-199 | the sum over the accounts is the sum over all leader reports |
| AggregateConsumers.ConsumerRows | frontend/src/api.ts:164-183 | the consumers listed are at most the consumers counted, and equal when no stream has two leader reports |
| StableSort.SortedSorts | frontend/src/api.ts:189 | the comparison sort returns a descending permutation |
| StableSort.SortedStable | frontend/src/api.ts:189 | elements with equal keys keep their order |
| Topology.MembersOf | frontend/src/components/TopologyView.tsx:305-314 | the replicas in order, with an unlisted leader added as current |
| Topology.CountRow | frontend/src/components/TopologyView.tsx:279-294 | one row raises the leader count of exactly the server whose role is leader and the follower count of exactly the other members |
| Topology.CountRows | frontend/src/components/TopologyView.tsx:278-294 | after the loop each server's counts are the numbers of rows where its role is leader, and follower or stale |
| TopologyProofs.MembershipsConserved | frontend/src/components/TopologyView.tsx:269-294 | leader and follower counts over all servers sum to the memberships of all rows; leader counts sum to the rows led from within |
| TopologyProofs.StreamRowLed | frontend/src/components/TopologyView.tsx:235-243 | a stream row is led from within exactly when its leader has a name, or leader and a replica are both nameless |
| TopologyProofs.LeadersAreLedStreams | frontend/src/components/TopologyView.tsx:233-243 | with named replicas the leaders counted are the streams that have a leader |
| TopologyProofs.RowsInMemberNames | frontend/src/components/TopologyView.tsx:203-217 | every member of every row is among the gathered server names, so no member is skipped |
| TopologyProofs.StreamRoleExact | frontend/src/components/TopologyView.tsx:305-321 | the role shown for a stream on a server, from the stream's leader and the last replica record of that name |
| TopologyProofs.ConsumerRoleExact | frontend/src/components/TopologyView.tsx:251-321 | the role shown for a consumer, on its own replicas or, without any, on its stream's members |
| BuildTopology.GatherNames | frontend/src/components/TopologyView.tsx:203-213 | the loops gather exactly the names streams and consumers mention |
| BuildTopology.Rows | frontend/src/components/TopologyView.tsx:231-262 | one row per stream and per consumer, consumers inheriting the stream's members when they list none |
| BuildTopology.BuildTopology | frontend/src/components/TopologyView.tsx:188-303 | from the account list alone: one row per listed stream and per consumer, in order, with its account, stream, leader and members; the servers are those given and those mentioned; each chart number is the number of rows with that server as leader or otherwise; the meta row |
| TopologyListing.AllRowsFit | frontend/src/components/TopologyView.tsx:228-266 | the rows carry the account, stream and own leader of each listed stream and consumer, and its members from its own replicas, or its stream's |
| TopologyListing.NamesMentioned | frontend/src/components/TopologyView.tsx:203-213 | the gathered names are those some stream or consumer names as replica or leader |
| TopologyListing.RowsCounted | frontend/src/components/TopologyView.tsx:279-294 | the counts are cardinalities of sets of rows |
| Pipeline.OverviewTopology | frontend/src/components/TopologyView.tsx:188-303 | over aggregated replies the consumer rows are at most the counted consumers and memberships are conserved; under single leaders consumers are equal, and the counted streams are at most the summed stream leaders, equal iff of every stream whose first report names a leader some report came from its leader |
| PipelineLeaders.LeaderSumTotal | frontend/src/api.ts:157-161 | the streams counted are the leader reports summed over the distinct keys |
| PipelineLeaders.LedStreams | frontend/src/api.ts:157-199 | under single leaders the streams counted are at most the rows led from within, with equality iff every stream whose first report names a leader was reported by its leader |
| Base64Url.DecodeEncode | internal/auth/session.go:48-54 | decoding inverts encoding for every byte string |
| Base64Url.DecodeExact | internal/auth/session.go:63-75 | exactly which texts decode to given bytes: line breaks skipped, spare bits ignored |
| Base64Url.EncodeShape | internal/auth/session.go:49-52 | encodings have the RFC's length and contain no dot |
| Base64Url.GroupValue | internal/auth/session.go:52-76 | three bytes and their four sextets are the same 24-bit number |
| Base64Url.Alphabet | internal/auth/session.go:52-76 | the alphabet of section 5 |
| Base64Url.Vectors | internal/auth/session.go:52-76 | test vectors of section 10 |
| SignedToken.Signer.VerifyExact | internal/auth/session.go:57-77 | a token is accepted for a payload iff it splits at its last dot into two non-empty parts that decode to the payload and to the MAC of the first part |
| SignedToken.Signer.VerifySigned | internal/auth/session.go:48-77 | a signed payload verifies to itself, unless it is empty |
| SignedToken.Signer.ResignAccepted | internal/auth/session.go:48-77 | signing what a token carried gives an accepted token iff the payload is not empty |
| SignedToken.Signer.EmptyPayloadAccepted | internal/auth/session.go:57-77 | an accepted token for the empty payload exists |
| SignedToken.ReadSigned | internal/auth/session.go:79-123 | reading what was signed gives it back until it expires and reports the expiry afterwards |
| SignedToken.SessionRoundTrip | internal/auth/session.go:79-100 | a session reads back iff its expiry is 0 or not passed |
| SignedToken.FlowRoundTrip | internal/auth/session.go:102-123 | the same for the login flow's state |
| EnvText.CutExact | internal/config/config.go:378 | an entry is cut at its first equals sign |
| Strings.SplitJoin | internal/config/config.go:382 | splitting and joining are inverse, exactly on the lists whose pieces contain no separator |
| EnvText.AtoiSpellings | internal/config/config.go:418-424 | every list position below 2^63 can be written, with a sign or leading zero too |
| EnvText.SplitCsv | internal/config/config.go:636-646 | the loop computes the trimmed non-empty parts in order |
| EnvText.CsvExact | internal/config/config.go:636-646 | a list is the meaning of some comma-separated text iff its members are trimmed, non-empty and comma-free |
| EnvText.CsvJoin | internal/config/config.go:636-646 | such a list comes back from its joined text |
| Settings.ReadWrite | internal/config/config.go:396-442 | writing one leaf sets it and no other leaf |
| Settings.LengthWrite | internal/config/config.go:420-437 | writing lengthens a list exactly as far as the position needs |
| Settings.SameConfig | internal/config/config.go:36-60 | leaves and list lengths determine the settings |
| EnvPathProofs.ResolveExact | internal/config/config.go:390-634 | the nested switches set a leaf iff the key matches that leaf's path in the table and the value parses as its kind |
| EnvPathProofs.PanicsExactly | internal/config/config.go:411-437 | an entry crashes the process iff it addresses a list at a negative position |
| EnvOverlay.EntryExact | internal/config/config.go:376-388 | an environment string sets a leaf iff it spells prefix, path pieces and a value of the leaf's kind |
| EnvKeys.EntryMeaning | internal/config/config.go:390-646 | the documented key of each leaf sets that leaf to exactly what the value means: a text verbatim, the number a decimal spells, true or false for their spellings, the items between the commas; a value that means nothing is an error |
| EnvKeys.FieldsHold | internal/config/config.go:376-440 | in the final settings the field of a leaf holds what the value of the last entry for it means |
| EnvKeys.FieldsStay | internal/config/config.go:376-440 | the field of a leaf no entry sets stays |
| EnvValues.ListValue | internal/config/config.go:636-646 | any items, with any white space around them and any missing ones between, are read as the items |
| EnvValues.NumberValue | internal/config/config.go:402-408 | a text is a number iff it is a sign or none, zeros or none, and its decimal digits, in the 64-bit range |
| EnvOverlay.DoneExactly | internal/config/config.go:376-388 | the overlay completes iff every entry is ignored or sets a leaf |
| EnvOverlay.FirstBadDecides | internal/config/config.go:383-385 | otherwise the first bad entry decides between error and crash |
| EnvOverlay.OverlayReads | internal/config/config.go:376-388 | each leaf ends at the value of the last entry that sets it, or unchanged |
| EnvOverlay.OverlayLengths | internal/config/config.go:420-437 | each list ends at the larger of its old length and one more than the largest position set |
| EnvOverlay.OverlayTwice | internal/config/config.go:376-388 | overlaying the same environment again changes nothing |
| EnvOverlay.NegativePositionCrashes | internal/config/config.go:411-424 | an environment of one entry that crashes the overlay |
| EnvOrder.OrderExact | internal/config/config.go:376-388 | the order of the environment is irrelevant iff entries for the same leaf agree, or, when it fails, it does not both fail and crash |
| EnvOrder.DistinctTargetsOrderFree | internal/config/config.go:376-388 | entries for pairwise different leaves commute unless a position is negative |
| EnvValidate.ValidateAuth | internal/config/config.go:320-373 | accepts iff issuer, allowlist and the mode's own requirements are met |
| EnvValidate.ModeExact | internal/config/config.go:79-88 | no mode and any spelling of oidc are the login mode, any spelling of jwt the token mode |
| EnvValidate.Validate | internal/config/config.go:286-318 | accepts exactly the usable settings and names the first cluster or key that is not |
| EnvValidate.ClustersUsable | internal/config/config.go:290-297 | after an overlay the clusters are complete iff the last name and url set for every position are not empty |
| EnvValidate.GapRejected | internal/config/config.go:290-317 | a position skipped in nats or mcp_keys never passes validation |
| EnvValidate.Load | internal/config/config.go:269-284 | settings are loaded iff the overlay completes and its result is usable, and they are that result |
| EnvObject.FindNatsTag | internal/config/config.go:664-688 | the walk over the struct tags finds the field with that tag or none |
| EnvObject.LoadedSettings.GrowNats | internal/config/config.go:420-422 | the append loop grows the list to the needed length with zero entries |
| EnvObject.LoadedSettings.ApplyMcpKeys | internal/config/config.go:507-525 | one mcp_keys entry in place, as resolved |
| EnvObject.LoadedSettings.ApplyAccessEnv | internal/config/config.go:603-634 | one access entry in place, as resolved |
| EnvObject.LoadedSettings.ApplyAuthEnv | internal/config/config.go:453-546 | one auth entry in place, as resolved |
| EnvObject.LoadedSettings.ApplyEnvPath | internal/config/config.go:390-440 | one entry in place: a write of its leaf, nothing, or a failure that sets no leaf |
| EnvObject.LoadedSettings.OverlayEnv | internal/config/config.go:376-388 | the loop over the environment computes the overlay and stops at the first failing entry |
| McpTools.RegistryNames | internal/mcp/tools.go:25-250 | tool names are unique in both modes |
| McpTools.FindExact | internal/mcp/server.go:251-258 | looking up a name is the exact inverse of the registry |
| McpTools.ReadToolsNeverMutate | internal/mcp/tools.go:25-128 | no tool of the read-only registry requests a mutating operation, for any arguments |
| McpTools.DestroysNeedsConfirm | internal/mcp/tools.go:584-822 | exactly the destructive handlers request destructive operations, and only with confirm in their arguments |
| McpTools.UpdateCarriesName | internal/mcp/tools.go:641-675 | a stream is only updated with a configuration whose name, read as JSON, is the stream's own |
| McpTools.UnnamedUpdateExact | internal/mcp/tools.go:657-665 | an update without a name fails on encoding iff the stream's name holds a character Go quotes in a way JSON does not have |
| McpTools.BellRefused | internal/mcp/tools.go:657-665 | the stream named by the bell character is such a one |
| GoQuote.ParseStringExact | internal/mcp/tools.go:657-660 | the reader accepts exactly the JSON strings of the grammar, and reads them as written |
| GoQuote.QuoteExact | internal/mcp/tools.go:657-660 | a Go-quoted text is a JSON string iff it has no control character but backspace, form feed, line feed, return and tab, no delete and nothing unprintable above U+FFFF; then it denotes that text |
| GoQuote.QuoteValid | internal/mcp/tools.go:657-665 | the same for being any JSON at all, as the encoder asks |
| McpTools.SchemaFields | internal/mcp/tools.go:25-250 | each tool's schema names exactly the fields of its argument struct |
| McpTools.RequestExact | internal/mcp/tools.go:332-822 | a tool makes its request iff its arguments decode, everything its schema requires is provided, endpoint and cluster check out, and a configuration carries the stream's name or can be given it; the request goes to the named cluster |
| ToolRequests.TranscriptWires | internal/mcp/tools.go:25-822 | over any transcript the requests sent are, one by one, those its frames ask for by tool name: cluster, literal subject with the arguments' own fields, body, and whether all servers answer; and no others |
| ToolRequests.FindNamed | internal/mcp/tools.go:25-250 | the registry gives each name its handler, the writing ones in write mode only |
| McpServer.Server.FindTool | internal/mcp/server.go:251-258 | the scan returns the first tool of that name |
| McpServer.Server.HandleToolCall | internal/mcp/server.go:217-249 | a tool call's answer and its at most one request are those of the frame |
| McpServer.Server.Dispatch | internal/mcp/server.go:137-169 | a frame's answer and request are those the protocol functions give |
| McpServer.Server.Serve | internal/mcp/server.go:57-95 | over a whole input the responses and requests are those of its non-empty lines, in order |
| McpServer.ServeBoth | internal/mcp/server.go:83-95 | two servers set up alike over different cluster replies make the same requests over the same input |
| McpTheorems.OneResponseEach | internal/mcp/server.go:83-169 | one response per answered frame, in order, with its id, version 2.0 and exactly one of result and error, the error being the frame's own |
| McpTheorems.ParseErrorsExact | internal/mcp/server.go:138-145 | a response is a parse error iff its frame could not be read into a request, and then its id is null |
| McpTheorems.PlainAnswers | internal/mcp/server.go:152-160 | initialize, ping and tools/list get the mode, an empty object and the tools of the mode |
| McpTheorems.CallAnswers | internal/mcp/server.go:161-249 | the error code of anything else, and a tool's result as the cluster's replies |
| McpFrames.StoredFields | internal/mcp/server.go:99-104 | each field of the request struct holds the last value given under its name in any letter case, nulls for a string not counted |
| McpStandard.AnsweredExactly | internal/mcp/server.go:137-169 | which frames owed a response get none, over all frames: an iff on version, id, method and the kind of the parameters; and the server answers as the standard asks iff neither or both of that and a different reading of names occur, the latter never for ordinary names |
| McpStandard.TakenOrdinary | internal/mcp/server.go:137-145 | with names in their own letter case and given once the standard sees the same frame as the server |
| McpStandard.CodeExact | internal/mcp/server.go:138-169 | a frame gets the code of section 5.1 iff it is not JSON, null, not of the version, or has a method and an id and parameters of the kinds allowed |
| McpStandard.WrongShapeCode | internal/mcp/server.go:139-145 | a frame of the wrong shape gets a parse error |
| McpStandard.MethodlessCode | internal/mcp/server.go:163-167 | an object without a method is answered as an unknown method |
| McpStandard.MethodlessUnanswered | internal/mcp/server.go:163-166 | without an id it is not answered |
| McpStandard.ObjectIdAccepted | internal/mcp/server.go:150-158 | a request whose id is an object is answered as if it were legal |
| McpStandard.NumberParamsAccepted | internal/mcp/server.go:150-158 | so is one whose parameters are a number |
| McpStandard.VersionlessUnanswered | internal/mcp/server.go:146-148 | the empty object and null get no response |
| McpStandard.HandshakeWithIdUnanswered | internal/mcp/server.go:155-156 | a concrete request with an id that gets no response |
| McpStandard.MisspelledAnswered | internal/mcp/server.go:99-104 | a notification that is answered because a member is named ID |
| McpTheorems.ReadOnlyNeverMutates | internal/mcp/server.go:217-258 | over any transcript a read-only server requests no mutating operation |
| McpTheorems.DestroysOnlyConfirmed | internal/mcp/tools.go:584-822 | a destructive request implies write mode and a frame of the transcript that calls that tool with confirm set |
| McpTheorems.TwoSittings | internal/mcp/server.go:83-95 | serving a transcript in two parts is serving it whole |
| NatsSubjects.SubjectMutates | internal/natsx/admin.go:31-66 | whatever text the arguments contain, a subject is a mutating one iff its operation mutates |
| NatsSubjects.ReadOnlyWire | internal/natsx/jsm.go:8-96 | over any transcript a read-only server publishes on no mutating subject |
| JsonArray.MarshalArray | internal/natsx/cache.go:102-116 | the buffer loop computes the array text |
| JsonArray.RawArray | internal/mcp/tools.go:314-328 | the builder loop computes the same text |
| JsonArray.WriteRawArray | internal/handler/handler.go:143-158 | the response loop writes the same text with status 200 and a JSON content type |
| JsonArray.Discover | internal/natsx/cluster.go:167-184 | the replies are the arrivals Go accepts as JSON, nesting limit included, in arrival order, and each is valid JSON |
| JsonArray.ValidPicked | internal/natsx/cluster.go:167-184 | the replies are the arrivals at increasing positions, and no valid one is left out |
| JsonArray.ItemsOfArray | internal/natsx/cache.go:100-116 | the scanner cuts the array text into exactly the replies it was joined from |
| JsonArray.ArrayInjective | internal/natsx/cache.go:100-116 | different lists of valid replies never give the same text |
| JsonArray.ArrayIsJson | internal/natsx/cache.go:100-116 | the text is a valid JSON array whose elements are the replies |
| JsonArray.ArrayOneLine | internal/handler/jsm.go:148-151 | the text is one line iff every reply is |
| JsonSplit.ValuePasses | internal/natsx/cluster.go:178-181 | the scanner passes over any valid JSON value uncut and unchanged |
| EventStream.StreamDelivers | internal/handler/jsm.go:126-157 | for any interleaving of heartbeats, snapshots and errors a standard reader sees one event per snapshot and error, in order, with the bytes sent, iff each of them is one line |
| EventStream.FrameExact | internal/handler/jsm.go:131-154 | a message survives the framing iff it is one line |
| EventStream.FrameApart | internal/handler/jsm.go:131-154 | whatever a frame carries, the reader takes it and the rest of the stream apart |
| EventStream.CutReceived | internal/handler/jsm.go:126-157 | wherever a stream breaks off, the reader has seen the first of its events, whole |
| OverviewHandler.Overview | internal/handler/jsm.go:68-98 | cached and live overviews of the same replies have the same body; the age header, the statuses and the error bodies say which path was taken |
| OverviewHandler.OverviewStream | internal/handler/jsm.go:104-159 | the select loop writes the frames of its wake-ups in order |
| OverviewHandler.SnapshotsDelivered | internal/handler/jsm.go:126-157 | whatever heartbeats come between, the events a reader sees are the snapshots, in order and unchanged, iff every overview among them is one line |
| OverviewHandler.RepliesDelivered | internal/handler/jsm.go:100-157 | this holds iff every reply is one line, and then cutting an event's data gives back the very replies |
| OverviewHandler.PrettyReplyBroken | internal/natsx/cluster.go:178-182 | a valid reply of two lines that does not arrive |
| Advisory.StrSlice | internal/notify/classify.go:168-188 | the loop collects plain and named replicas in order |
| Advisory.BridgedSuffix | internal/notify/classify.go:61-79 | the bridged subject yields the local suffix iff the account does not contain the marker |
| Advisory.BothFormsClassifyEqual | internal/notify/classify.go:26-79 | for dot-free accounts both forms of a subject give the same event |
| Advisory.NamesRecovered | internal/notify/classify.go:26-59 | kind, action and names come back from the suffix iff none contains a dot |
| Advisory.AnnouncedExactly | internal/notify/classify.go:16-59 | exactly the documented advisories give an event, the same one in either subject form |
| Advisory.StreamMessages | internal/notify/classify.go:81-122 | subject, title and body of each stream advisory |
| Advisory.ConsumerMessages | internal/notify/classify.go:124-146 | the same for consumers |
| Advisory.TitlesExact | internal/notify/classify.go:81-146 | two titles are equal iff kind, action and names are |
| Authorize.DomainOf | internal/auth/auth.go:194-200 | the text after the last at-sign |
| Authorize.MatchIdentity | internal/auth/auth.go:134-157 | the scans with early returns find a match iff some email, domain or group matches |
| Authorize.AuthorizeExact | internal/auth/auth.go:134-192 | who is admin, reading or denied, from the entries of the lists themselves |
| Authorize.RoleGrowsWithGroups | internal/auth/auth.go:136-192 | more groups never mean a lower role |
| Authorize.WiderPolicy | internal/auth/auth.go:159-192 | more entries, in any order, lower a role exactly when they are the first admin entries and do not match the user |
| Authorize.ReadersAgreeMostly | internal/auth/mcp_jwt.go:70-90 | both group readers give the same role when no list contains the empty group |
| Authorize.ReadersAgreeExactly | internal/auth/handlers.go:214-236 | for every user the readers lead to the same role on every claim iff no list with the empty group would give the user more than the email does |
| Authorize.EmptyClaimPromotes | internal/auth/mcp_jwt.go:70-90 | a user read-only by email whom one reader makes an administrator on the empty claim and the other does not |
| StreamHook.NextInv | frontend/src/hooks/useOverviewStream.ts:33-115 | every callback, effect run and cleanup keeps the component's invariant |
| StreamHook.AtMostOneInterval | frontend/src/hooks/useOverviewStream.ts:58-114 | at most one polling interval is alive, for the current effect only, and none after cleanup |
| StreamHook.ShownIsCurrent | frontend/src/hooks/useOverviewStream.ts:39-56 | a live status has an overview, and the overview shown is the latest effect's own |
| StreamHook.RequestsAreCurrent | frontend/src/hooks/useOverviewStream.ts:58-70 | every request is made for the effect current at that moment |
| StreamHook.RequestsExact | frontend/src/hooks/useOverviewStream.ts:58-70 | a request is made when polling starts and at each tick, and at no other time |
| StreamHook.ScreenExact | frontend/src/hooks/useOverviewStream.ts:39-105 | what each event of the current effect leaves on the screen |
| StreamHook.EventsPossible | frontend/src/hooks/useOverviewStream.ts:33-115 | which callbacks can come when |
| StreamHook.PollingLasts | frontend/src/hooks/useOverviewStream.ts:72-114 | a refused or closed stream falls back to polling, which lasts until cleanup |
| StreamHook.LateCallbackExact | frontend/src/hooks/useOverviewStream.ts:39-102 | the only late callback of a cancelled effect is an answered request, and it changes the screen iff the request failed, and then only status and error |
| StreamHook.LateErrorHappens | frontend/src/hooks/useOverviewStream.ts:62-66 | a concrete run in which one cluster's error is shown for another |
| StreamHook.ServerErrorUnread | frontend/src/hooks/useOverviewStream.ts:92-102 | the text of the server's error event changes nothing; the current effect shows reconnecting and keeps its overview |
| StreamHook.OverviewStream.RunEffect | frontend/src/hooks/useOverviewStream.ts:33-105 | running the effect in place is its step of the state machine |
| StreamHook.OverviewStream.OnError | frontend/src/hooks/useOverviewStream.ts:92-102 | the error listener in place is its step of the state machine |
| StreamHook.OverviewStream.CleanUp | frontend/src/hooks/useOverviewStream.ts:107-114 | the cleanup in place is its step of the state machine |
| EndToEnd.ScreenFollows | frontend/src/hooks/useOverviewStream.ts:43-102 | over any run in which an effect stays current, whatever happens in between and wherever its connections break off, the refreshes that get through come on the screen one by one, in the order they were read |
| EndToEnd.BetweenRefreshes | frontend/src/hooks/useOverviewStream.ts:43-66 | between them only an answered request of that effect changes the overview |
| EndToEnd.KeptUpIsShown | internal/handler/jsm.go:122-157 | over any such run, for a subscriber that keeps up and has read all it was sent, every version from its start on is shown, in order but for the initial one, save the newest while its broadcast is under way |

## Left out

- The payload, error text and time stamp of a cached snapshot: the protocol names a snapshot by cluster and tick.
- Real time: tickers, deadlines and polling periods are steps that may happen at any moment; token expiry takes the
  current time as a parameter.
- NATS connections, requests and subscriptions: replies are arbitrary values or arbitrary sequences of arrivals.
- `encoding/json`, beyond the names and types of a frame's members, and TOML decoding, HMAC-SHA256, `strings.EqualFold`, `strings.ToUpper` in the tools, `%q`, and which
  characters above U+00FF are printable: parameters, with the few facts used about them stated as preconditions.
- OIDC discovery, JWKS verification and JWT decoding: a session's email and group claim are given as read.
- koanf's layering of defaults and file below the environment, and the startup log with its redaction.
- Memory: a huge list position in an environment key makes the program allocate that many entries; the model's
  lists are unbounded.
- EnvText.LowerChar: other non-ASCII letters are kept as they are, since no key contains them.
- EventStream.FrameExact: a byte order mark at the start of a stream, retry times and event ids are not modelled; the
  server sends none.
- Error messages: failures are told apart by kind, not by text.
- JSON-RPC batches and a cancelled or failing input: `Serve` is modelled on input that ends normally.
- The HTTP transport of MCP, CORS, request logging, static files, webhooks, login redirects and cookies.
- Row labels, raft group names and their alphabetical sorting in the topology view, and the order in which server
  names are sorted; a null overview.
- JavaScript's numbers: counters are natural numbers.
- `lastUpdate` in the stream hook, and React's batching: each callback is one step.
- Rendering, styling, formatting helpers, charts' geometry, the Helm chart and the container image.
