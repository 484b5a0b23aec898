# Kubescope, modelled and proved in Dafny

Kubescope is a Kubernetes dashboard: a Go backend that watches clusters, draws resource
graphs, forwards ports and merges kubeconfig files, with a TypeScript frontend. This project
models its intricate parts and proves what they promise. `dafny verify dfyconfig.toml` checks
everything.

Two forms recur. Code that runs by itself is a class or a method with the source's loops,
proved against a specification function. Code that races is a state machine: each label is one
critical section of the source's locks, or one step of a goroutine between two of them, so a
list of labels is one interleaving and a theorem over all lists is a theorem over all
interleavings. Where a class stands beside a machine its methods are shown to be runs of it:
`StreamLoop` of `StreamFeed`, `InformerObject` of `SharedInformer`, `HubObject` of `Hub`,
`PortForwardObject` of `PortForwards` and `ManagerObject` of `Generations`. `Balancer` and
`Teardown` model different parts of one forwarder, its picks and its shutdown, and are not
linked.

| Area | Files |
|---|---|
| Resource graph | `GraphModel` (data and pure steps), `GraphWalk` (well-formedness), `GraphResolver` (which type a kind means), `GraphReach` and `GraphComplete` (what the walk reaches), `GraphClubs` and `GraphFolds` (conservation, and where folded objects stay joined), `GraphEdges` (what the edges say), `GraphContents` (what nodes and notes say), `GraphBuilder` (the store and builder classes), `GraphGroups` (compound boxes), `GraphLabels`, `ServiceLinks`, `GraphExample` (a cluster the theorems apply to) |
| Status badges | `StatusTally` (backend), `StatusTone` (frontend) |
| Watch fan-out | `StreamFeed` and `StreamLoop` (one subscriber), `RowReplay` and `LiveRows` (the client's rows), `SharedInformer` and `InformerObject` (one shared informer), `Hub` and `HubObject` (its lifecycle) |
| Port-forwards | `PortForwards` and `PortForwardObject` (registry against context switches), `Rotation` and `Balancer` (round-robin), `Teardown` (session teardown) |
| Kubeconfig | `Generations` and `ManagerObject` (generation-keyed caches), `SourceMerge` (first-wins merge) |
| Sign-in | `SessionToken`, `FailLimiter` |
| Shared | `Optional`, `Text`, `Decimal` |

The cluster is a fixed snapshot (`GraphModel.Cluster`): discovery by kind and by group, one
answer per read, one per listing, and one relation for the references that live in specs and
namespace indexes. The HMAC of a session token is an uninterpreted function to dot-free text,
file contents are the context names they define, and clocks, failures and dial results are
parameters of the steps that meet them.

Where the code and its own documentation disagree, the code is modelled:

- `internal/graph/status.go:129` and `web/src/lib/graph-elements.ts:67-68` promise that
  clubbing never hides a failed run. With four or more statuses it can
  (`StatusTone.FailureCanHide`); `StatusTone.ToneIsWorstExactly` says exactly when it does not.
- `internal/stream/portforward_service.go:278-280` promises a retry up to once per backend.
  Other connections can pick in between, and then a live backend may go untried
  (`Balancer.InterleavedPicksCanMiss`). With L live backends the retries reach all of them
  exactly when our positions in the shared sequence of picks meet every remainder of L
  (`Balancer.RetriesReachAllExactly`); alone they always do.
- `internal/server/session.go:34-37` promises a burst of failed sign-ins and then one per
  period. The check and the spending are two critical sections, so more sign-ins than the
  bucket holds tokens can be let through at one instant and all fail, whatever its size and
  period (`FailLimiter.OverlapExceeds`). The bound holds exactly when no recorded failure
  finds less than one token (`FailLimiter.RateBoundExactly`).
- `internal/graph/links.go:257-258` says that a pod matches when its labels satisfy every key
  of the selector. A selected empty value also matches a pod that lacks the label
  (`ServiceLinks.MissingLabelCanMatch`); `ServiceLinks.MatchesExactly` says that this is the
  only difference.

One documented behaviour limits a theorem: `internal/stream/sse.go:143-145` skips an event it
cannot encode. Whether there is one depends on what the row shaper returns, which the model
leaves open. It is the one way to a silent gap in a stream: `StreamFeed.NoSilentGap` is an
equivalence with it, and `StreamFeed.SkippedEventLeavesAGap` is a run with such a gap.

## Model

| member | source | states |
|---|---|---|
| `GraphModel.AddNode` | internal/graph/builder.go:193-221 | Admitting a node never passes the cap of 150 and adds exactly one node, or none when it is known or the cap is reached. |
| `GraphModel.Turn` | internal/graph/builder.go:78-86 | The walk terminates: each turn shrinks the room left under the cap plus the queue length, on every cluster. |
| `GraphModel.Controlled` | internal/graph/builder.go:393-447 | Exactly the listed items whose controlling owner is the expanded object. |
| `GraphWalk.TurnKeeps` | internal/graph/builder.go:78-86 | Every turn keeps breadth-first order and never changes a node already drawn, so the smaller-depth branch of admission never fires. |
| `GraphWalk.WalkKeeps` | internal/graph/builder.go:78-86 | The loop keeps the whole invariant from any good start and ends with an empty queue. |
| `GraphWalk.BuiltIsWellFormed` | internal/graph/builder.go:50-90 | Every finished graph: at most 150 nodes under unique identities, no self-loop, one edge per ordered pair between present nodes, nothing expanded twice, depths within the limit, every other node joined to one exactly one hop nearer the focus. |
| `GraphReach.NeighborsOffer` | internal/graph/builder.go:342-447 | However much is drawn already, the neighbours derived for an object offer exactly what it points at: its owners, the objects it controls and its references. |
| `GraphResolver.NewResolver` | internal/resources/graph.go:107-133 | The loop over discovery builds the three indexes. |
| `GraphResolver.PreferredIsBest` | internal/resources/graph.go:128-148 | A kind, or a plural name, is indexed exactly when a served type has it, and to one whose group no other type of that name beats. |
| `GraphResolver.PreferredGroupIsStable` | internal/resources/graph.go:135-148 | The group a kind or a plural name resolves to does not depend on the order of discovery. |
| `GraphResolver.BuiltInsComeFirst` | internal/resources/graph.go:136-164 | The six built-in groups come in their order and before every other group, and those are ordered alphabetically. |
| `GraphResolver.KindResolvesExactly` | internal/resources/graph.go:166-177 | A name resolves exactly when it is the kind or the plural of a served type, and as a kind whenever it is one. |
| `GraphResolver.GroupReads` | internal/resources/graph.go:186-190 | An apiVersion with a group reads as that group whatever the version, one without as the core group. |
| `GraphResolver.ReferenceResolves` | internal/resources/graph.go:179-195 | A reference resolves within its own group whenever that group serves the kind, and otherwise as the bare kind does. |
| `GraphResolver.ServedOnceHasOneVersion` | internal/resources/graph.go:182-195 | Where discovery serves each kind of a group once and references are resolved against it, no two reachable places share a node identity, as the exactness of the walk asks. |
| `GraphResolver.TwoVersionsDisagree` | internal/resources/graph.go:119-124 | A kind served in two versions resolves to the first by kind and to the last by owner reference. |
| `GraphResolver.IdentityIs` | internal/graph/builder.go:182-188 | Two objects share a node identity exactly when they agree in group, kind, namespace and name, whatever their version, the core group counting as one called core. |
| `GraphComplete.NothingIsInvented` | internal/graph/builder.go:289-328 | On every graph, partial or not, each object drawn lies at the end of a walk of exactly its depth, and is marked missing exactly when a read finds nothing. |
| `GraphComplete.NothingDroppedSilently` | internal/graph/builder.go:289-328 | Unless the node cap or a failed read is noted, everything an expanded object points at is on the graph, as a node or inside an aggregate. |
| `GraphComplete.WalkIsExact` | internal/graph/builder.go:50-90 | Unless the node cap or a failed read is noted, and with no aggregate, a place is drawn if and only if it lies within the effective depth, and its depth is its shortest hop count. |
| `GraphClubs.ClubbingConserves` | internal/graph/builder.go:226-252 | When the node cap is not hit, no object is both drawn and folded, every aggregate counts exactly what it folded, and an expanded controller's listed objects are its drawn children plus its aggregate's count. |
| `GraphFolds.FoldedIsJoined` | internal/graph/builder.go:289-328 | Unless the node cap or a failed read is noted, and past the fan-out bound too, everything an expanded object points at is on the graph exactly once and joined to it: as a node of its own, or through the very stand-in it is folded into. |
| `GraphEdges.EdgesSayWhatWasMet` | internal/graph/builder.go:257-339 | In every finished graph an ordered pair is joined exactly when a neighbour was met that joins it in that direction; edges come in first-met order; each carries the relation of the first neighbour met for its pair, and its label reads back as the mechanisms of all of them, each once, in first-met order. |
| `GraphEdges.EdgesAreRelations` | internal/graph/builder.go:342-447 | Every edge carries a relation that some expanded object takes part in, in its true direction, to the neighbour's own node or to a stand-in: an owner it names, listed objects it controls, or a reference. |
| `GraphEdges.VisitTouchesOne` | internal/graph/builder.go:257-339 | Visiting a neighbour changes no edge but the one it joins, and of that only the label. |
| `GraphEdges.OwnersAreExact` | internal/graph/builder.go:369-383 | Every owner reference of a known type becomes one inbound ownership, marked as the controller when it says so, and nothing else does. |
| `GraphEdges.NeighborsAreRelated` | internal/graph/builder.go:342-447 | Every neighbour derived is such an owner, a child or a club of children that the object controls, or one of its references. |
| `GraphEdges.ClubbedExactly` | internal/graph/builder.go:421-447 | Of the children of one kind those not yet drawn are clubbed, all of them into one, exactly when they are more than 24, or two and more of a series of runs. |
| `GraphContents.NodesShowWhatIsThere` | internal/graph/builder.go:193-252 | In every finished graph a node shows the badge of the object a read returns, or that it is missing; a stand-in counts and tallies one club of an expanded object, noted when it is more than 24 children; and only the focus is marked. |
| `GraphContents.NotesAreTheReasons` | internal/graph/builder.go:155-179 | In every finished graph each note is true, and every failed or short listing of an expanded object's children, every note on its references and every clamped depth is among them. |
| `GraphContents.DepthIsClamped` | internal/graph/builder.go:50-76 | A walk goes as deep as asked, three hops when nothing is asked, never more than six. |
| `GraphContents.StatusesRead` | internal/graph/status.go:135-141 | An aggregate tallies each member's own badge, or its kind when it has none. |
| `GraphExample.ClusterIsOrderly` | internal/graph/types.go:180-196 | The conservation theorem's hypotheses are met by a Job with two pods. |
| `GraphExample.TwoPodsAreConserved` | internal/graph/builder.go:421-447 | On that cluster the Job's two runs are not drawn, and its one stand-in counts both. |
| `GraphExample.OrderlyHasOneVersion` | internal/graph/builder.go:182-188 | Where each reachable kind is served by one type, node identities tell objects apart. |
| `GraphLabels.MergeAppends` | internal/graph/builder.go:272-285 | Merging a mechanism into an edge label appends it unless it is empty or named already. |
| `GraphLabels.LabelNamesEachOnce` | internal/graph/builder.go:257-285 | An edge met any number of times reads back as its mechanisms, each once, in first-met order. |
| `GraphBuilder.Store.Get` | internal/graph/store.go:57-72 | A read answers as the cluster does; an object is fetched at most once, failures excepted. |
| `GraphBuilder.Store.GetStrict` | internal/graph/store.go:76-83 | The focus read goes to the cluster and its object is cached. |
| `GraphBuilder.Store.List` | internal/graph/store.go:88-106 | A kind is listed at most once, its objects are cached, and only the first listing reports truncation. |
| `GraphBuilder.Builder.AddNode` | internal/graph/builder.go:193-221 | The mutable builder admits a node exactly as the pure step does. |
| `GraphBuilder.Builder.AddAggregate` | internal/graph/builder.go:226-252 | One counted stand-in with its badge, and the objects it stands for remembered. |
| `GraphBuilder.Builder.AddEdge` | internal/graph/builder.go:257-269 | A new pair gets an edge that says the relation and mechanism met; a known pair keeps its relation and names one more mechanism if it is new; a self-loop is ignored; every other edge stays. |
| `GraphBuilder.Builder.ChildrenOfKind` | internal/graph/builder.go:393-447 | The loop over listed children splits drawn from undrawn and clubs past the bounds, with the notes the pure step gives. |
| `GraphBuilder.Builder.Visit` | internal/graph/builder.go:289-328 | One neighbour becomes a node, an edge and a queue entry as specified; a failed read becomes a note. |
| `GraphBuilder.Builder.Drain` | internal/graph/builder.go:78-86 | The worklist loop computes the walk. |
| `GraphBuilder.Builder.Build` | internal/graph/builder.go:50-90 | The builder returns the graph the theorems speak about, or fails exactly when the focus cannot be read; it is partial exactly when it carries a note. |
| `GraphGroups.Descendants` | internal/graph/groups.go:81-94 | Exactly the ownership-reachable set, the root first, each once and no nearer one later, also when ownership loops. |
| `GraphGroups.IndexEdges` | internal/graph/groups.go:16-31 | The three indexes hold exactly the ownership and routing edges, routes both ways. |
| `GraphGroups.ControllersLeadToPods` | internal/graph/types.go:180-207 | The kinds that are boxed are exactly those with children, and every chain of children ends in pods. |
| `GraphGroups.Claim` | internal/graph/groups.go:41-64 | A root claims exactly its unboxed descendants and the unboxed Services fronting its pods. |
| `GraphGroups.BoxedStays` | internal/graph/groups.go:70-75 | Boxing a later root leaves every node in the first listed group that claims it. |
| `GraphGroups.GroupMore` | internal/graph/groups.go:66-75 | Every listed group stays real as others form: an unowned, non-aggregate pod controller in its own box with another node. |
| `GraphGroups.BuildGroups` | internal/graph/groups.go:15-76 | Only boxes are written, each node sits in the first group claiming it or in none if none does, every group is real, the groups are those of the nodes in their own box, each once and in walk order, and an eligible root without a box claims nothing else unboxed. |
| `GraphGroups.Graph` | internal/graph/builder.go:50-90 | Walk and grouping together meet both contracts. |
| `ServiceLinks.IndexesAreInverse` | internal/graph/links.go:28-48 | A pod is listed under a Service exactly when the Service is listed under the pod, with the same mark. |
| `ServiceLinks.RecordsMore` | internal/graph/links.go:47-48 | Appending a new pair to both indexes keeps them inverse, with one link per pair. |
| `ServiceLinks.Links.Add` | internal/graph/links.go:38-48 | One pair is recorded in both indexes at most once, under the first mark given. |
| `ServiceLinks.Links.AddSelectorLinks` | internal/graph/links.go:134-176 | Only Services without any pair get pods by selector. |
| `ServiceLinks.MarksAreStated` | internal/graph/links.go:80-126 | A pair is recorded exactly when an endpoint backed by a pod states it, with both names, and its mark is the ready field of the first that does. |
| `ServiceLinks.SelectorsApart` | internal/graph/links.go:134-176 | No Service ends with both endpoint and selector pairs. |
| `ServiceLinks.SelectedOnly` | internal/graph/links.go:168-175 | A selector pair joins a listed Service with a selector and a listed pod it matches. |
| `ServiceLinks.EverySelected` | internal/graph/links.go:134-176 | A listed pod that a Service's selector matches is paired with it, unless that Service has endpoints. |
| `ServiceLinks.MissingLabelCanMatch` | internal/graph/links.go:257-264 | A selected empty value matches a pod without the label. |
| `ServiceLinks.MatchesExactly` | internal/graph/links.go:257-264 | The match agrees with the selector on every pod if and only if no selected value is empty. |
| `ServiceLinks.Links.Build` | internal/graph/links.go:72-130 | The built index is inverse and never mixed; its ready and not-ready pairs are exactly those the slices state, or when they state none those the Endpoints objects state; its selector pairs are exactly those of Services left without endpoints and the listed pods they match. |
| `StatusTally.RankedRanks` | internal/graph/status.go:132-155 | The ranking holds every status with its number of members, most frequent first and names breaking ties, and is the only such list. |
| `StatusTally.CountedCounts` | internal/graph/status.go:134-149 | Counting yields exactly the occurring statuses, each once, with its number of members. |
| `StatusTally.TallyStatuses` | internal/graph/status.go:132-173 | The badge does not depend on the order in which the map yields its groups. |
| `StatusTally.Render` | internal/graph/status.go:157-172 | At most three groups are named and the rest fold into one count. |
| `StatusTone.AggregateTone` | web/src/lib/graph-elements.ts:69-79 | The loop finds the worst tone among the parts of a tally. |
| `StatusTone.PrintedRatioTone` | web/src/lib/graph-elements.ts:54-62 | A printed ready/desired status is good when all that is desired is ready, else a warning when nothing is, else in progress, whatever the numbers. |
| `StatusTone.RatioTone` | web/src/lib/graph-elements.ts:42-62 | The same of any two runs of digits with a slash in between. |
| `StatusTone.NoRatioTakesPodRule` | web/src/lib/graph-elements.ts:54-65 | Any other status is left to the rule for pods. |
| `StatusTone.PodTones` | web/src/lib/workload-status.ts:46-53 | Only a running or ready pod is good; one that is starting is in progress whatever it reports; any other that names a failure or ends like one is a warning. |
| `StatusTone.SeveritiesAreOrdered` | web/src/lib/graph-elements.ts:46-48 | Neutral, good, in progress, warning: each outweighs those before it, and the worse of two tones is the heavier. |
| `StatusTone.TallyReadsBack` | internal/graph/status.go:132-173 | A tally reads back: its tone is the worst of the groups it names and its printed numbers add up to the members. |
| `StatusTone.ToneIsWorstExactly` | web/src/lib/graph-elements.ts:67-79 | The tally's tone is the worst member's exactly when no status beyond the three most frequent is worse than all of those. |
| `StatusTone.FewStatusesHideNothing` | web/src/lib/graph-elements.ts:67-79 | With at most three different statuses the tone is the worst member's. |
| `StatusTone.FailureCanHide` | internal/graph/status.go:128-131 | Seven runs in four statuses whose one failure does not show. |
| `StreamFeed.NoSilentGap` | internal/stream/hub.go:614-643 | In every interleaving with no resync owed, the event frames since the last resync frame, the one being written and the queue are exactly the notifications delivered since that frame's drain, in order, if and only if none of them failed to encode. |
| `StreamFeed.LossIsOwned` | internal/stream/hub.go:611-643 | Every dropped or drained notification precedes the last resync frame's drain, or a resync is still owed, or the stream is over. |
| `StreamFeed.NothingStaleAfterResync` | internal/stream/sse.go:96-105 | In every state the frames after a resync frame are newer than its drain, in order, without repeats. |
| `StreamFeed.EveryDeliveryIsAccountedFor` | internal/stream/hub.go:638-642 | Each notification is written or skipped, in hand, queued or lost, exactly once, and the counts add up. |
| `StreamFeed.SignalsReachTheClient` | internal/stream/hub.go:390-415 | Whatever happens after a status change or a resync was broadcast, or a loss flagged, its frame is written, or is due, or the stream is over. |
| `StreamFeed.NothingUnasked` | internal/stream/sse.go:88-105 | No more status or resync frames are written than there was something to tell. |
| `StreamFeed.SkippedEventLeavesAGap` | internal/stream/sse.go:143-150 | A run whose one notification could not be encoded: nothing is owed, nothing written, nothing on its way. |
| `StreamLoop.Subscriber.Deliver` | internal/stream/hub.go:638-642 | Delivery never blocks: it enqueues, hands over to a waiting reader of an unbuffered channel, or drops and flags; a run of the feed. |
| `StreamLoop.DrainMirrors` | internal/stream/sse.go:133-141 | Emptying the buffer is a run of the feed's drain. |
| `StreamLoop.Subscriber.SurfaceResync` | internal/stream/sse.go:96-105 | A due resync discards the backlog and ends with its frame and nothing owed; otherwise nothing is sent. A run of the feed. |
| `StreamLoop.Subscriber.Wake` | internal/stream/sse.go:106-126 | What each way of waking writes, consumes and ends; with nothing to receive it does nothing. A run of the feed. |
| `StreamLoop.Subscriber.RunSse` | internal/stream/sse.go:79-128 | Over any turns the loop sends exactly what they call for, in order, and is a run of the feed in which every notification that arrives while it waits is delivered; it stops early only when the stream is over or its select has nothing to receive. |
| `StreamLoop.SignalsAreServed` | internal/stream/sse.go:88-105 | A status change or a recovery announced in the wait of any turn is written in a later turn, or is still pending, or the stream is over. |
| `RowReplay.RowsFollow` | web/src/hooks/use-stream.ts:109-126 | Row keys stay unique and the list holds what the log says, for any log. |
| `RowReplay.UpsertKeepsPlace` | web/src/hooks/use-stream.ts:113-120 | A row of a known key takes the old one's place and no other row moves; a new one goes last. |
| `RowReplay.RemoveKeepsOrder` | web/src/hooks/use-stream.ts:122-126 | Removing a key leaves the other rows in their order. |
| `RowReplay.ReplayIsIdempotent` | web/src/hooks/use-stream.ts:113-126 | Applying a stretch of the log a second time changes nothing. |
| `RowReplay.OverlappingReplayConverges` | web/src/hooks/use-stream.ts:109-126 | From a snapshot at k any suffix starting at or before k ends with the rows of the whole log. |
| `RowReplay.LateReplayDiverges` | web/src/hooks/use-stream.ts:128-133 | Starting after the snapshot can lose a row. |
| `RowReplay.KeysTellObjectsApart` | web/src/hooks/use-stream.ts:109-111 | Two rows share a key exactly when they name the same object, a missing namespace counting as the empty one. |
| `LiveRows.ClientCatchesUp` | web/src/hooks/use-stream.ts:182-190 | End to end: with nothing owed and nothing unencodable, a client with a snapshot taken after the last resync frame's drain ends with exactly the rows of the whole log. |
| `SharedInformer.RunKeeps` | internal/stream/hub.go:281-302 | Every interleaving keeps probers, stop channels, registrations, running informers and transitions consistent with the fields. |
| `SharedInformer.OneProberPerOutage` | internal/stream/hub.go:443-543 | While not stopped, unreachable equals proberOn, and exactly one prober is in its loop or starting when it is set, none otherwise. |
| `SharedInformer.TransitionsAlternate` | internal/stream/hub.go:443-543 | Unreachable and connected strictly alternate, beginning with unreachable. |
| `SharedInformer.OneLiveInformer` | internal/stream/hub.go:565-596 | No stop channel is closed twice, only the current informer runs untold to stop, and every subscriber is registered on it across rebuilds. |
| `SharedInformer.ClosedAreThePast` | internal/stream/hub.go:565-596 | The stop channels closed are those of earlier informers, and the current one's once stopped, so a stop or a rebuild always closes an open one. |
| `SharedInformer.AnOutageEnds` | internal/stream/hub.go:443-543 | A run in which an outage reported twice is told once, probed, and over once the informer has been rebuilt with its subscriber on the new one. |
| `SharedInformer.StopEndsTheProber` | internal/stream/hub.go:475-482 | In every reachable state of a stopped informer, across rebuilds, a waiting prober can see the stop, one that has seen it can only leave, and three steps of the prober end it wherever it stands. |
| `SharedInformer.BackoffIsCappedDoubling` | internal/stream/hub.go:515-520 | In every reachable state a prober's pause is the base doubled once for each of its failed attempts, capped. |
| `InformerObject.SharedGvrInformer.MarkUnreachable` | internal/stream/hub.go:443-463 | One critical section; the caller starts a prober exactly on the transition, and while unreachable only a new reason replaces the cached one. |
| `InformerObject.SharedGvrInformer.AddSubscriber` | internal/stream/hub.go:350-375 | A subscriber is registered on the current informer and learns the cached reason exactly during an outage. |
| `InformerObject.SharedGvrInformer.RebuildInformer` | internal/stream/hub.go:565-587 | The loop moves every registration to the new informer, unless already stopped. |
| `InformerObject.SharedGvrInformer.RunProber` | internal/stream/hub.go:472-522 | The prober's loop is a run of the machine and leaves at its first attempt that does not fail, with the outage cleared unless stopped; an answer on another client rebuilds the informer and moves every subscriber to it; its pause is the one its failed attempts have earned. |
| `InformerObject.SharedGvrInformer.RemoveSubscriber` | internal/stream/hub.go:377-388 | The registration removed belongs to the informer it is removed from. |
| `Hub.StepInStep` | internal/stream/hub.go:153-183 | Every critical section keeps listed, referenced and not stopped together, but for the informer the lock's holder is bringing up or down. |
| `Hub.LifecycleAgrees` | internal/stream/hub.go:153-183 | Whenever the hub lock is free: listed if and only if referenced if and only if not stopped, and the count is the unreleased subscriptions. |
| `Hub.OneLivePerKey` | internal/stream/hub.go:159-175 | At most one live informer per key, whoever holds the lock. |
| `Hub.OpenSubscriptionIsServed` | internal/stream/hub.go:350-388 | An open subscription is registered on the running informer of its key, across every rebuild. |
| `Hub.ForgettingFindsItsOwn` | internal/stream/hub.go:262-275 | The last release always finds its own informer still listed. |
| `HubObject.WatchHub.Subscribe` | internal/stream/hub.go:153-183 | Creates or shares the key's informer, registers one new subscriber and counts it; nothing changes when a needed client cannot be built. |
| `HubObject.SubscribeIsARun` | internal/stream/hub.go:153-183 | What a subscription does to the hub is a run of the machine, from the lookup to the launch. |
| `HubObject.WatchHub.Close` | internal/stream/hub.go:262-275 | Releases one subscriber; the last one stops the informer and forgets it. |
| `HubObject.CloseIsARun` | internal/stream/hub.go:262-275 | What a close does to the hub is a run of the machine, with the teardown when it is the last. |
| `PortForwards.StepOnActive` | internal/stream/portforward.go:207-221 | Every step keeps a rechecked forward on the active context or due to be reaped by a switch still to be observed. |
| `PortForwards.NoForwardOutlivesItsContext` | internal/stream/portforward.go:203-233 | Once all starts and switches have returned, in any order of observers, every registered forward is on the active context. |
| `PortForwards.EveryForwardHasOneFate` | internal/stream/portforward.go:285-362 | At every moment a forward is in its start's hands, registered, or was taken out by exactly one party that stops it once, unless it died. |
| `PortForwards.ObserverTakesTheOthers` | internal/stream/portforward.go:335-348 | A switch's observer takes out a registered forward exactly when it is not on the context switched to. |
| `PortForwards.DeadForwardsAreDropped` | internal/stream/portforward.go:227-233 | A forward that was seen to die is registered no more. |
| `PortForwards.DeathIsSeen` | internal/stream/portforward.go:227-233 | In every reachable state a registered forward can die, and then its watcher can see so and takes it out. |
| `PortForwards.StartsReturn` | internal/stream/portforward.go:173-234 | Every start returns within five steps of its own, each nearer its return, and nobody else's step moves it. |
| `PortForwards.StopsCount` | internal/stream/portforward.go:285-362 | Every stop of a forward counts once, and settles what was owed. |
| `PortForwards.SwitchCanMissAForward` | internal/stream/portforward.go:211-215 | A switch while establishing is observed too early to reap the forward: only the recheck can. |
| `PortForwardObject.PortForwardManager.CloseOthers` | internal/stream/portforward.go:335-348 | Exactly the forwards off the current context go, each stopped once; those on it stay as they are. |
| `PortForwardObject.PortForwardManager.CloseAll` | internal/stream/portforward.go:351-362 | Every forward goes, each stopped once. |
| `PortForwardObject.PortForwardManager.Stop` | internal/stream/portforward.go:296-308 | Stops a forward exactly when it is registered. |
| `PortForwardObject.PortForwardManager.Start` | internal/stream/portforward.go:173-234 | A start keeps its forward exactly when the context it was established on is still active at the end, and otherwise stops it and leaves the registry as it was. |
| `PortForwardObject.CloseOthersIsObserve` | internal/stream/portforward.go:335-348 | Closing the others is the observer of a switch, run in the machine. |
| `PortForwardObject.TakingOutIsARun` | internal/stream/portforward.go:296-362 | So are a stop and the shutdown: forwards taken out, then each stopped. |
| `PortForwardObject.StartKeptIsARun` | internal/stream/portforward.go:173-234 | A start that keeps its forward is a run of the machine. |
| `PortForwardObject.StartMovedIsARun` | internal/stream/portforward.go:173-234 | So is one that finds another context active, or none. |
| `Rotation.TurnsByOne` | internal/stream/portforward_service.go:319-334 | Taking the first live backend and moving past it turns the cyclic order by one. |
| `Rotation.NoneLive` | internal/stream/portforward_service.go:317-334 | The cyclic order is empty exactly when every backend is dead. |
| `Rotation.EveryLiveBackendOnce` | internal/stream/portforward_service.go:317-334 | With L live backends any L picks in a row return each live one exactly once, in cyclic order. |
| `Balancer.ServiceForwarder.PickNext` | internal/stream/portforward_service.go:319-334 | The cursor loop returns the first live backend in cyclic order, none exactly when none is live. |
| `Balancer.ServiceForwarder.BackendCount` | internal/stream/portforward_service.go:224-232 | Counts the live backends. |
| `Balancer.ServiceForwarder.BackendGone` | internal/stream/portforward_service.go:270-276 | The session ends exactly when its last backend goes. |
| `Balancer.ServiceForwarder.Handle` | internal/stream/portforward_service.go:288-315 | Whatever others pick in between, a connection goes to the first of its own picks that accepts, and gives up after as many picks as backends. |
| `Balancer.RetriesReachAllExactly` | internal/stream/portforward_service.go:278-280 | The backends tried are all the live ones if and only if our positions of the shared picks meet every remainder of the number of live backends. |
| `Balancer.AloneReachesAll` | internal/stream/portforward_service.go:278-280 | With nobody else picking, as many attempts as backends reach every live one. |
| `Balancer.InterleavedPicksCanMiss` | internal/stream/portforward_service.go:296-315 | Another connection taking every second pick of two leaves one untried. |
| `Balancer.EstablishBackends` | internal/stream/portforward_service.go:135-175 | All or nothing: the first failure in backend order is reported, and a forward is stopped as often as there are legs up with it. |
| `Balancer.ForwardsStopAll` | internal/stream/portforward_service.go:166-184 | After a failure a forward is stopped exactly when some leg is up with it, as often as legs are. |
| `Balancer.AcceptLoop` | internal/stream/portforward_service.go:243-265 | Ends when the listener is closed, gives up at the first eleventh failure in a row, and pauses the base doubled for each failure in a row, capped, in closed form. |
| `Balancer.AcceptDelayDoubles` | internal/stream/portforward_service.go:256-259 | The pause after n failures in a row is the base times two to the n, or the cap when that is less. |
| `Teardown.RunKeeps` | internal/stream/portforward_service.go:201-276 | Every interleaving keeps each open connection with a handler and within reach of the teardown, and the last watcher to store seeing no live backend, though its scan is not atomic. |
| `Teardown.NothingIsLeft` | internal/stream/portforward_service.go:199-220 | Once stop and all handlers have finished, every accepted and dialled connection is closed, none tracked, every backend stopped. |
| `Teardown.OpenUntilClosed` | internal/stream/portforward_service.go:288-346 | The connections open are exactly those accepted or dialled and not closed since. |
| `Teardown.HandlersFinish` | internal/stream/portforward_service.go:288-315 | Each of a handler's own steps but a failed dial brings it nearer its end, and nobody else's moves it. |
| `Teardown.TheTeardownEnds` | internal/stream/portforward_service.go:199-220 | Each of the teardown's steps leaves fewer connections to close or backends to stop, and nobody else's moves it. |
| `Teardown.WatchersGoOn` | internal/stream/portforward_service.go:267-276 | In every reachable state a watcher stores once its backend has exited, looks at every backend and then finishes, one that has seen none live only once the session is down; and then every backend is dead. |
| `Teardown.NoSpliceOutlivesStop` | internal/stream/portforward_service.go:305-314 | After the teardown has closed what it took over, no splicing handler has an open connection to wait on. |
| `Teardown.LatecomersAreTurnedAway` | internal/stream/portforward_service.go:336-346 | However the session goes on after the takeover, a connection not served by then never is, and none starts splicing. |
| `Teardown.LastBackendEndsTheSession` | internal/stream/portforward_service.go:267-276 | When every backend is dead and every watcher done, the session is down. |
| `Generations.StepGets` | internal/resources/discovery.go:87-123 | Every critical section keeps a Get's key, client and catalogue at least as new as its beginning. |
| `Generations.NoStaleGeneration` | internal/resources/discovery.go:87-123 | A Get never returns a catalogue fetched with a client from before it began, nor of another context. |
| `Generations.CachesKeepUp` | internal/kube/manager.go:266-314 | Every cached client is of the current generation and registry, every catalogue at least as new as the generation it is filed under. |
| `Generations.NoSourceTwice` | internal/kube/manager.go:514-525 | However many adds race, no path is registered twice. |
| `Generations.RegistryIsWhatWasAdded` | internal/kube/manager.go:493-560 | The generation counts the mutations, and the current registry holds exactly the paths that were there or were added and have not been removed since. |
| `Generations.WithoutKeepsOrder` | internal/kube/manager.go:543-560 | Removing leaves the other sources in their order. |
| `Generations.EvictedWhenStale` | internal/kube/manager.go:404-410 | A look at a context's endpoint keeps its cached client exactly when that is its endpoint, and touches no other. |
| `ManagerObject.Manager.AddSource` | internal/kube/manager.go:493-525 | Refusals come in the documented order and change nothing; the path is looked up again when committing, after whatever another mutation did meanwhile; success is the machine's add. |
| `ManagerObject.Manager.RemoveSource` | internal/kube/manager.go:543-560 | Exactly the sources of that identifier are gone, as the machine's removal, or nothing changes. |
| `ManagerObject.Manager.ClientsFor` | internal/kube/manager.go:266-314 | Only a successful build is cached, and what is returned is of the current registry. |
| `ManagerObject.Manager.ResolveActive` | internal/kube/manager.go:691-710 | The override while it is defined, else the defined current context, else one of two errors, told apart by whether there are contexts. |
| `ManagerObject.Manager.SwitchContext` | internal/kube/manager.go:163-187 | Only a context the kubeconfig defines becomes active, and then the observer is told once. |
| `ManagerObject.Manager.EvictStaleClient` | internal/kube/manager.go:404-410 | Drops a cached client exactly when its endpoint differs, and no other. |
| `ManagerObject.DiscoveryService.LookIsAStep` | internal/resources/discovery.go:97-104 | The look into the cache is a step of the machine from any state. |
| `ManagerObject.DiscoveryService.ObtainClient` | internal/resources/discovery.go:106-112 | So is getting a client, which is of the generation current then. |
| `ManagerObject.DiscoveryService.File` | internal/resources/discovery.go:119-121 | So is writing the catalogue into the cache. |
| `ManagerObject.DiscoveryService.Get` | internal/resources/discovery.go:87-123 | What is returned is of the current generation and cached under it, failures are not cached, and the call is a run of the machine with any other calls under way. |
| `SourceMerge.AttributionAgrees` | internal/kube/sources.go:139-160 | A defined name is won by exactly the first candidate that defines it, shadowed in every later one, and is what a first-wins merge keeps. |
| `SourceMerge.UndefinedIsNowhere` | internal/kube/sources.go:139-160 | A name no usable file defines is neither won, shadowed nor kept. |
| `SourceMerge.ExpansionAgrees` | internal/kube/sources.go:112-167 | The same for the candidates of any registered sources. |
| `SourceMerge.CandidatesInPrecedence` | internal/kube/sources.go:112-137 | Stated on the sources and the disk: the candidates are the usable files, one each with its path and contexts, by source and within a directory by entry, and nothing else. |
| `SourceMerge.FirstSourceWins` | internal/kube/sources.go:139-167 | A context name is kept from the file of the first source, and within it the first entry, that defines it; that file has won it and every other that defines it has it shadowed. |
| `SourceMerge.StatusSays` | internal/kube/sources.go:116-137 | A source is missing exactly when it cannot be looked at, unparseable exactly when a file does not parse, and a directory is in order exactly when it has a usable file. |
| `SourceMerge.ListingInOrder` | internal/kube/sources.go:173-243 | A directory is listed with one line for each entry that shows, in order, saying what its content is. |
| `SourceMerge.WalkKeepsOrder` | internal/kube/sources.go:145-154 | Names are won and shadowed in the order the file lists them. |
| `SourceMerge.SourceWonIs` | internal/kube/sources.go:155-160 | What a source has won or has had shadowed is what its files have, in their order. |
| `SourceMerge.Classify` | internal/kube/sources.go:112-137 | Each source's status and the usable files, in precedence order as the sources and the disk have it. |
| `SourceMerge.Attribute` | internal/kube/sources.go:139-166 | The walk writes each file's and each source's won and shadowed names, and lists the files to merge in order. |
| `SourceMerge.ExpandSources` | internal/kube/sources.go:112-167 | The listing carries the attribution of every candidate, and the files are the usable files of the sources, in precedence order. |
| `SessionToken.ValidExactly` | internal/server/session.go:99-119 | A token is accepted with an expiry exactly when it is that expiry's one rendering and the expiry lies ahead by at most the lifetime and a minute. |
| `SessionToken.OneSpelling` | internal/server/session.go:99-110 | Every expiry has one accepted spelling. |
| `SessionToken.MintedUntilExpiry` | internal/server/session.go:93-119 | A minted token is accepted until it expires and never after. |
| `SessionToken.Session` | internal/server/session.go:121-131 | The first valid cookie counts, whatever stray ones precede it. |
| `Decimal.ValueOfPrint` | internal/server/session.go:96 | A printed number reads back. |
| `Decimal.PrintOfValue` | internal/server/session.go:108 | A numeral without leading zeros is the only one of its value. |
| `FailLimiter.RateBoundExactly` | internal/server/session.go:34-37 | For any checks and failures of any sign-ins in flight: every stretch of time records at most a full bucket of failures plus one for each token that comes back in it, if and only if no failure finds less than one token. |
| `FailLimiter.FailuresAreBounded` | internal/server/session.go:34-37 | Sign-ins that do not overlap keep within that bound. |
| `FailLimiter.WaitingSuffices` | internal/server/session.go:267-276 | Waiting as long as a refusal says makes the next check pass. |
| `FailLimiter.RefillHolds` | internal/server/session.go:259-265 | Tokens stay between empty and full and grow no faster than one per period. |
| `FailLimiter.OverlapExceeds` | internal/server/session.go:217-232 | For every size and period of the bucket: one request more than it holds tokens, each checked once and then failing once at the same instant, is a run of the handler that exceeds the bound. |
| `FailLimiter.Limiter.Peek` | internal/server/session.go:268-276 | Admits exactly with a whole token, else tells a wait that suffices. |
| `FailLimiter.Limiter.TrySignIn` | internal/server/session.go:217-241 | A sign-in is one check and, when admitted and wrong, one recorded failure later, as the bucket's two events, whatever other sign-ins do in between; a refused or a right one spends nothing. |
| `Text.SplitOfJoin` | internal/server/session.go:103 | Splitting what was joined gives the parts back. |
| `Text.SplitAppend` | internal/graph/builder.go:272-285 | Appending one more part to a label appends one part to its split. |

## Left out

- Kubernetes clients, SPDY tunnels, WebSockets, HTTP handlers, JSON and YAML, the filesystem and cryptography; their results are parameters of the steps that meet them.
- React components, styling, search, quotas, metrics, column extractors and error-code mapping: each a single function with no state shared with the rest.
- Node identities are structured values instead of concatenated strings, so a clash between a clubbed node's text and an object's cannot occur in the model.
- The graph's references from specs and namespace indexes (volumes, autoscalers, Service and Ingress routes) enter the walk as one relation of the snapshot; `ServiceLinks` models the index behind the Service routes on its own.
- Sorting inside the link indexes and the forward list, and the ordering of listed items: the model takes lists as they come.
- What a failed or cut-off listing leaves out, and endpoints whose pod cannot be read, are noted by the source; the theorems count them among neither what an object points at nor what is reached.
- GraphComplete.NothingDroppedSilently: assumes the fan-out clubs a Service makes of its pods name real pods, and treats kinds discovery cannot resolve as outside the relation, since the source skips them without a note.
- GraphComplete.WalkIsExact: assumes one served version per kind and name among the reachable objects, as node identities leave the version out; `GraphResolver.ServedOnceHasOneVersion` derives it from discovery.
- GraphClubs.ClubbingConserves: assumes a consistent snapshot in which names differ within a listing and objects have one controller; of the objects reachable from the focus, that none is owned by what it controls, none is readable at two reachable places (in two API versions, say), each kind name is served by one type, and no Service collapses its pods, as that collapse counts pods already drawn. Child kinds are namespaced.
- GraphFolds.FoldedIsJoined: assumes the same of the cluster.
- GraphEdges.EdgesSayWhatWasMet: that a label reads back assumes that no reference's mechanism holds the separator; the source's are fixed words.
- GraphContents.NodesShowWhatIsThere: assumes one consistent snapshot, in which listings and reads agree, and says nothing of how a badge is computed from an object.
- GraphContents.NotesAreTheReasons: assumes the same.
- GraphBuilder.Store.List: the cluster is one consistent snapshot, so a listing and a read of the same object agree.
- StreamLoop.Subscriber.RunSse: notifications arrive while the loop is in its select; `StreamFeed` interleaves them with every other step.
- A subscriber's last status equalling the informer's state: the broadcast happens after the lock is released, so a late frame can overtake a newer one. Statuses in the feed carry no content.
- Failures of registering an event handler on an informer, and the cluster-wide list behind it.
- InformerObject.SharedGvrInformer.RunProber: nobody else takes the informer's lock between its attempts; `SharedInformer` interleaves them.
- Exec sessions and their teardown, and the source generation a forward was started under: a start rechecks only the context name.
- PortForwards.NoForwardOutlivesItsContext: the active context changes only through switches; an edit of the kubeconfig's own current context is not observed by the source either.
- LiveRows.ClientCatchesUp: the client's snapshot is one point of the log; a refetch that lands over newer patches is not modelled.
- Teardown.LastBackendEndsTheSession: says nothing about when a dead backend is noticed, which the source leaves to the forward's own exit.
- ManagerObject.DiscoveryService.Get: as one call nothing else happens between its critical sections; each of them is a step from any state, and `Generations` interleaves them.
- Generations.NoStaleGeneration: directory contents that change without a registry mutation do not move the generation, in the source as in the model.
- The numbers of a ready/desired status are exact integers instead of floating point, and the token bucket's are reals: rounding is not modelled.
- StatusTone.ToneIsWorstExactly: statuses hold no separator and do not start with a space; others are not read back whole.
- FailLimiter.RateBoundExactly: the clock never goes back.
- Balancer.RetriesReachAllExactly: no backend dies while the connection retries.
