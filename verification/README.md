# Verified model of the rustkube runtime

A Dafny model of the event-driven runtime of a Kubernetes control plane, and of the algorithmic
kernels beside it, with proofs of what they promise.

- **The LIST/WATCH cache.** `View` is what the indexed store means: objects, local writes overlaid on
  them, and a bounded history of observations. `Informer` is the store itself, a class whose methods
  keep name, uid and inverse-index maps and are proved to be the operations of `View`. `History` runs
  any sequence of operations; `Informers` is the feed between loop and store and what its subscribers are
  told; `Reflector` runs the whole loop against a server with an ordered history. `Semantics` is a document
  without bookkeeping, `Observed` what the loop remembers, and `Subscribers` follows copies of the store over
  whole runs. `Objects`, `Selector` and `Membership` are the computed indexes and the lookups through them;
  `Frames` is the framing of the watch stream.
- **The work queue.** `WorkQueue` gives the queue's meaning, proves its promises over every run of
  locked sections, and proves the class with the ready list, entry map and deadline index to be it.
- **Leadership.** `Lease` has the write gate, the renewal loop and the observation of a foreign
  record; `Election` interleaves any number of replicas over one compare-and-swap record.
- **Compaction.** `Compactor` interleaves any number of apiservers racing on one versioned key, with a
  clock and the reads of clients.
- **Cron.** `Calendar` is the Gregorian calendar, `CronText` the fields' text, `Cron` schedules,
  their validation, the next-start search and the missed-start scan.
- **Transformations.** `Codec` is JSON to messages and back with inline embeds; `Apply` (over `Paths`)
  is server-side apply; `Escalation` is rule coverage; `Quantity` is canonical decimals.

`Json`, `Text`, `Division` and `Wrappers` hold the shared values and facts.

Time is a natural number, an asynchronous call is a pair of steps between which anything may happen,
and whatever the source reads from outside (requests, replies, clocks, losses) is an argument or a step.
Classes stand for what the source updates in place; each of their methods is proved against a function of
the old state. Check everything with `dafny verify dfyconfig.toml`.

## What the proofs found

- **An overlay can get stuck.** A snapshot that was requested before a local write completed, but that
  contains a later write of the same object, keeps the older write on top of the newer object even when
  everything has been delivered. `Reflector.StuckOverlay` is such a run; `Reflector.BenignIsFresh` and
  `Reflector.FreshRuns` say exactly which steps lead there, and everything else converges. The
  comment at `pkg/apimachinery/src/informer.rs:341-342` promises more than the code does here.
- **Subscribers can miss a change.** The loop compares an event with the last one of the same name, the
  store may meanwhile show another object under it: a replacement this process created. An update of the
  old object's revision only is then taken for bookkeeping while it puts the old object back. `Subscribers.MissedRun`
  is such a run; `Subscribers.CopiesFollowIff` says that nothing else is ever missed.
- **A member named as an embed's own field is lost silently.** It is looked up as a field, so it is not
  reported unknown, and is then overwritten by the embed. `Codec.RoundTrip` has the exact condition for
  coming back whole, and `Codec.LostUnreported` says that such a member never changes the encoding;
  `Codec.EmbedNamedDirectlyIsLost` is one object.
- **Pruning works for exactly some keys.** A pointer is text: slashes in a key and an empty first key
  lead it elsewhere. `Paths.PrunedIffKeyed` gives the condition for every path, `Apply.OrphanedIff` what
  happens otherwise, and `Apply.EmptyKeyIsOrphaned` a run. The apply theorems over runs ask for that
  condition and for intents that neither set the managed fields nor prune them when dropped, and for
  nothing else.
- **Conflicts are seen through pointers too.** A value under a key with a slash, such as the label
  `app.kubernetes.io/name`, is read as absent on both sides and overwritten without force
  (`Apply.OverwrittenIffIllegible`). A scalar in place of another manager's object, and dropping a leaf
  that is owned twice, remove fields still claimed (`Apply.ScalarReplacesMembers`, `Apply.CoOwnedRun`);
  `Apply.AppliedFieldIff` says for every intent exactly which fields are there afterwards.
- **`validate` rejects some schedules that would fire.** `Cron.AcceptedFires` says exactly which: both
  day fields restricted, and only one of them able to fire.
- **Coverage is sound for exactly some held rules.** The literal resource `*/*` covers the pattern `a/*`
  and not the subresources that stands for (`Escalation.TwoStarsLeaveOut`). `Escalation.CoverageIff`: it is
  sound, and composes, if and only if what is held for `*/*` is held for `*` as well. No other hypothesis
  is needed, not even that requests be free of wildcards.
- **The rejection of a schedule is otherwise exact, and the error after the search in `next_start` is
  unreachable** (`Cron.NextStart`).

## Model

| member | source | states |
|---|---|---|
| Selector.AnchorsComplete | pkg/apimachinery/src/informer.rs:216-237 | if the exact matcher accepts, the anchors are empty or one is a pair the labels carry |
| Selector.ExpressionAnchorsComplete | pkg/apimachinery/src/informer.rs:222-235 | the same of the first usable `In` clause of a list of expressions |
| Objects.SelectorIsRouted | pkg/apimachinery/src/informer.rs:188-198 | an object whose selector matches is filed under an index that a lookup of the labels reads |
| Objects.SelectingRoutes | pkg/apimachinery/src/informer.rs:53-199 | selecting indexes of an object carry its own namespace, so a lookup stays in the namespace |
| Membership.PodMembership | pkg/controller-manager/src/owned.rs:191-220 | for a changed Pod, reading candidates through the index and then matching exactly finds the selectors that testing every object finds, of the Pod as it was and as it is, and none before the first snapshot |
| Membership.SelectedPods | pkg/controller-manager/src/owned.rs:222-248 | the lookup the other way round: reading Pods through one clause of the selector, or through the namespace, and then matching in full finds exactly the Pods that testing every Pod finds; it fails before the first snapshot, and an object without a selector picks none |
| Membership.ChosenIsAnchored | pkg/controller-manager/src/owned.rs:229-238 | every Pod a selector with anchors matches is filed under one of the anchors it reads |
| Membership.Gather | pkg/controller-manager/src/owned.rs:194-209 | the candidates are exactly the objects filed under the fallback or under some label the Pod carries |
| Membership.MembersAre | pkg/controller-manager/src/owned.rs:210-218 | filtering the candidates by the exact match equals filtering all objects by namespace and match |
| Membership.RunKeepsDescribed | pkg/apimachinery/src/informer.rs:457-501 | over any run, a store given objects with the indexes computed from them keeps only such objects, so the lookup's hypothesis holds |
| View.PutItemKeepsInv | pkg/apimachinery/src/informer.rs:473-490 | after a put every name has one object and every object sits under its own key |
| View.DeltaWakes | pkg/apimachinery/src/informer.rs:495-501 | an index whose selection a delta changes is in its `affected` |
| View.BatchWakes | pkg/apimachinery/src/informer.rs:309-320 | an index whose selection a batch of deltas changes is in the `affected` of one of them |
| View.LoadKeepsInv | pkg/apimachinery/src/informer.rs:281-288 | loading any list of items keeps one object per name |
| View.ResetKeepsInv | pkg/apimachinery/src/informer.rs:274-325 | a reset keeps: one object per name, overlays shown, acknowledgement times exactly for overlays, bounded history |
| View.DropBeforeKeepsInv | pkg/apimachinery/src/informer.rs:354-360 | dropping the overlays older than a LIST keeps the same |
| View.AcknowledgeKeepsInv | pkg/apimachinery/src/informer.rs:371-396 | so does an acknowledged write |
| View.ApplyKeepsInv | pkg/apimachinery/src/informer.rs:398-426 | so does any watch event, accepted, ignored or refused |
| View.RebuiltIsReset | pkg/apimachinery/src/informer.rs:295-308 | putting the unconfirmed overlays one by one onto the loaded snapshot, in any order, gives the snapshot overridden by them |
| View.PutOverrides | pkg/apimachinery/src/informer.rs:473-490 | a put of an overlay is an override: it displaces the object of its name and no other |
| Informer.Store.constructor | pkg/apimachinery/src/informer.rs:247-260 | starts unsynchronized and empty, with all maps agreeing |
| Informer.Store.Remove | pkg/apimachinery/src/informer.rs:457-472 | removes an object from the object, name, uid and inverse-index maps; no empty bucket stays, and a complete uid map stays complete |
| Informer.Store.Displace | pkg/apimachinery/src/informer.rs:475-482 | removes whatever object has the name, and its overlay if the uid differs |
| Informer.Store.Insert | pkg/apimachinery/src/informer.rs:483-488 | files a new object under its key, name, uid and every computed index |
| Informer.Store.Put | pkg/apimachinery/src/informer.rs:473-490 | is the abstract put, keeps the maps agreeing, and returns a delta that explains the change; the uid map is the old one without the displaced uid plus the new, and stays complete unless an object of another name has the uid |
| Informer.Store.EvictHistory | pkg/apimachinery/src/informer.rs:407-410 | the history keeps its last 4096 entries and notes when it last lost one |
| Informer.Store.LoadSnapshot | pkg/apimachinery/src/informer.rs:281-292 | is the abstract load of a snapshot, with a complete uid map if no two names share a uid, or fails on the first item without a key |
| Informer.Store.Reapply | pkg/apimachinery/src/informer.rs:295-308 | puts back exactly the overlays the snapshot does not confirm |
| Informer.Store.Rebuild | pkg/apimachinery/src/informer.rs:278-308 | builds the replacement store beside the old one, which stays as it is on failure |
| Informer.Store.Reset | pkg/apimachinery/src/informer.rs:274-325 | is the abstract reset; the deltas replayed on the old map give the new one and wake every changed index; a malformed list changes nothing; every object is then found by its uid unless one is shared between names |
| Informer.Store.ResetStartedAt | pkg/apimachinery/src/informer.rs:343-362 | the same after dropping the overlays acknowledged before the LIST started |
| Informer.Store.ResetAfterWrites | pkg/apimachinery/src/informer.rs:329-339 | the same after dropping all overlays |
| Informer.Store.AcknowledgeSince | pkg/apimachinery/src/informer.rs:371-396 | is the abstract acknowledgement: recorded with a delta that explains the change, ignored if observed, refused (and reads closed) if the history since the request is gone |
| Informer.Store.Apply | pkg/apimachinery/src/informer.rs:398-426 | is the abstract watch event: a delta explains the change, and an ignored or refused event leaves the objects |
| Informer.Store.Settle | pkg/apimachinery/src/informer.rs:406-417 | records the observation and drops the overlay it confirms; says whether an unconfirmed one hides the event |
| Informer.Store.Unavailable | pkg/apimachinery/src/informer.rs:262-264 | closes reads and nothing else |
| Informer.Store.Resumed | pkg/apimachinery/src/informer.rs:265-267 | reopens reads exactly if a snapshot was ever taken and not invalidated |
| Informer.Store.Get | pkg/apimachinery/src/informer.rs:428-431 | fails exactly unless synced; finds an object exactly if one with the key is stored, and then that one |
| Informer.Store.KeyForUid | pkg/apimachinery/src/informer.rs:432-438 | a found key is live and has the uid; while uids are not shared between names every live uid is found |
| Informer.Store.Select | pkg/apimachinery/src/informer.rs:439-448 | exactly the objects whose computed index set contains the index |
| Informer.PutKeepsUidsComplete | pkg/apimachinery/src/informer.rs:457-488 | while no uid is shared between names, a put keeps every live object found by its uid |
| Informer.RemoveAgrees | pkg/apimachinery/src/informer.rs:457-472 | removing an object keeps name, uid and inverse-index maps in agreement with the objects |
| Informer.InsertAgrees | pkg/apimachinery/src/informer.rs:483-488 | so does inserting one under a free name |
| Informer.Differences | pkg/apimachinery/src/informer.rs:309-320 | the deltas of two object maps explain the second from the first and cover every key that differs |
| History.RunKeepsInv | pkg/apimachinery/src/informer.rs:248-260 | every state of every run of store operations satisfies the store invariant |
| History.RunRemembers | pkg/apimachinery/src/informer.rs:406-410 | an observation is in the history, or the history lost an entry at or after it |
| History.NoRewind | pkg/apimachinery/src/informer.rs:369-396 | over any run with a monotone clock, a write is accepted only if its uid and revision were observed by no event or snapshot since its request started |
| History.ExpiredHistoryNeedsSnapshot | pkg/apimachinery/src/informer.rs:386-390 | after a refusal for lost history reads fail until a snapshot is taken, whatever happens in between |
| History.UnreadableStays | pkg/apimachinery/src/informer.rs:262-267 | without a snapshot no step makes an invalidated store readable |
| History.RunKeepsUidsFree | pkg/apimachinery/src/informer.rs:432-438 | over any run that brings no two names with one uid, every operation meets what the store's methods ask to keep every object found by its uid |
| Informers.Feed.Receive | pkg/apimachinery/src/informers.rs:68-166 | a change is applied as the store applies it, or refused with the store left unsynchronized; subscribers are called exactly for a snapshot, a recovery, and an event said to differ that leaves the objects different beyond bookkeeping, and told only of such changes; copies that replay them stay equal up to bookkeeping and every index whose selection changed is named, if and only if the event was said to differ or nothing beyond bookkeeping changed |
| Informers.Feed.Acknowledge | pkg/apimachinery/src/informers.rs:68-96 | a response is recorded, or on failure the store is left unsynchronized and a relist requested; subscribers are called exactly if objects changed beyond bookkeeping, and their copies stay equal up to it |
| Informers.QuietFollows | pkg/apimachinery/src/informers.rs:81-86 | calling nobody is right exactly if nothing but bookkeeping changed |
| Informers.OneFollows | pkg/apimachinery/src/informers.rs:68-80 | one recorded change, told if it matters, keeps every copy equal up to bookkeeping and names every changed index; it matters exactly if the objects are no longer alike |
| Informers.ManyFollow | pkg/apimachinery/src/informers.rs:68-80 | so do the changes of a snapshot, told where they matter, however the names in it were reused |
| Semantics.SemanticAt | pkg/apimachinery/src/reflector.rs:55-89 | normalizing a document removes exactly the places at or below the metadata's revision and managed fields and the three times of an element of conditions, at every depth |
| Semantics.SameIff | pkg/apimachinery/src/reflector.rs:54-89 | two documents are normalized alike exactly if they agree at every other place |
| Semantics.SameMeaning | pkg/apimachinery/src/informer.rs:53-199 | documents normalized alike have one key and the same computed indexes, so dropping such a change hides none from a dependent |
| Observed.Mirror.Replace | pkg/apimachinery/src/reflector.rs:106-120 | the loop's mirror becomes the normalized items by name, or stays on a list without items or with a nameless one |
| Observed.Mirror.Apply | pkg/apimachinery/src/reflector.rs:122-150 | an event moves mirror and position and is said to differ exactly if its name's normalized object does; a bookmark moves only the position, and an event the loop cannot take nothing |
| Observed.LoadedObserves | pkg/apimachinery/src/reflector.rs:106-120 | a complete list is mirrored as the objects it holds, one entry for each name |
| Observed.SaidSame | pkg/apimachinery/src/reflector.rs:137-142 | an event is said not to differ exactly if the mirrored server has its object under its own key with the same meaning |
| Subscribers.RunWatches | pkg/apimachinery/src/reflector.rs:106-150 | over every run, while the loop watches its mirror is of the server's objects at the last delivered change |
| Subscribers.MissedIff | pkg/apimachinery/src/informer.rs:411-422 | an event said not to differ changes the store beyond bookkeeping exactly if an acknowledged write holds its name for another object |
| Subscribers.CopiesFollowIff | pkg/apimachinery/src/informers.rs:68-166 | over every run, a subscriber that replays what it is told has the store's objects up to bookkeeping in every state if and only if no such event is delivered |
| Subscribers.MissedRun | pkg/apimachinery/src/informers.rs:122-134 | a run in which one is: the store goes back to a replaced object and nobody is called |
| Subscribers.PodsAreCast | pkg/apimachinery/src/informer.rs:13-28 | for any two uids there are documents for that run |
| Reflector.StepKeepsGood | pkg/apimachinery/src/reflector.rs:250-376 | every step of the loop, the server and the writers keeps the correspondence of view, history and overlays |
| Reflector.DeliverKeepsReflects | pkg/apimachinery/src/reflector.rs:356-372 | a delivered event moves the view by one change of the server's history, overlays on top |
| Reflector.FinishListKeepsGood | pkg/apimachinery/src/reflector.rs:259-286 | a snapshot that is accepted puts the view at the snapshot's change, with the writes acknowledged meanwhile on top |
| Reflector.RespondKeepsGood | pkg/apimachinery/src/informers.rs:260-281 | a late, early or repeated response, or an object read back later and acknowledged, keeps the correspondence |
| Reflector.DeliveredIsRefused | pkg/apimachinery/src/informer.rs:379-390 | a reply to a write that has reached the view, by the watch since the LIST in force or in that LIST, is never recorded |
| Reflector.Convergence | pkg/apimachinery/src/reflector.rs:250-376 | in every state of every run the objects are the server's at the last delivered change overridden by the remaining overlays |
| Reflector.ExactIff | pkg/apimachinery/src/informer.rs:293-308 | the view is the server's state at the last delivered change exactly if every overlay shows what the server has there |
| Reflector.CaughtUpIsExact | pkg/apimachinery/src/informer.rs:293-308 | once every shown write is delivered, no overlay remains exactly if none is stale, and then the view is the server's state |
| Reflector.PromptRunsAreExact | pkg/apimachinery/src/informer.rs:341-396 | over runs in which every response was asked for before its write was committed, a caught-up view is the server's state if and only if no overlay is stale |
| Reflector.BenignIsFresh | pkg/apimachinery/src/informer.rs:341-396 | a step leaves a stale overlay exactly if it records a write already delivered, or takes a snapshot that moved past a write acknowledged while it ran |
| Reflector.ReplyIsBenign | pkg/apimachinery/src/informer.rs:371-396 | for a reply the first of these is exactly recording a write the LIST in force had behind it |
| Reflector.FreshRuns | pkg/apimachinery/src/informer.rs:341-396 | a run never shows a stale overlay exactly if none of its steps is of that kind |
| Reflector.BenignRunsConverge | pkg/apimachinery/src/reflector.rs:250-376 | in such runs a caught-up view equals the server's state, with no overlay left |
| Reflector.StuckOverlay | pkg/apimachinery/src/informer.rs:341-362 | a run outside that condition: synced and caught up, yet showing an overwritten object |
| Frames.Buffer.Push | pkg/apimachinery/src/reflector.rs:160-176 | returns the events, pending tail or failure that reading the bytes one by one gives |
| Frames.ScanPart | pkg/apimachinery/src/reflector.rs:162-173 | checking the limit once per part is checking it at every byte |
| Frames.ChunkingIsIrrelevant | pkg/apimachinery/src/reflector.rs:153-177 | however a stream is cut into chunks, events, pending tail and failure are those of one push |
| WorkQueue.State.Add | pkg/apimachinery/src/workqueue.rs:42-53 | one request: remembered if the key is being worked on, else one ready slot |
| WorkQueue.State.AddAt | pkg/apimachinery/src/workqueue.rs:56-70 | the earlier of the pending and the asked deadline stays; the index follows |
| WorkQueue.State.CancelDeadline | pkg/apimachinery/src/workqueue.rs:73-89 | forgets the deadline, its index entry, and the entry if nothing else needs it |
| WorkQueue.State.RemoveDeadline | pkg/apimachinery/src/workqueue.rs:164-171 | drops a key from its bucket and an emptied bucket from the index |
| WorkQueue.State.FireKey | pkg/apimachinery/src/workqueue.rs:131-140 | an elapsed deadline is forgotten and becomes a request; its entry is always there |
| WorkQueue.State.FireElapsed | pkg/apimachinery/src/workqueue.rs:124-141 | fires exactly the due keys, earliest deadline first |
| WorkQueue.State.TakeAt | pkg/apimachinery/src/workqueue.rs:142-150 | moves the selected key from ready to a guard; its entry is always there |
| WorkQueue.State.Next | pkg/apimachinery/src/workqueue.rs:91-94 | fires what is due, then takes the first ready key, or names the earliest deadline to sleep until |
| WorkQueue.State.NextBy | pkg/apimachinery/src/workqueue.rs:98-110 | the same with the first among the least ready keys |
| WorkQueue.State.Done | pkg/apimachinery/src/workqueue.rs:173-186 | releases the guard; a requested rerun gets its one slot; the entry is always there |
| WorkQueue.Best | pkg/apimachinery/src/workqueue.rs:102-107 | a least ready key, and the first of those |
| WorkQueue.Earliest | pkg/apimachinery/src/workqueue.rs:152 | the least deadline of the index, none exactly if it is empty |
| WorkQueue.FiresAreSteps | pkg/apimachinery/src/workqueue.rs:125-141 | what one turn fires is a run of single fires, each due when it is taken |
| WorkQueue.RunKeepsInv | pkg/apimachinery/src/workqueue.rs:22-24 | over every run: at most one slot and one guard per key, never both, reruns only while worked on |
| WorkQueue.OwedMeansUnserved | pkg/apimachinery/src/workqueue.rs:42-53 | a pass is owed exactly while some request has not been followed by a start |
| WorkQueue.NoLostWork | pkg/apimachinery/src/workqueue.rs:22-24 | every add or fired deadline is followed by a pass started after it before its key can be idle |
| WorkQueue.StartsAreBought | pkg/apimachinery/src/workqueue.rs:42-53 | starts never exceed adds plus fires, counting the one still owed |
| WorkQueue.PassBuysOne | pkg/apimachinery/src/workqueue.rs:173-186 | during a pass no other of its key starts, and any number of requests meanwhile buy exactly one more |
| WorkQueue.DeadlineIsLeast | pkg/apimachinery/src/workqueue.rs:55-70 | the pending deadline is the least asked for since it last fired or was cancelled |
| WorkQueue.FifoServes | pkg/apimachinery/src/workqueue.rs:91-94 | under plain `next`, the key at ready position p is what the take after p takes serves |
| Lease.WriteGate.Renew | pkg/apimachinery/src/lease.rs:43-55 | a live term is extended, never shortened; any other is over for good |
| Lease.WriteGate.Budget | pkg/apimachinery/src/lease.rs:65-75 | a window granted to a leader is positive, at most 5 s and ends inside its term; an ended term gets none |
| Lease.WriteGate.Remaining | pkg/apimachinery/src/lease.rs:57-64 | the time left in a term, zero exactly when it is over |
| Lease.Hold | pkg/apimachinery/src/lease.rs:84-110 | ends with the gate closed, 10 s after the start of the last successful attempt plus the lateness of its last timer; every renewal started inside the term it extends; enough failing rounds end it; without a term it ends at once and renews nothing |
| Lease.Observation.Expired | pkg/apimachinery/src/lease.rs:121-127 | true exactly if some earlier look shows the record unchanged for the whole duration |
| Lease.StoodLongEnough | pkg/apimachinery/src/lease.rs:119-127 | the remembered record and time decide that over the whole history of looks |
| Election.ServeKeepsGood | pkg/controller-manager/src/leaderelection.rs:177-186 | a compare-and-swap keeps every term and pending success of the old holder at least 5 s in the past |
| Election.DecideKeepsGood | pkg/controller-manager/src/leaderelection.rs:121-176 | a write is sent only for a lease that is absent, ours, or observed unchanged for its whole duration |
| Election.HearKeepsGood | pkg/controller-manager/src/leaderelection.rs:53-61 | a success, however late, grants no more than 10 s from its attempt's start |
| Election.BehaviorIsGood | pkg/controller-manager/src/leaderelection.rs:63-187 | every interleaving of attempts, lost or late requests and replies, time-outs and restarts keeps this |
| Election.LiveGateHolds | pkg/apimachinery/src/lease.rs:7-11 | only the recorded holder can have a live gate |
| Election.LeaderExclusion | pkg/apimachinery/src/lease.rs:7-11 | no two replicas have live gates at once |
| Election.WindowsAreDisjoint | pkg/apimachinery/src/lease.rs:24-25 | a window granted to one replica is over before another's gate is live, then or later |
| Election.FirstLeader | pkg/controller-manager/src/leaderelection.rs:76-101 | a replica that finds no lease does become leader |
| Election.TakeoverHappens | pkg/controller-manager/src/leaderelection.rs:149-186 | a record that stood for its lease is taken over by the next write |
| Compactor.Store.CompactClaim | pkg/apimachinery/src/store.rs:86-94 | writes the key and wins if its version is still the one seen, else reads it |
| Compactor.Store.Compact | pkg/apimachinery/src/store.rs:82-84 | cuts below the target unless cut further already |
| Compactor.RunRound | pkg/apiserver/src/compactor.rs:33-51 | a failed claim leaves the state; after a claim it advances; only history below the revision recorded before is cut |
| Compactor.StepKeepsGood | pkg/apiserver/src/compactor.rs:27-51 | every interleaving of rounds, client writes, lost and late calls keeps claims, memories and targets in order |
| Compactor.VersionIsWonOnce | pkg/apiserver/src/compactor.rs:9-14 | each key version is won at most once |
| Compactor.TargetIsBetweenClaims | pkg/apiserver/src/compactor.rs:12-14 | what is compacted after claim v+1 is at least claim v's revision and below claim v+1's |
| Compactor.TargetsIncrease | pkg/apiserver/src/compactor.rs:12-14 | targets strictly increase by version |
| Compactor.WinnersRevisionIsKept | pkg/apiserver/src/compactor.rs:25-31 | nothing at or above the revision the latest winner had recorded is cut, even by late compactions of earlier winners |
| Compactor.YoungSnapshotsStay | pkg/apiserver/src/compactor.rs:12-16 | in every state of every run, what was read less than one interval ago is not cut |
| Compactor.OldSnapshotsGo | pkg/apiserver/src/compactor.rs:12-16 | after three rounds of one server, which take two intervals, whatever was read before the first was answered is gone once the latest winner's compaction is served |
| Compactor.RoundsAreSpaced | pkg/apiserver/src/compactor.rs:84-101 | a server sends a claim at least one interval after its round before ended, well or badly |
| Compactor.SinceLastWinStays | pkg/apiserver/src/compactor.rs:12-16 | what was read since the last win stays readable |
| Compactor.BeforeClaimIsGone | pkg/apiserver/src/compactor.rs:12-16 | once claim v+1's compaction is served, everything older than claim v is gone for good |
| Calendar.DateOf | pkg/apimachinery/src/cron.rs:84-96 | the Gregorian date whose day number is the given day |
| Calendar.DateRoundTrip | pkg/apimachinery/src/cron.rs:190 | every valid date is the date of its day number |
| Calendar.DateComes | pkg/apimachinery/src/cron.rs:70-72 | every date of a leap year comes again within 2921 days, across a non-leap century too |
| Calendar.WeekdayComes | pkg/apimachinery/src/cron.rs:90-96 | every weekday comes among the first seven days of any month within two years |
| CronText.ParseField | pkg/apimachinery/src/cron.rs:296-330 | the values in bounds that some comma-separated part names, steps counted from the range's start |
| CronText.StepThrough | pkg/apimachinery/src/cron.rs:321-327 | stepping through a range finds exactly its arithmetic progression within bounds |
| CronText.WordsAreSolid | pkg/apimachinery/src/cron.rs:299 | no field holds white space, so trimming its parts changes nothing |
| CronText.SpacedWords | pkg/apimachinery/src/cron.rs:35 | fields written with single spaces are read back |
| Cron.NumberFields | pkg/apimachinery/src/cron.rs:40-44 | five numbers in range are read as themselves |
| Cron.FindDate | pkg/apimachinery/src/cron.rs:180-196 | the four-year walk finds a date exactly if some month of the schedule has some day of it in a leap year |
| Cron.Validate | pkg/apimachinery/src/cron.rs:156-202 | accepts exactly the schedules with five non-empty fields and a possible date; each error is given exactly for its cause |
| Cron.FiresIffItCan | pkg/apimachinery/src/cron.rs:34-68 | a schedule fires at some minute exactly if its fields allow it, and then within 2922 days of any minute |
| Cron.AcceptedFires | pkg/apimachinery/src/cron.rs:146-155 | every accepted schedule fires; the rejected ones that fire are exactly those with both day fields restricted and only one of them able to fire |
| Cron.RejectedYetFires | pkg/apimachinery/src/cron.rs:180-199 | one of those: the thirtieth of February, or any Monday of it |
| Cron.SearchDay | pkg/apimachinery/src/cron.rs:100-107 | the first firing minute of a day after the given one, if any |
| Cron.Search | pkg/apimachinery/src/cron.rs:83-109 | the least firing minute after the given one; the search never runs out |
| Cron.NextStart | pkg/apimachinery/src/cron.rs:73-110 | for exactly the accepted schedules, the least whole-minute instant strictly after the argument at which the schedule matches |
| Cron.MissedStarts | pkg/apimachinery/src/cron.rs:223-259 | exactly the starts in (since, now], oldest first, at most 100; refused as too far behind exactly past seven days, and as too many exactly when there are more than 100 within them |
| Cron.ScanAgreesWithSearch | pkg/apimachinery/src/cron.rs:214-259 | walking from start to start by the next-start search yields exactly the scanned list, and the next after it is still to come |
| Cron.StartToRun | pkg/apimachinery/src/cron.rs:267-283 | the latest start in the window bounded by the starting deadline, or none; refused exactly when the scan of that window is |
| Codec.RoundTrip | pkg/apimachinery/src/protobuf.rs:416-702 | an object that fits its type encodes, and decoding gives it back exactly if nothing in it is reported unknown and no member at any depth is named as its message's embed, and otherwise without just those; neither kind changes the encoding |
| Codec.RoundTripMembers | pkg/apimachinery/src/protobuf.rs:615-702 | one message, through its chain of embeds: decoding the encoding leaves out exactly the members that are unknown or name an embed |
| Codec.RoundTripField | pkg/apimachinery/src/protobuf.rs:662-690 | the same of one field: single, list or map |
| Codec.RoundTripValue | pkg/apimachinery/src/protobuf.rs:716-753 | the same of one value |
| Codec.AllKept | pkg/apimachinery/src/protobuf.rs:563-611 | leaving out what is unknown and what names an embed changes nothing exactly if nothing is reported and nothing names an embed |
| Codec.KeptEncodes | pkg/apimachinery/src/protobuf.rs:615-702 | for members that fit: encoding without those named as an embed, with or without the unknown ones, gives the same message |
| Codec.OwnIsEncoded | pkg/apimachinery/src/protobuf.rs:636-691 | each canonically spelled member sets its own field and no other |
| Codec.Assembled | pkg/apimachinery/src/protobuf.rs:449-494 | a message decodes to its own fields' members and the embed's beside them |
| Codec.LostUnreported | pkg/apimachinery/src/protobuf.rs:648-700 | of an object with nothing reported: it holds a member named as an embed exactly if leaving those out changes it, and the encoding is the same without them |
| Codec.EmbedNamedDirectlyIsLost | pkg/apimachinery/src/protobuf.rs:648-700 | an instance: a descriptor and an object whose one member is reported by nothing and encoded as if absent |
| Apply.LeafHasPath | pkg/apiserver/src/apply.rs:23-47 | every recorded leaf is the pointer of a leaf path of the intent |
| Apply.PathHasLeaf | pkg/apiserver/src/apply.rs:23-47 | and every leaf path is recorded |
| Paths.RemoveRemoves | pkg/apiserver/src/apply.rs:55-64 | removing a path removes the fields at and below it and no other |
| Paths.TargetIffPrunable | pkg/apiserver/src/apply.rs:51 | what the pointer of a path removes is at or above the path exactly if its first key is not empty and no key holds a slash, or the first key is empty and all hold nothing but slashes |
| Paths.PrunedIffKeyed | pkg/apiserver/src/apply.rs:50-65 | for every path: a field is gone after removing its pointer exactly under that condition on its keys |
| Paths.RenderIsInjective | pkg/apiserver/src/apply.rs:42 | different paths of slash-free keys have different pointers |
| Paths.PointerGets | pkg/apiserver/src/apply.rs:105 | for every path, its pointer reads the value at the unescaped pieces of its text |
| Paths.TokensIff | pkg/apiserver/src/apply.rs:105 | which are the path itself exactly if no key holds a slash, `~0` or `~1` |
| Paths.MergeGives | pkg/apiserver/src/apply.rs:124 | a field after a merge is the patch's, or one the patch does not reach |
| Paths.MergeTakes | pkg/apiserver/src/apply.rs:124 | every field of the patch that is not null is there |
| Paths.MergeLeavesUntouched | pkg/apiserver/src/apply.rs:124 | what the patch does not reach stays |
| Apply.Ownership | pkg/apiserver/src/apply.rs:84-99 | the first other owner of every leaf, and the leaves the manager owned |
| Apply.FindConflict | pkg/apiserver/src/apply.rs:102-113 | none exactly if no leaf of the intent that another manager owns would change; else one such leaf and its owner |
| Apply.Prune | pkg/apiserver/src/apply.rs:115-120 | removes exactly the leaves owned before and not applied now |
| Apply.ServerSideApply | pkg/apiserver/src/apply.rs:70-146 | refused exactly for an unforced conflict; otherwise pruned, merged and recorded |
| Apply.AppliedFieldIff | pkg/apiserver/src/apply.rs:67-146 | for every object and every intent that leaves the managed fields alone: a field is there afterwards exactly if the intent sets it, or it was there, the intent does not reach it, and no dropped pointer aims at it or above it |
| Apply.ApplyKeepsInv | pkg/apiserver/src/apply.rs:67-146 | an apply of an intent whose keys pointers survive keeps one entry per manager, the record of every intent, and an owner for every field |
| Apply.OneEntryPerManager | pkg/apiserver/src/apply.rs:133-140 | over any run from an empty object each manager has at most one entry |
| Apply.EveryFieldIsOwned | pkg/apiserver/src/apply.rs:3-8 | over any run every scalar or array outside the managed fields is owned by some manager |
| Apply.UnforcedKeepsOthers | pkg/apiserver/src/apply.rs:101-113 | an unforced success leaves unchanged every scalar or array of its intent that another manager owned, where the keys are ones a pointer reads |
| Apply.OverwrittenIffIllegible | pkg/apiserver/src/apply.rs:101-113 | of two managers setting different values at one path, the second succeeds without force exactly if some key of the path is one its pointer does not read |
| Apply.UnsetFieldStaysIff | pkg/apiserver/src/apply.rs:115-124 | a field the intent does not set stays exactly if the intent does not reach it and no dropped pointer aims at it or above it, whoever owns it |
| Apply.ScalarReplacesMembers | pkg/apiserver/src/apply.rs:101-124 | two unforced applies after which one manager's member is gone, replaced by a scalar above it, and still claimed |
| Apply.CoOwnedLeafIsPruned | pkg/apiserver/src/apply.rs:115-120 | a leaf two managers own goes when one drops it, and the other still claims it |
| Apply.CoOwnedRun | pkg/apiserver/src/apply.rs:115-120 | a run of three unforced applies in which that happens |
| Apply.OrphanedIff | pkg/apiserver/src/apply.rs:115-120 | after a manager applies a field and then drops just that, the field stays, owned by nobody, exactly if its keys are ones pointers do not survive |
| Apply.DroppedMemberIsOrphanedIff | pkg/apiserver/src/apply.rs:115-120 | the same as two applies of concrete intents with any two keys |
| Apply.EmptyKeyIsOrphaned | pkg/apiserver/src/apply.rs:50-65 | an instance: under an empty key the dropped field stays and nobody owns it |
| Escalation.Uncovered | pkg/apiserver/src/escalation.rs:166-204 | exactly the permissions the rules spell out that no held rule covers |
| Escalation.StandsComposes | pkg/apiserver/src/escalation.rs:222-226 | resource patterns compose, unless the held one is the literal `*/*` |
| Escalation.TwoStarsLeaveOut | pkg/apiserver/src/escalation.rs:222-226 | rules held for `*/*` alone: a rule for the subresources of any base is covered, and what it covers is not held |
| Escalation.UrlsCompose | pkg/apiserver/src/escalation.rs:235-240 | trailing-star URL prefixes compose |
| Escalation.CoverageIff | pkg/apiserver/src/escalation.rs:164-204 | for every set of held rules: whatever rules they cover, every request those cover is held, and coverage composes, if and only if each permission they spell out for `*/*` they also cover for `*` |
| Escalation.CoverageIsSound | pkg/apiserver/src/escalation.rs:164-204 | under that condition, with nothing uncovered, every request a new rule covers, wildcards or not, a held rule covers; for URLs without it |
| Escalation.NoStarsAreHeld | pkg/apiserver/src/escalation.rs:164-204 | held rules that do not name `*/*` are always sound and compose |
| Escalation.CoverageIsReflexive | pkg/apiserver/src/escalation.rs:164-204 | every set of rules covers itself |
| Escalation.CoverageIsTransitive | pkg/apiserver/src/escalation.rs:164-204 | under the same condition coverage composes |
| Quantity.CanonicalDecimal | pkg/apimachinery/src/quantity.rs:190-237 | succeeds exactly for a number whose amount fits 128 bits, with the canonical text, which reads back as the amount |
| Quantity.Reduce | pkg/apimachinery/src/quantity.rs:208-223 | the computation in 128 bits gives the canonical amount, or nothing if it does not fit |
| Quantity.CanonicalDenotes | pkg/apimachinery/src/quantity.rs:180-184 | exact, with the largest thousand-power up to 10^18 that leaves an integer, for a multiple of a nano; else the least multiple of a nano not below it in magnitude |
| Quantity.CanonicalIsUnique | pkg/apimachinery/src/quantity.rs:210-213 | equal values in any spelling have one canonical form, zero with either sign among them |
| Quantity.CanonicalIsExact | pkg/apimachinery/src/quantity.rs:180-184 | for multiples of a nano, two numbers have one canonical form if and only if they are equal |
| Quantity.RenderReadsBack | pkg/apimachinery/src/quantity.rs:224-236 | the text says which amount it is |

## Left out

- HTTP, TLS, task scheduling, wake-ups and metrics: requests and time-outs are free steps, and that a waiting worker is woken is not modelled.
- Revisions are compared for equality only, as the source does; that a server's revisions grow is not used beyond the order of its history.
- `list` paging and retry delays: a complete snapshot is one step.
- Subscribers: a subscriber is taken to replay the changes it is told; the seed a late one gets, and its reading everything again on a reset, are not modelled. The runs are of documents filed as they say, in namespaces without slashes, with deletions of live objects.
- Reflector: a LIST never answers with a state older than its start. A writer reports any committed change, by its reply or by reading the object back, whenever it began; that an object read back was current when it was read is not used.
- `collection_url` and the subscriber maps of the hub: a response reaches the store of its collection or is a step that does not happen.
- Informer.Store.Put: does not promise that every live uid is found when uids are shared between names, because then the code loses one; `Informer.PutKeepsUidsComplete` has the condition, and `History.RunKeepsUidsFree` says when a run meets it.
- Membership: the order of the lookups' results; they are sets.
- Frames.Buffer.Push: what a frame's bytes decode to is a parameter.
- Election: replicas have distinct non-empty identities, every written record is distinct (the source relies on the renew time), clocks run at one rate, and nobody but the electing replicas writes or deletes the Lease.
- Lease.Hold: runs over a given list of rounds, so that a term renewed forever is not a loop that never ends; the lateness of timers is part of a round.
- Compactor: `parse_interval`. How long a round and its compaction take is free, so that snapshots older than two intervals are gone is stated in rounds (`Compactor.OldSnapshotsGo`, `Compactor.RoundsAreSpaced`), and only once the compaction is served.
- Cron: a step so close to 2^32 that adding it wraps, and dates past the calendar library's last; days before and after are unbounded here.
- Codec: protobuf bytes, the envelope, and the codecs of times, quantities, raw JSON, bytes, floats and enums (identities on a domain that is a parameter); integers spelled as strings; `managedFields`' own type and the CRD schema types, which `unknown_in` does not look into. Unknown paths are lists of places, not text. A message has at most one embed, as in the table of embeds. The local maps that the converters fill are folds over keys in order.
- Apply: `fields_v1`, `leaves` and `remove_pointer` are functions on values rather than edits in place. A null in an intent counts as a deletion, so the unforced-success theorem is about leaves that are not null. Intents that set the managed fields themselves are not followed.
- Quantity.CanonicalDecimal: exponents within 38 of the 32-bit limits, where adding stripped zeros or negating would overflow; `numbers_to_strings` and the floating-point parsers.
- Escalation.Uncovered: the messages' text; a missing permission is a value.
- JWT, x509, bootstrap tokens, admission, aggregation, the RBAC engine, scheduling and the controllers themselves: long lists of independent checks, or code behind libraries.
