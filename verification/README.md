# Brainstorm server: verified decision cores

A Dafny model of the seven parts of the Brainstorm server that decide something: which duties an Assistant's
Treasure Map should claim, how assertions get to the relay, how results survive crashes on their way, what each
publish run sends, how path networks and audits are computed, whom the scheduler admits, and who holds which
policy because of billing. `dafny verify dfyconfig.toml` checks all of it.

| files | what they model |
|---|---|
| Text, Sorting, Numbers | strings, stable sorting and rounding as Python has them |
| TreasureKeys, TreasureMap | the key grammar, the specificity order, probes and duties |
| SelfMap, AssistantMap, LineKeys, DutyLines, DutyMeaning, SelfEntries | the greedy should-say list, the standard offer, the keys of lines, duty lines, what they say of insights, signed tags |
| RelayPublisher, PublisherSafety, PublisherSends, PublisherProgress, PublisherPatience, PublisherAnswers, PublisherTask | the publisher as steps between awaits, its invariant, how often it sends, when it can still end well, when it gives up and what became of an event by the steps alone, its object |
| ResultQueue, ResultQueueSafety, ResultQueueAttempts, ResultQueueTask | the result queues as Redis commands, their invariant, how tries are counted, the consumer |
| DeltaPublish, PublishRun | publish runs over a history, and one run carried out |
| PathNetwork | all shortest paths as layers and links |
| RelayAudit | the divide-and-conquer audit |
| Scheduler, SchedulerCycle | lane choice, ranking and the admission loop |
| Billing, BillingTenure, BillingTask | entitlement steps, how long a plan is kept, and the sync loops |
| NetworkAlerts | capped follower counting and the two sections |

Protocols are step systems: a label per atomic step, `Enabled` and `Apply`, and lemmas over every run. Code
that updates an object in place is a class whose methods are proved to have exactly the effect of the step or
function that specifies them.

## Assumptions

- Publisher: event ids are distinct within a run and the configured counts are positive. The relay may send any
  OK, drop a connection or stay silent.
- Result queues: one consumer per queue, no eviction and no expiry of counters or payloads; a payload, its
  pending set and its envelopes are stored in one step; one message does not arrive twice in a queue, and an
  inline message is known by its `private_id`.
- Publish runs: one observer's runs in id order, each with scorecards keyed by observee, one cutoff throughout,
  and a changed set naming every observee whose influence differs from the preceding run.
- Audit: a static relay that honours `limit`, one event per d tag, times between 0 and `until`.
- Scheduler: deficits as exact rationals, priorities from 0 up, times as reals.
- Billing: one user's steps are atomic and their times do not go back; an outage message is not the text of an
  answer.
- Paths: the query answers every shortest path within the hop limit, each once.

## Where code and prose differ

- `published_state_to_persist` (app/message_queue_tasks/upload_nostr_events.py:161-185) would keep the baseline
  of a failed run, but the failure branch does not call it. So a landed observee can be orphaned:
  `DeltaPublish.OrphanAfterFailure`, with the exact conditions from the run records in `OrphanMeans`,
  `ExactUnlessOrphaned` and `FailureTracks`.
- A delta run gates on changed scores, so counts and hops can grow stale beside a fresh rank:
  `DeltaPublish.StaleFacts`, with the exact condition in `WholeAssertionWhen`.
- A user on the default policy is described as one who never subscribed (app/services/billing_service.py:179-187).
  After an admin release that need not hold: `Billing.ReleaseLeavesGrant` and `ReleaseCleanWhen`.
- `AbandonRule` says "never granted anything" (app/repos/user_subscription_repo.py:45-48); what it tests is that
  no grant stands now. `Billing.AbandonedOnceGranted` is a history where the two differ, and
  `AbandonedNeverGranted` says exactly when the comment holds.
- A block "takes back a policy billing granted" (app/services/billing_service.py:632-635); a plan granted to an
  admin-held user keeps source `admin` and stays: `Billing.BlockLeavesGrant`, with the exact condition in
  `BlockTakesBack`.
- The key of a duty line is the meet of the reader's key and the row's in the grammar
  (app/services/self_map_build.py:600-602), but `matches` labels an unchecked region by its spelling, so the meet of
  an unchecked key does not match that key's own region: `LineKeys.LineKeyRespells`, with the exact condition in
  `LineKeyMeans`.

## Model

| member | source | states |
|---|---|---|
| `TreasureKeys.ParseShaped` | app/services/self_map_build.py:131-171 | Whatever parses is fixed by its kind slot and later segments: spelling, kinds, rank and scope are all read off those two. |
| `TreasureKeys.ParseIdempotent` | app/services/self_map_build.py:108-171 | A key's normal form parses to that very key. |
| `TreasureKeys.NormDeterminesKey` | app/services/self_map_build.py:131-171 | Two parsed keys with one normal form are the same key, and conversely. |
| `TreasureKeys.ParseSpelled` | app/services/self_map_build.py:108-171 | Any slot and segments in normal form, Concept slots included, spell a key that parses back to exactly them, if and only if they are none of the reserved Concept spellings. |
| `TreasureKeys.CompareKeysAntisymmetric` | app/services/self_map_build.py:174-193 | The comparison of two keys and of the same two swapped have opposite signs. |
| `TreasureKeys.CompareKeysTotalOrder` | app/services/self_map_build.py:174-193 | On parsed keys the comparison is zero exactly when the normal forms are equal: every two different keys are ordered. |
| `TreasureKeys.CompareKeysTransitive` | app/services/self_map_build.py:174-193 | More specific than is transitive. |
| `TreasureKeys.KeyMatches` | app/services/self_map_build.py:131-210 | Which insights a parsed key matches, from its slot and segments alone: all of the slot's kinds where it is bare (`*` and `39998` taking in Concepts), one `d`, one metric, or a region of its own. |
| `TreasureKeys.CoversIsContainment` | app/services/self_map_build.py:199-220 | A row covers a key exactly when every insight of the infinite space the key matches is matched by the row. |
| `TreasureKeys.CoveredIsMoreSpecific` | app/services/self_map_build.py:174-220 | A strictly covered key is always the more specific of the two. |
| `TreasureMap.BestByIsMostSpecific` | app/services/self_map_build.py:243-254 | The winner is a key that qualifies, no qualifying key is more specific, and none qualifies exactly when there is no winner. |
| `TreasureMap.MostSpecific` | app/services/self_map_build.py:243-254 | The loop over a running best returns that winner. |
| `TreasureMap.BuildProbes` | app/services/self_map_build.py:257-290 | The dictionary-filling loops yield exactly the probes the sections describe, none twice. |
| `TreasureMap.ProbesStandForInsights` | app/services/self_map_build.py:257-290 | For every insight some Map key matches there is a probe matched by exactly the same keys, with the same winner. |
| `TreasureMap.DutiesOf` | app/services/self_map_build.py:363-379 | One duty per probe, in order, with the winning group and the verdict that `DutyMeaning.DutyMeans` explains. |
| `TreasureMap.StandKeepsDuty` | app/services/self_map_build.py:340-379 | An insight and its probe have the same winner and the same duty verdict. |
| `TreasureMap.LiveIsPublished` | app/services/self_map_build.py:473-498 | An insight is live exactly when it is a published metric, Scores are live and some row answers; its relay is the answering row's; one that is down says why (unchecked, the Scores' status, not scheduled, not published here), and only a published Score says when it last landed. |
| `TreasureMap.Valid` | app/services/self_map_build.py:504-581 | The validity check of a candidate entry decides exactly whether every duty it would win is live at its relay, and at least one is. |
| `TreasureMap.AddValidEntry` | app/services/self_map_build.py:504-581 | Adding a valid entry keeps the list sound: a later, more specific entry that takes an insight is live there too. |
| `TreasureMap.TryKey` | app/services/self_map_build.py:504-581 | Trying a key keeps everything the greedy loop maintains and never drops an earlier entry. |
| `SelfMap.MetricKeyParses` | app/services/self_map_build.py:131-171 | `30382:<metric>` of each published metric parses to that metric's own key. |
| `SelfMap.MeetShaped` | app/services/self_map_build.py:223-226 | A key narrowed to one kind is a parsed key over that kind, or over all kinds of a bare `39998`. |
| `SelfMap.CoveringAnswers` | app/services/self_map_build.py:391-425 | For a Score's own key, the row covering the key is the row answering the Score. |
| `SelfMap.OwnKeyIsValid` | app/services/self_map_build.py:504-581 | A live duty's own key is always accepted unless some chosen entry already speaks of it. |
| `SelfMap.TryMapKey` | app/services/self_map_build.py:504-581 | After one of the reader's keys was tried verbatim and narrowed, every live published duty it wins is spoken of. |
| `SelfMap.BuildShouldSay` | app/services/self_map_build.py:504-581 | Over any offer and Map: entries of distinct spelling, each founded on a live duty, every duty spoken of live at its most specific entry's relay, every live duty Score spoken of, in the offer's order. |
| `SelfMap.ClaimsAreLive` | app/services/self_map_build.py:363-581 | For every insight, not only the probes: if it is the Assistant's duty and some chosen entry matches it, the most specific one names a relay where it is live. |
| `AssistantMap.OfferIsStandard` | app/services/duty_menu_build.py:52-86 | Whatever the settings, the offer parses and has the five Score rows first where there is a relay for them, and no other Score row. |
| `AssistantMap.EntryIsScore` | app/services/self_map_build.py:504-581 | Under that offer every chosen entry is one metric's own key at the Scores relay, and the Map gives that metric to the Assistant. |
| `AssistantMap.GreedyIsExpected` | app/services/self_map_build.py:504-581 | The greedy list equals the simple reading: `30382:<metric>` for the published metrics whose most specific Map key names the Assistant, when Scores are live, else nothing. |
| `LineKeys.LineKeyMeans` | app/services/self_map_build.py:599-611 | A line's key parses in its own normal form; it matches every insight the reader's key and the row both match, unless and only unless an unchecked key of several kinds shares exactly one with a row of all of it, outside the profiles' region; and it matches nothing the reader's key does not, unless that is unchecked. |
| `LineKeys.NarrowedMeans` | app/services/self_map_build.py:223-226 | The same for a key narrowed to the one kind it shares with a row. |
| `LineKeys.RespeltIs` | app/services/self_map_build.py:599-611 | For an unchecked key under a row of all of the kind, that guard on key and row holds if and only if the line's key is not the reader's own. |
| `LineKeys.LineKeyRespells` | app/services/self_map_build.py:599-611 | Under every offer with a relay for Lists, the key `3039x:a:b` is shown at the row `30392` under a key whose region is labelled otherwise. |
| `DutyLines.PartLine` | app/services/self_map_build.py:614-641 | The line of one part of a key's duties: its key and relay, live exactly when it holds a duty and all its duties are live, else offered with the reason of a duty that is down, listing exactly the entries speaking of all its duties. |
| `DutyLines.AllLines` | app/services/self_map_build.py:644-688 | Every line is one a group naming the Assistant calls for (a part's, not-offered or elsewhere), every line called for is there, lines follow the Map's order and within a group the offer's with no part or not-offered line twice and no elsewhere line that was there already, and the entries shown are exactly those of live parts. |
| `DutyLines.OtherLines` | app/services/self_map_build.py:666-687 | Adds exactly the not-offered line where a duty won has no row and the elsewhere line of each more specific key naming only others that takes something. |
| `DutyLines.LinesShowList` | app/services/self_map_build.py:644-688 | An entry appears on some live duty line exactly when it is in the should-say list. |
| `DutyMeaning.DutyMeans` | app/services/self_map_build.py:340-379 | For every insight: it is the Assistant's duty if and only if the most specific Map key matching it names the Assistant and is not a key for all of a kind over a Concept or over a 30382 region, other than an unchecked one, that is no published metric. |
| `DutyMeaning.AnsweredIsOffered` | app/services/self_map_build.py:405-408 | Under the standard offer an insight has a row if and only if it is a published Score with a relay set, a 30392 List with a list relay or relay set, or a Concept with a dictionary relay set. |
| `DutyMeaning.UnansweredMeans` | app/services/self_map_build.py:669-670 | A key calls for a not-offered line if and only if some insight is owed under it that the settings do not offer. |
| `DutyMeaning.ElsewhereMeans` | app/services/self_map_build.py:671-687 | It calls for an elsewhere line of another key if and only if that key names only others and is the most specific for some insight this one matches. |
| `DutyMeaning.LineMeans` | app/services/self_map_build.py:614-641 | The line of a part, said of its insights: under `_line_key`, at the row's relay; live if and only if something in it is owed and all of that is published Scores kept up to date, then listing exactly the row's own key and relay; else with the reason of an insight of it that is down, an owed one where there is one. |
| `SelfEntries.MapGroups` | app/services/self_map_build.py:311-323 | One group per key, naming exactly the providers the tags name for it, in the order in which the tags first name each key. |
| `SelfEntries.HexIgnoresCase` | app/services/self_map_build.py:44-44 | A pubkey is read in either case. |
| `SelfEntries.EvaluateSelfMap` | app/services/self_map_build.py:697-714 | End to end, for every reader Map and relay settings: the list is the simple reading's; each line, in the Map's and the offer's order, is the one its insights call for (key by `_line_key`, relay, status, reason, entries; not-offered; elsewhere), every line called for is there, and the lines show exactly the list. |
| `SelfEntries.ReadSelfEntries` | app/services/self_map_build.py:747-767 | The entries read are exactly those the author's tags hold, each key and relay once, spelt as first written, in the tags' order. |
| `SelfEntries.NothingToChange` | app/services/self_map_build.py:770-791 | True exactly when the signed tags hold the target list, up to the spelling of relays. |
| `SelfEntries.WrittenIsSettled` | app/services/self_map_build.py:747-802 | Round trip: tags written from a list read back as that list. |
| `SelfEntries.SignedCheckIsSettled` | app/services/self_map_build.py:787-802 | Signing what the check says leaves the next check nothing to change. |
| `PublisherSafety.InvStep` | app/message_queue_tasks/relay_publisher.py:81-268 | Every step of producer, workers, reconnects and retries keeps the invariant. |
| `PublisherSafety.EventInOnePlace` | app/message_queue_tasks/relay_publisher.py:109-143 | In every reachable state a produced event is in exactly one of queue, one pending map, retry timer, resolved; nothing else is anywhere. |
| `PublisherSafety.NeverOverCap` | app/message_queue_tasks/relay_publisher.py:205-220 | Outstanding events never exceed `max_outstanding`, pending never exceeds `max_in_flight`. |
| `PublisherSafety.CleanFinishDelivers` | app/message_queue_tasks/relay_publisher.py:271-279 | A finish is not aborted with nothing unacked exactly when every event got a true OK once, none was refused, none is left. |
| `PublisherSafety.NotOverCanMove` | app/message_queue_tasks/relay_publisher.py:126-184 | In a run that is not over some worker has a step enabled (to start, connect, take an OK or close) and, once all is produced, some event is unsettled. |
| `PublisherSafety.MatchedBound` | app/message_queue_tasks/relay_publisher.py:249-268 | Whatever the relay does, matched OKs number at most `max_event_attempts` per event. |
| `PublisherSafety.ReconnectBound` | app/message_queue_tasks/relay_publisher.py:145-184 | Reconnects are at most connections * (max_connect_attempts - 1) + max_connect_attempts * max_event_attempts * n_events. |
| `PublisherSends.SendBound` | app/message_queue_tasks/relay_publisher.py:186-220 | Whatever the relay does, sends number at most n_events + n_retried + max_in_flight * (n_reconnects + connections), and n_retried at most max_event_attempts * n_events. |
| `PublisherProgress.CanEndWell` | app/message_queue_tasks/relay_publisher.py:145-268 | From every reachable state with all events produced and the run not over: some continuation ends without aborting and with every event not refused before acked, if and only if some worker can still open a connection; and then one without any lost connection or refusal. |
| `PublisherProgress.RunUnsealed` | app/message_queue_tasks/relay_publisher.py:130-134 | Until the run is over no sentinel is queued and no sender has stopped. |
| `PublisherPatience.DeadMeans` | app/message_queue_tasks/relay_publisher.py:145-184 | From the steps of the run alone: while it is not over, a worker has given up if and only if its last `max_connect_attempts` connections ended, refused or dropped, without an OK for an event they held; and none that gave up did so otherwise. |
| `PublisherPatience.ReconnectsUnless` | app/message_queue_tasks/relay_publisher.py:168-184 | A connection that closed before the end is followed by a reconnect unless it was the last of that many fruitless ones; after a fruitful one always, with no failures counted. |
| `PublisherPatience.ViableMeans` | app/message_queue_tasks/relay_publisher.py:145-184 | A worker can still come to an open connection if and only if its ended connections, with the one now closing, do not finish with that many fruitless ones. |
| `PublisherPatience.AbortedMeans` | app/message_queue_tasks/relay_publisher.py:170-179 | The run aborts only when every worker met that many fruitless connections in a row. |
| `PublisherAnswers.OutcomeMeans` | app/message_queue_tasks/relay_publisher.py:249-268 | From the steps alone: an event is acked if and only if the relay said true, once, to a connection holding it; given up if and only if it said otherwise `max_event_attempts` times; every such answer settles the event or retries it. |
| `PublisherAnswers.FirstInFirstOut` | app/message_queue_tasks/relay_publisher.py:130-143 | The queue is first in, first out: every step takes its head or adds at its end. |
| `PublisherTask.Publisher.Produce` | app/message_queue_tasks/relay_publisher.py:109-119 | Producing one event has exactly the effect of that step and keeps the object valid. |
| `PublisherTask.Publisher.ProduceEnd` | app/message_queue_tasks/relay_publisher.py:109-119 | The end of the events has exactly the effect of that step and keeps the object valid. |
| `PublisherTask.Publisher.ProduceFails` | app/message_queue_tasks/relay_publisher.py:109-119 | A producer that raises ends the run and keeps the object valid. |
| `PublisherTask.Publisher.Resolve` | app/message_queue_tasks/relay_publisher.py:121-128 | Resolving counts, frees the permit and finishes when all is resolved. |
| `PublisherTask.Publisher.Finish` | app/message_queue_tasks/relay_publisher.py:130-134 | Finishing is idempotent and puts one sentinel per connection. |
| `PublisherTask.Publisher.Drop` | app/message_queue_tasks/relay_publisher.py:186-203 | A lost connection requeues its pending events in order and keeps the object valid. |
| `PublisherTask.Publisher.Get` | app/message_queue_tasks/relay_publisher.py:205-220 | The sender takes one item or stops at a sentinel, and the object stays valid. |
| `PublisherTask.Publisher.OnOkMessage` | app/message_queue_tasks/relay_publisher.py:222-268 | Has exactly the effect of the step: a pending event is popped, its slot freed and the connection marked as fruitful, and it is settled or retried; an unmatched OK changes nothing. |
| `PublisherTask.Publisher.AfterClose` | app/message_queue_tasks/relay_publisher.py:145-184 | After a connection ends: retry, die, or abort when the last connection dies; the object stays valid. |
| `PublisherTask.Publisher.Fire` | app/message_queue_tasks/relay_publisher.py:141-143 | A retry whose delay is over is queued again; the object stays valid. |
| `PublisherTask.Publisher.Start` | app/message_queue_tasks/relay_publisher.py:145-184 | A worker leaves when the run is over, else connects; the object stays valid. |
| `PublisherTask.Publisher.Connect` | app/message_queue_tasks/relay_publisher.py:186-203 | A new connection starts with an empty pending map and all slots free; the object stays valid. |
| `PublisherTask.Publisher.ConnectFails` | app/message_queue_tasks/relay_publisher.py:145-184 | A refused connection counts as one without progress; the object stays valid. |
| `PublisherTask.Publisher.Acquire` | app/message_queue_tasks/relay_publisher.py:205-220 | The sender takes a slot; the object stays valid. |
| `PublisherTask.Publisher.Sent` | app/message_queue_tasks/relay_publisher.py:205-220 | After a send the sender waits for the next slot; the object stays valid. |
| `PublisherTask.Publisher.Cancel` | app/message_queue_tasks/relay_publisher.py:93-107 | A worker cancelled at the end gives back what it held; the object stays valid. |
| `ResultQueueSafety.InvStep` | app/message_queue_tasks/result_queue.py:58-122 | Every Redis command of any consumer, and a crash between any two, keeps the invariant. |
| `ResultQueueSafety.NothingLostOrReordered` | app/message_queue_tasks/result_queue.py:58-122 | Per queue, acked ++ processing ++ waiting is the arrival sequence over any crashes; every acked delivery ran the handler or on_lost; no handler starts more than MAX_ATTEMPTS times. |
| `ResultQueueSafety.PayloadOutlivesReaders` | app/message_queue_tasks/result_queue.py:98-112 | A queue that has not acked is still pending and its payload is present. |
| `ResultQueueSafety.PayloadIsCollected` | app/message_queue_tasks/result_queue.py:104-112 | Once all named queues acked and let go, the payload is still there if and only if some crash leaked it; and what leaked stays. |
| `ResultQueueSafety.LeakedMeans` | app/message_queue_tasks/result_queue.py:104-112 | Which crashes leak, exactly: those between ack and release, and those after the release where the payload is there, nobody is pending and no other consumer is about to delete it. |
| `ResultQueueAttempts.AttemptsAreTries` | app/message_queue_tasks/result_queue.py:72-76 | In every reachable state, crashes included, the counter of a message not yet acked is the number of its tries in the run. |
| `ResultQueueAttempts.HandledWhileTries` | app/message_queue_tasks/result_queue.py:77-96 | A counted message goes to the handler if and only if it was tried at most MAX_ATTEMPTS times, this one included, its payload being there; else to `on_lost`. |
| `ResultQueueTask.Consumer.RecoverInFlight` | app/message_queue_tasks/result_queue.py:58-65 | The loop requeues everything in processing at the head, in order, counts it, and touches nothing else. |
| `ResultQueueTask.Consumer.Settle` | app/message_queue_tasks/result_queue.py:68-102 | The message ends ready to ack with the handler run or `on_lost` told; handled exactly without a fault, below the attempt limit and with its payload there; its counter is one higher, unless counting itself failed, and no other counter changes. |
| `ResultQueueTask.Consumer.HandleOne` | app/message_queue_tasks/result_queue.py:68-112 | An uninterrupted call acks the message, clears its counter, releases this queue, and deletes the payload exactly when it was the last. |
| `ResultQueueTask.LeadsInv` | app/message_queue_tasks/result_queue.py:115-122 | Any stretch of commands keeps the invariant. |
| `DeltaPublish.GapPendingIsGap` | app/repos/brainstorm_request_repo.py:431-459 | The gap query is true exactly when some failed run was followed by no successful full one. |
| `DeltaPublish.AckedIsFresh` | app/message_queue_tasks/upload_nostr_events.py:388-550 | An acked run leaves every above-cutoff rank on the relay, sent now or left there before. |
| `DeltaPublish.InvStep` | app/message_queue_tasks/upload_nostr_events.py:388-563 | Every run, failing after any partial send or succeeding, keeps: no gap means every above-cutoff rank is fresh. |
| `DeltaPublish.SuccessfulRunIsExact` | app/message_queue_tasks/upload_nostr_events.py:433-550 | Over any history: after a success everyone whose influence clears the cutoff is on the relay with the nearest hundredth, ties to even, as rank; the baseline is exactly those; no dropped baseline observee is left; nothing new but the baseline appeared. |
| `DeltaPublish.AboveIsClearing` | app/message_queue_tasks/upload_nostr_events.py:69-69 | The above-cutoff set, said without rounding: with c hundredths the least that reach the cutoff, those above c - 1/2 hundredths, or at it with c even. |
| `DeltaPublish.ClearsHundredths` | app/message_queue_tasks/upload_nostr_events.py:149-149 | At a cutoff of c hundredths that is exactly those whose nearest hundredth is at least c; at 0.02, an influence of 0.015 and up. |
| `DeltaPublish.AssertedAnew` | app/message_queue_tasks/upload_nostr_events.py:433-466 | A success asserts anew everyone who clears the cutoff where the setting, the request or a gap makes it full, else the changed ones; whoever else clears it keeps the assertion there was. |
| `DeltaPublish.GapClosesWhen` | app/message_queue_tasks/upload_nostr_events.py:436-447 | After a run there is a gap if and only if it failed, or there was one and the run was full by the operator's setting alone. |
| `DeltaPublish.RelayIsLastLanding` | app/message_queue_tasks/upload_nostr_events.py:388-563 | Over any history, everything on the relay is exactly what the last run that landed it asserted, counts and hops included. |
| `DeltaPublish.WholeAssertionWhen` | app/message_queue_tasks/upload_nostr_events.py:49-85 | After a success an above-cutoff assertion is this run's, counts and hops included, if and only if the last run to land it said the same; a full run lands them all. |
| `DeltaPublish.StaleFacts` | app/message_queue_tasks/upload_nostr_events.py:49-85 | A history without failures in which a delta run leaves old counts beside a fresh rank. |
| `DeltaPublish.DeltaEqualsFull` | app/message_queue_tasks/upload_nostr_events.py:49-85 | After any history, sending only changed scores leaves the same observees with the same ranks as sending all, and the very same assertions if and only if each one not sent was last landed with its present facts. |
| `DeltaPublish.ExactUnlessOrphaned` | app/message_queue_tasks/upload_nostr_events.py:88-158 | After any history, a success leaves exactly the above-cutoff set if and only if every orphan before it, by the run records, is above the cutoff or swept. |
| `DeltaPublish.UntrackedAreOrphans` | app/message_queue_tasks/upload_nostr_events.py:433-563 | Over every history, what is on the relay outside the baseline is exactly the orphans computed from the run records alone. |
| `DeltaPublish.OrphanMeans` | app/message_queue_tasks/upload_nostr_events.py:553-563 | An observee is an orphan if and only if some failed run landed it outside the baseline and no later run deletes it, sweeps it or takes it in. |
| `DeltaPublish.RelayIsBaseline` | app/message_queue_tasks/upload_nostr_events.py:511-534 | If no run ever failed, the relay's set equals the baseline. |
| `DeltaPublish.FailureTracks` | app/message_queue_tasks/upload_nostr_events.py:553-563 | After any history, a failed run leaves the relay within the baseline if and only if it deleted every orphan there was and landed nothing outside the baseline. |
| `DeltaPublish.OrphanAfterFailure` | app/message_queue_tasks/upload_nostr_events.py:553-563 | A two-run history in which a dropped observee stays on the relay outside the baseline. |
| `PublishRun.TaInputsExact` | app/message_queue_tasks/upload_nostr_events.py:49-85 | The inputs assert exactly those to be sent whose influence clears the cutoff, each with the nearest hundredth, ties to even, as rank, and its counts and hops. |
| `PublishRun.TaInputsDescend` | app/message_queue_tasks/upload_nostr_events.py:62-73 | They descend by influence. |
| `PublishRun.PlanPublish` | app/message_queue_tasks/upload_nostr_events.py:131-158 | One pass yields exactly those whose influence clears the cutoff and, sorted without repeats, exactly those of the baseline, and of the scored where swept, that do not. |
| `PublishRun.Observer.ProcessUpload` | app/message_queue_tasks/upload_nostr_events.py:388-563 | The run, row by row and event by event, has exactly the effect of the specified step. |
| `PathNetwork.BuildNetwork` | app/services/graph_service.py:31-40 | Layers hold, sorted and once each, the pubkeys at their position; links are, sorted and in range, exactly the steps some path takes. |
| `PathNetwork.WalkIsPath` | app/services/graph_service.py:31-40 | Every layer-by-layer walk spells one of the shortest paths. |
| `PathNetwork.PathIsWalk` | app/services/graph_service.py:31-40 | Every shortest path is spelt by a walk. |
| `PathNetwork.OneLayer` | app/services/graph_service.py:31-40 | No pubkey, nor either endpoint, is in two layers. |
| `PathNetwork.Lossless` | app/services/graph_service.py:31-40 | Walks and shortest paths correspond one to one, and counting walks from the network alone gives their number. |
| `PathNetwork.AllWalks` | tests/conftest.py:262-270 | The backward count equals the number of distinct walks. |
| `PathNetwork.ShortestFollowPath` | app/services/graph_service.py:79-111 | Reachable exactly when a path within the hop limit exists, with the least hop count, all paths of that length, and a walk count equal to pathCount in every branch. |
| `RelayAudit.Reader.Walk` | app/services/relay_audit_service.py:100-122 | The recursion downloads exactly the d tags outside dense seconds and appends exactly the dense seconds' counts, earliest first. |
| `RelayAudit.WindowAccounted` | app/services/relay_audit_service.py:100-122 | Downloaded d tags plus dense seconds account for every event of a window. |
| `RelayAudit.DensePresent` | app/services/relay_audit_service.py:125-136 | Chunked counting equals the count of candidates present; beyond the limit, and only there, the result is the number of candidates times the share present in some sample of 500, rounded to the nearest. |
| `RelayAudit.ReadRelay` | app/services/relay_audit_service.py:139-151 | Total, downloads and dense events balance; the presence count never exceeds either side, is exact in exact mode, and else such an estimate cut to what either side holds. |
| `RelayAudit.AuditRelay` | app/services/relay_audit_service.py:161-190 | Exact mode: missing = expected minus relay, orphans = relay minus expected; sampled mode: missing is what is not downloaded less such an estimate; both modes: neither negative and expected - missing = on relay - orphans. |
| `Scheduler.ChooseLane` | app/services/scheduler.py:38-52 | The lane chosen has the largest deficit, ties to the highest priority. |
| `Scheduler.NoneAheadKept` | app/cronjobs/scheduler.py:82-101 | Over any number of admissions over the same active lanes, no lane gets a whole slot ahead of its share where none was. |
| `Scheduler.FairShare` | app/services/scheduler.py:38-52 | Where none is a slot ahead, none of n lanes is more than n - 1 slots behind. |
| `Scheduler.WeightedFairness` | app/services/scheduler.py:38-52 | After any T admissions from zero counts each lane's count is less than 1 above and at most n - 1 below T * (p + 1) over the sum of (q + 1) of all lanes. |
| `Scheduler.ServedWithin` | app/services/scheduler.py:38-52 | From any point of a run from zero counts over fixed lanes, a lane is served within n times that sum / (p + 1) admissions. |
| `Scheduler.ServedFrom` | app/services/scheduler.py:38-52 | From any counts over fixed lanes, however far ahead some are: with nobody more than b (scaled) ahead, a lane is served within k admissions once its lag plus k times its weight exceeds (n - 1) * b. |
| `Scheduler.Budget` | app/services/scheduler.py:55-60 | In-flight plus budget never exceeds max(in-flight, target), meets the target when not interactive, and is zero when interactive. |
| `Scheduler.EligibleFrom` | app/services/scheduler.py:63-82 | An enabled candidate is eligible from its interval after the last publish or the backoff after the last failure, whichever is later, for good and not before; a disabled one never. |
| `Scheduler.RankExact` | app/services/scheduler.py:63-101 | Exactly the enabled candidates whose moment has come, each once, highest priority first, within it never published first and then longest ago. |
| `SchedulerCycle.Bucket` | app/cronjobs/scheduler.py:77-80 | Each lane is the ranked list restricted to its priority, in order. |
| `SchedulerCycle.Cron.AdmitFrom` | app/cronjobs/scheduler.py:82-101 | Terminates; per lane a prefix of the eligible; strict mode is exactly the first `budget` eligible of the ranked list; every pop takes the head of the lane chosen among those active at that moment by the counts of that moment; over unspent lanes the counts are those of the fair sequence. |
| `SchedulerCycle.Cron.RunCycle` | app/cronjobs/scheduler.py:53-104 | Nobody twice or not due, never above max(in-flight, target), and short of budget only when everyone due with a grapevine was admitted. |
| `SchedulerCycle.AdmittedOnce` | app/cronjobs/scheduler.py:82-101 | Nobody is admitted twice. |
| `Billing.SweepIsConservative` | app/services/billing_service.py:204-279 | Where the sweep's unknown lifecycle revokes, any lifecycle would, and past due never. |
| `Billing.DecisionsOnlyEnd` | app/services/billing_service.py:204-279 | As time passes only a hold can end, in a revoke; and by time alone exactly for a cancellation, not immediate, whose end date comes due in between. |
| `Billing.RunSound` | app/services/billing_service.py:136-197 | In every reachable state: billing-sourced means the recorded grant is the live policy of a user not blocked; default means no policy; admin means a policy. |
| `Billing.RunClean` | app/services/billing_sync_service.py:56-116 | Over runs without a release, default also means no recorded grant. |
| `Billing.AdminHoldLasts` | app/services/billing_service.py:442-489 | No stretch of billing steps takes an admin-held user back to the default. |
| `Billing.ReleaseCleanWhen` | app/routers/admin/users/router.py:130-172 | A release leaves no grant on a default user if and only if none was recorded, Flash's answer revokes, or it grants while not blocked. |
| `Billing.ReleaseLeavesGrant` | app/routers/admin/users/router.py:130-172 | A history in which a release with Flash unreachable leaves a default user with a recorded grant. |
| `Billing.BlockTakesBack` | app/services/billing_service.py:627-655 | A block leaves nobody on a billing-sourced policy; the plan billing granted stays in force through it if and only if an administrator holds the user and it was in force. |
| `Billing.BlockLeavesGrant` | app/services/billing_service.py:627-655 | A history that ends blocked with the plan billing granted still in force. |
| `Billing.FailingSinceIs` | app/repos/user_subscription_repo.py:319-352 | The clock's meaning: the first failure of the unbroken run of the same reason the log ends with. |
| `Billing.RunClocked` | app/repos/user_subscription_repo.py:126-166 | In every reachable state the row's error fields say exactly that. |
| `Billing.AbandonedMeans` | app/repos/user_subscription_repo.py:43-71 | A row is written off exactly when pending, holding no grant now, and every recorded sync of the whole window answered unknown_subscription. |
| `Billing.AbandonedOnceGranted` | app/repos/user_subscription_repo.py:43-71 | A history in which a subscription grants and expires, a new one stays pending, and the row is written off all the same. |
| `Billing.EverGrantedMeans` | app/services/billing_service.py:442-489 | At some point of a run the row held a grant if and only if some step of it takes the granting branch: user not barred, plan mapped, status entitling. |
| `Billing.AbandonedNeverGranted` | app/repos/user_subscription_repo.py:43-71 | A row is written off and never granted anything if and only if it is pending, every recorded sync of the whole window answered unknown_subscription, and no step of its run takes the granting branch. |
| `BillingTenure.PolicyTakenWhen` | app/services/billing_service.py:204-279 | In every reachable state a paying user loses the policy at a billing step if and only if: the deciding subscription, or the stored row for the sweep, is expired, paused, cancelled at once or with no end date ahead, or past due with its known attempts spent and no cancellation to follow; or Flash sends word it expired; or they are blocked. |
| `BillingTenure.RunningGivesPlan` | app/services/billing_service.py:136-170 | An active or trial answer for a mapped plan gives a user not blocked that plan, under the administrator's hold where there is one; a blocked user stays as they were. |
| `BillingTenure.PlanLasts` | app/services/billing_service.py:204-279 | Over any stretch of billing steps, none of which takes it, a paying user stays on a paid plan. |
| `BillingTenure.ChooseDecides` | app/services/billing_service.py:334-412 | Which subscription decides: a reply that names the user, or nobody where it came from the file or an administrator; replaced by the user's current one where it is not the one on file. |
| `BillingTenure.ForeignMovesNobody` | app/services/billing_service.py:380-393 | A reply that names somebody else, or none, leaves policy, source and grant alone. |
| `BillingTenure.DecidingIsOwn` | app/services/billing_service.py:362-412 | Whatever decides names this user, or nobody where allowed, save what Flash gives for the user's own reference. |
| `BillingTenure.WordOfEnding` | app/services/billing_service.py:984-1040 | Word of a cancellation or a failed payment takes nothing at once; the sweep takes the first when its dates have run out, and the second never. |
| `BillingTenure.SweepGoesByAnswer` | app/services/billing_service.py:442-489 | After a settled answer the sweep goes by that subscription's own status and dates. |
| `BillingTask.Ledger.RevokeLapsed` | app/services/billing_sync_service.py:56-116 | The sweep leaves each user as their own lapse would, takes back exactly the lapsed grants no administrator holds, and counts them. |
| `BillingTask.Ledger.ReconcileBatch` | app/services/billing_sync_service.py:138-211 | Rows are asked about in turn up to the first refusal of credentials; each is moved as its reply says and counts once, as reconciled exactly when the answer was written; every sound user stays sound. |
| `BillingTask.BatchEach` | app/services/billing_sync_service.py:138-211 | Each row of a batch is moved by its own reply alone. |
| `NetworkAlerts.CapDecides` | app/services/network_alerts_service.py:53-70 | A row alerts exactly when it has fewer than 500 followers for every reporter beyond four, which is a count below its cap. |
| `NetworkAlerts.ResolveFollowerCounts` | app/services/network_alerts_service.py:73-129 | A row is resolved to its full count exactly where that is stored or was counted out below the cap. |
| `NetworkAlerts.CappedIsFull` | app/services/network_alerts_service.py:187-194 | Capped counting gives exactly the alerts of the unbounded definition, each with its true count. |
| `NetworkAlerts.ListingExact` | app/services/network_alerts_service.py:196-204 | Each section lists exactly its alerting rows, the direct follows most reported first and the others most influential first, then by pubkey; together they list every alert once. |
| `NetworkAlerts.NetworkAlertsFor` | app/services/network_alerts_service.py:146-226 | Both pages and truncation flags are those of the unbounded definition. |

## Left out

- SelfEntries.NothingToChange: `relay_key` is an uninterpreted function on relay spellings, so nothing is said about which URLs it identifies.
- Text: `strip` and `lower` are modelled on ASCII, not on all of Unicode.
- SelfEntries.EvaluateSelfMap: does not model `too_big_to_check`, nor how the upkeep of Scores is found; its status is an input.
- Billing.AbandonedMeans: speaks of the syncs that are recorded; an unsettled answer to a webhook leaves no record.
- Billing.RunSound: the choice among users, locks held by others and the order of a reconcile batch are not modelled; each user's steps are.
- BillingTask.Ledger.ReconcileBatch: takes its candidate rows as given; the query that selects and orders them is not modelled.
- PublishRun.Observer.ProcessUpload: an interrupted attempt that is redelivered sends the same events again, so it is not a step of its own; a run without scorecards is not modelled.
- RelayAudit.AuditRelay: how likely a sampled estimate is near the truth is not modelled; which estimate it is, is.
- NetworkAlerts.NetworkAlertsFor: muter counts, display only, and the ceiling on candidates are not modelled.
- SchedulerCycle.Cron.RunCycle: an exception while creating a request, which ends the cycle, is not modelled; nor is the leader lock.
- Float rounding: influences, cutoffs and deficits are reals.
- Neo4j, Postgres, Redis and websocket calls appear only as the state they change; the text of queries only through its result.
- Cryptography, the event transferer, the Flash client, plan catalogue, presets, NIP-05, short links, support tickets, routers, logging and timing.
- `in_pipeline_condition`, `backstop_due` and the other single-branch predicates on run rows.
