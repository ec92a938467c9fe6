# Femtocell agent: ingest pipeline and ACS, verified

A Dafny model of the two stateful cores of the Go agent, and of the identifier codec between them.

**Ingest.** Devices upload log files into a watch directory. The collector scans it, parses each
upload into events and remembers a mark (path, size, modification time) with the index of the
upload's last event. The worker drains events and marks, cuts the batch into bodies that suit the
outbox, and inserts each body together with the marks of the uploads that end in it. The outbox is
sent first in, first out. The ledger of marks is what the agent trusts after a restart.

**ACS.** Devices talk to the agent in sessions: they inform, ask for work, and answer. Each device
has a bounded task queue and at most one task in flight; results go to whoever waits for that
command; requests find their session by Inform, cookie or source address. Commands of the cloud
become tasks, and their outcomes are recorded so that a command polled again is not carried out again.

## How it is laid out

| files | what |
|---|---|
| `Wrappers`, `Telemetry` | shared values |
| `Identity` | canonical ids, and the device an upload's name leads back to |
| `Rules` | log lines to events, and their dedup keys |
| `Buffer`, `OutboxRuns` | the durable store: outbox, ledger, applied commands; whole lifetimes of the outbox |
| `Collector`, `CollectorLaws` | the scan; its bookkeeping and its progress |
| `Worker`, `WorkerLaws` | splitting and queueing a batch; where every mark ends up |
| `Ingest`, `Refinement` | all of the above as one system with crashes; undisturbed, its steps are the operations of its parts |
| `IngestLaws`, `ScanRuns`, `LedgerBounds` | its safety: the ledger, the bookkeeping, the listing |
| `ExactlyOnce`, `Recovery`, `Unledgered` | what the cloud ends up with, that every run can still get there, and what is lost without a ledger |
| `Intakes`, `LedgerComplete` | how often a file is taken in; that the ledger does not fall behind |
| `Cwmp`, `Session`, `SessionLaws` | messages, the store, one device's session; the fate of every task |
| `Contact`, `Inventory` | work gets to the device; what the ACS learns from it, and the way from an upload back to its row |
| `Await`, `AwaitLaws`, `Delivery` | results on their way to concurrent waiters; what an answer publishes and where it ends up |
| `Server`, `Fleet` | routing; devices and the ACS in any interleaving |
| `FleetLaws`, `Traffic` | what holds whatever devices send |
| `Isolation`, `IsolationLaws` | exactly when requests come home, and device isolation |
| `Commands`, `CommandTasks`, `RebootOnce` | the command loop; what commands ask and carry back; from a reboot command to the device at most once, over restarts |

Code that updates fields is a class whose methods are proved equal to functions on a value of its
state (`State()`, `View()`); the laws are proved of those functions and of the runs built from them.
What the agent cannot decide itself comes in as a parameter: which statement of a transaction or
chunk fails, what a visit to a file observes, whether a send succeeds, which goroutine runs next.

## Where the code and its own words differ

- The comment at `goagent/internal/cwmp/server.go:252-253` says a wait is registered before the caller
  goes on, so that a fast device cannot answer in between. `RequestAndAwait` queues the task first
  and registers afterwards. The result then goes to the shared channel; `AwaitLaws.NoResultIsDestroyed`
  covers that order too.
- The comment above `splitTelemetry` says that a part which cannot be split is refused only if it exceeds
  the whole cap. Under a cap of 1 to 7 bytes the limit is 0, nothing is split, and a whole batch is
  refused (`Worker.RefusesSplittableOnlyUnderTinyCap`). If it carries more than 5000 marks and a later
  chunk of their ledger write fails, marks are both persisted and handed back
  (`WorkerLaws.MarksConservedExactlyWhen`, `WorkerLaws.HalfWrittenBatch`).
- An upload is promised never to be lost. Without an attached ledger the events of a lifetime are all
  kept if and only if no part of a batch fails while it still holds events
  (`Unledgered.NothingIsLostExactlyWhen`); what is lost stays lost until the file is rewritten, removed
  or unlisted, or the agent starts anew (`Unledgered.LostStaysLost`).
- A result is promised never to be dropped for another waiter. All results stay in reach if and only if
  no send meets a wait that already returned or finds no room, no wait draws its result while another of
  the same command lies in its own channel, and nobody waits for just any result
  (`AwaitLaws.ResultsStayInReachExactlyWhen`). An id used twice while its first result is about can lose
  one (`AwaitLaws.RepeatedIdLosesAResult`); used again after its wait left, as the periodic snapshot
  does, it is safe (`AwaitLaws.ReusedIdIsOrderly`).
- Address routing is called exact for one device per address. For devices that share one, or show a
  cookie from before a restart, a request comes home if and only if its cookie names a session of
  this lifetime or no other device was the last to inform from its address
  (`Isolation.RequestsComeHomeExactlyWhen`); otherwise a parameter can be kept for the wrong device
  (`IsolationLaws.OldCookieMisfilesAParameter`).

## Model

| member | source | states |
|---|---|---|
| Identity.DecodeEncode | goagent/internal/cwmp/deviceid.go:13-16 | decoding an encoded component gives what decoding the component itself gives, so only its own escapes are ever confused with encoded hyphens |
| Identity.EncodeDecode | goagent/internal/cwmp/deviceid.go:13-16 | re-encoding a decoded component restores its encoding |
| Identity.CanonicalIdCollision | goagent/internal/cwmp/deviceid.go:13-16 | two devices share a canonical id if and only if their three components agree up to literal escapes |
| Identity.CanonicalIdInjective | goagent/internal/cwmp/deviceid.go:13-16 | on escape-free components the canonical id determines the device |
| Identity.PlainIdIs | goagent/internal/cwmp/deviceid.go:13-16 | hyphen-free components stand as they are, in the order OUI, product class, serial, between two hyphens |
| Identity.HyphenIsEscaped | goagent/internal/cwmp/deviceid.go:13-16 | a hyphen inside a component becomes %2D |
| Identity.LogNamePair | goagent/internal/collector/collector.go:572-591 | the OUI and serial are read back from an upload name of the periodic shape |
| Identity.DumpNamePair | goagent/internal/collector/collector.go:572-591 | a dump name carries the pair before its second underscore |
| Identity.OuiPrefix | goagent/internal/collector/collector.go:545-563 | the prefix test on a stored id holds exactly for devices of that OUI |
| Identity.ResolveDeviceID | goagent/internal/collector/collector.go:545-563 | the loop returns the first stored device that answers to the pair in the name, or none |
| Identity.ResolvedIsTheFirstAnswer | goagent/internal/collector/collector.go:545-563 | an upload resolves to the first listed record with its serial and its OUI before a hyphen in the id, and to none exactly when none is listed or the name carries no pair |
| Identity.UploadResolvesToItsDevice | testsuite/loggen/loggen.go:109-116 | the Log and ErrorLog names built for a stored device resolve to exactly its canonical id when no other stored device shares OUI and serial |
| Identity.SiblingsShareBucket | goagent/internal/collector/collector.go:599-611 | the two slices of one upload cycle get the same occurrence bucket, the date in their names, whatever the file system says |
| Rules.LineEvents | goagent/internal/rules/engine.go:102-146 | a line yields the event of its first matching rule, else an unclassified warning if it sounds alarming, else nothing |
| Rules.ApplyLine | goagent/internal/rules/engine.go:102-125 | the rule loop with its flag refines that classification |
| Rules.Apply | goagent/internal/rules/engine.go:102-125 | the whole loop refines the line-by-line parse |
| Rules.EventsTellOfTheirLines | goagent/internal/rules/engine.go:102-141 | every event of a parse tells of one trimmed line of the upload: device, time, tag, raw text, and type, severity and message of the first rule meant for it or of the alarm fallback |
| Rules.EveryTellingLineHasItsEvent | goagent/internal/rules/engine.go:102-146 | every line a rule is meant for, or that holds one of the four alarming words, has its event |
| Rules.KeysTellEventsApart | goagent/internal/rules/engine.go:127-165 | two events of any two parses share a dedup key if and only if device, type, bucket and raw line agree |
| Rules.ParseConcat | goagent/internal/rules/engine.go:102-125 | parsing distributes over concatenation of lines |
| Rules.ReparseSameEvents | goagent/internal/rules/engine.go:127-141 | a re-parse at another time differs in timestamps only |
| Rules.ReparseSameKeys | goagent/internal/rules/engine.go:161-165 | a re-parse yields the same dedup keys |
| Rules.OverlapAddsNoKey | goagent/internal/rules/engine.go:148-165 | a slice of already parsed lines adds no dedup key, whenever it is parsed |
| Rules.KeyIdentifiesOccurrence | goagent/internal/rules/engine.go:161-165 | without hash collisions and bars in the fields, keys are equal if and only if device, type, bucket and line are |
| Buffer.EvictionIsShortest | goagent/internal/buffer/sqlite.go:204-238 | what is evicted makes room, and no shorter oldest-first run would |
| Buffer.EvictOldest | goagent/internal/buffer/sqlite.go:204-238 | the walk over ids and lengths with one delete keeps the same rows as dropping the head one row at a time |
| Buffer.EnqueuedMeetsCap | goagent/internal/buffer/sqlite.go:165-195 | from any state a capped enqueue ends within the cap, with the new row behind the longest suffix that fits |
| Buffer.EnqueuedLeaves | goagent/internal/buffer/sqlite.go:165-195 | a committed enqueue leaves its row last under a fresh number and the last mark of each path in the ledger, and changes nothing else of them |
| Buffer.PayloadSums | goagent/internal/buffer/sqlite.go:241-245 | the payload is the sum of the bodies' bytes |
| Buffer.EnqueuedIsValid | goagent/internal/buffer/sqlite.go:165-195 | row numbers stay ascending |
| Buffer.Buffer.EnqueueWithMarks | goagent/internal/buffer/sqlite.go:165-195 | row, eviction and marks happen together; a refused or failed enqueue changes neither outbox nor ledger |
| Buffer.Buffer.Drain | goagent/internal/buffer/sqlite.go:274-316 | sends rows in order, removes exactly those sent and deleted up to the first failure, and tells which the cloud received |
| Buffer.FaultlessDrainDelivers | goagent/internal/buffer/sqlite.go:274-316 | a drain whose sends and deletes succeed empties an outbox of up to 100 rows and delivers all its telemetry |
| Buffer.Buffer.MarkFTPIngested | goagent/internal/buffer/ftp_ledger.go:62-67 | the chunked write is one in-order upsert; on a failure exactly the chunks before it were applied |
| Buffer.Buffer.ForgetFTPIngested | goagent/internal/buffer/ftp_ledger.go:70-84 | removes exactly the listed paths, or those of the chunks before the failing one |
| Buffer.Buffer.UpsertMarks | goagent/internal/buffer/ftp_ledger.go:87-102 | one chunk is the upsert of its marks |
| Buffer.Buffer.LoadFTPIngested | goagent/internal/buffer/ftp_ledger.go:35-51 | loads the whole ledger or fails |
| Buffer.WrittenIsPrefix | goagent/internal/buffer/ftp_ledger.go:106-122 | the chunks cover all items once, or stop exactly at the first failing chunk |
| Buffer.UpsertConcat | goagent/internal/buffer/ftp_ledger.go:87-102 | upserting chunk after chunk is upserting the whole |
| Buffer.UpsertLastWins | goagent/internal/buffer/ftp_ledger.go:53-60 | the last mark of a path wins |
| Buffer.UpsertUntouched | goagent/internal/buffer/ftp_ledger.go:53-60 | a path without a mark keeps its entry |
| OutboxRuns.FlushIsDrain | goagent/internal/buffer/sqlite.go:274-316 | in the history a flush removes and delivers exactly the rows that the buffer's drain does |
| OutboxRuns.StepRecorded | goagent/internal/buffer/sqlite.go:165-316 | every enqueue, eviction, drain and crash keeps the queue in commit order, within the cap, and deliveries in order |
| OutboxRuns.EveryRowAccountedFor | goagent/internal/buffer/sqlite.go:165-316 | over every lifetime each committed row is queued once, drained or evicted, exactly one of them; a drained telemetry row was delivered |
| OutboxRuns.NothingOvertakes | goagent/internal/buffer/sqlite.go:274-316 | every delivery of a row comes after all deliveries of earlier telemetry rows, none of which is still queued |
| Collector.FTPBatch.MarksIn | goagent/internal/collector/collector.go:138-146 | the loop selects exactly the marks whose last event lies in the range |
| Collector.Collector.UseIngestLedger | goagent/internal/collector/collector.go:158-167 | the loaded ledger becomes the seen set; a failed load attaches nothing |
| Collector.Collector.DrainFTP | goagent/internal/collector/collector.go:259-265 | hands all events with their marks over at once |
| Collector.Collector.Requeue | goagent/internal/collector/collector.go:271-278 | marks handed back are remembered |
| Collector.Collector.TakeRequeued | goagent/internal/collector/collector.go:282-298 | exactly the uploads handed back at their present stamp become unseen, and no mark stays handed back |
| Collector.Collector.MarkSeen | goagent/internal/collector/collector.go:464-481 | events are queued with a mark at their last index; an upload without events is marked at once |
| Collector.Collector.VisitEntry | goagent/internal/collector/collector.go:325-392 | one file's step: left alone, deferred, retried, given up, or parsed |
| Collector.Collector.PersistScan | goagent/internal/collector/collector.go:421-448 | rotated paths leave ledger and marks, pending marks are written, for every chunk failure |
| Collector.Collector.KeepPresent | goagent/internal/collector/collector.go:450-458 | the filter compacts the marks in place: the first slots hold exactly the listed ones in order |
| Collector.Collector.ScanFTP | goagent/internal/collector/collector.go:319-414 | a whole scan is the fold of its visits, the clean-up and the ledger writes |
| CollectorLaws.UploadsAre | goagent/internal/collector/collector.go:327-335 | a scan lists the files, not directories, named like the periodic feed |
| CollectorLaws.SeenUploadIsLeftAlone | goagent/internal/collector/collector.go:336-350 | a seen file is left alone between checks, and at a check unless its stamp is another one |
| CollectorLaws.UnknownDeviceWaits | goagent/internal/collector/collector.go:353-376 | a file of an unknown device waits one poll more and nothing is queued |
| CollectorLaws.LookupsAreSpaced | goagent/internal/collector/collector.go:353-358 | after 30 polls a waiting file is looked up on every thirtieth only |
| CollectorLaws.FailingParseIsGivenUpAtFive | goagent/internal/collector/collector.go:383-397 | a failing parse is tried again until its fifth failure, then the file is seen without events |
| CollectorLaws.ParsedUploadIsQueued | goagent/internal/collector/collector.go:464-481 | a parsed upload is seen, its events queue behind all others, and with a ledger its mark stands at the last of them or is pending |
| CollectorLaws.PendingMarksAreLetGo | goagent/internal/collector/collector.go:421-448 | pending marks of listed files are written and let go unless a chunk fails |
| Intakes.TakenInAtMostOnce | goagent/internal/collector/collector.go:282-298 | over every run a version in place is taken in at most once, plus once for each restart that does not find it in the ledger and each time its mark is handed back |
| ScanRuns.BookkeepingAlways | goagent/internal/collector/collector.go:319-481 | in every reachable state seen is apart from waiting, retries stay below 5, and mark ends increase and stay within the events |
| ScanRuns.EveryScanEndsWithinItsListing | goagent/internal/collector/collector.go:393-414 | whenever a scan of a run ends, seen, deferred and failing paths lie within what that scan listed |
| CollectorLaws.OnePoll | goagent/internal/collector/collector.go:319-414 | a scan moves each listed file by one step of its own life, whatever else is listed |
| CollectorLaws.UnseenTakenIn | goagent/internal/collector/collector.go:48-57 | an unseen file that resolves and parses is seen within the wait its deferral count allows, at most 30 scans |
| CollectorLaws.RewriteTakenIn | goagent/internal/collector/collector.go:66-71 | a seen file rewritten under its name is taken in again within 30 scans |
| ScanRuns.TakenInFromEveryReachableState | goagent/internal/collector/collector.go:325-392 | from every reachable state, 30 scans that find a file unchanged, creditable and parseable include one that records it |
| Worker.SplitTelemetry | goagent/internal/worker/worker.go:183-198 | the recursion that appends to the collected parts refines the plain split |
| Worker.SplitIsExact | goagent/internal/worker/worker.go:183-198 | for every body size function the parts are contiguous, ordered, carry what they cover, metrics and alarms ride first, and a part over the limit has at most one event |
| Worker.SplitConcatenates | goagent/internal/worker/worker.go:183-198 | the parts' events concatenate to the batch |
| Worker.RefusesSplittableOnlyUnderTinyCap | goagent/internal/worker/worker.go:167-198 | the outbox refuses a part of several events if and only if the cap is 1..7 bytes and the batch exceeds it |
| Worker.PartsTakeAnEighth | goagent/internal/worker/worker.go:167-198 | under a cap of 8 bytes or more a part of several events takes at most an eighth of it |
| Worker.Worker.EnqueuePart | goagent/internal/worker/worker.go:142-162 | one part is queued with its marks, or refused with its marks recorded or handed back, or ends the batch with all undecided marks handed back |
| Worker.Worker.EnqueueTelemetry | goagent/internal/worker/worker.go:139-165 | the whole loop leaves outbox, ledger, handed-back marks and answer of that fold |
| Worker.Worker.PushTier | goagent/internal/worker/worker.go:113-131 | a push takes the queued events first, persists or hands back their marks, and sends the outbox only if something was queued |
| WorkerLaws.PartKeeps | goagent/internal/worker/worker.go:142-162 | each part keeps: marks so far decided once, events so far in bodies, no mark persisted early |
| WorkerLaws.MarksAreConserved | goagent/internal/worker/worker.go:139-165 | for every pattern of successes, refusals and failures each drained mark is persisted or handed back, exactly one, and persisted only after all its upload's events |
| WorkerLaws.MarksConservedExactlyWhen | goagent/internal/worker/worker.go:139-165 | that law holds if and only if a tiny-cap refusal is not half recorded |
| WorkerLaws.HalfWrittenBatch | goagent/internal/worker/worker.go:149-156 | such a half recorded refusal exists: 5001 marks whose second chunk fails |
| Refinement.PollIsScan | goagent/internal/collector/collector.go:319-448 | an undisturbed poll of the system leaves collector and ledger as the collector's own scan does |
| Refinement.BatchIsEnqueued | goagent/internal/worker/worker.go:139-165 | an undisturbed batch leaves outbox, ledger and handed-back marks as enqueueTelemetry does |
| Refinement.SendsAreDrain | goagent/internal/buffer/sqlite.go:274-316 | undisturbed sends leave the outbox and deliver as the buffer's drain does |
| IngestLaws.StepKeeps | goagent/internal/collector/collector.go:319-481 | every step of directory, scan, worker, send and crash keeps the pipeline's invariant |
| IngestLaws.LedgerIsSound | goagent/internal/collector/collector.go:319-481 | over every run, a ledger entry at the file's current stamp means every event of it was committed or dropped as over-cap, or it was given up on |
| IngestLaws.NothingGetsStuck | goagent/internal/collector/collector.go:259-298 | over every run with a ledger, a seen file at its current stamp is done, queued with its mark, in the undecided batch, or handed back and unseen at the next scan |
| ExactlyOnce.DeliversExactlyTheOwedKeys | goagent/internal/worker/worker.go:113-165 | with a fixed directory every settled run delivers a dedup key if and only if parsing each file once yields it |
| Recovery.Recovers | goagent/internal/collector/collector.go:158-167 | from every sound state of an uncapped agent a restart, a poll, a push and a drain without failures settle |
| Recovery.EveryRunCanStillDeliverExactly | goagent/internal/worker/worker.go:113-165 | after every run over a fixed directory that gave up on nothing and evicted or dropped nothing, crashes and failed inserts included, some continuation delivers exactly the keys of the files |
| ExactlyOnce.UnledgeredPollQueues | goagent/internal/collector/collector.go:464-481 | an agent whose ledger load failed queues events without marks |
| ExactlyOnce.UnledgeredInsertFailureLoses | goagent/internal/collector/collector.go:478-480 | and then one failed part, under any cap and whatever fails it, loses them while the file stays seen and nothing is handed back |
| Unledgered.NothingIsLostExactlyWhen | goagent/internal/worker/worker.go:139-165 | over every run each event taken in since the start is settled, queued, undecided or lost, and none is lost if and only if no part failed with events |
| Unledgered.UnledgeredFileIsHeld | goagent/internal/collector/collector.go:464-481 | over every run without a ledger a seen file's events are committed, dropped as over-cap, queued, undecided or lost, and not lost if no part failed |
| Unledgered.FailedPartLosesTheRest | goagent/internal/worker/worker.go:157-161 | without a ledger a failing part takes the rest of the batch with it and hands nothing back, in every reachable state, for any cap and failure |
| Unledgered.LostStaysLost | goagent/internal/collector/collector.go:331-346 | a lost event stays lost, and its file seen, until the file is rewritten, removed or unlisted or the agent restarts |
| LedgerBounds.FirstScanBoundsLedger | goagent/internal/collector/collector.go:405-448 | over every run, after the first scan of a lifetime whose forget succeeds the ledger names only listed paths |
| LedgerComplete.SeenUploadsAreMarked | goagent/internal/collector/collector.go:464-481 | over every run with a fixed directory the mark of each seen file is in the ledger, pending, queued, undecided or handed back |
| LedgerComplete.SettledLedgerIsTheDirectory | goagent/internal/collector/collector.go:158-167 | a settled agent that wrote its marks has every file in the ledger at its stamp, so a restart takes nothing in again |
| Cwmp.Store.CacheParams | goagent/internal/cwmp/session.go:91-93 | the loop caches every parameter under the one id, the last value of a name winning |
| Cwmp.CachedUnderOneId | goagent/internal/buffer/cwmp_store.go:32-37 | caching under one device leaves every other device's parameters alone |
| Inventory.InformRecordsItsDevice | goagent/internal/cwmp/session.go:79-90 | an Inform records its device with address, product class and serial and touches no other row |
| Inventory.ReportedValuesAreKept | goagent/internal/cwmp/session.go:91-93 | the last value of each name that an Inform or a read answer reports is kept for its device |
| Inventory.OtherTablesFollow | goagent/internal/cwmp/session.go:116-151 | a name answer makes a known device's tree known, a transfer is reported, as major exactly when it failed, and only Informs change rows |
| Inventory.EveryInformedDeviceHasItsRow | goagent/internal/buffer/cwmp_store.go:20-30 | over every run, whatever devices send, a device whose Inform was handled has the row of its last one |
| Inventory.UploadOfInformedDeviceResolves | goagent/internal/collector/collector.go:545-563 | over every run from an empty store the uploads of an informed device resolve through that table to exactly it |
| Session.Session.EnqueueTask | goagent/internal/cwmp/session.go:167-173 | accepts a task at the tail unless 256 are queued |
| Session.Session.DeliverResult | goagent/internal/cwmp/session.go:199-214 | a result goes to its waiter's empty channel, else to the shared one if there is room, else nowhere |
| Session.Session.WaitFor | goagent/internal/cwmp/session.go:219-232 | registers a fresh private channel for the command |
| Delivery.WaitGetsItsOwnChannel | goagent/internal/cwmp/session.go:219-232 | a wait gets an empty channel of its own and every other keeps its |
| Delivery.LeftWaitGetsNothing | goagent/internal/cwmp/session.go:227-231 | after a wait left, its command's results go to the shared channel |
| Session.Session.Finish | goagent/internal/cwmp/session.go:179-188 | publishes the in-flight task's result under its own command id, clears it, and hands out the next task |
| Delivery.AnswerReachesItsWait | goagent/internal/cwmp/session.go:179-214 | the answer of a named task is in the channel of the wait registered for it, else in the shared channel if there is room |
| Delivery.AnswerSaysWhatTheDeviceSaid | goagent/internal/cwmp/session.go:128-188 | the published result carries the read's values, the write's status, the walk's names or the fault's text under the task's id, and other messages publish nothing |
| Delivery.PublishedResultsAreKept | goagent/internal/cwmp/session.go:179-214 | over every life in which nobody receives, up to 256 published results lie in the channels, each once |
| Session.Session.RequeueOrphanedTask | goagent/internal/cwmp/session.go:237-249 | an unanswered task goes to the tail unless it is anonymous, a reboot, or the queue is full |
| Session.Session.Next | goagent/internal/cwmp/session.go:253-282 | hands out the oldest task as its call and puts it in flight |
| Contact.AcceptedWhenThereIsRoom | goagent/internal/cwmp/session.go:167-173 | a task is accepted at the tail of a queue of fewer than 256 and dropped by a full one |
| Contact.AskingGetsTheOldest | goagent/internal/cwmp/session.go:253-282 | a device that asks is called for the oldest task with its paths, writes and key, and the task is then in flight |
| Contact.AskingEmptiesTheQueue | goagent/internal/cwmp/session.go:253-282 | a device that keeps asking is handed the whole queue in order |
| Session.Session.OnInform | goagent/internal/cwmp/session.go:79-104 | names the session after the device, stores device and parameters under that name, and queues first-contact reads |
| Contact.FirstContactIsRead | goagent/internal/cwmp/session.go:95-102 | on first contact the tree is walked and the catalogue read if there is one; a known device is left alone |
| Session.Session.Handle | goagent/internal/cwmp/session.go:44-77 | state, reply and store after each kind of message |
| Contact.OtherMessagesChangeNoWork | goagent/internal/cwmp/session.go:44-77 | every envelope's id is echoed, and messages that neither answer nor ask change no work |
| SessionLaws.HandledIs | goagent/internal/cwmp/session.go:44-77 | every message comes down to nothing, a hand-out, an Inform, or finishing the task in flight |
| SessionLaws.EveryTaskAccountedFor | goagent/internal/cwmp/session.go:44-77 | for every device behaviour, and tasks queued in the middle of an Inform too, each accepted task is in exactly one of queued, in flight, finished, discarded, overwritten; hand-outs follow the pushes, which merge the accepted tasks in order with re-queued orphans; only named non-reboot work is re-queued, and it is discarded only with 256 tasks queued; one result per finished named task |
| SessionLaws.NothingOverwrittenExactlyWhen | goagent/internal/cwmp/session.go:253-256 | a task is overwritten in flight if and only if the device asked for work before answering while more was queued |
| SessionLaws.CompliantDeviceLosesNothing | goagent/internal/cwmp/session.go:167-282 | a device that answers first: queued, in flight, finished and discarded together are the accepted tasks |
| SessionLaws.AtMostOneResultPerTask | goagent/internal/cwmp/session.go:179-188 | for every device behaviour a command publishes no more results than tasks accepted under its id |
| SessionLaws.AtMostOneHandOutPerReboot | goagent/internal/cwmp/session.go:237-249 | for every device behaviour a reboot is handed out no more often than accepted |
| Await.StepRoutes | goagent/internal/cwmp/server.go:240-271 | every atomic step of deliveries and waits keeps results in channels and hands of their own command |
| Await.AwaitReturnsItsOwn | goagent/internal/cwmp/server.go:240-271 | in every interleaving, repeated ids and anonymous waits included, a wait for a command returns only its result |
| AwaitLaws.EveryResultAccountedFor | goagent/internal/cwmp/session.go:190-214 | in every interleaving each published result is carried, shared, in one private channel, returned, taken anonymously or dropped, exactly one of them |
| AwaitLaws.ResultsStayInReachExactlyWhen | goagent/internal/cwmp/server.go:240-271 | in every interleaving, repeated ids included, no result is stranded, dropped or taken by another if and only if no step is one of four losing ones |
| AwaitLaws.OrderlyLosesNothing | goagent/internal/cwmp/session.go:199-232 | no step loses a result if each is published while none of its command is about, no wait registered for it has returned, the shared channel has room for the undelivered, and nobody waits anonymously |
| AwaitLaws.NoResultIsDestroyed | goagent/internal/cwmp/server.go:240-271 | in such runs a result is on its way, returned to its command, or left to a wait that timed out |
| AwaitLaws.RepeatedIdLosesAResult | goagent/internal/cwmp/session.go:199-214 | an id published twice at once: a run that strands the second result although no wait timed out |
| AwaitLaws.ReusedIdIsOrderly | goagent/internal/collector/collector.go:245-255 | an id used again after its wait returned and left is safe |
| Delivery.UndisturbedDelivery | goagent/internal/cwmp/session.go:199-214 | an undisturbed delivery of the concurrent model leaves the mail that an answered session leaves |
| Delivery.RegisteredWaitReturnsTheAnswer | goagent/internal/cwmp/server.go:240-271 | a wait registered before an undisturbed delivery returns that very result |
| Delivery.EarlyAnswerIsDrawn | goagent/internal/cwmp/server.go:259-265 | a result that came before its wait is drawn from the shared channel when it is next |
| Server.Server.RouteSession | goagent/internal/cwmp/server.go:167-195 | the session found or created by Inform, then cookie, then source address, then provisionally, and what is remembered |
| Server.Server.DeviceSession | goagent/internal/cwmp/server.go:199-208 | the one session under a device id, created on demand |
| Server.Server.HandleLocked | goagent/internal/cwmp/server.go:117-139 | only the routed session and the store change; the cookie is that session's device |
| Server.Server.ServeHTTP | goagent/internal/cwmp/server.go:95-144 | a request is routed, then handled in the session it was routed to |
| Server.Server.Enqueue | goagent/internal/cwmp/server.go:235 | a task reaches only the session under the given id |
| Contact.QueuedIsAtTheTail | goagent/internal/cwmp/server.go:235 | a queued task is at the tail of its device's queue, opened if need be, and in no other |
| Contact.OpenedIsFresh | goagent/internal/cwmp/server.go:199-217 | a session opened for a device is at its known address, with the server's catalogue and without work |
| Contact.QueuedTaskIsTheNextCall | goagent/internal/cwmp/server.go:95-144 | once a task is queued for an idle session, its device's next request for work is answered with that task's call |
| Fleet.HandlingIsServing | goagent/internal/cwmp/server.go:117-139 | when the agent queues nothing meanwhile, a handling step of the fleet is what the server does under the session's lock |
| FleetLaws.HandleKeeps | goagent/internal/cwmp/session.go:44-77 | a request is answered with a call exactly when a task leaves the queue, and it is that task's call; reboots are added only by the agent; the device changes only by Inform |
| Traffic.CallsAreHandOuts | goagent/internal/cwmp/server.go:95-144 | for every run, whatever devices send, the calls under a key are exactly its session's hand-outs, in order |
| Traffic.RebootsSentAtMostAsQueued | goagent/internal/cwmp/session.go:237-282 | whatever devices send, under each key and summed over all of them, a reboot is sent no more often than queued |
| Traffic.RequestFindsItsDeviceExactlyWhen | goagent/internal/cwmp/server.go:162-195 | after every run, leftover cookies included, a request with its own cookie or none reaches its device's session if and only if the cookie names a session of this lifetime or the device was the last to inform from the address |
| Isolation.RequestsComeHomeExactlyWhen | goagent/internal/cwmp/server.go:162-195 | over every run of truthful devices all requests reach their own session, or an idle one, if and only if each is homing when it arrives |
| Isolation.CompliantDevicesAreHoming | goagent/internal/cwmp/server.go:18-26 | devices that inform first and echo their cookie, or have an address of their own, are homing, whatever cookies they kept from before a restart |
| Isolation.StepInPlace | goagent/internal/cwmp/server.go:95-208 | every step of truthful homing devices keeps sessions, routed requests and calls with their device |
| IsolationLaws.SessionsKeepTheirDevice | goagent/internal/cwmp/server.go:199-208 | over every interleaving of homing devices a session under a device id has that DeviceID; a provisional one has no device and no work |
| IsolationLaws.CallsReachTheirDevice | goagent/internal/cwmp/server.go:95-144 | over every interleaving of homing devices every call a device receives carries the paths, writes and key of a task queued under its own id, or is the ACS's own first-contact read |
| IsolationLaws.ParametersComeFromTheirDevice | goagent/internal/cwmp/session.go:79-136 | over every interleaving of homing devices a parameter kept for a device was kept before or came in a message of that device |
| IsolationLaws.OldCookieMisfilesAParameter | goagent/internal/cwmp/server.go:176-185 | a run after a restart in which another device informs from the shared address and a parameter of the first, sent with its old cookie, is kept for the second |
| Commands.WriteAppliedExactlyWhen | goagent/internal/worker/worker.go:296-331 | a write is reported applied if and only if the device took it and it waits for a reboot or every expected value was read back |
| Commands.AppliedMeansAnswered | goagent/internal/worker/worker.go:287-344 | no command is reported applied unless it queued a task under its own id and the device answered it, and its read-back too if it made one |
| CommandTasks.CommandAsksForWhatItSays | goagent/internal/worker/worker.go:287-340 | wherever a command stands in the polls the tasks queued for it stand together: its own writes under its id, after an accepted write a read of exactly the expected paths, a query's paths, a reboot |
| CommandTasks.WritesAreExpected | goagent/internal/worker/worker.go:387-397 | without values to verify, a write is verified against the last value it writes to each path |
| CommandTasks.AckCarriesBack | goagent/internal/worker/worker.go:264-279 | each command not merely acknowledged again is acknowledged once, with the query's values, or the values read back and exactly the paths that differ |
| CommandTasks.OtherAppliedExactlyWhen | goagent/internal/worker/worker.go:332-343 | a query or reboot is reported applied if and only if it was answered; an unknown device or kind fails |
| Commands.Commander.HandleCommands | goagent/internal/worker/worker.go:259-285 | the poll loop refines the run over recorded outcomes |
| Commands.CarriedAtMostOncePlusFaults | goagent/internal/worker/worker.go:264-279 | over all polls a command is carried out once plus once per failure to read or record its outcome, at most |
| Commands.CarriedExactlyOnce | goagent/internal/worker/worker.go:264-279 | without such failures a polled command with no recorded outcome is carried out exactly once |
| Commands.AcksAgree | goagent/internal/worker/worker.go:264-279 | without such failures all acknowledgements of a command are the same |
| Commands.RecordedOutcomeStands | goagent/internal/buffer/sqlite.go:318-337 | while it can be read, a recorded outcome stays as it is, is what every later acknowledgement says, and keeps its command from being carried out |
| RebootOnce.RebootsAskedAtMostCarried | goagent/internal/worker/worker.go:335-339 | reboots are queued no more often than their command is carried out |
| RebootOnce.RebootSentAtMostOncePlusFaults | goagent/internal/worker/worker.go:259-285 | whatever devices do and however often the agent restarts, at any point, a command's reboot is sent at most once in all, plus once per failure to read or record its outcome |

## Left out

- SQLite itself (pragmas, vacuum, page reclaim): tables are sequences and maps, a transaction takes effect whole or not at all. Store writes whose errors the code ignores are taken to succeed.
- Ledger chunks and other goroutines: the chunks of one ledger call, and the statements of one transaction, are one step of the whole system; that a failing chunk leaves a prefix is modelled.
- Stamps: a rewrite gives a file a stamp it never had, as the code itself assumes; a rewrite that keeps size and modification time is not seen by the agent either.
- A send that fails after the cloud received the body counts as not sent; the cloud's own deduplication is not part of this model.
- HTTP, sockets, connection requests and their digest authentication, cloud retries and timers: only whether a send succeeds and when a wait times out.
- SOAP encoding and gzip or tar reading: messages arrive decoded, a parse yields lines or fails. An undecodable request is refused before it touches any state.
- Regular expressions, case folding and hashes are functions given as parameters; only `Rules.KeyIdentifiesOccurrence` asks the hashes not to collide.
- The readers of parked archive uploads, which nothing calls.
- Metric and alarm mapping, inventory, snapshots, enrolment, configuration, manifest, log redaction: straight-line mapping.
- Value formatting and comparison of read-backs: a comparison given as a parameter. Acknowledgement details are constructors, not their English text.
- Device rows keep address, product class and serial; manufacturer, software version and times are not kept. A transfer event keeps device, severity, file and fault code, not its message text.
- The writable bits of single names: only that a device's tree is known is kept.
- CWMP events are taken from the store before they are queued and may be lost with the process; only upload events have the no-loss promise.
- Await: `Server.Await` is the step machine of module `Await`, where every other goroutine may act between two steps; a sequential method could not show that.
- IsolationLaws.CallsReachTheirDevice: speaks of one lifetime of the server and of truthful devices, which speak from their own address in their own name; what holds without that is in `Traffic`.
- ExactlyOnce.DeliversExactlyTheOwedKeys: asks that nothing was evicted, dropped as over-cap or given up on, which the code allows, and that an upload is always credited to the same device.
- Collector.Collector.PersistScan: the event marks are filtered into a new sequence, and no slice is shared between goroutines; the source reuses their backing array.
- Recovery.Recovers: is for an agent without a byte cap, since under one the push may evict.
- Commands: a timed-out command is recorded as failed although its task may still run later; the model records it the same way and claims nothing more.
