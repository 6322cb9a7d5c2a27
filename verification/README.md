# Browser relay: the state machines, verified

A Dafny model of the broker, the reconnecting shim and the cookie bridge, with proofs of what they promise. The parts that
update fields in place are classes with those fields; each method is proved equal to a step on the object's value, and the
theorems are about all runs of those steps, with everything outside (Brave, Chrome, pipes, timers, the file system) free to
move between any two of them. Parsers and codecs are loops proved against what their text means. `dafny verify dfyconfig.toml`
checks the whole project.

## What is modelled

**Cookie replication** (`Cookies`, `ImporterState`, `Importer`, `BraveReplication`, `Replication*`, `StoreAgreement`, `CookieLives`,
`RemovedForGood`, `StateFile`, `SavedRemovals`, `StrandedRun`, `PurgeRuns`, `RestartRuns`, `KeyedParams`, `BrokerHabits`, `MergeLaw`, `Admission`, `JustifiedWrites`, `ListRemovals`, `CookieKeys`, `Masking`). `ImporterState` is the importer as a value: snapshot,
managed, pending deletions, tombstones, staging, job queue, running job, state file. A step is what runs between two awaits; a
queued apply is a start, sends, refusals and a finish or failure. `BraveReplication` puts it together with a Brave that has a
memory jar, a disk jar with a bounded commit delay, an inbox of calls that may be applied after the broker gave up on them,
crashes that lose what was not committed, late 'down' reports, site writes, and broker deaths at any moment, with whatever state
file there is then. The results: a refinement to the simple store of accepted instructions, deletions that survive crashes, tombstones dropped only
when the deletion is on disk, purge and masking coverage, deletions that name the cookie that was synced, the merge law of full syncs and deltas, and a justification for every
cookie ever sent to Brave.

**The way from Chrome** (`Policy`, `Domains`, `Verdicts`, `Batching`, `Bridge`, `BridgeSteps`, `BridgeConvergence`). Chrome's jar and its delayed change
events, the extension with its superseding full reads and buffered deltas, one FIFO channel, and the importer. With fixed
settings the broker's cookies converge to those of Chrome that sync. `ChromeToBrave` (with `LandedSync`) runs both halves
together, on one broker and one clock: Brave ends with Chrome's cookies.

**The CDP multiplexer** (`CdpMessages`, `ProxySteps`, `ProxyInvariant`, `ProxyRouting`, `ProxyIsolation`, `ProxyEvents`, `CdpProxy`), **the session
registry** (`Session*`), **the shim** (`Shim*`) and **the supervisor** (`Supervisor*`, `BraveSupervisor`): one step per event handler
or continuation, and theorems over all event sequences.

**Codecs and budgets** (`Text`, `CommandLine`, `Streams`, `Decoders`, `Csv`, `Budget`).

## Where the code and its promises part

- A cookie that replaces a longer-lived one and expires before the next launch is dropped by that launch's apply without a
  deletion (`src/cookie-bridge/importer.js:320-327`), so the older value stays in Brave. Brave refusing a cookie or a deletion
  does the same (`src/cookie-bridge/importer.js:521-526`, `596`). Such a key is called stranded. Brave then agrees with the store
  on it if and only if that older value is no longer alive (`ReplicationTheorems.SimpleStoreRefined`; `StrandedRun` is a run on
  which it is); if no accepted cookie of the key ever expires before the one it replaces, none is
  (`ReplicationTheorems.LengtheningAgrees`), and any two cookies of which the later expires first can strand the key
  (`StrandedRun.ShorteningStrands`).
- A broker that dies knows afterwards exactly the keys of its state file (`RestartRuns.RestartKnowsTheFile`). The file is written
  after the awaited apply (`src/cookie-bridge/importer.js:233-241`, `292-299`), a write may be refused (`676-680`), and a finished
  purge deletes it (`385-396`). A key it lacks is forgotten: a value on Brave's disk comes back, and it is neither masked, purged,
  set nor deleted until a message mentions it (`RestartRuns.ForgottenUntilMentioned`; `StaleFileRun` and `PurgeRestartRun` are two such
  runs). A removal outlives a restart if and only if the file has it (`RemovedForGood.RestartCarries`). With nothing left to save
  the file is exactly what the broker knows, unless there is none after a purge (`StateFile.FileIsCurrent`); so a saved removal
  holds over every restart until a message mentions the key or a purge runs (`SavedRemovals.SavedRemovalHolds`). After a finished
  purge and the next bridge's arrival, a deletion can be owed with no file and nothing marked for saving
  (`SavedRemovals.CleanWithoutFileRun`).
- A purge is to expire in Brave every cookie the bridge has put there (`src/cookie-bridge/importer.js:359-366`), but its job reads
  its list when it starts (`383-386`), and an apply ahead of it takes what it applied out of that list (`598-605`). If the Brave that
  took it dies before its disk has the deletion, the purge can finish on the next one with the value alive
  (`PurgeRuns.PurgeMissesRun`). Nothing else is left but an orphan and a value synced, or removed again, since
  (`ReplicationTheorems.PurgeCompletes`), and it goes with the launch's own apply (`PurgeRuns.PurgeSettles`).
- The comment in `src/cookie-bridge/importer.js:264-265` says the always-allow list never lets a deletion reach a cookie the
  bridge did not put into Brave. The code asks whether the cookie is managed, sent or not
  (`ListRemovals.ListReachesUnsent`), so the comment fails for a managed cookie that no job had sent; before the
  first apply, exactly for one whose last instruction was to set it: synced and removed before Brave was up
  (`ListRemovals.RemovedBeforeAnyApply`).
- Two initializes in flight when a broker dies: only the newest is sent again, so the older one is never answered, and a newest
  that had been answered is answered twice (`src/shim.js:406-423`). At rest every uncancelled request has one answer, plus one if it
  was sent again so, less one if it was lost so (`ShimTheorems.AnswersCounted`). A client that sends one initialize has every request
  answered exactly once.
- 'pipe' follows 'down' exactly for a launch whose Brave went down while its certificate policy was set
  (`src/broker/brave-supervisor.js:226-253`, `SupervisorRuns.PipeAfterDown`).
- `parseCsv` loses a last row of two empty fields when the last one is bare and no line break follows, and every field of a
  column named `__proto__` (`src/vault.js:47-62`); nothing else (`Csv.TableBack`).
- `fitJson` is said to keep the longest prefix that fits (`src/own-tools/_tool-args.js:38-40`). With a surrogate pair in the text its
  binary search may stop short, by five units at most, and exactly when the character after what it kept is a pair that would
  have fitted (`Budget.LongestUnlessPair`, `Budget.LongestCanFail`).
- `classify` looks the top label up in a plain object (`extensions/cookie-bridge/policy.js:124`, `210`), so `constructor` and `__proto__`
  are denied top labels too: the denied top labels of the model are those the lookup finds.
- A subdomain of a denied host is denied unless it reads as an IPv6 address (`Policy.DenyOfSubdomain`), which a malformed, denied
  host with a label of colons in front can (`Policy.ColonEscapesDeny`).

## Model

| member | source | states |
|---|---|---|
| ReplicationTheorems.SimpleStoreRefined | src/cookie-bridge/importer.js:528-607 | whenever a served Brave is alive, no job is queued or running and no re-apply is owed, its live value of a key is the simple store's (or a site removed it since), if and only if no earlier value is alive there in case the broker left the key: gave it up, inherited it unmentioned, or kept its deletion after a failed purge; for all runs and every key Brave did not refuse |
| ReplicationTheorems.LengtheningAgrees | src/cookie-bridge/importer.js:314-332 | a caller's form: while no accepted cookie of a key expires before the one it replaces, Brave agrees with the store on it, unless Brave refused it, a restart forgot it, a purge of it failed or only an earlier broker synced it |
| StrandedRun.ShorteningStrands | src/cookie-bridge/importer.js:320-327 | the converse: for every key and every two cookies of it of which the later expires in an earlier millisecond (and not before the run starts), a timely run that meets all other conditions of LengtheningAgrees and ends at rest with the later one in the store, expired, and the earlier one alive in Brave |
| CookieLives.NothingOlderLives | src/cookie-bridge/importer.js:314-332 | on such runs a key the broker gave up on because its cookie expired has no live value in Brave, on disk or on its way |
| StoreAgreement.StoreDies | src/cookie-bridge/importer.js:320-327 | on every run, a key the broker gave up on has no live value in the store unless Brave refused it |
| ChromeToBrave.BraveMirrorsChrome | src/cookie-bridge/importer.js:205-345 | Chrome's side and Brave's side run together on one broker: once the latest full sync got through, nothing is on its way and the applies are done, Brave's live value of every key not given up is Chrome's if it syncs (or a site removed it since), whatever an earlier broker or a failed purge had left |
| ChromeToBrave.MirrorsWhileLengthening | src/cookie-bridge/importer.js:205-345 | a caller's form for every key: while no accepted cookie of it expires before the one it replaces, Brave's live value is Chrome's then, unless Brave refused its deletion or a restart forgot it and no message mentioned it since |
| LandedSync.FullLands | src/cookie-bridge/importer.js:205-242 | the end of a full sync leaves no key managed on an earlier broker's word alone, and a job that is no purge for every deletion pending for the Brave in charge |
| LandedSync.LandedStays | src/cookie-bridge/importer.js:309-344 | both stay so under every step of Brave, the jobs and the broker but a purge request and a restart, which need the bridge gone |
| ChromeToBrave.StepFits | src/cookie-bridge/importer.js:205-345 | whatever Brave, the broker's jobs and the extension do in between, the assumptions each side's theorem makes of the other hold: live snapshot, staging and bridge are left alone, as long as Brave refuses no cookie |
| RemovedForGood.DeletionSurvives | src/cookie-bridge/importer.js:309-344 | after a removal of k, whatever syncs of other cookies, crashes, relaunches, purges and broker deaths at any moment follow, each with a state file that has the removal: once the launch's apply is through and no deletion of k is pending, k has no live value in Brave's memory, and one on disk has a tombstone the next launch applies; given commit delay + report delay <= flushMs |
| RemovedForGood.RestartCarries | src/cookie-bridge/importer.js:620-644 | a removal outlives a restart if and only if the state file has it: no managed entry, and a deletion if one was still owed |
| StateFile.FileIsCurrent | src/cookie-bridge/importer.js:661-682 | on every run, whenever nothing is left to save, what a new broker would read is exactly what this one knows (managed identities, and pending and unflushed deletions), if there is a file or this broker was never asked to purge |
| SavedRemovals.SaveCarries | src/cookie-bridge/importer.js:661-682 | a save the file system takes leaves the removal of a key in the file if and only if there is a file then or nothing of the key is owed; there is one if the state was dirty or saved before, unless a purge finished since the last bridge came |
| SavedRemovals.SavedRemovalHolds | src/cookie-bridge/importer.js:620-682 | once a save put a removal into the file it stays there, over every crash, relaunch and restart, and the key stays out of Brave, until a message mentions it, a purge runs or Brave refuses it: DeletionSurvives without a condition on restarts |
| SavedRemovals.CleanWithoutFileRun | src/cookie-bridge/importer.js:385-396 | a run that ends not dirty and not purged, with no file and a deletion still owed: a purge finished and a bridge connected |
| RestartRuns.RestartKnowsTheFile | src/cookie-bridge/importer.js:620-644 | a new broker knows a key, in any of its maps, if and only if the file has it as managed or deleted |
| RestartRuns.ForgottenUntilMentioned | src/cookie-bridge/importer.js:620-644 | a key the file lacks stays unknown on every run until a message mentions it: never masked, purged, set or deleted |
| RestartRuns.StaleFileRun | src/cookie-bridge/importer.js:233-241 | a run on which the broker dies between a removal and its save: the file lacks the removal, and the value is alive and unknown in the next Brave at rest |
| RestartRuns.PurgeRestartRun | src/cookie-bridge/importer.js:385-396 | a run on which it dies after a finished purge and before Brave's disk has the deletions: the purged value is alive and unknown in the next Brave at rest |
| ReplicationTheorems.DeletionIsDurable | src/cookie-bridge/importer.js:402-411 | the state form of it: a key neither managed nor pending nor stranded has no live bridge value in the running Brave, in its inbox or in the running job, and on disk only under a tombstone |
| ReplicationTheorems.TombstoneDroppedOnDisk | src/cookie-bridge/importer.js:647-655 | a tombstone the code drops belongs to a deletion that is on disk and in memory |
| ReplicationTheorems.DownDropsHeldLong | src/cookie-bridge/importer.js:402-411 | on every run, when Brave goes down exactly the tombstones go that it had held for flushMs in its own epoch; every other one is kept |
| BrokerHabits.LaunchReapplies | src/cookie-bridge/importer.js:351-357 | every launch queues one re-apply of its own, awaited from then on, in a later epoch, even with the pid of the Brave before |
| BrokerHabits.RefusedIsDropped | src/cookie-bridge/importer.js:521-526 | when an apply is over, exactly the cookies refused in it leave the managed keys and the snapshot; a refused deletion drops nothing |
| BrokerHabits.BridgeStartsSaving | src/cookie-bridge/importer.js:172-190 | after a purge nothing is written; once a bridge connects, a save the file system takes writes the whole changed state |
| ReplicationTheorems.SetsAreDisjoint | src/cookie-bridge/importer.js:498-519 | on every run, managed, pending deletions and tombstones are pairwise disjoint, the snapshot is managed, and managed keys are known for masking |
| ReplicationTheorems.EveryValueRecognised | src/cookie-bridge/importer.js:421-436 | every live bridge value in Brave, its inbox or the running job has its key in one of the sets the mask and the purge are built from, but for orphans |
| ReplicationTheorems.PurgeCompletes | src/cookie-bridge/importer.js:359-399 | when the purge begun last finishes on the running Brave, a live value is left only if it was synced after the purge began, is an orphan, or its deletion is still asked for and not the job's: it left the list before the job started, or was accepted later; then a job behind the purge deletes it while Brave is served |
| PurgeRuns.PurgeSettles | src/cookie-bridge/importer.js:598-605 | a key not synced since the purge began, and no orphan, is not in Brave's memory once the launch's apply is through and no deletion of it is pending, whatever crashes, relaunches and restarts that carry the removal come in between, as long as it is neither synced nor refused later |
| PurgeRuns.PurgeMissesRun | src/cookie-bridge/importer.js:383-386 | a run on which the purge finishes with the value alive in Brave: an apply ahead of it took the deletion out of its list and sent it to a Brave that died |
| StrandedRun.StrandedKeyDiffers | src/cookie-bridge/importer.js:320-327 | a concrete timely run that ends quiescent with the short-lived instruction expired in the store and the older value alive in Brave: they do not agree |
| MergeLaw.FullSyncMerges | src/cookie-bridge/importer.js:205-300 | however deltas and batches interleave, the last batch leaves managed exactly the keys whose latest delta during the sync was an add and the batch keys no delta touched, at those values; every other key managed until then gets a pending deletion |
| JustifiedWrites.WritesAreJustified | src/cookie-bridge/importer.js:260-273 | on every run, each cookie a call carries is one a message asked to set, policy-allowed on its host and its partition's site or flagged, with exactly that value; or a deletion of a key some message was allowed to set, or that one asked to remove (or to set to a value expired when it came), flagged or allowed without the always-allow list |
| KeyedParams.NothingMadeUp | src/cookie-bridge/importer.js:498-519 | for every property of identities: if every cookie the messages give under a key has it, so has every value and every deletion of the key, on every run, in all of the broker's maps, its file, the running job, the lists of purges, and in Brave; and every deletion there is an expired twin without a value |
| KeyedParams.EveryParamIsItsKeys | src/cookie-bridge/cdp-cookies.js:91-96 | in particular, if messages give each cookie under its own cookie key, whatever the broker keeps, saves or sends under a key, set or deletion, and whatever Brave has there, is the cookie of that key |
| KeyedParams.DeletionsAreTwins | src/cookie-bridge/importer.js:512-519 | every deletion a call carries is the expired twin of a cookie that some message of the run gave under its key |
| KeyedParams.RemovalDeletesTheSynced | src/cookie-bridge/importer.js:512-519 | on every run, a removal leaves the deletion of exactly the cookie the simple store had, if the key was not given up; of the identity taken from the state file, if only an earlier broker synced it; of the cookie the message names, if it was not managed |
| Admission.AcceptCookies | src/cookie-bridge/importer.js:212-228 | the loop over a batch keeps exactly the admitted, unexpired cookies, the last one per key |
| Admission.AcceptChanges | src/cookie-bridge/importer.js:253-277 | the loop over a delta keeps exactly the changes the two rules admit: removals of managed keys, flagged ones or those allowed without the list; sets that are allowed or flagged |
| Admission.LastCookieIsTaken | src/cookie-bridge/importer.js:212-228 | the last accepted, unexpired cookie of a key in a batch is taken at its value, whatever else the batch holds |
| Admission.LastChangeIsTaken | src/cookie-bridge/importer.js:253-277 | the last accepted change of a key in a delta is made, a set of an expired cookie as a removal |
| JustifiedWrites.ItemsAsked | src/cookie-bridge/importer.js:487-495 | every cookie a batch contributes was in the batch, accepted by the policy or flagged, with its value |
| JustifiedWrites.ChangesAsked | src/cookie-bridge/importer.js:254-277 | every change a delta contributes was in it: a set accepted for setting, a removal managed, flagged or allowed with an empty list |
| JustifiedWrites.ListReachesUnsentCookie | src/cookie-bridge/importer.js:264-271 | a held host on the always-allow list: a cookie synced and removed while Brave is down leaves a pending deletion although no Brave ever got it |
| ListRemovals.ListReachesUnsent | src/cookie-bridge/importer.js:264-271 | over all runs, a removal that only the always-allow list could justify leaves a new deletion if and only if the broker manages the cookie, sent or not; for a key not given up, if and only if the last accepted instruction was to set it or only an earlier broker synced it |
| ListRemovals.RemovedBeforeAnyApply | src/cookie-bridge/importer.js:264-271 | before any apply started and without a restart, exactly when the last accepted instruction was to set the cookie; no job had sent it then, so each such deletion breaks the comment |
| ImporterClass.CookieImporter.constructor | src/cookie-bridge/importer.js:620-644 | a new broker holds the file's managed identities and its deletions, expired, and knows both for masking |
| ImporterClass.CookieImporter.Handlers | src/cookie-bridge/importer.js:172-190 | a second bridge is refused; the first ends the purged state |
| ImporterClass.CookieImporter.ConnClosed | src/cookie-bridge/importer.js:193-196 | the bridge and its half-sent full sync are forgotten, another bridge's are kept |
| ImporterClass.CookieImporter.FullBatch | src/cookie-bridge/importer.js:205-242 | all maps, staging, queue and counters after a batch are those of the step Full that the replication and merge theorems are about; dirty exactly when syncing the cookies one by one, duplicates included, or leaving keys out makes it so |
| ImporterClass.CookieImporter.DeltaMessage | src/cookie-bridge/importer.js:248-300 | the same for a delta, from a list in which a cookie may occur often: the last change per cookie wins |
| ImporterClass.LastChanges | src/cookie-bridge/importer.js:275-277 | the list kept has each key once, and gives each key its last change |
| ImporterClass.CookieImporter.SetOne | src/cookie-bridge/importer.js:498-509 | one cookie: snapshot, identity, mask; pending deletion and tombstone gone; dirty exactly when the file's content changed |
| ImporterClass.CookieImporter.ForgetOne | src/cookie-bridge/importer.js:512-519 | one deletion, with the cookie key of the managed identity, else of the snapshot's cookie, else of the change's, expired and without a value; the tombstone superseded |
| ImporterClass.CookieImporter.SettleNow | src/cookie-bridge/importer.js:647-655 | exactly the tombstones of this epoch held flushMs go, and no other |
| ImporterClass.CookieImporter.SaveState | src/cookie-bridge/importer.js:661-682 | the file holds managed identities and both kinds of deletions, written only when dirty, not purged and the file system took it |
| ImporterClass.CookieImporter.BraveDown | src/cookie-bridge/importer.js:402-411 | settle in the old epoch, then a new epoch, saved, and no re-apply counted as done |
| ImporterClass.CookieImporter.BraveReady | src/cookie-bridge/importer.js:309-325 | one re-apply queued per launch and pid; later calls share it |
| ImporterClass.CookieImporter.BraveLaunched | src/cookie-bridge/importer.js:351-357 | a launch makes every tombstone an earlier Brave's and owes a re-apply, even with the same pid |
| ImporterClass.CookieImporter.StartJob | src/cookie-bridge/importer.js:314-332 | a job reads the state when it starts: its sets, its deletions, and for a re-apply the lost tombstones, less the expired; a purge, what its map of deletions has by then |
| ImporterClass.CookieImporter.FinishJob | src/cookie-bridge/importer.js:595-607 | deletions still asked for become tombstones of the run's epoch, refused sets are dropped, a purge deletes the file |
| ImporterClass.CookieImporter.FailJob | src/cookie-bridge/importer.js:541-565 | a failed apply owes the whole snapshot again; a failed re-apply only if it is the awaited one |
| ImporterClass.CookieImporter.PurgeAll | src/cookie-bridge/importer.js:368-385 | refused with a bridge connected or Brave down; else the live map becomes a deletion of every key ever put, the purge's job holds that map, the replaced one stays with its own purge, and everything else is empty |
| ImporterClass.SendAll | src/cookie-bridge/importer.js:577-596 | a refused batch is sent again cookie by cookie: exactly the cookies Brave refuses are refused, all others stored, in order; a connection that closes before the last call makes it throw, with a prefix handled |
| CookieKeys.KeyIdentifies | src/cookie-bridge/cdp-cookies.js:40-96 | two mapped NUL-free cookies have one key exactly when name, host, host-only flag, path and partition agree |
| Text.SplitJoin | src/cookie-bridge/cdp-cookies.js:91-96 | splitting a key at NUL (or a host at dots) gives back the parts it was joined from |
| Text.JoinSplit | extensions/cookie-bridge/policy.js:144-148 | joining the parts of a split gives the text back, and no part holds the separator |
| CookieKeys.MappedIs | src/cookie-bridge/cdp-cookies.js:40-88 | what a mapped cookie keeps: name, path, partition, url of scheme and host, a dotted domain unless host-only, and the key's place |
| CookieKeys.ValueIsMapped | src/cookie-bridge/cdp-cookies.js:65-85 | and its value, Secure, HttpOnly and SameSite as they are, and its expiry unless it is a session cookie |
| CookieKeys.MappedExactly | src/cookie-bridge/cdp-cookies.js:40-72 | a cookie is mapped exactly when its domain is a host, its path absolute, its SameSite and top-level site are known ones, and Chromium's rules for SameSite=None, name prefixes and partitions hold |
| CookieKeys.IdentitySurvivesTheFile | src/cookie-bridge/importer.js:69-76 | the identity of every mapped cookie passes the state file's validation, and it and its expired twin have the cookie's key |
| CookieKeys.ManagedIndex | src/cookie-bridge/importer.js:421-430 | the index holds exactly the entries of the known keys |
| CookieKeys.MaskIsExact | src/cookie-bridge/importer.js:421-436 | an exported cookie has a key's entry exactly when its name and path are the cookie's and its domain is, letter case aside |
| Masking.BridgeValuesAreMasked | src/cookie-bridge/importer.js:421-436 | on every run, a live bridge value anywhere is masked in the export of that cookie |
| Domains.Suffixes | extensions/cookie-bridge/policy.js:144-148 | the list holds exactly the host and its parents, the host first |
| Domains.SpelledOnce | extensions/cookie-bridge/policy.js:139-148 | two written domains with the same labels are the same text, so the string sets of the source are sets of hosts |
| Domains.LeadingDot | extensions/cookie-bridge/policy.js:138-142 | a leading dot does not change the host a domain names |
| Policy.ListOnlyLiftsHolds | extensions/cookie-bridge/policy.js:193-231 | the always-allow list turns hold into allow for exactly the hosts it covers and changes no other decision |
| Verdicts.VerdictMeans | extensions/cookie-bridge/policy.js:185-231 | what the verdict on a written domain means: a host is denied exactly when it is or lies under a denied domain, a denied top label, a government's suffix or a Google country site, whatever the list says; of the others, exactly the single labels, local names, hosts with a keyword or with a label ending in cu are held, unless the list covers them or it is localhost; an address is held unless listed, and what is no host is denied |
| Verdicts.ClassifyDomain | extensions/cookie-bridge/policy.js:185-231 | the walk over the host and its parents gives that verdict, and the one on labels that the other theorems are about |
| Verdicts.FindDenied | extensions/cookie-bridge/policy.js:202-207 | the loop finds a denied domain or a Google country site exactly when the host is or lies under one |
| Verdicts.FindSuspect | extensions/cookie-bridge/policy.js:221-229 | the loops find the host sensitive exactly when it is a single label or a local name, holds a keyword, or has a label but the last ending in cu |
| Policy.DenyCoversSubdomains | extensions/cookie-bridge/policy.js:193-231 | deny is closed under subdomains: adding a label without a colon never lifts it, even where the longer host has the shape of an IPv4 address |
| Policy.DenyOfSubdomain | extensions/cookie-bridge/policy.js:193-231 | a subdomain of a denied host is denied if and only if it does not read as an IPv6 address |
| Policy.ColonEscapesDeny | extensions/cookie-bridge/policy.js:134-136 | a malformed host that is denied, with a label of colons in front, is an address and held: the closure needs labels without colons |
| Policy.SyncedIsAdmitted | extensions/cookie-bridge/bridge-core.js:133-160 | whatever the extension syncs, the broker's second check admits with any always-allow list, and admits its removal without one |
| Policy.FlagMarksReallowed | extensions/cookie-bridge/bridge-core.js:133-169 | the flag on the wire marks exactly the synced cookies the policy alone would not sync |
| Policy.BlockIsInherited | extensions/cookie-bridge/bridge-core.js:112-126 | a blocked host's subdomains do not sync unless the owner decided on them |
| Policy.OverridesDecide | extensions/cookie-bridge/bridge-core.js:112-149 | the owner's decision on a host decides: re-allowed it syncs, flagged if the policy alone would not sync it; blocked it does not; undecided it syncs exactly when the policy allows it and no parent of two or more labels is blocked |
| Policy.BothDecide | extensions/cookie-bridge/bridge-core.js:152-168 | a partitioned cookie syncs exactly when its host and its top-level site both do |
| BridgeConvergence.Converges | extensions/cookie-bridge/bridge-core.js:449-534 | after any interleaving of Chrome's changes, late events, reads, superseding resyncs and lost connections, once the latest full sync got through and nothing is on its way, the broker's unexpired cookies are exactly Chrome's that sync, at their values |
| BridgeConvergence.ReplayIsLast | extensions/cookie-bridge/bridge-core.js:493-534 | replaying changes, an older suffix included, over any newer read leaves the last change of each key |
| BridgeConvergence.DeltasView | extensions/cookie-bridge/bridge-core.js:522-548 | what the broker holds after delta messages is what it holds after their changes one by one, however they were batched |
| BridgeConvergence.SplitsView | extensions/cookie-bridge/bridge-core.js:449-490 | what the broker holds of a key after all batches of a full sync is what the read had, whichever batch it was in |
| Batching.Batch | extensions/cookie-bridge/bridge-core.js:178-190 | the batches concatenate to the input, each fits or is one oversized element, and none could have taken the element after it |
| Batching.BatchesSplit | extensions/cookie-bridge/bridge-core.js:178-190 | batches of distinct cookies are disjoint parts of the read that cover it, at its values |
| BridgeClass.WireSyncs | extensions/cookie-bridge/bridge-core.js:463-469 | what is sent is the read restricted to what syncs |
| BridgeClass.Bridge.OnCookieChanged | extensions/cookie-bridge/bridge-core.js:493-515 | the change is buffered exactly when it syncs, the bridge is active and connected, and it is no overwrite's removal |
| BridgeClass.Bridge.BeginFullSync | extensions/cookie-bridge/bridge-core.js:449-453 | a run starts with a number of its own that supersedes the one still reading |
| BridgeClass.Bridge.EndFullSync | extensions/cookie-bridge/bridge-core.js:454-490 | a current run posts batches that split the synced part of the read, the last one marked, then every buffered change in order; a superseded, failed or disconnected one posts nothing; a post that fails leaves the disconnected state and a proper prefix |
| BridgeClass.Bridge.FlushDeltas | extensions/cookie-bridge/bridge-core.js:522-534 | the buffered changes go out once, in order, unless a full sync reads |
| BridgeClass.Bridge.Disconnect | extensions/cookie-bridge/bridge-core.js:365-377 | no run, buffer or awaited ack outlives the port |
| BridgeClass.Bridge.Post | extensions/cookie-bridge/bridge-core.js:401-406 | a failed post loses the port |
| CdpMessages.GuardIsExact | src/broker/cdp-proxy.js:100-114 | the guard passes a command exactly when nothing it makes Brave run is blocked, every wrapper is proper and it is at most eight deep |
| ProxyRouting.NothingOfAnEarlierPipe | src/broker/cdp-proxy.js:291-298 | after any events, every pending id, session and client the proxy routes by belongs to the pipe served now |
| ProxyRouting.AnswersTheSender | src/broker/cdp-proxy.js:423-452 | an answer from Brave goes to the one client whose command took that id on this pipe, with its own id and session, Brave's error if there is one and else its result; the id had no answer before |
| ProxyRouting.AnsweredStays | src/broker/cdp-proxy.js:423-452 | an answered id stays answered while its pipe is served, so no command is answered twice |
| ProxyRouting.OtherRepliesGoNowhere | src/broker/cdp-proxy.js:155-171 | replies to the root session's calls, to unknown ids, of other pipes, and second replies reach no client |
| ProxyRouting.ForwardsOnlyOwn | src/broker/cdp-proxy.js:384-421 | every forwarded command goes to a session announced to its sender on this pipe and runs nothing blocked |
| ProxyEvents.NoticeReachesHolder | src/broker/cdp-proxy.js:444-451 | on every run on which Brave gives a session to one client only: a notice on a session that an open client holds (announced to it on this pipe and not detached since) is delivered once, to that client, with Brave's name, sub-session and content, and shows the session unless it is the client's own browser session; a notice on any other session reaches nobody |
| ProxyEvents.RootNoticesStayInside | src/broker/cdp-proxy.js:434-443 | no notice of the root session or of another pipe is delivered |
| ProxyEvents.AnswerIsDelivered | src/broker/cdp-proxy.js:423-433 | Brave's first reply to a command whose client is still there is delivered, to it alone, with its own id and session and Brave's error or result |
| ProxyEvents.RequestIsServed | src/broker/cdp-proxy.js:384-421 | a request has exactly one outcome: refused if it runs something blocked or is wrongly wrapped, answered that there is no such session if it asks for one its client does not hold, else forwarded as it is, on the session it names or the client's own, under an id never used on this pipe |
| ProxyEvents.WaitingChangesNothing | src/broker/cdp-proxy.js:344-371 | a message sent before the browser session is there has exactly the outcome it would have right after: what waits is handled once, in order |
| ProxyEvents.LeavingDetaches | src/broker/cdp-proxy.js:465-476 | a client that leaves takes exactly its own sessions and pending commands with it, and Brave is told to detach its browser session |
| ProxyEvents.EndClosesAll | src/broker/cdp-proxy.js:478-489 | the end of the served pipe closes exactly the websockets still open, and nothing is routed any more |
| ProxyIsolation.Isolation | src/broker/cdp-proxy.js:340-489 | what a client receives, has forwarded and learns of its end over a whole run equals its run on a proxy serving it alone with its own events |
| CdpProxyClass.CdpProxy.OnClient | src/broker/cdp-proxy.js:340-352 | a connection takes the browser session call's id and waits |
| CdpProxyClass.CdpProxy.OnAttachOver | src/broker/cdp-proxy.js:353-371 | the queued messages go out in order once the session is there; a late session is detached |
| CdpProxyClass.CdpProxy.OnClientMessage | src/broker/cdp-proxy.js:384-421 | queued, refused, answered locally or forwarded with a fresh id, exactly as the routing step |
| CdpProxyClass.CdpProxy.FromBrowser | src/broker/cdp-proxy.js:423-452 | replies and events, ownership taken and given up, exactly as the routing step |
| CdpProxyClass.CdpProxy.OnClientClose | src/broker/cdp-proxy.js:465-476 | its sessions and pending commands go, nobody else's |
| CdpProxyClass.CdpProxy.OnPipeEnded | src/broker/cdp-proxy.js:478-489 | only the pipe served now closes the websockets of its clients, each once, and empties the tables |
| CdpProxyClass.CdpProxy.SetPipe | src/broker/cdp-proxy.js:291-298 | the new pipe starts with empty tables, and the websockets of an earlier one's clients are closed |
| SessionTheorems.NoStaleContext | src/broker/sessions.js:101-168 | every context handed out was made by its own tab's creation in the current epoch, for a connection still open, and was never closed |
| SessionTheorems.ContextsConserved | src/broker/sessions.js:132-168 | every context upstream created is stored, in its creation's hands, closed exactly once, or died with its browser |
| SessionTheorems.OneBodyAtATime | src/broker/sessions.js:174-178 | no two creation bodies run at once, although each waits only for the promise it was chained to |
| SessionTheorems.BodiesInOrder | src/broker/sessions.js:174-178 | a body starts only when none is under way, and before every creation that asked for the mutex later |
| SessionInvariant.TurnIsFirst | src/broker/sessions.js:174-178 | the promise a creation waits for is settled only when no body runs and it is the oldest of those waiting |
| SessionTheorems.CreationEnds | src/broker/sessions.js:132-168 | a creation takes at most seventeen steps of its own (three attempts), whatever interleaves |
| SessionTheorems.NeverStuck | src/broker/sessions.js:132-178 | while a creation is in flight, some creation can go on, at once or when the promise of the body that ended last settles |
| SessionTheorems.LostTabIsNoticed | src/broker/sessions.js:250-289 | a tab whose context died owes a notice until it is taken or the tab is closed |
| SessionRetries.TriedAgainIffCutShort | src/broker/sessions.js:140-168 | told by the events of a creation whose tab is still its own: if its attempt threw, it waits for the mutex again exactly when its ensure() was through, Brave was reset since, and it was not the third attempt; else it fails. If the attempt made a context, it is stored exactly when there was no reset since; else closed |
| SessionRetries.TriedAgainAfterClose | src/broker/sessions.js:158-168 | after that close it is tried again, unless it was the third attempt |
| SessionRetries.FailsOnlyUncut | src/broker/sessions.js:149-154 | so, in whatever step, it fails only after its third attempt or when its last one threw without a reset since its ensure() |
| SessionRetries.FailedIsReplaced | src/broker/sessions.js:118-122 | a creation that failed is not kept: the next call for its tab gets a new one |
| SessionRetries.CallJoins | src/broker/sessions.js:101-123 | a call joins the creation its tab has while that is in flight or its context lives, and gets a new one exactly when there is none or its browser is gone |
| SessionRetries.DownSaysWhy | src/broker/sessions.js:250-263 | when Brave goes down exactly the tabs with an open context get a notice, with the reason, unless they have an earlier one |
| SessionRetries.FirstReasonStays | src/broker/sessions.js:283-289 | a notice keeps its first reason until it is taken or its tab or connection is closed |
| SessionRegistryClass.SessionRegistry.CtxFor | src/broker/sessions.js:101-123 | one entry per tab, shared by concurrent calls; none for a closed connection |
| SessionRegistryClass.SessionRegistry.StartBody | src/broker/sessions.js:174-178 | the body whose promise settled runs; the tail of the chain is not touched |
| SessionRegistryClass.SessionRegistry.Serialize | src/broker/sessions.js:174-178 | a creation waits for the tail of the chain, and its own promise is the tail now |
| SessionRegistryClass.SessionRegistry.GoOn | src/broker/sessions.js:140-168 | a context made for a closed connection or tab or an older epoch is closed, once; otherwise it is stored |
| SessionRegistryClass.SessionRegistry.Invalidate | src/broker/sessions.js:250-263 | every open tab gets a notice and its entry goes; the epoch moves |
| SessionRegistryClass.SessionRegistry.CloseTab | src/broker/sessions.js:223-233 | the tab goes with its notice; an open context is closed once |
| SessionRegistryClass.SessionRegistry.CloseConn | src/broker/sessions.js:236-243 | all its tabs and notices go, each open context is closed once |
| SessionRegistryClass.SessionRegistry.TakeResetNotice | src/broker/sessions.js:283-289 | a notice is given once |
| ShimTheorems.AnsweredAtMostOnce | src/shim.js:230-281 | over any run, no request id is answered twice, unless it is an initialize sent again because of an older one in flight; and none is answered that was not asked |
| ShimTheorems.AnswersCounted | src/shim.js:406-436 | at rest every uncancelled request has exactly one answer, one more if it is an initialize sent again because of an older one in flight, and one less if it is an older one lost so |
| ShimTheorems.AnsweredExactlyOnce | src/shim.js:406-436 | at rest an uncancelled request has exactly one answer if and only if it is not an older initialize lost with a newer one in flight |
| ShimTheorems.AnsweredTwice | src/shim.js:406-436 | exactly two if and only if it was sent again and not lost after; never more |
| ShimTheorems.OneInitialize | src/shim.js:384-423 | with one initialize id neither exception exists |
| ShimTheorems.ReplayOrder | src/shim.js:384-404 | a connection opens with nothing if no initialize was written before; else with the client's last one, under its own id exactly when its answer is owed, or under a number never used before, followed by the initialized notification exactly if the client's was written to a broker before; then come the client's lines in order with none left out, and nothing else |
| ShimTheorems.ReplaysStayInside | src/shim.js:265-281 | no response with an id of the shim's own reaches the client |
| ShimTheorems.FirstInitializeLost | src/shim.js:406-423 | a run on which the older of two initializes is never answered |
| ShimTheorems.SecondInitializeTwice | src/shim.js:406-423 | a run on which the newer of two initializes is answered twice |
| ShimClass.Shim.OnClientLine | src/shim.js:230-263 | a line is written, queued, answered at once or dropped, and remembered, exactly as the step |
| ShimClass.Shim.OnBrokerReply | src/shim.js:265-281 | the reply to a replay is swallowed; any other is passed on and its request forgotten |
| ShimClass.Shim.OnAttach | src/shim.js:384-404 | the initialize first, then the queue, then nothing waits |
| ShimClass.Shim.OnBrokerGone | src/shim.js:406-423 | every lost call is answered at once but an initialize, which is owed again |
| ShimClass.Shim.OnUnavailable | src/shim.js:425-436 | everything that waited is answered |
| ShimClass.Shim.OnClientGone | src/shim.js:438-450 | with the client gone nothing more is queued |
| SupervisorRuns.SpawnsAlone | src/broker/brave-supervisor.js:226-253 | under every interleaving of ensure, close, crash and failed kill, a Brave is spawned only when all earlier ones have exited |
| SupervisorRuns.OneLiveBrave | src/broker/brave-supervisor.js:226-253 | no two Braves are alive at once |
| SupervisorRuns.DownOncePerLaunch | src/broker/brave-supervisor.js:391-401 | 'down' fires exactly once for a launch that came up and went down and never for another; 'pipe' at most once, for one that came up |
| SupervisorRuns.CloseExcludesLaunch | src/broker/brave-supervisor.js:187-224 | while a close takes a Brave down nothing is launched, and when it is over that Brave is down |
| SupervisorKills.CloseKillsLast | src/broker/brave-supervisor.js:194-224 | when a wait of a close is over: a Brave that exited ends it; one whose pipe is closed accepted the close and gets a second wait, untouched; one that ignored the close is killed after the first wait, and one still shutting down after the second |
| SupervisorKills.KilledOnlyWhenDue | src/broker/brave-supervisor.js:421-447 | on every run a Brave is killed exactly when it has not exited and its launch failed, its reap's wait ended, it ignored a close, or the second wait of a close ended |
| SupervisorProgress.EnsureLaunches | src/broker/brave-supervisor.js:161-177 | ensure gives the running Brave or has a launch under way, and starts one exactly when there is neither |
| SupervisorProgress.LaunchGoesOn | src/broker/brave-supervisor.js:226-253 | a launch under way can always go on, whatever reap it waits for, and ends with its Brave up unless that went down |
| SupervisorRuns.PipeAfterDown | src/broker/brave-supervisor.js:226-253 | everything emitted about a Brave on any run, in order: 'pipe' follows 'down' if and only if its pipe closed, its exit arrived or it was found dead while its launch set the certificate policy; any other announced Brave has its 'pipe' first |
| SupervisorRuns.LatePipeRun | src/broker/brave-supervisor.js:226-253 | such a run |
| BraveSupervisorClass.BraveSupervisor.EnsureNow | src/broker/brave-supervisor.js:161-177 | one launch is shared; a Brave that is up is handed out |
| BraveSupervisorClass.BraveSupervisor.UpOver | src/broker/brave-supervisor.js:316-356 | a launch that fails kills what it spawned |
| BraveSupervisorClass.BraveSupervisor.BeginClose | src/broker/brave-supervisor.js:194-224 | a close waits for the launch and then takes the Brave down |
| BraveSupervisorClass.BraveSupervisor.GoDown | src/broker/brave-supervisor.js:391-401 | a process goes down once; one that was up is reaped and announced |
| BraveSupervisorClass.BraveSupervisor.ReapWaited | src/broker/brave-supervisor.js:421-434 | a Brave that does not exit in time is killed |
| BraveSupervisorClass.BraveSupervisor.ReapKilled | src/broker/brave-supervisor.js:442-447 | a Brave that survives its kill fails the launch that waited for it |
| BraveSupervisorClass.BraveSupervisor.CheckAlive | src/broker/brave-supervisor.js:134-138 | a dead process goes down before its exit event |
| CommandLine.QuoteArg | src/broker/deelevate.js:37-49 | placed between other arguments, the quoted text is read as exactly this argument |
| CommandLine.CommandLine | src/broker/deelevate.js:37-51 | for every list of NUL-free arguments, CommandLineToArgvW's rules read the line back as exactly the list |
| Streams.ChunkingIsInvisible | src/cookie-bridge/framing.js:39-69 | for every split of a stream, each decoder reports the same messages and the same fatal outcome as on the whole stream, and is left with the same bytes |
| Streams.FramesRoundTrip | src/cookie-bridge/framing.js:11-19 | decoding a concatenation of encoded messages gives the messages and leaves nothing |
| Streams.LinesRoundTrip | src/broker/cdp-proxy.js:143-147 | the same for delimited messages without the delimiter |
| Streams.LongFrameIsFatal | src/cookie-bridge/framing.js:46-54 | after any messages, a length over the limit ends the stream with that length reported, whatever follows |
| Streams.LongLineIsFatal | src/cookie-bridge/line-channel.js:26-47 | after any lines, one over the limit, finished or not, ends the stream |
| Streams.PartIsAwaited | src/cookie-bridge/framing.js:56-56 | after any messages, an unfinished frame within the limit is waited for |
| Decoders.EncodeMessage | src/cookie-bridge/framing.js:11-19 | a message over the limit is refused; any other is its length in four bytes, the lowest first, and its bytes, which the reader gives back |
| Decoders.MessageReader.Push | src/cookie-bridge/framing.js:39-69 | a chunk has the effect it has on the whole stream, with the buffer kept as chunks and the header read once |
| Decoders.LineReader.Receive | src/cookie-bridge/line-channel.js:22-54 | the same for lines with the overflow rule |
| Decoders.PipeReader.OnData | src/broker/cdp-proxy.js:181-193 | the same for the NUL-delimited pipe |
| Csv.ParseCsv | src/vault.js:26-66 | terminates on every text, each step consuming input, with the records the text's rows give |
| Csv.TableBack | src/vault.js:26-66 | a table of at least two distinct columns printed as section 2 of RFC 4180 says comes back whole if and only if it does not end with two empty fields, the last one bare, and no line break, and no column is named `__proto__` or there are no rows; only that row and that column are ever lost |
| Csv.FieldBack | src/vault.js:29-45 | a printed field is read back whatever follows it |
| Budget.FitJson | src/own-tools/_tool-args.js:45-59 | on any UTF-16 text: the whole of it if it fits, else a prefix that fits with the marker and does not with one unit more, else the marker alone; the cost is at most max(cap, 16) |
| Budget.LongestUnlessPair | src/own-tools/_tool-args.js:38-57 | what is kept of a cut text is the longest prefix that fits if and only if the character after it is no surrogate pair that would have fitted; a longer one that fits is longer by five units at most |
| Budget.LongestIsKept | src/own-tools/_tool-args.js:38-57 | without surrogates it is always the longest |
| Budget.LongestCanFail | src/own-tools/_tool-args.js:38-57 | a pair and three control characters under a cap of 18: nothing is kept, though the pair fits |
| Budget.NeverHalves | src/own-tools/_tool-args.js:45-59 | the two halves of a pair are kept or left together |
| Budget.FitIsUnique | src/own-tools/_tool-args.js:45-59 | at most one result keeps the longest prefix that fits |
| Budget.PrefixIsEnough | src/own-tools/capture-xhr.js:127-137 | decoding only the first 4 * room + 4 bytes of a body, pairs and cut characters included, and fitting it keeps exactly what decoding all of it would |
| Budget.Capture.OnResponse | src/own-tools/capture-xhr.js:159-195 | captured and charged when it fits, otherwise counted as dropped; what was charged is the sum of what is kept, at most maxTotalBytes + 15 |
| Budget.Capture.BodyArrives | src/own-tools/capture-xhr.js:127-137 | the body kept is the fit of the whole body to the room left; a body is settled once, and its fetch slot is still taken |
| Budget.Capture.FetchOver | src/own-tools/capture-xhr.js:149-155 | the slot is freed later and waiting bodies are fetched; none is refused while the budget is not spent |
| Budget.Capture.PumpBodies | src/own-tools/capture-xhr.js:139-157 | no body waits while a fetch slot is free, and none is fetched once the budget is spent |
| Budget.TakeMany | src/own-tools/extract-structured.js:46-64 | each element gets what the ones before it left; it stops at maxItems or an empty share, 15 over at most |
| Budget.ExtractFields | src/own-tools/extract-structured.js:23-73 | each field's share is the floor of what the fields before it left, divided by the fields still to come; the charges sum to maxBytes less what is left, which is at least -16 per field; with single values and 16 or more for each, no share falls below floor(maxBytes / fields) |

## Left out

- ProxyIsolation.Isolation: assumes Brave announces fresh session ids and that a detach event of a client's session names a session of that client; the code and reason of a closing websocket and logging are not modelled.
- ReplicationTheorems.SimpleStoreRefined: says nothing of a key after Brave refused a cookie or a deletion of it, until a message mentions it again.
- RemovedForGood.DeletionSurvives: excludes runs on which Brave refuses the key, which strands it, and those on which a broker starts from a file that lacks the removal (RemovedForGood.RestartCarries and SavedRemovals.SaveCarries say when that is). A state file that cannot be deleted by a purge is not modelled.
- JustifiedWrites.WritesAreJustified: "put there by the bridge" is "the bridge was allowed to put it", because the code asks whether the key is managed, not whether a Brave got it; ListRemovals.ListReachesUnsent has the difference.
- ImporterClass.CookieImporter.FullBatch: the step Full of the replication takes a batch by key, so on a batch that holds one cookie twice, which Chrome's read never gives, its dirty flag may be false where the class's is true.
- BridgeConvergence.Converges: with settings fixed; the native host's hop is part of the FIFO channel; retries, alarms, badge, review list and status are not modelled. A cookie that expires on its way counts as absent on both sides. The broker is taken to refuse no set and only removals of cookies it does not manage, which Policy.SyncedIsAdmitted proves of its second check.
- ChromeToBrave.BraveMirrorsChrome: with Converges's assumptions, a Brave that refuses no cookie (it may refuse deletions), and a broker that dies only after its bridge's connection is gone.
- BridgeClass.Bridge.OnCookieChanged: the boot queue, the debounce timer and the list of domains to review are not modelled.
- ShimTheorems.AnsweredAtMostOnce: client ids are taken to be distinct and unlike the shim's own; the tools/list_changed notice, oversize error texts and the launcher are not modelled.
- SessionTheorems.CreationEnds: counts a creation's own steps; listing tabs and the window a session page opens in are not modelled.
- SupervisorRuns.OneLiveBrave: timers are free to fire at any time; flags, proxy probing, stray reaping before a launch and Memory Saver are not modelled.
- CookieKeys.KeyIdentifies: the URL parser is a parameter; white space around a domain, values of the wrong JavaScript type and `sameSite` names found on Object's prototype are not modelled.
- Verdicts.VerdictMeans: the verdict's category and its reason text are not modelled.
- ProxyEvents.NoticeReachesHolder: assumes Brave gives no session to a second client while the first holds it.
- Policy.DenyCoversSubdomains: asks that no entry of the built-in lists is made of numbers only; the lists are parameters, and the parsing of the always-allow list is not modelled.
- Domains.LeadingDot: lower case and white space are ASCII.
- Csv.TableBack: header names distinct; the vault's index by origin is left out.
- Budget.Capture.BodyArrives: reading a body and its errors are events; the drain at the end of the capture window, which stops further fetches, is not modelled.
- Budget.ExtractFields: a field whose read throws after some of its elements were taken is modelled as one that throws at once.
- CommandLine.CommandLine: argv[0], which Windows reads by other rules, and the environment block.
- Decoders.LineReader.Receive: a handler that stops the reader from within, and the UTF-8 decoding, carriage-return stripping and JSON parsing of a line, which are functions of its bytes.
- The reply timeouts and late replies of the root session's own calls: only that their replies reach no client.
- Sockets, pipes, websockets, files and processes are events; the HMAC handshake, key files and file locks.
- Settings edits in flight (`reconcileRemovals`, `onSettingsChanged`).
- The inspector, options page, installers, browser detection, upstream tools and the remaining own tools.
