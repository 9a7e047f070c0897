# A model of the collector

The repository is a collector: for every host it polls jobs on their cadences, judges the
results, and hands what changed to a parser. This project models its core in Dafny and proves
what the core keeps over whole runs.

* **Job queue and boot sequence** (`JobModel`, `Registry`, `JobsQueue`, `QueueRuns`, `HostModel`,
  `HostCollector`, `HostSteps`, `HostTurns`, `ChangeFilter`, `JobHistories`, `HostCadence`,
  `BootStages`, `BootSafety`, `BootProgress`, `BootExact`, `BootCompletion`). The
  queue, the jobs, the boot states and the host are classes updated in place. Every method is proved
  to compute a function on values (`HostModel.Step`, `HostModel.Run`); starvation freedom, the
  trace of the change filter, and safety and liveness of the five boot stages are proved about those
  functions.
* **SNMP** (`Oids`, `SnmpWalk`, `Decimals`, `SnmpTable`). The walk against an agent that answers
  GetNext with the lexicographic successor (section 4.2.2 of RFC 3416), with every pattern of
  failures, and the re-indexing of its result as a table.
* **Kubernetes** (`Selectors`, `Cache`, `Cascade`, `Ownership`, `Subscribers`, `Informers`, `Specs`, `Webhook`).
  The object cache and cascading deletions, the announcement channels, the start of informers under
  every interleaving, and webhook rules.
* **Templates** (`Template`). Replacing `$name` placeholders.

Two kinds of statement go together. The methods are proved to compute functions on values; and what these
functions come to is stated again without them, in the fields of jobs, rounds, polls and JSON objects
(`HostTurns`, `HostCadence`, `BootStages`, `Ownership`, and parts of the other modules), mostly as an
if-and-only-if or over whole runs.

`Common` and `Strings` hold shared definitions. `dafny verify dfyconfig.toml` checks everything.

## How the surroundings enter

* Clock readings, execution outcomes, results of the built-in jobs, identified profiles, the order in
  which a Go map is iterated, admission events and a stop during an execution are one `Tick` per turn
  of the loop; all statements hold for every sequence of ticks. Where only the fact of some order
  matters, loops take elements of a set in arbitrary order.
* The hash is any function of the bytes. Statements that need it to be faithful say so, as a condition
  on the values that are compared.
* The exact boot theorem assumes a clock that passes every time and that nobody stops the host. It makes
  no assumption about outcomes. A counted name is available if a profile that was inserted by then, by a
  stage or because the host adopted it, files an enabled poll under it that can be looked up and is built
  in or has a collector. Only where a job of that kind has the same key as another one does the theorem
  ask that some available job has its key to itself. The turn-by-turn statements of `BootProgress` need
  the stronger condition that the counted poll itself is of this kind.
* An agent is a sorted list of instances. An instance below a base is recognised as the identifier
  library does, by its prefix, and is printed as dotted decimals.
* Interleavings of informer starts are sequences of single lock-protected steps of any number of callers.

## What the proofs found

* A boot stage waits for the own names of the polls it counts, but only jobs that were inserted, are
  filed under such a name and can run ever finish one. A poll that is switched off, that cannot be looked
  up, or whose own name nothing is filed under stops the boot sequence for good, unless a job of another
  profile happens to carry that name. `BootCompletion.BootEndsExactly` is the exact condition,
  `BootCompletion.OnePollStuck` a host that hangs, `BootProgress.StuckAtZero` one that never begins.
* The change filter hands an empty result over every time (`ChangeFilter.EmptyResultsRepeat`).
  `ChangeFilter.FilterExact` is the exact condition under which it is right.
* Job keys, cache keys and rule keys are not injective (`QueueRuns.KeysCollide`,
  `Caches.CacheKeyCollides`, `Webhooks.AggKeyCollides`). A job whose key is taken is lost
  (`QueueRuns.SecondIsLost`), and of two resource types under one key one is never matched
  (`Webhooks.RulesMeanSpecs`, `Webhooks.CanonicalIff` are the exact conditions, `Webhooks.BarsCollide` an
  input). What a cascade leaves is right if and only if the entry under the root's key is the root or goes
  along anyway (`Cascades.NamespaceDeletionExact`, `Cascades.DeploymentDeletionExact`).
* The comment at `go/collector/protocols/k8sclient/ClientGoCollector.go:210-211` speaks of starting an
  informer exactly once. The code starts it at most once, and exactly once if and only if the resource
  type of the call that uses up the once parses (`Informers.StartedIffParses`); an informer that starts
  and does not synchronise is not started again either (`Informers.FailedStartIsFinal`).
* A deletion of a namespace that carries the namespace's own name, as an admission review of a Namespace
  does, leaves the entry that the informer filed for it without a namespace (`Cascades.NamespaceEntryStays`).
* The fallback on the operation of the poll at the end of the spec defaults is never reached
  (`Specs.DefaultsSettle`).
* Which value a table cell holds depends on the iteration order of a map as soon as two keys of the
  cell disagree (`SnmpTable.TableOrderFree`), as `.1.1.2.5.7` and `.1.1.3.5.7` do
  (`SnmpTable.ContestedInstances`).
* Stopping one Kubernetes host closes the channels of all others
  (`go/collector/protocols/k8sclient/ClientGoCollector.go:149-150`). From then on every wait of every other
  collector is cut short at once (`Subscribers.DisconnectWakesAll`), and each time all its enabled jobs are
  made due (`QueueRuns.ExpediteEndsWaiting`): it polls without pause.
* `Pop` and `InsertJob` read a field that `Shutdown` cleared before they look whether the queue was shut
  down (`go/collector/service/JobsQueue.go:214-219`, `go/collector/service/JobsQueue.go:82`); the model asks
  that the queue is not shut down.

## Model

| member | source | states |
|---|---|---|
| JobsQueues.JobsQueue.InsertJob | go/collector/service/JobsQueue.go:148-177 | an unknown profile is refused and changes nothing; otherwise the enabled jobs of the profile are inserted in whatever order the map yields them: a free key appends, a known key only has its times reset |
| JobsQueues.JobsQueue.Pop | go/collector/service/JobsQueue.go:208-244 | the first enabled job that is due is returned and moved to the back; if there is none the shortest remaining time, capped at 999999, is reported and the list stays |
| JobsQueues.JobsQueue.MoveJobToLast | go/collector/service/JobsQueue.go:246-257 | the job at the index goes behind all others, which keep their order; list and map still hold the same jobs |
| JobsQueues.JobsQueue.Scan | go/collector/service/JobsQueue.go:220-237 | the scan stops at the first enabled due job, with the wait gathered up to there |
| JobsQueues.JobsQueue.Expedite | go/collector/service/JobsQueue.go:185-200 | every enabled job becomes due, disabled ones are left alone |
| JobsQueues.JobsQueue.NewJobsForKey | go/collector/service/JobsQueue.go:81-111 | one fresh job for every poll, each with a cadence object of its own |
| JobsQueues.JobsQueue.DisableJob | go/collector/service/JobsQueue.go:179-181 | the job is switched off; no other job, here or at another host, is touched |
| JobsQueues.JobsQueue.Shutdown | go/collector/service/JobsQueue.go:49-58 | the queue is empty and marked as shut down |
| JobsQueues.CJob.MarkStart | go/collector/service/JobsQueue.go:261-269 | the baseline hash is replaced only if the last execution succeeded; result and error are cleared |
| JobsQueues.CJob.constructor | go/collector/service/JobsQueue.go:280-292 | a new job has its own copy of the poll's cadence |
| QueueRuns.BoundedWaiting | go/collector/service/JobsQueue.go:208-257 | starvation freedom: over every run with a clock that does not fall behind, an enabled due job at position p is returned by one of the next p+1 Pops, whatever is inserted, re-inserted, expedited or disabled in between |
| QueueRuns.StillWaiting | go/collector/service/JobsQueue.go:148-257 | any one operation leaves a waiting job waiting, and a Pop that serves another brings it a place nearer |
| QueueRuns.ExactSleep | go/collector/service/JobsQueue.go:220-243 | when Pop finds nothing and reports w: w is positive, nothing is due before now+w, earlier looks report what is left of w, and below the cap a job is due exactly at now+w |
| QueueRuns.NextValid | go/collector/service/JobsQueue.go:148-257 | every operation keeps the keys of the list distinct and the cadence indexes in range |
| QueueRuns.PopKeepsOrder | go/collector/service/JobsQueue.go:246-257 | Pop permutes the list and keeps the relative order of all jobs but the served one |
| QueueRuns.PopsFirstDue | go/collector/service/JobsQueue.go:221-244 | in the fields of the jobs: Pop serves the first enabled job with now - ended >= cadences[current], puts it behind all others, and changes nothing if there is none |
| QueueRuns.WaitsForSoonest | go/collector/service/JobsQueue.go:220-240 | the reported wait is the least of 999999 and of cadences[current] - (now - ended) over the enabled jobs |
| QueueRuns.InsertsOrResets | go/collector/service/JobsQueue.go:157-175 | a disabled job is skipped, one whose two names put together are new goes to the end, and otherwise only the times of the listed job are zeroed |
| QueueRuns.InsertedIffKeyFree | go/collector/service/JobsQueue.go:161-175 | after an insertion the job is present exactly if it was before, or it is enabled and its key was free |
| QueueRuns.SecondIsLost | go/collector/service/JobsQueue.go:161-175 | of two jobs with different names and one key the second never gets into the queue |
| QueueRuns.KeysCollide | go/collector/service/JobsQueue.go:296-301 | such pairs of names exist: the key is the two names put together |
| HostCollectors.BootState.IsComplete | go/collector/service/BootSequence.go:100-107 | true exactly if every name of the stage has finished |
| HostCollectors.BootState.JobComplete | go/collector/service/BootSequence.go:139-144 | a name the stage waits for is marked, any other is ignored |
| HostCollectors.HostCollector.NewBootState | go/collector/service/BootSequence.go:51-96 | the stage waits for the names of all polls with a collector, of the links profile only if the stage has it; every such profile is inserted into the queue; an unknown stage waits for nothing |
| HostCollectors.HostCollector.CountPolls | go/collector/service/BootSequence.go:80-87 | polls are counted under their own name, whether or not their cadence is enabled |
| HostCollectors.HostCollector.BootDetailDevice | go/collector/service/BootSequence.go:156-207 | only the first identifying system MIB brings in the jobs of its profile |
| HostCollectors.JobHasChange | go/collector/service/HostCollector.go:327-342 | moves the cadence level and decides by hash whether the result is new |
| HostCollectors.HostCollector.JobComplete | go/collector/service/HostCollector.go:300-325 | a failed job falls back to its first cadence and is not handed over; another is, if it changed |
| HostCollectors.HostCollector.AdvanceStages | go/collector/service/HostCollector.go:227-236 | the advance loop terminates and passes every complete stage, inserting the jobs of each stage it enters |
| HostCollectors.HostCollector.CollectOnce | go/collector/service/HostCollector.go:180-256 | one turn of the loop, over objects updated in place, computes the step function of the host |
| HostCollectors.HostCollector.Collect | go/collector/service/HostCollector.go:171-258 | the loop computes the run function of the host, so all statements about runs hold of it |
| HostCollectors.HostCollector.Start | go/collector/service/HostCollector.go:145-169 | the host begins in stage 0 with the jobs of that stage |
| HostCollectors.HostCollector.Stop | go/collector/service/HostCollector.go:105-122 | the host is no longer running and its queue is empty |
| HostSteps.StepServes | go/collector/service/HostCollector.go:180-256 | one turn changes the popped job only; every other job keeps its place and at most has its times reset, and new jobs join behind |
| HostTurns.ServedJob | go/collector/service/HostCollector.go:189-225 | every field of an executed job: built-in jobs take the local result and need no collector, the baseline hash moves only after a success, a failure counts and sets the level to 0, a result moves it on |
| HostTurns.HandedOver | go/collector/service/HostCollector.go:300-342 | a result goes to the parser unless the execution failed: always if the poll says so, otherwise if the hashes tell it from the last success |
| HostTurns.SwitchedOff | go/collector/service/HostCollector.go:215-220 | a job whose protocol has no collector is marked as ended, switched off and not handed over |
| HostTurns.IdleTurn | go/collector/service/HostCollector.go:244-254 | a turn that finds nothing due changes nothing; an admission event clears the end of the enabled jobs only |
| HostTurns.StoppedTurn | go/collector/service/HostCollector.go:222-225 | a host stopped during an execution ends with an empty queue, and the job is not judged |
| HostCadence.PoppedAtItsCadence | go/collector/service/JobCadence.go:38-53 | over every run of a whole host: a job that is popped after k results since its last failure ended at least cadences[min(k, len-1)] ago |
| HostCadence.KeepsItsCadence | go/collector/service/JobsQueue.go:208-274 | in one run: after an execution that ended at e a job is not popped before e + cadences[min(k, len-1)], unless an admission event, a new stage or a new profile makes jobs due meanwhile |
| ChangeFilter.FilterExact | go/collector/service/HostCollector.go:300-342 | over all executions of a job, the hash filter hands over exactly the results that differ from the baseline if and only if the hashes never mislead |
| ChangeFilter.TracksBaseline | go/collector/service/JobsQueue.go:261-269 | the fields of a job encode the last success and whether it has been failing since; failures keep the baseline |
| ChangeFilter.HandsOverDedup | go/collector/service/HostCollector.go:300-342 | what is handed over are the successes without consecutive repeats; failures add nothing, and the last hand-over is the latest success |
| ChangeFilter.EmptyResultsRepeat | go/collector/service/hash.go:7-14 | an empty result hashes to zero and is handed over every time, however often it repeats |
| ChangeFilter.CadenceLevel | go/collector/service/HostCollector.go:304-333 | the cadence index is min(k, len-1) after k result-bearing executions since the last failure |
| JobHistories.RunHandsOverChanges | go/collector/service/HostCollector.go:171-342 | over every run of a whole host, what is handed over under a key are exactly the changes among that job's own outcomes, whatever other jobs do, with or without a collector |
| JobHistories.RunKeepsLevel | go/collector/service/HostCollector.go:300-333 | over every run of a whole host, a job stands at its cadence number min(k, len-1) after k results since its last failure |
| JobHistories.RunHandsOverDistinct | go/collector/service/hash.go:7-14 | the same without a condition on what is compared, if the hash tells the non-empty results of the job apart |
| JobHistories.RunHandsOverAll | go/collector/service/HostCollector.go:300-330 | over every run of a whole host, what is handed over for a job marked always are the results of all its executions that did not fail, repeats and nil included |
| JobHistories.RunKeepsAlwaysLevel | go/collector/service/HostCollector.go:304-330 | over every run such a job stands at the level of its poll until it fails once, and at the first level from then on |
| BootSafety.RunSafe | go/collector/service/HostCollector.go:199-237 | over every run the stage never falls back, passed stages stay as they were and complete, and the host never comes to rest on a complete stage |
| BootSafety.BootIsSafe | go/collector/service/HostCollector.go:145-258 | the same between any two points of a run from the start of the host |
| BootSafety.StepSafe | go/collector/service/HostCollector.go:180-238 | after a finished job the boot is over or the current stage waits for a job; any other turn leaves the boot state alone |
| BootStages.WaitedFor | go/collector/service/BootSequence.go:51-88 | a stage waits for a name if and only if it is the own name of a poll with a collector in a profile of the stage that carries the links id, or in any profile if the target has no links id or no profile of the stage carries it |
| BootStages.StageAdds | go/collector/service/BootSequence.go:66-95 | entering a stage inserts the registry entries named by those profiles that have a poll with a collector: every enabled poll of theirs waits from then on, every job that joined is one of them as new, and no other job changes |
| BootStages.ForeignProfile | go/collector/service/BootSequence.go:73-79 | where one of two profiles of a stage carries the links id the other contributes neither names nor jobs |
| BootStages.TicksOff | go/collector/service/HostCollector.go:203-238 | a turn ticks off exactly the name of the job it runs, in the current stage; the stage is left if and only if all its names are ticked off |
| BootStages.AdoptsExactly | go/collector/service/BootSequence.go:156-207 | a turn gives the host a profile if and only if it hands over a system MIB of three bytes or more that identifies something other than boot03, and the host has none |
| BootStages.AdoptedJobsWait | go/collector/service/BootSequence.go:195-200 | from that turn on every enabled job of the profile waits in the queue |
| BootStages.CountsExactly | go/collector/service/BootSequence.go:66-86 | the names that the boot theorems call counted are those of the first of these statements |
| BootStages.InsertsExactly | go/collector/service/BootSequence.go:77-92 | and the profiles they call inserted are those of the second |
| BootExact.NeverPasses | go/collector/service/BootSequence.go:51-107 | no run passes a stage that counts a name of which no enabled poll that can be looked up and run was brought in by then, by a stage or by identifying the device |
| BootExact.StepSourced | go/collector/service/BootSequence.go:59-95 | every job in the queue is one that a stage up to the current one inserted, or an identified profile, and was switched off only if it could not run |
| BootExact.CountedButNeverInserted | go/collector/service/BootSequence.go:81-86 | in particular a stage that counts a name no enabled poll is filed under is never passed, whatever is identified |
| BootCompletion.BootEndsExactly | go/collector/service/HostCollector.go:171-258 | over every endless run under an unbounded clock, whatever the outcomes of the jobs, the boot ends if and only if stage 0 counts a name and every name that a stage counts is available by then, through the stages or the profile the host adopts; provided no job that makes one available loses its key to another |
| BootCompletion.BootEndsIf | go/collector/service/HostCollector.go:171-258 | it ends if stage 0 counts a name and every counted name is available through a job whose key no other job has |
| BootCompletion.BootEndsOnlyIf | go/collector/service/HostCollector.go:171-258 | it ends only if stage 0 counts a name and every counted name is available, keys apart or not |
| BootCompletion.NoneAdopted | go/collector/service/BootSequence.go:156-207 | where nothing is identified the host adopts no profile, and availability can be read off the configuration |
| BootCompletion.ApartNotCrowded | go/collector/service/JobsQueue.go:296-301 | where different jobs have different keys none loses its key |
| BootCompletion.Finishes | go/collector/service/HostCollector.go:180-238 | a waiting job that will finish an open name brings the boot further once its time has come, if nothing else did before |
| BootCompletion.PoppedWithin | go/collector/service/HostCollector.go:180-256 | bounded waiting in the running host: under a clock that has reached its due time the enabled job at position p is popped in one of the next p+1 turns |
| BootCompletion.OnePollStuck | go/collector/service/HostCollector.go:190-194 | a host with one poll that is switched off, or that cannot be looked up, waits in stage 0 for ever |
| BootProgress.BootEnds | go/collector/service/HostCollector.go:171-258 | if every poll a stage counts for this target is named by its key, enabled, filed and runnable then, as soon as the clock stands above the cadences, the boot ends if and only if stage 0 counts a poll |
| BootProgress.ReachesEnd | go/collector/service/HostCollector.go:180-238 | under these conditions the end is reached from any point of an endless run at which the open names are served |
| BootProgress.TurnAhead | go/collector/service/HostCollector.go:180-238 | and every single turn leads to a later stage, to fewer open names, or brings a serving job one place nearer |
| BootProgress.StuckAtZero | go/collector/service/HostCollector.go:224-237 | if stage 0 counts nothing the queue stays empty and the boot never moves |
| Oids.SubtreeConvex | go/collector/protocols/snmp/SNMPv2Walk.go:85-88 | whatever lies between two identifiers of a subtree, in lexicographic order, is in the subtree |
| Oids.SubtreeStretch | go/collector/protocols/snmp/SNMPv2Walk.go:53-109 | the instances below a base are one contiguous stretch of a sorted view |
| Oids.LessMeans | go/collector/protocols/snmp/SNMPv2Walk.go:53-109 | the order in which the agent answers: a proper prefix first, otherwise the smaller component where two identifiers first differ |
| SnmpWalk.SNMPv2Collector.Ask | go/collector/protocols/snmp/SNMPv2Walk.go:56-83 | one request with its reconnect and retry, for every pattern of failures and of sessions closed from outside |
| SnmpWalk.SNMPv2Collector.ReconnectSession | go/collector/protocols/snmp/SNMPv2Walk.go:154-158 | the session is open afterwards exactly if opening succeeded |
| SnmpWalk.SNMPv2Collector.Walk | go/collector/protocols/snmp/SNMPv2Walk.go:41-110 | the loop terminates; it collects one readable instance of the subtree a round, up to the first unanswered round |
| SnmpWalk.WalkIsPrefix | go/collector/protocols/snmp/SNMPv2Walk.go:56-109 | whatever fails, the result is a gap-free beginning of the subtree in order and without repetitions; without an error it is not empty |
| SnmpWalk.WalkIsComplete | go/collector/protocols/snmp/SNMPv2Walk.go:53-109 | without failures the result is exactly the instances strictly below the base, if and only if none of them answers with a bare type tag |
| SnmpWalk.WalkDespiteRetries | go/collector/protocols/snmp/SNMPv2Walk.go:56-83 | if the session is never closed from outside, and in every round the first request succeeds or the reconnect and the second one do, the walk returns the whole readable subtree |
| SnmpWalk.EndsShort | go/collector/protocols/snmp/SNMPv2Walk.go:75-83 | a walk ends short without saying so if and only if some round, all before it being answered, loses its first request and then the reconnect or the second request |
| SnmpWalk.EndsClosed | go/collector/protocols/snmp/SNMPv2Walk.go:58-80 | a walk fails with a closed session if and only if some round, all before it being answered, finds the session closed at one of the three points where it looks |
| SnmpTable.SetValue | go/collector/protocols/Utils.go:40-57 | a missing row is created, the cell is written, and a column is named once, by its first value that is not nil |
| SnmpTable.Keys | go/collector/protocols/Utils.go:70-81 | every key once, in some order; none for a missing map |
| SnmpTable.MapOfWalk | go/collector/protocols/snmp/SNMPv2.go:466-478 | every pair of the walk under its normalised name, later ones overwriting |
| SnmpTable.LastStored | go/collector/protocols/snmp/SNMPv2.go:466-478 | the map of a walk holds exactly the normalised names of its pairs, each with the value of the last pair of that name |
| SnmpTable.NormalForm | go/collector/protocols/snmp/SNMPv2.go:47-55 | a normalised name begins with a dot and stays as it is; iso becomes .1, a missing dot is added |
| SnmpTable.RowAndColumn | go/collector/protocols/snmp/SNMPv2Walk.go:178-190 | row and column are what stands after the last two dots, and a name with fewer dots has neither |
| SnmpTable.MakeTable | go/collector/protocols/snmp/SNMPv2Walk.go:123-150 | the table of the map for some visiting order of its keys |
| SnmpTable.TableFaithful | go/collector/protocols/snmp/SNMPv2Walk.go:137-147 | if the keys of a cell agree on its value, the cell holds the value of every key that stands for it |
| SnmpTable.TableOrderFree | go/collector/protocols/snmp/SNMPv2Walk.go:123-150 | the cells are the same for every visiting order if and only if all keys of a cell agree |
| SnmpTable.CellContested | go/collector/protocols/snmp/SNMPv2Walk.go:123-150 | two instances that agree in row and column contend for one cell, and the one visited last gets it, in either order |
| SnmpTable.ContestedInstances | go/collector/protocols/snmp/SNMPv2Walk.go:178-190 | such instances are .1.1.2.5.7 and .1.1.3.5.7 |
| SnmpTable.ColumnsNamed | go/collector/protocols/snmp/SNMPv2Walk.go:178-190 | a column with a value is named by its own number |
| SnmpTable.WalkTable | go/collector/protocols/snmp/SNMPv2Walk.go:123-190 | the table of a walk is a faithful re-indexing: every instance is in the cell of its own row and column, and nothing else is in the table |
| SnmpTable.TableOfSubtree | go/collector/protocols/snmp/SNMPv2Walk.go:41-150 | from agent to table: a failure-free walk over instances that end in column and row makes a table with exactly the instances strictly below the base, each in its own cell, for every visiting order |
| Decimals.OidStringInjective | go/collector/protocols/snmp/SNMPv2Walk.go:96-99 | different identifiers have different names, so no walk entry overwrites another |
| Decimals.AtoiOfDec | go/collector/protocols/snmp/SNMPv2Walk.go:178-190 | reading a printed sub-identifier gives it back |
| Decimals.Int32Exact | go/collector/protocols/snmp/SNMPv2Walk.go:178-190 | the conversion to 32 bits keeps the remainder modulo 2^32, as a signed number |
| Decimals.AtoiOfNumeral | go/collector/protocols/snmp/SNMPv2Walk.go:178-190 | a numeral with or without a sign is read as its number, or as the nearest one of 64 bits |
| Caches.CollectorCache.Upsert | go/collector/protocols/k8sclient/Cache.go:34-44 | the object is stored under its own key, a missing one changes nothing |
| Caches.FoundByIdentity | go/collector/protocols/k8sclient/Cache.go:46-57 | looking up or deleting by type, namespace and name meets that object and no other, if and only if the entry under the key, if any, is that object |
| Caches.ColonFreeIsOwn | go/collector/protocols/k8sclient/Cache.go:89-91 | which is so for every key of a cache whose types and namespaces hold no colon |
| Caches.CollectorCache.List | go/collector/protocols/k8sclient/Cache.go:59-87 | exactly the wanted entries, each once |
| Caches.CacheKeyInjective | go/collector/protocols/k8sclient/Cache.go:89-91 | keys are unambiguous if resource types and namespaces hold no colon, for any names |
| Caches.CacheKeyCollides | go/collector/protocols/k8sclient/Cache.go:89-91 | a colon in a namespace can make two objects share a key |
| Selectors.Matches | go/collector/protocols/k8sclient/Cache.go:93-124 | the loop decides whether every requirement of the selector holds |
| Selectors.SelectorString | go/collector/protocols/k8sclient/Enrich.go:442-453 | the pairs of the map, in the order of its keys, joined by commas |
| Selectors.PrintsOne | go/collector/protocols/k8sclient/Enrich.go:442-453 | a label map has one selector, whatever order its keys are collected in |
| Selectors.PrintedSelectorMatches | go/collector/protocols/k8sclient/Enrich.go:442-453 | an object matches the printed selector of a label map if and only if its labels contain every pair of it |
| Selectors.RequirementMeans | go/collector/protocols/k8sclient/Cache.go:107-122 | a requirement key=text, with white space around either, holds exactly if the label has that text, null reading as blank |
| Selectors.BareWordFails | go/collector/protocols/k8sclient/Cache.go:109-115 | a requirement without an equals sign never holds unless it is blank |
| Selectors.AllMustHold | go/collector/protocols/k8sclient/Cache.go:93-124 | a selector of several requirements selects exactly what has labels in its JSON and meets each of them |
| Cascades.IsOwnedBy | go/collector/protocols/k8sclient/Cascade.go:98-135 | true exactly if some owner reference agrees in a known UID, or in name and kind |
| Ownerships.OwnedExactly | go/collector/protocols/k8sclient/Cascade.go:98-135 | on the JSON of the object: owned if and only if metadata.ownerReferences is a list with an object whose uid is the UID, if that is not blank, or whose name and kind are those, a missing or non-text one reading as blank; any other content owns nothing |
| Cascades.Runtime.CascadeNamespaceDelete | go/collector/protocols/k8sclient/Cascade.go:33-52 | the objects of the namespace except namespaces are gone, each told once |
| Cascades.Runtime.DeletePodsOf | go/collector/protocols/k8sclient/Cascade.go:77-87 | the Pods of one ReplicaSet that are still cached are gone, each told once |
| Cascades.Runtime.CascadeDeploymentDelete | go/collector/protocols/k8sclient/Cascade.go:57-96 | the owned ReplicaSets and their Pods are gone, each told once even if a Pod has two owners |
| Cascades.Runtime.HandleResourceDeletion | go/collector/protocols/k8sclient/Cascade.go:10-27 | the cache is what the deletion leaves; the root is told once even if it was absent, and every other removed object exactly once |
| Cascades.NamespaceDeletionExact | go/collector/protocols/k8sclient/Cascade.go:10-52 | deleting a namespace, whatever namespace the deletion carries, leaves exactly the other objects outside it or that are namespaces, untouched: if and only if the entry under its key is the namespace itself or goes along anyway |
| Cascades.NamespaceEntryStays | go/collector/protocols/k8sclient/Cascade.go:10-27 | a deletion that carries the namespace's own name empties the namespace but leaves the entry of the namespace filed without one |
| Cascades.DeploymentDeletionExact | go/collector/protocols/k8sclient/Cascade.go:10-135 | deleting a Deployment leaves exactly the other objects that are neither one of its ReplicaSets nor a Pod of one of those, untouched: if and only if the entry under its key is the Deployment, or goes along anyway and spares no Pod |
| Ownerships.DeploymentTakes | go/collector/protocols/k8sclient/Cascade.go:57-135 | deleting a Deployment takes away, besides what is cached under its key, exactly the ReplicaSets of its namespace whose JSON refers to it, and the Pods whose JSON refers to one of those |
| Ownerships.OthersSurvive | go/collector/protocols/k8sclient/Cascade.go:117-134 | an object whose references all name another UID, and another name or kind, survives the deletion |
| Ownerships.NamespaceTakes | go/collector/protocols/k8sclient/Cascade.go:33-52 | deleting a namespace takes away, besides what is cached under its key, exactly the objects in it that are no namespaces |
| Ownerships.OthersTakeThemselves | go/collector/protocols/k8sclient/Cascade.go:10-27 | any other deletion, and a cascade without the names it goes by, takes away one key and nothing else |
| Subscribers.SharedRuntime.Subscribe | go/collector/protocols/k8sclient/SharedRuntime.go:134-143 | a new channel, open and empty, is subscribed |
| Subscribers.SharedRuntime.Unsubscribe | go/collector/protocols/k8sclient/SharedRuntime.go:145-155 | a subscribed channel is closed, any other is left alone, so none is closed twice |
| Subscribers.SharedRuntime.NotifySubscribers | go/collector/protocols/k8sclient/SharedRuntime.go:157-166 | afterwards every subscriber has exactly one signal waiting; nothing is sent to a closed channel |
| Subscribers.SharedRuntime.Disconnect | go/collector/protocols/k8sclient/SharedRuntime.go:189-218 | every subscribed channel is closed and none is subscribed |
| Subscribers.Receive | go/collector/service/HostCollector.go:245-251 | a collector that looks into its channel goes on at once exactly if a signal is waiting, which it takes, or the channel is closed |
| Subscribers.ChannelLife | go/collector/protocols/k8sclient/SharedRuntime.go:134-218 | over every run a channel is open exactly until it is unsubscribed or the runtime disconnects, and a signal waits in it exactly if it was notified while open and has not been received since |
| Subscribers.ReceivesAtOnce | go/collector/protocols/k8sclient/SharedRuntime.go:134-218 | over every run a receive returns at once exactly if a signal waits or the channel was closed before |
| Subscribers.DisconnectWakesAll | go/collector/protocols/k8sclient/SharedRuntime.go:189-218 | after a disconnect, on behalf of whichever host, every receive of every collector returns at once, for ever |
| QueueRuns.ExpediteEndsWaiting | go/collector/service/JobsQueue.go:185-200 | a wait that is cut short makes an enabled job found again as soon as the clock stands above its cadence, however recently it ran |
| Informers.InformersStartOnce | go/collector/protocols/k8sclient/ClientGoCollector.go:216-291 | over every interleaving of calls no key has two informers, a warm key has one, started and synchronised, and a call for one namespace that began after the all-namespace informer was warm never gets as far as a start |
| Informers.ReturnedFound | go/collector/protocols/k8sclient/ClientGoCollector.go:216-246 | over every interleaving a call has returned only if it asked for nothing, an informer that serves it is warm, its own or for a namespace call the one for all namespaces, or the once of its own key is used up |
| Informers.RunInv | go/collector/protocols/k8sclient/SharedRuntime.go:106-132 | the once of a key is held by at most one caller; what is warm was synchronised, and what was synchronised was started |
| Informers.StartedIffParses | go/collector/protocols/k8sclient/ClientGoCollector.go:232-245 | over every interleaving: when the once of a key is used up, its informer was started if and only if the resource type of the call that used it up parses, and the key is warm if and only if that informer also synchronised |
| Informers.FailedStartIsFinal | go/collector/protocols/k8sclient/ClientGoCollector.go:232-245 | a used-up once stays as it is: the key is never started or made warm afterwards if it was not before |
| Informers.UnparsableIsFinal | go/collector/protocols/k8sclient/ClientGoCollector.go:232-245 | one call for a resource type that does not parse uses the once of its key up, and whatever follows nothing is ever started for it |
| Specs.CacheSpec.ApplyDefaults | go/collector/protocols/k8sclient/Spec.go:55-104 | filling in step by step gives the defaulted spec |
| Specs.DefaultsSettle | go/collector/protocols/k8sclient/Spec.go:55-104 | filling in twice is filling in once and leaves nothing blank, so the fallback on the operation of the poll is never reached |
| Specs.DefaultModeAndResult | go/collector/protocols/k8sclient/Spec.go:55-72 | the mode is the given one trimmed and in lower case, else get for a spec that names an object and list for any other; the result likewise, else map for get and table for any other |
| Specs.DefaultLists | go/collector/protocols/k8sclient/Spec.go:73-97 | fields and columns stand in for each other, name, namespace and uid of the metadata for both, columns for their names, and CREATE, UPDATE, DELETE for the operations, which are trimmed and in capitals |
| Specs.ParsesExactly | go/collector/protocols/k8sclient/Spec.go:35-53 | a text is a cache spec if and only if it is not blank, decodes, has a resource type, and names an object if its mode is get |
| Specs.ParseGVRExact | go/collector/protocols/k8sclient/GVR.go:13-32 | a text is read as a resource type if and only if, trimmed, it is its two or three parts with single slashes between them |
| Specs.ParseGVROfText | go/collector/protocols/k8sclient/GVR.go:13-32 | parsing reads back what is written as group/version/resource or version/resource |
| Webhooks.Contains | go/collector/protocols/k8sclient/Webhook.go:198-205 | true exactly if the value is listed |
| Webhooks.AddOperationsTo | go/collector/protocols/k8sclient/Webhook.go:73-75 | the operations that are not listed yet are appended in order |
| Webhooks.WebhookRules | go/collector/protocols/k8sclient/Webhook.go:44-91 | the rules are those of the polls in some visiting order, or the error of a poll |
| Webhooks.MatchesRule | go/collector/protocols/k8sclient/Webhook.go:138-159 | true exactly if there is a request and some rule covers it |
| Webhooks.BuiltIff | go/collector/protocols/k8sclient/Webhook.go:54-61 | rules are built if and only if every poll that uses the API can be understood |
| Webhooks.RulesMeanSpecs | go/collector/protocols/k8sclient/Webhook.go:44-159 | the built rules match exactly the requests whose resource type and operation some such poll asks for, if and only if no two types asked for share a key |
| Webhooks.AsksExactly | go/collector/protocols/k8sclient/Webhook.go:51-75 | what a poll asks for: it uses the API, its text is a cache spec, its type reads as this one, and these are the operations it lists, or the three of an admission |
| Webhooks.BadExactly | go/collector/protocols/k8sclient/Webhook.go:54-61 | a poll that uses the API is in error if and only if its text is no cache spec or its type reads as none |
| Webhooks.RulesMeanPolls | go/collector/protocols/k8sclient/Webhook.go:44-159 | where no two types asked for share a key: some rule lists the group, version, resource and operation of a request if and only if some poll of some profile asks for that operation on that type |
| Webhooks.BarFreeUnambiguous | go/collector/protocols/k8sclient/Webhook.go:62-62 | types without a bar never share a key |
| Webhooks.RulesOrderFree | go/collector/protocols/k8sclient/Webhook.go:79-91 | if no two types asked for share a key the rule list is the same for every visiting order of profiles and polls |
| Webhooks.CanonicalIff | go/collector/protocols/k8sclient/Webhook.go:44-91 | the rule list is the same for all ways to ask for the same if and only if no two types asked for share a key |
| Webhooks.TwoOrders | go/collector/protocols/k8sclient/Webhook.go:62-72 | for two types under one key, the one that is visited first gets the rule, and there are two orders with different rules |
| Webhooks.BarsCollide | go/collector/protocols/k8sclient/Webhook.go:44-159 | one poll for a version with a bar and one for a resource with a bar share a key: whatever the order, some request that one of them asks for is not covered |
| Webhooks.AggKeyInjective | go/collector/protocols/k8sclient/Webhook.go:62-62 | resource types without a bar have different aggregation keys |
| Webhooks.AggKeyCollides | go/collector/protocols/k8sclient/Webhook.go:62-62 | with a bar two different resource types can have one key |
| Templates.ReplaceArguments | go/collector/common/utils.go:46-80 | the scanner computes the replacement function, with its early returns |
| Templates.TemplateReplaced | go/collector/common/utils.go:46-80 | a template is filled in, values not being read again, if all its names are mapped, and otherwise is left as it was |
| Templates.AdjacentNamesMerge | go/collector/common/utils.go:54-69 | without a space between them two variables are read as one, named by both names |

## Left out

- Transports (SSH, REST, GraphQL, kubectl, net-snmp, HTTP, TLS, credentials): input and output; an execution is an outcome of the environment.
- The time-outs and repeated attempts around a walk and a get: their effect on a session, closing it at any time, is part of the walk.
- The random delay of a first collection (`SmoothFirstCollection`, off by default): randomness.
- `HostCollector.update` and a second start of the same host: no call of the first is in the repository, and a second start would run two loops over one queue.
- `JobsQueues.JobsQueue.NewJobsForKey`: does not model an order list of the profile that has the right length but other names; the polls it misses would make the code panic.
- `HostCollectors.HostCollector.Stop`: does not model the message about an unreachable device nor the clearing of references; it happens between turns or during an execution, not in the middle of other steps.
- `HostCollectors.HostCollector.BootDetailDevice`: does not model that posting a device may change the registry of profiles; the registry is fixed.
- `HostCollectors.HostCollector.HandOver`: the aggregator, links and encoding are in other libraries; handing over is recording the key and the result.
- `JobsQueues.JobsQueue.InsertJob`: does not model a queue that is shut down between looking the profile up and taking the lock, the cadence and time-out arguments, which every modelled caller leaves at zero, nor selecting a profile by vendor and version.
- `SnmpWalk.SNMPv2Collector.Walk`: does not model the texts of its errors, only which one is returned.
- `SnmpTable.MapOfWalk`: the bytes a value encodes to are an input; an error of the encoder is only logged by the code.
- `Caches.CollectorCache.Upsert`: does not model the resource version and related fields of an entry, which no operation modelled here reads.
- `Selectors.PrintedSelectorMatches`: the formatting of a label value is any function of it.
- `Specs.CacheSpec.ApplyDefaults`: case is changed for ASCII letters only, and fields without a default are not part of the model.
- `Webhooks.WebhookRules`: the texts of its errors do not name the profile; JSON decoding is done before the model begins.
- `HostCollectors.HostCollector.Start`: does not model creating the protocol collectors and subscribing to admission events.
- `Subscribers.SharedRuntime.Disconnect`: does not model the stop channel, the warm maps and the connection, which the channels do not depend on.
- `Informers.InformersStartOnce`: one epoch from connect to disconnect, as a state machine over steps and not over objects; a disconnect in the middle of a start is not modelled.
- `Templates.TemplateReplaced`: speaks of names without dollar sign or space, each ended by a space or the end; other texts are covered by the replacement function alone, and adjacent variables by `Templates.AdjacentNamesMerge`.
- `handleAdmissionEvent`, `ExecuteService`, `Reaper`, `WarmUp`, result building and the rest of the enrichment code: thin, or easy beside the cascade and the rules.
