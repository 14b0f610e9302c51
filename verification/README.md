# Ks-installer: a verified model

Ks-installer provisions servers: an HTTP request creates a host job and one rsview job per
network port, a queue of workers carries them out against MySQL, DNS and a switch inventory
called rsview, and a small raft cluster replicates a key/value store. This project models the
parts with the hardest behaviour and proves what they keep.

## How the model is laid out

- **Job queue** (`Jobs`, `Queue*`, `JobObjects`, `Handlers`). `Queue` is a transition system:
  HTTP handlers, the buffered job channel, the dispatcher and the goroutines it starts, the pool
  of worker inboxes, the workers, and the variable `nextWorker` that all dispatch goroutines
  share. An action names who moves and what the outside answered. Taking a token, storing it in
  `nextWorker`, reading `nextWorker` back and sending to the inbox found there are four separate
  actions, so goroutines overwrite each other's tokens as they can in the program. Sends to a
  full channel wait; a send to an empty channel with a waiting receiver is a rendezvous, so
  capacity zero is covered. `Jobs` is the program a goroutine runs over one job, one outside call
  per step; `JobObjects` has the job object and `doJob` as methods and shows that they do what
  the steps do. Job ids are positions in the heap of jobs, request ids positions in the list of
  handlers: both are fresh by construction, as UUIDs are taken to be.
- **Rsview** (`Rsview`, `RsviewLaws`, `Ports`). The page scanner over the HTML tokenizer's
  stream, and the rules that turn its cells into the properties of a port.
- **Raft** (`RaftJoin`, `RaftBootstrap`, `Store`, `Replicas`). Joining nodes to a live
  configuration, and the replicated map.
- **Responses** (`Requests`). The errors of a request and the response they lead to.
- `Common`, `Sums`, `AppErrors` hold shared definitions.

Every call to MySQL, DNS, rsview or the raft leader has an outcome of its own. A write may be
committed, rejected, or committed without the caller learning of it.

## What turns out

- The dispatcher, its goroutines and the workers never come to rest with a submitted job
  unfinished **exactly when there is at least one worker and at most one worker more than
  `workers_capacity`** (`QueueStuck.ProgressExactly`), whatever the HTTP handlers do meanwhile.
  With two more, two goroutines can be left sending to the same worker while other workers fill
  the pool, and the second job is never picked up. No send to the pool or to an inbox ever waits
  exactly when there are no more workers than `workers_capacity` (`QueueStuck.NeverBlocksExactly`).
- Every series of steps between requests is finite **exactly when `job_retry_max_fails` is at
  least one** (`QueueEndless.TerminatesExactly`). Under both conditions the queue rests only when
  every submitted job is done or failed (`QueueTermination.RestMeansFinished`).
- Re-joining the configured nodes gives the same configuration in whatever order, and keeps every
  node that joined, **exactly when their addresses differ** (`RaftBootstrap.ConfluentExactly`,
  `JoinedStayExactly`). Two nodes whose addresses do not resolve share the address `<nil>` and
  throw each other out (`UnresolvedNodesEvict`), wherever the loop is reached with such nodes.
- The initial raft configuration has unique ids exactly when the local host is not also listed
  under its own name (`RaftBootstrap.InitialIdsAreUnique`).
- A host request with good and bad ports runs its jobs although the response carries errors only
  (`Handlers.BadPortHidesJobs`).

## Model

| member | source | states |
|---|---|---|
| `QueueConservation.StepConserves` | app/server/queue.go:230-331 | No step loses or duplicates a job |
| `QueueConservation.JobsAreConserved` | app/server/queue.go:176-410 | In every reachable state each job is in exactly one place (handler, job channel, one dispatch goroutine, one inbox, one executing worker, retired, dropped), places hold nothing else, and no channel holds a job twice |
| `QueueOrder.JobsStartInOrder` | app/server/queue.go:230-295 | Over every run goroutines are started for jobs in the order in which those were sent, whoever sent them, and what was sent and not yet received waits in that order |
| `QueueOrder.TokensAreTakenInOrder` | app/server/queue.go:293-314 | Goroutines receive the inboxes from the pool in the order in which workers announced them |
| `QueueOrder.BindsToLastStored` | app/server/queue.go:279-294 | A goroutine sends to the inbox that any goroutine stored in nextWorker last |
| `QueueOrder.InboxesAreReadInOrder` | app/server/queue.go:294-322 | A worker receives its jobs in the order in which they were delivered to its inbox |
| `QueueOrder.HandlersSendInOrder` | app/server/http.go:330-365 | A handler that did not give up sends its jobs in the order of their creation, and none before all are inserted |
| `QueueOrder.ChannelsAreBounded` | app/server/queue.go:242-306 | No channel ever holds more than its capacity |
| `QueueTokens.StepBalances` | app/server/queue.go:286-331 | Tokens in the pool, goroutines between take and delivery and jobs in inboxes stay together as many as workers at their select, with nextWorker shared and for any capacities |
| `QueueTokens.TokensAreBalanced` | app/server/queue.go:276-331 | That balance in every reachable state, and that tokens, nextWorker and targets always name workers |
| `QueueTokens.NoSendBlocks` | app/server/queue.go:293-322 | With no more workers than capacity every announcing worker finds room in the pool and every goroutine room in its target inbox |
| `QueueStuck.NeverBlocksExactly` | app/server/queue.go:242-322 | That happens in all reachable states if and only if workers <= capacity |
| `QueueProgress.Progress` | app/server/queue.go:242-331 | With 1 <= workers <= capacity + 1, a reachable state with a submitted job that is not finished lets the dispatcher, a dispatch goroutine or a worker move, whatever the handlers are about |
| `QueueProgress.HandlerProgress` | app/server/http.go:330-365 | A handler with jobs to insert or to send can take its own next step, unless the job channel is full, and then the dispatcher can take a job from it, for any number of workers |
| `QueueStuck.FillingIsReachable` | app/server/queue.go:276-331 | With two workers more than capacity, the run in which both jobs go to one worker and others fill the pool |
| `QueueStuck.FullIsStuck` | app/server/queue.go:276-331 | That run ends with a submitted job unfinished and nobody able to move, handlers included |
| `QueueStuck.ProgressExactly` | app/server/queue.go:242-331 | In all reachable states of a configuration a submitted, unfinished job lets the dispatcher, a goroutine or a worker move, if and only if 1 <= workers <= capacity + 1 |
| `QueueInvariant.FailStepOk` | app/server/queue.go:176-213 | Each write of a failed job keeps what is known of it: failed with the limit of errors, saved errors a subsequence of its errors |
| `QueueInvariant.WorkStepOk` | app/server/queue.go:333-410 | Every answer to a worker's call leads to a point whose facts hold, changes only the job's own rows, and never dereferences a missing host job |
| `QueueSteps.StepKeepsInv` | app/server/queue.go:176-410 | Every action of the system keeps the whole invariant |
| `QueueSteps.InvHolds` | app/server/queue.go:176-410 | The invariant holds in every reachable state |
| `QueueTermination.StepLowers` | app/server/queue.go:176-199 | With a positive retry limit every system step lowers a potential made of attempts left, job stages and announcing workers |
| `QueueTermination.Terminates` | app/server/queue.go:176-410 | From every reachable state no series of system steps is longer than the potential |
| `QueueTermination.RestMeansFinished` | app/server/queue.go:176-410 | However the system moves, dispatcher, goroutines and workers rest only when every job is still with its handler, dropped, or retired and done or failed with exactly the limit of errors; when the handlers rest too, none has a job left |
| `QueueEndless.OneRound` | app/server/queue.go:176-199 | Below a limit of one, a refused state update sends the job round once more, and nothing else has changed but its errors |
| `QueueEndless.TerminatesExactly` | app/server/queue.go:176-199 | Runs between requests are bounded from every reachable state if and only if the limit is at least one |
| `QueueOwnership.OnlyTheHolderWrites` | app/server/queue.go:176-228 | A step that changes a job, its row or its saved errors is made by the goroutine that holds the job |
| `QueueOwnership.HandingOnLetsGo` | app/server/queue.go:230-331 | A job that is sent, handed off, delivered or received is at its new place and at no other |
| `QueueOwnership.RetryBound` | app/server/queue.go:176-224 | With limit N a job on its way to or in an attempt has fewer than N errors, and it is failed, in flag and in state, exactly when it has N |
| `QueueOwnership.DatabaseIsSound` | app/server/queue.go:180-224 | Error rows name only failed jobs, are a subsequence of their errors and at most N; persisted is_failed means persisted Failed; persisted Failed or Done means the job is |
| `QueueTables.StepTook` | app/server/queue.go:176-224 | Each step changes each column of each table as the one write it makes says, if that takes effect, and not otherwise |
| `QueueTables.TablesAreTheWrites` | app/server/queue.go:176-410 | Over every run the states, flags, saved errors, links and hosts in the database are what the writes of the run that took effect said last |
| `QueueLedger.ErrorsAreTheFaults` | app/server/queue.go:176-199 | Over every run the errors of a job are exactly what went wrong in the steps taken for it, across retries and goroutines and in that order, but for a refused pending state about to be appended |
| `QueueLedger.EveryErrorIsOffered` | app/server/queue.go:180-193 | When a failed job is retired each of its errors was offered to the errors table once and in order; of a job that has not failed none is |
| `QueueLedger.StateIsTheLastSet` | app/server/queue.go:176-224 | Over every run a job's state in memory is the last that a step gave it: created, pending, blocked, done, or failed with the error that meets the limit |
| `QueueOwnership.HostJobIsFound` | app/server/queue.go:117-146 | Every port job has exactly one host job row of its request, its look-up answers that row or fails, and the process never crashes on a missing one |
| `QueueRequests.RequestsAreAllOrNothing` | app/server/http.go:330-365 | Once one job of a request is submitted, the jobs of the request are one host job and one job for each asked MAC address, in that order; each has its row and none is dropped |
| `QueueHistory.FinalStatesAreFinal` | app/server/queue.go:176-224 | Over whole runs a done or failed job never changes again |
| `QueueHistory.PersistedStateWasHeld` | app/server/queue.go:215-224 | A persisted state is one the job had in memory at or before that moment of the run |
| `QueueHistory.PersistedFailureStays` | app/server/queue.go:201-213 | Once is_failed is persisted, it and the persisted state Failed stay for the rest of the run |
| `QueueEvidence.DoneMeansProvisioned` | app/server/queue.go:358-405 | An rsview job is done, in memory or in the database, only after one attempt parsed an 18-cell page into full port properties with that page's LLDP name, and with the port as that page left it found the host job of its request, marked the job blocked if that host job was pending, read that job's host, matched its name with the LLDP name and wrote the link, in this order |
| `QueueEvidence.DoneMeansHostWritten` | app/server/queue.go:344-356 | A host job is done, in memory or in the database, only after one attempt resolved the IPMI name, then wrote the host, leaving the hosts table as the upsert left it, and then marked the job done |
| `QueueEvidence.AnyHostCanBeWritten` | app/server/queue.go:344-356 | In every reachable state a worker about to write a host can write any, under its job, and then goes on to mark the job done |
| `QueueEvidence.LookupsCanSucceed` | app/server/queue.go:367-390 | In every reachable state the look-up of the host job can find it, and the look-up of its host can find a host that is the only one |
| `QueueHistory.PortIsSetOnce` | app/server/port.go:66-117 | Over every run of the queue, retries and all, the vlan, port name and jun name of a job's port never change once they are known, and its MAC address never does |
| `JobObjects.QueueJob.StateUpdate` | app/server/queue.go:215-224 | The job takes the state; its row does, if it has one and the write is applied; all other columns, rows and tables are as before |
| `JobObjects.QueueJob.SetFailed` | app/server/queue.go:201-213 | The job is failed in memory; its row becomes failed if that is applied and flagged only after an acknowledged state; nothing else changes |
| `JobObjects.QueueJob.AppendAppError` | app/server/queue.go:176-199 | Below the limit the job is sent and the database untouched; at the limit nothing is sent, the row becomes failed as in setFailed, and the errors table grows by exactly the errors of the job whose insertion is applied, in order, all of them if all are |
| `JobObjects.FailAllWrites` | app/server/queue.go:180-213 | The same of the failing steps of the transition system, run in a row |
| `JobObjects.RunFailing` | app/server/queue.go:180-193 | The failing steps of the transition system, run in a row, are the writes of appendAppError |
| `JobObjects.QueueWorker.DoJob` | app/server/queue.go:333-410 | For any answers of the outside the job, the tables and the channel end as the steps of the transition system leave them |
| `JobObjects.ReluctantIsPlausible` | app/server/queue.go:333-410 | Every job at every point can be run to an end |
| `Handlers.InsertRunIsInsertAll` | app/server/http.go:330-354 | The handler's insertion steps in the transition system leave the tables and the jobs to send as the handler's loop does |
| `Handlers.InsertJobs` | app/server/http.go:330-354 | Jobs are inserted in order up to the first failure; all ids come back exactly when all insertions were acknowledged |
| `Handlers.InsertAllRows` | app/server/http.go:330-354 | The insertions leave one freshly created row under the request for each job inserted, up to the first failure, and change nothing else |
| `Handlers.EveryPortIsAnswered` | app/server/http.go:316-354 | Every good port has a job for its own MAC address, in the order of the ports after the host's; every bad port its own error |
| `Handlers.HostCreate` | app/server/http.go:294-379 | All jobs are sent, host first, or none; the tables hold the insertions; the response follows from the errors gathered |
| `Handlers.BadPortHidesJobs` | app/server/http.go:316-378 | The response has the jobs exactly when they were sent and no port was bad, and otherwise a status of at least 400 |
| `Requests.WorstStatusIsMaximum` | app/server/error.go:102-128 | The worst status bounds that of every error and is that of one of them |
| `Requests.RespondExactly` | app/server/http.go:393-418 | A response lists all errors, its status is the greatest in play, and its data is dropped exactly when the request's status or an error's exceeds the one asked for |
| `Requests.HttpRequest.SaveErrors` | app/server/request.go:80-94 | Nothing is appended when all errors are saved, and exactly one database error when some save fails |
| `Requests.SavingAddsOneError` | app/server/request.go:80-94 | The same of the errors that a response is built from |
| `Requests.HttpRequest.RespondApiErrors` | app/server/request.go:58-78 | All errors are listed in order and the request status rises to their maximum |
| `Requests.HttpRequest.RespondJson` | app/server/http.go:393-418 | Status is the maximum of the requested, the request's and all error statuses; data goes exactly when the request's or an error's exceeds the requested |
| `Requests.DataOnlyWithoutErrors` | app/server/http.go:393-418 | A 200 or 201 keeps its data exactly when no error was gathered |
| `Rsview.ScanIsCells` | app/server/rsview.go:197-265 | The flag-driven scan yields the cells: from a result td start to the first td end, nonblank normalised texts joined by a space, NULL when none |
| `Rsview.ParseResponseHtml` | app/server/rsview.go:197-280 | The loop returns those cells, with in-bounds appends to the last one, and the right error for a broken stream, no cell, or a count other than 18 |
| `RsviewLaws.FlagIsEndsInCell` | app/server/rsview.go:235-247 | The cell flag is set exactly when a result td start has no td end after it |
| `RsviewLaws.NoiseIsErased` | app/server/rsview.go:214-263 | Inserting tr tokens, other td starts, comments, text or td ends outside cells, result starts or blank text inside, anywhere, leaves every page's cells alone |
| `RsviewLaws.InsertionIsInvisible` | app/server/rsview.go:214-263 | No other token can be inserted without changing some page's cells |
| `RsviewLaws.MarginsAndCaseGo` | app/server/rsview.go:254 | A text with white space around it, whose lower-case form has no "none" in it, is normalised to that form, character by character |
| `RsviewLaws.FirstNoneGoes` | app/server/rsview.go:254 | Of a text with "none" in it the first occurrence goes, and what follows is dealt with in the same way |
| `RsviewLaws.PaddedPageRoundTrip` | app/server/rsview.go:197-280 | A page showing any 18 cells, empty or with a text in whatever case and with whatever white space around it, is read back as those texts in lower case |
| `RsviewLaws.PageRoundTrip` | app/server/rsview.go:197-280 | A page showing any 18 cells, empty or with a normalised text, is read back as those cells |
| `RsviewLaws.AcceptedPageHasNoEmptyCell` | app/server/rsview.go:267-279 | An accepted page has 18 cells and none of them is the empty string |
| `Ports.ParsesExactly` | app/server/port.go:70-74 | A string parses as v if and only if v fits 16 bits and the string is v in decimal after any number of zeros |
| `Ports.BeforeDot` | app/server/port.go:119-124 | The LLDP name is the longest prefix of the cell without a dot |
| `Ports.FirstDecisive` | app/server/port.go:67-81 | The deciding rule is contained and not plain zero, and contained rules before it are plain zero |
| `Ports.FreshVlanExactly` | app/server/port.go:66-85 | On an unknown vlan: the value of the deciding rule, an internal error exactly when that rule cannot be parsed, unknown vlan exactly when no rule decides |
| `Ports.BasePort.ParseVlans` | app/server/port.go:66-85 | The vlan loop does that, and keeps a known vlan |
| `Ports.BasePort.ParseRsviewProperties` | app/server/port.go:59-131 | The method does one attempt: same fields, same error |
| `Ports.AttemptSucceeds` | app/server/port.go:59-143 | An attempt succeeds if and only if the page was read, vlan, port name, jun name and LLDP name are known afterwards, and the update was acknowledged |
| `Ports.AttemptFailsWith` | app/server/port.go:59-143 | The error of an attempt is the page's, and then that of the first property, in the order of the code, that is missing |
| `Ports.FreshPortIsThePage` | app/server/port.go:66-130 | A successful attempt on a fresh port leaves the whole port and hostname cells of the page as port name and jun name, its LLDP name, and the value of the first deciding vlan rule |
| `Ports.SuccessReadsEverything` | app/server/port.go:83-130 | A successful attempt leaves no property empty, and the LLDP name is that of its own page if the cell for it is not empty |
| `Ports.LldpNameIsOfThisPage` | app/server/port.go:119-129 | The pages that the scanner accepts have no empty cell, so after a successful attempt on one the LLDP name is that of its own page, whatever was known before |
| `Ports.SetAtMostOnce` | app/server/port.go:66-117 | Over any series of retries vlan, port name and jun name are each set at most once |
| `Ports.VlanIsFirstDecided` | app/server/port.go:66-85 | On a fresh port the vlan after any series of retries is that of the first page that decides one |
| `RaftJoin.JoinIsGood` | core/raft/raft.go:196-227 | Whatever the leader answers, every configuration a join goes through has unique ids and addresses and keeps the servers that do not conflict; success means the node took the place of exactly those that did |
| `RaftBootstrap.PartialFailureIsSafe` | core/raft/raft.go:145-156 | With failures anywhere, skipped or not, every configuration on the way is unique and keeps servers in conflict with no node; when no two nodes conflict, the last one has every node whose join succeeded |
| `RaftBootstrap.JoinedStayExactly` | core/raft/raft.go:145-156 | From any configuration and whatever fails, every node whose join succeeded is there at the end, if and only if no two of the nodes conflict |
| `RaftBootstrap.UnresolvedNodesEvict` | core/raft/raft.go:145-156 | Two nodes with the address `<nil>` both join successfully, each throws the other out, and the order decides which one is left |
| `RaftBootstrap.RejoinIsConfluent` | core/raft/raft.go:145-156 | Successful joins in any order end in the nodes and the old servers that conflict with none |
| `RaftBootstrap.EveryoneJoins` | core/raft/raft.go:145-156 | When the leader acknowledges everything every node joins |
| `RaftBootstrap.ConfluentExactly` | core/raft/raft.go:145-156 | From any configuration, all series of successful joins of the nodes end in the same servers, if and only if the nodes' addresses differ |
| `RaftBootstrap.RejoinIsDeterminedExactly` | core/raft/raft.go:145-156 | All walks of the loop over the node map in which everyone joins leave the same servers, if and only if the addresses in the map differ |
| `RaftBootstrap.RaftService.Init` | core/raft/raft.go:48-84 | Which error, and otherwise the local id, the node map and the server list to bootstrap with, each as the order of the walk makes it |
| `RaftBootstrap.NodesAreAsConfigured` | core/raft/raft.go:56-75 | For any order the node map has the configured nodes with their addresses, this host under its own name |
| `RaftBootstrap.LocalAddressIsTheLast` | core/raft/raft.go:56-75 | If this host is also listed under its own name, its address is that of whichever of the two entries came last |
| `RaftBootstrap.InitialIdsAreUnique` | core/raft/raft.go:56-80 | The server list has unique ids if and only if the local host is not also listed by name |
| `RaftBootstrap.InitialServersAreTheNodes` | core/raft/raft.go:56-80 | Unless the local host is also listed by name, the servers to bootstrap with are exactly the nodes to re-join, with the same addresses |
| `RaftBootstrap.RaftService.Join` | core/raft/raft.go:196-227 | The loop over the stale copy changes the live configuration as specified, step by step |
| `RaftBootstrap.RaftService.Rejoin` | core/raft/raft.go:145-156 | The loop over the map is a series of joins in some order without repetition, of all nodes when it succeeds; it succeeds when everything is acknowledged; and with differing addresses a success without skipped failures leaves the nodes and the old servers that conflict with none |
| `Store.Fsm.Apply` | core/raft/store.go:100-155 | Set and delete change their key only; any other entry panics and changes nothing |
| `Store.Fsm.Get` | core/raft/store.go:56-60 | A missing key reads as the empty string |
| `Store.Fsm.Snapshot` | core/raft/store.go:117-129 | The copy made key by key equals the map |
| `Store.Fsm.Restore` | core/raft/store.go:131-141 | The map becomes the decoded snapshot, or stays when it cannot be decoded |
| `Store.SnapshotAndSuffix` | core/raft/store.go:117-141 | A snapshot of a prefix followed by the rest of the log gives the replay of the whole |
| `Store.SameReplayExactly` | core/raft/store.go:143-155 | Two logs replay to the same map if and only if on every key their last commands leave the same |
| `Store.SameReadsExactly` | core/raft/store.go:56-60 | Two logs read the same on every key if and only if on every key their last commands leave the same text, a deletion counting as the empty one |
| `Store.PerKeyOrderSuffices` | core/raft/store.go:143-155 | Logs with the same commands in the same order on each key are permutations of each other and replay to the same map |
| `Store.CompactionPreservesReplay` | core/raft/store.go:143-155 | The log reduced to the last command on each key replays to the same map |
| `Replicas.StepKeepsValid` | core/raft/store.go:100-177 | Commits, applies, snapshots, crashes and restores keep every map and snapshot the replay of its prefix |
| `Replicas.StepAchieves` | core/raft/store.go:100-177 | In every reachable cluster an apply takes in one more command, a restore brings back the snapshot's index and map, a crash loses the map, snapshots are taken and persisted as the replica stood, and other replicas and the log are spared |
| `Replicas.TakenIsPersisted` | core/raft/store.go:117-177 | Taking and persisting a snapshot adds that of the replica's index and replay to the persisted ones |
| `Replicas.CrashedReplicaRecovers` | core/raft/store.go:100-155 | A replica that crashes is back at the replay of the whole log once it is restored from any persisted snapshot and has applied the commands after it |
| `Replicas.EveryReplicaCatchesUp` | core/raft/store.go:100-155 | Applying the commands it lacks brings any replica to the replay of the whole log |
| `Replicas.ReplicasAgree` | core/raft/store.go:100-177 | Over every run each replica's map is the replay of what it has applied, and replicas at one index agree on every key |
| `Replicas.LaggardCatchesUp` | core/raft/store.go:100-141 | A replica behind another reaches its map by applying the missing entries |

## Left out

- Shutdown: `destruct`, `workerDone`, closing of inboxes and the wait groups. All queue properties are of runs before shutdown.
- `dispatch` and `spawn` are actions of the transition system, not methods: their loops never end and interleave.
- Job actions other than host creation and rsview parsing: `doJob` only logs them, and no handler creates them; the model retires such a job as it is.
- The host upsert: its effect is any change of the hosts table that writes rows under the job's own id or under none, with success or failure.
- Fields of the payload host that the handler and the worker share; ownership is claimed of the job object, its row and its errors.
- The updated properties in the macs table; only the link to the host is modelled there.
- Validation of the request body, HMAC authentication, parsing of IP and MAC addresses: the handler is modelled from the list of asked ports on, each with the outcome of registering it.
- Creation of the rsview session and its authentication test; a fetch has an outcome of its own.
- Texts of cells are sequences of characters with ASCII white space and letter case; other alphabets are not modelled.
- MySQL, DNS, HTTP, the HTML tokenizer, JSON, bbolt and hashicorp/raft inside: outcomes, a token stream, an encoding whose inverse is taken for granted, one committed log, RemoveServer deleting by id and AddVoter adding or readdressing a server.
- Buckets of the key/value store: the code ignores them, and so does the model.
- `Persist` reports success even when it fails; replicas restore only from snapshots whose sink was closed.
- `BootstrapCluster` and its answer: the re-join loop is reached only when it reports that the cluster cannot be bootstrapped (core/raft/raft.go:139-143), and whether it does so for a server list with repeated ids or addresses is not part of this model.
- Raft transport, stores and the rest of `Init` after the node list, and the ticker of `Bootstrap`.
- Fairness: termination and progress together make every maximal run end, so none is needed.
- Configuration loading, CLI, logging, the Puppet client, tasks and the SQL schema.
