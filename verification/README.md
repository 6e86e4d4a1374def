# A replicated bank over UDP: model and proofs

One primary server keeps a table of clients and moves money between them; backups receive snapshots of
the whole table; heartbeats detect dead servers and a bully election picks the next primary; a client
feeds commands typed by its user through a bounded queue into a stop-and-wait sender. This project models
those four parts in Dafny 4.11 and proves what they promise. `dafny verify dfyconfig.toml` checks it.

## How the model is laid out

| file | part |
|---|---|
| `Machine.dfy` | machine integers; the table sizes, left open, so every result holds for all of them |
| `Ledger.dfy`, `History.dfy`, `Bank.dfy` | the client table as a value, what its sequence numbers promise over whole histories, and the slot-free bank it refines |
| `ClientTable.dfy` | the same table updated in place |
| `Option.dfy`, `Thread.dfy` | a value that may be missing; the two threads of a server |
| `Serialise.dfy` | request and discovery threads interleaved access by access under the mutex, with each other and with snapshots |
| `Lineage.dfy` | how far a backup lags, and exactly-once transfers across failovers |
| `Peers.dfy`, `PeerTable.dfy` | server list and health table, the failure sweep with its deletions in place |
| `Node.dfy`, `Server.dfy` | one server: the step functions of its handlers, and the process whose globals they update |
| `Cluster.dfy` | any number of servers that start, crash and restart over a network that loses, duplicates and reorders |
| `Election.dfy`, `Termination.dfy` | the election at the granularity of shared accesses: agreement, that it ends, and how role and leader relate |
| `Granularity.dfy`, `Projection.dfy` | the handlers of `Node.dfy` are the access-by-access threads of `Election.dfy`, run undisturbed; whole runs without overlap project to runs of `Cluster.dfy` |
| `CommandQueue.dfy`, `Pipeline.dfy` | the circular queue, and reader and sender around it with condition variables and stray wakeups |
| `Resync.dfy` | sequence-number agreement between client and server |

A value function and a method of the same operation come in pairs: the class does what the C code does,
in place and with loops, its `ensures` says it computes the function, and the lemmas are about the
function. `Servers.Server.Receive` ties every handler to its function in this way, so the table below has
no row for the handlers one by one.

## Main results

* **Ledger.** Over any history a ledger keeps distinct addresses, stays within its table, conserves money
  (100 per registered client), never wraps an unsigned balance, and refines a bank without slots or
  machine arithmetic. Each balance is 100 plus what the history's journal brought in minus what it took
  out. Accepted numbers of a source strictly increase, and a request is refused as a duplicate exactly
  when the history already covers its number.
* **Split brain.** Two servers are primary at once exactly when one has taken a promoting branch while the
  other was primary; the branches are listed by their guards. With any number of simultaneous primaries,
  lost, duplicated and reordered snapshots, crashes, restarts, request threads that finish after their
  server was demoted, and whatever overlapping handlers make of a server's role, every server's ledger and
  every snapshot in flight is the ledger of one sequential history, hence has all the properties above.
* **Failover.** A backup with the latest snapshot lags behind its primary only by fresh clients, each
  worth exactly 100, and by zero-value requests. Through any number of failovers a number is committed at
  most once as long as each promoted backup has applied a snapshot covering it, in particular if it has
  applied the latest one. A commit whose snapshot is lost is committed again exactly when the backup's
  table already lists its destination, or the client pays itself. Within a line the transaction counters
  tell exactly whether a backup is up to date; a late snapshot from another line can replace its ledger.
* **Election.** Whatever two threads per server do to the shared flag, once an election has begun any
  quiet state has every live server following the highest live id, which alone is primary. No server's
  monitor fires twice, and a bound on all remaining steps covers the elections that later detections start.
* **Role and leader.** Both are written by two threads without a lock. A primary follows itself whenever
  none of its threads stands between two writes; the converse fails, and the two writes that break it are
  identified exactly and reached by a run. Such a server takes requests, commits them and tells nobody
  (`Nodes.CommitIsPropagated`). Runs in which no two handlers of one server overlap project to runs of the
  cluster model, where role and leader always agree.
* **Takeover.** A server of higher id that joins erases every ledger: for any history there is a run in
  which it has been served and then nothing is left of it.
* **Membership.** A server that obeys a leader joins it, and the leader lists it if there is room. A listed
  server stays through a monitor round exactly as long as its last ping, or the last reset of the timers
  since, is within the timeout, and a sweep that keeps it leaves it to be judged by that time again.
* **Queue.** The circular buffer refines a sequence; commands come out as a prefix of those typed; no
  wakeup is lost, reader and sender never both sleep, and shutdown lets the sender drain everything. What a
  session makes the server run is exactly the commands typed, in order, with the other clients' operations between.

## Reading the code

* A comment at server/replication.c:36 says an election starts after 10 seconds; `FAILURE_THRESHOLD` is
  never used and the monitor starts one in the round that evicts the leader. The model follows the code.
* `num_transactions++` is undefined in C when it overflows. `total_transferred += value` adds a `uint32_t`,
  so the sum is unsigned and only its conversion back to `int` is implementation-defined. The model wraps
  both in two's complement and proves when they are exact. `in_use` is written and never read, and is not modelled.
* A leader's list may have no room for a newcomer, so a server need not appear in its own list; nothing
  here relies on it.

## Model

| member | source | states |
|---|---|---|
| Ledgers.Find | server/processing.c:48-55 | the search returns the first slot of an address, or the end exactly when the address is absent |
| Ledgers.NoWrap | server/processing.c:97-102 | on a valid ledger neither the debit nor the credit wraps and the sum of balances is unchanged, also when source and destination are one slot |
| Ledgers.CommitMovesSlots | server/processing.c:100-107 | what a commit leaves in every slot: source debited and renumbered, destination credited, one slot playing both parts left neutral |
| Ledgers.BalanceBound | server/processing.c:38-42 | no balance exceeds 100 per registered client |
| Ledgers.StepKeepsValid | server/processing.c:28-113 | every discovery and request keeps addresses distinct, the table within capacity, and the balances summing to total_balance = 100 per client; slots keep their addresses |
| Ledgers.RunIsValid | server/processing.c:28-113 | the same after any history from the empty table |
| History.StepLastReq | server/processing.c:88-107 | an accepted request has a number above its source's last one and becomes it; nothing else changes any last number |
| History.DuplicateExactly | server/processing.c:82-89 | the duplicate branch is taken exactly when the source has a slot and the number does not exceed its last one |
| History.LastReqIsBound | server/processing.c:88-107 | no accepted number of a history exceeds the source's last_req_id |
| History.LastReqIsAccepted | server/processing.c:88-107 | a non-zero last_req_id is the number of some accepted request |
| History.CoveredExactly | server/processing.c:88-107 | last_req_id has reached a number exactly when the history accepted it or a later one |
| History.AcceptedIncrease | server/processing.c:88-107 | the numbers accepted from one source, zero-value requests included, strictly increase |
| History.RefusedExactlyWhenCovered | server/processing.c:88-89 | a request is a duplicate exactly when its number is 0 or the history accepted that number or a later one, and then changes nothing |
| History.RedeliveryHarmless | server/processing.c:88-89 | any number of later copies of an accepted packet changes nothing |
| History.Idempotent | server/processing.c:79-113 | two deliveries in a row act as one, and a rejected request at most registers its source |
| Banks.StepRefines | server/processing.c:28-113 | one step of the table is one step of a bank with a map and unbounded integers, with the same verdict |
| Banks.RunRefines | server/processing.c:28-113 | the table after any history refines the bank after it |
| Banks.LedgerExplained | server/processing.c:97-107 | every balance is 100 plus committed incoming minus committed outgoing value |
| Banks.CountersExplained | server/processing.c:104-105 | the signed counters show the number and the sum of the commits, which lies between the number and the number times a full table; they are exact while that bound stays below 2^31 |
| Banks.TenClientsExact | server/processing.c:104-105 | with ten clients total_transferred is exact for the first 2,147,483 transfers |
| ClientTables.ClientTable.FindClientByIp | server/processing.c:48-55 | the loop returns the first matching slot, or none |
| ClientTables.ClientTable.FindOrAddClient | server/processing.c:28-46 | the table afterwards is the registered one and the slot is the client's, or none when full |
| ClientTables.ClientTable.CommitTransfer | server/processing.c:101-107 | the aliasing in-place writes amount to the commit function |
| ClientTables.ClientTable.HandleRequest | server/processing.c:57-127 | one request leaves exactly the specified ledger and outcome; only a full table goes unanswered, and the ack carries the source's number and balance |
| ClientTables.ClientTable.Snapshot | server/replication.c:298-312 | a snapshot reads back as the ledger it was taken from |
| ClientTables.ClientTable.ApplyStateUpdate | server/replication.c:337-364 | applying a snapshot leaves the ledger it carries |
| Serialise.Serialisable | server/processing.c:57-115 | with the mutex free the ledger is that of the last snapshot applied, continued by the threads since, run whole in the order they got the mutex, each once; on a primary that applies none it is theirs alone |
| Serialise.HolderNeverStuck | server/processing.c:79-115 | the slots a thread looked up stay inside the table until it is done |
| Serialise.AcceptedOnce | server/processing.c:58-115 | of several threads with the same source and number at most one is accepted, unless a snapshot is applied between them |
| Serialise.AckNotOlder | server/processing.c:115-122 | although read after the unlock through a slot looked up before, the ack of a request accepted since the last snapshot exists and carries its number or a later one |
| Serialise.AckExactly | server/processing.c:115-122 | any ack, also one read after a snapshot has replaced the table, exists exactly when its slot still does, and carries the request's number or a later one exactly when the history the table shows covers that number for the client the slot now holds |
| Serialise.AckShows | server/processing.c:115-122 | any ack carries the last number of the client its slot holds and that client's balance: 100 and what the operations paid out so far brought in minus what they took, less what a holder between debit and credit is just moving away from it |
| Serialise.StrangersAck | server/processing.c:115-122 | an accepted request can be acknowledged with the number and balance of another client, when a snapshot is applied in between |
| Lineage.LagStep | server/processing.c:28-112 | whatever a primary does without sending a snapshot keeps the lag relation |
| Lineage.LagAlways | server/replication.c:292-331 | in every run, through registrations, zero-value requests, announcements, losses and failovers, a backup that has applied the latest snapshot has the primary's counters and a prefix of its clients with equal money, every further client of the primary holding exactly 100 |
| Lineage.DrainedIsLatest | server/replication.c:292-364 | as long as nothing is lost, an empty wire means that the backup has applied the latest snapshot |
| Lineage.SnapshotsArrive | server/replication.c:283-331 | an announcement, a commit and a promotion each put a snapshot on the wire: once all is delivered the backup equals the primary |
| Lineage.LagExactly | server/replication.c:337-364 | against any earlier snapshot of its own line the primary is ahead by no more than the lag relation exactly when the transaction counters agree, exactly when it has committed nothing since (fewer than 2^32 commits apart) |
| Lineage.CountersTell | server/replication.c:292-364 | in every run of fewer than 2^32 commits, whatever was lost, the counters tell whether the backup is up to date |
| Lineage.LostCommitExactly | server/processing.c:79-100 | what the primary commits on top of the latest snapshot the backup would commit too exactly when its own table lists the destination, or source and destination are one |
| Lineage.ReachedExactly | server/processing.c:88-89 | last_req_id has reached a number exactly when the history covers it, and then the number is refused |
| Lineage.ExactlyOnce | server/replication.c:224-364 | a number the primary accepted is never committed again through failovers that promote backups having reached it |
| Lineage.BackupKeepsReached | server/replication.c:337-364 | what a backup's applied snapshots have reached stays reached until its promotion, whatever later snapshots are lost |
| Lineage.FailoversKeepOnce | server/replication.c:224-364 | over a whole run with any number of failovers a number is committed at most once, and refused from then on, if every promoted backup had applied a snapshot covering it in case it was committed before |
| Lineage.LatestKeepsOnce | server/replication.c:224-364 | a line whose failovers promote backups that have applied the latest snapshot commits every number of every source at most once |
| Lineage.RefusedAfterFailover | server/replication.c:224-232 | a backup that has applied the latest snapshot refuses, once promoted, every transfer its predecessor ever committed |
| Lineage.LostCommitRepeats | server/replication.c:292-331 | in every reachable state with an up-to-date backup: a commit whose snapshot is lost is committed a second time after the failover, when the client asks again, exactly when the backup's table lists the destination, or source and destination are one |
| Lineage.OncePerLedger | server/processing.c:88-112 | no ledger of the line results from accepting a number twice |
| Peers.AddAllOk | server/server.c:145-158 | merging a received list keeps ids distinct and within capacity, keeps everyone already there, adds nobody else, and loses somebody only when full |
| Peers.AddAllInOrder | server/server.c:153-158 | the list is merged in its order, and what is lost to a full table is what comes after |
| Peers.SurvivorsExact | server/replication.c:451-489 | the sweep keeps exactly the entries that have not expired, refreshed, in order |
| Peers.SweepKeepsId | server/replication.c:451-489 | an id leaves the list exactly when its entry expired; the own id never does |
| Peers.SweepEvicts | server/replication.c:451-489 | seen through its ids the sweep removes exactly the expired ones |
| Peers.TwoSweeps | server/replication.c:451-489 | two sweeps in a row keep a peer heard in time before the first exactly while that time is within the timeout, one never heard of exactly until the timeout after the first, one given up before for good, and the server itself always |
| Peers.PingedSurvives | server/replication.c:518-537 | a listed peer survives the next sweep exactly when its ping is no older than the timeout |
| Peers.PingIsPersonal | server/replication.c:526-534 | a ping changes nothing that is recorded of others, and a stranger's ping changes nothing |
| Peers.NewPeerInheritsSlot | server/server.c:32-37 | a peer that add_peer has just listed is judged by what its slot recorded before: it survives the next sweep unless the slot reads alive with an expired time |
| PeerTables.PeerTable.AddPeer | server/server.c:18-47 | the list afterwards is the specified one, never the server itself, never twice, never beyond capacity, and a newcomer takes over the health of the slot it lands in |
| PeerTables.PeerTable.TakeOver | server/server.c:145-158 | the startup merge loop leaves the server followed by everyone it was told about |
| PeerTables.PeerTable.Adopt | server/replication.c:209-215 | a non-empty announced list replaces the live prefix |
| PeerTables.PeerTable.HandlePing | server/replication.c:518-537 | the sender's first entry is marked alive now, nothing else changes |
| PeerTables.PeerTable.ResetHealth | server/replication.c:567-575 | every slot reads alive now |
| PeerTables.PeerTable.RemoveAt | server/replication.c:477-481 | shifting both buffers deletes one entry and keeps them aligned |
| PeerTables.PeerTable.Examine | server/replication.c:452-488 | one round keeps, refreshes or deletes its entry and touches no other |
| PeerTables.PeerTable.SweepFailed | server/replication.c:451-489 | the loop that steps back after deletions leaves the survivors, makes one round per original entry, and reports the leader lost exactly when its entry expired |
| PeerTables.PeerTable.JoinAfterReset | server/server.c:32-37 | a server that joins after the timers were reset and is silent until the next sweep stays exactly when the reset, not the joining, is no older than the timeout |
| Nodes.PromotionTellsAll | server/replication.c:245-285 | a new primary sends its list and its ledger to exactly the other listed servers |
| Nodes.CandidateChallengesHigher | server/replication.c:42-89 | a candidate sends ELECTION to exactly the higher listed servers and waits, and without any is primary at once |
| Nodes.NewcomerIsTold | server/server.c:222-263 | a primary lists the newcomer if there is room, sends it list and ledger, sends the list to every other listed server and nothing else; a backup does nothing |
| Nodes.CommitIsPropagated | server/processing.c:100-112 | a commit on a primary sends the new ledger to exactly the other listed servers; a refused request, or one finishing after demotion, sends nothing |
| Nodes.MonitorReacts | server/replication.c:473-506 | an idle backup becomes candidate or primary in a monitor round exactly when its leader is evicted |
| Nodes.TakeoverForgets | server/server.c:139-160 | a starting server hands out an empty ledger exactly when the leader it finds is lower; a backup that follows it takes that ledger over |
| Nodes.JoinIsListed | server/server.c:265-274 | a primary lists a server that joins if there is room and does nothing else; a backup does nothing |
| Nodes.ElectionIsAnswered | server/replication.c:111-144 | an ELECTION is always answered; a server that is no candidate challenges exactly the higher listed servers or is primary at once |
| Nodes.AnswerCancels | server/replication.c:150-163 | after an ANSWER the sleeping thread does not promote the server |
| Nodes.HigherIsObeyed | server/server.c:276-296 | a higher leader is followed with its list, the ledger stays, and exactly a SERVER_JOIN goes back |
| Nodes.LowerIsChallenged | server/server.c:277-279 | a lower leader is not followed: the higher listed servers are challenged, or the server is primary at once |
| Nodes.SnapshotIsConfirmed | server/replication.c:337-388 | a snapshot reaches the ledger of a backup only, and is confirmed by exactly those who do not lead |
| Nodes.DiscoveryAtLeader | server/server.c:300-307 | the leader registers a client that looks for it if there is room; everyone else ignores it |
| Nodes.RequestAtLeader | server/server.c:309-325 | a request becomes one more thread at the leader and is ignored elsewhere |
| Nodes.ThreadServesItsRequest | server/processing.c:18-113 | a request thread serves its own request, leader or not, and leaves all others to be served |
| Nodes.ElectionsKeepLedgers | server/replication.c:42-286 | elections and promotions touch neither ledger nor requests nor list |
| Nodes.MonitorKeepsLedgers | server/replication.c:442-507 | a monitor round takes exactly the dead off the list and leaves ledger and requests alone |
| Nodes.StartupExactly | server/server.c:133-180 | startup with an answer: a higher leader is followed with its list and sent a SERVER_JOIN; a lower one is replaced by a primary that lists itself first and everybody it was told of, as far as there is room; the ledger is empty either way |
| Servers.Server.Multicast | server/replication.c:261-275 | the send loops address exactly the listed servers that pass the filter |
| Nodes.SendOnce | server/replication.c:261-275 | to a list of distinct servers nothing is sent twice |
| Servers.Server.MonitorRound | server/replication.c:442-507 | the sweep evicts the expired ids and leaves the health of the others refreshed; losing the leader starts an election unless one is under way or the server leads, and winning it resets the timers |
| Servers.Server.StartUp | server/server.c:133-191 | the three outcomes of startup, of which only the takeover resets the timers |
| Servers.Server.Receive | server/server.c:220-351 | the receive switch computes the node's dispatch function; a PING is recorded for its sender, a promotion or an obeyed leader resets every timer, and nothing else touches them |
| Servers.Server.PingThenMonitor | server/server.c:344-347 | a listed server whose ping has been received stays through the next monitor round exactly as long as the ping is within the timeout |
| Servers.Server.ResetThenMonitor | server/server.c:281-282 | after a promotion or an obeyed leader everybody listed stays through the next monitor round exactly as long as that is within the timeout |
| Clusters.LedgerSafety | server/replication.c:292-364 | in every reachable state, whatever overlapping handlers make of role, leader and flag, every server's ledger and every snapshot in flight is valid and accounted for by one sequential history |
| Clusters.RolesMatchLeaders | server/server.c:300-332 | with handlers that do not overlap at a server: no server follows a lower id, it is primary exactly when it follows itself, and it takes requests exactly when primary and snapshots exactly when not |
| Clusters.CandidacyEnds | server/replication.c:150-206 | a candidacy ends only by an ANSWER from a higher server, by following a higher one, or by own promotion |
| Clusters.MembershipWellFormed | server/server.c:18-47 | with overlapping handlers too, every list held or announced has distinct ids and fits the table, and every COORDINATOR names its sender |
| Clusters.SplitBrain | server/server.c:182-191 | two primaries at once are reachable |
| Clusters.PromotesExactly | server/server.c:139-191 | a step makes a server primary that was not exactly by one of the promoting branches: no answer or a lower leader at startup, a sleep ending with the flag up, an election that finds nobody higher listed |
| Clusters.SplitsExactly | server/server.c:139-191 | a step leads from at most one primary to two exactly when it takes such a branch while another server is primary |
| Clusters.SplitBrainExactly | server/replication.c:42-103 | over runs: two primaries have existed by a certain moment exactly when such a step has been taken before |
| Clusters.TakeoverErases | server/server.c:139-160 | from any reachable state with one primary that knows nobody else, a higher server that starts up and is answered leaves every ledger empty |
| Clusters.HistoryForgotten | server/server.c:139-160 | committed transfers do not survive such a join: for every history there is a run that serves it and ends with no server knowing anything of it |
| Clusters.LateSnapshot | server/replication.c:337-388 | a backup takes any snapshot from anybody: for every history there is a run that ends with a backup following one primary and holding the ledger of another that is gone |
| Clusters.JoinCloses | server/server.c:265-296 | from the moment a server obeys a leader on, its SERVER_JOIN can be delivered whenever that leader leads and listens, and then the leader lists it or its table is full |
| Elections.StepOk | server/replication.c:61-139 | every step keeps complete lists, ELECTION climbing, ANSWER descending, COORDINATOR naming its sender |
| Elections.TopStep | server/replication.c:42-144 | every step of the highest live server keeps the invariant of convergence |
| Elections.LowerStep | server/replication.c:42-144 | every step of any other server keeps it |
| Elections.Convergence | server/replication.c:42-286 | once an election has begun, a quiet state has every live server following the highest, which alone is primary |
| Elections.CandidacyEnds | server/replication.c:160-197 | at the granularity of accesses too, a flag goes down only for a higher server or the own promotion |
| Elections.OrphanedExactly | server/replication.c:184-232 | a server comes to name itself leader without being primary by exactly two writes: the leader of a promotion whose role was taken back, and the role of a demotion whose leader was taken back |
| Elections.PrimaryLeadsAlways | server/replication.c:184-232 | in every run a primary follows itself unless one of its threads stands between its two writes |
| Elections.OrphanedByRace | server/replication.c:184-232 | a server has been without the role while naming itself leader exactly when one of those writes has happened at it |
| Elections.RolesMatchLeaders | server/replication.c:184-232 | access by access: at a server between handlers, primary means following itself in every run, and the converse holds as long as no such write has happened at it |
| Elections.RoleRace | server/replication.c:184-232 | the race is reachable with any two servers and a dead leader |
| Termination.WorkDescends | server/replication.c:42-286 | every receive and every thread step lowers a natural-number measure |
| Termination.FiresOnce | server/replication.c:473-506 | no server's monitor fires twice in a run: at most once from any moment on, only if the server then lists the dead leader it follows, and not at all if it still does in the end |
| Termination.FiresBounded | server/replication.c:473-506 | in all there are never more detections than servers still listing the dead leader they follow |
| Termination.WorkBounded | server/replication.c:42-286 | the potential of a state pays for every receive and thread step still to come, those of later detections included |
| Termination.ElectionsConverge | server/replication.c:42-286 | from any moment of any run, with detections at any time, at most potential many receives and thread steps remain; once somebody has noticed the dead leader, a state where none is possible has all following the highest, alone primary |
| Granularity.PromotionAgrees | server/replication.c:224-286 | promotion as one step and as four undisturbed accesses has one result and says the same |
| Granularity.ElectionAgrees | server/replication.c:42-89 | the same for start_election |
| Granularity.WakeAgrees | server/replication.c:91-103 | the same for the end of its sleep |
| Granularity.CoordinatorAgrees | server/replication.c:173-218 | the same for a COORDINATOR from another server |
| Granularity.ElectionMessageAgrees | server/replication.c:111-144 | the same for an ELECTION |
| Granularity.AnswerAgrees | server/replication.c:150-163 | the same for an ANSWER |
| Granularity.MonitorAgrees | server/replication.c:473-506 | the same for a monitor round: eviction, check of the flag, election |
| Projection.Simulates | server/replication.c:42-286 | an access that starts a handler, with the server to itself, is a step of the cluster model; one that goes on with a handler changes nothing there |
| Projection.OrderlyRunsProject | server/replication.c:42-286 | every run of accesses in which no two handlers of one server overlap projects to a run of the cluster model |
| Projection.OrderlyRoles | server/server.c:300-332 | in such a run a server between handlers follows no lower id and is primary exactly when it follows itself |
| Projection.BackupsReached | server/server.c:222-263 | the cluster reaches states from which elections of the access model start |
| CommandQueues.Wrap | client/processing.c:215 | an incremented index modulo the size is the index or one turn less |
| CommandQueues.PutAppends | client/processing.c:214-216 | storing appends to the queued sequence, across the end of the buffer too, and keeps rear = (front + count) mod size |
| CommandQueues.TakeRemoves | client/processing.c:236-238 | removing takes the oldest command and leaves the rest in order |
| CommandQueues.CommandQueue.Push | client/processing.c:202-222 | waits exactly when full and open, refuses exactly when shut down, otherwise appends |
| CommandQueues.CommandQueue.Pop | client/processing.c:224-244 | sleeps exactly when empty and open, ends exactly when empty and shut down, otherwise yields the oldest command |
| CommandQueues.CommandQueue.Shutdown | client/processing.c:112-115 | raises the flag and keeps every queued command |
| Pipeline.FifoEndToEnd | client/processing.c:80-244 | in every interleaving the popped commands are a prefix of those typed, the rest is queued or in hand in order, none is dropped |
| Pipeline.NoLostWakeup | client/processing.c:202-244 | an unsignalled sleeper has reason to sleep, the two never sleep together, nobody sleeps after shutdown |
| Pipeline.NoDeadlock | client/processing.c:202-244 | until both threads have finished one of them can act without a stray wakeup |
| Pipeline.PushExactly | client/processing.c:202-222 | a command offered to the open queue is stored at once if there is room, and otherwise waits in the reader's hand |
| Pipeline.PopExactly | client/processing.c:224-244 | the sender is handed the oldest command; with none it rests, or stops after shutdown |
| Pipeline.EofCloses | client/processing.c:112-115 | the end of the input closes the queue, keeps what it holds and rouses a resting sender |
| Pipeline.AllDelivered | client/processing.c:80-140 | when both threads have finished the sender has been handed exactly what was typed |
| Pipeline.ShutdownDrains | client/processing.c:112-140 | after shutdown the sender stops after exactly one pop per queued command and one more, having been handed everything typed |
| Resync.RoundTrip | client/processing.c:141-181 | whatever number the sender used, its next number computed from the ack is one past the server's last: one past its own if accepted, one past the old last number if refused |
| Resync.ServeOthers | server/processing.c:28-113 | between two commands the server runs the other clients' operations and nothing else |
| Resync.OthersKeepSync | server/processing.c:88-107 | other clients' traffic keeps it so |
| Resync.DuplicateOnlyAtWrap | client/processing.c:180 | a sender in step is refused as a duplicate exactly when the server's number is at its maximum |
| Resync.FirstAfterRestart | client/processing.c:132 | a restarted client's first command is lost exactly when the server has accepted something from it before |
| Resync.StuckAfterWrap | client/processing.c:180 | once the number has wrapped every later command is refused |
| Resync.RunSender | client/processing.c:120-184 | over a whole session the server runs exactly the commands typed, in order, each with its own destination and value, and between them exactly the other clients' operations; the outcomes are theirs; at most the first is a duplicate if the server's number leaves room for the session, and in any case until it reaches its maximum; only a full table ends it early |

## Left out

- Sockets, wall-clock time, sleeps, printing, logging and thread creation: steps happen at any time, `now` is an argument, packets are values.
- Addresses and ports of servers: a server is its id, so replies reach the server that asked; the code's 0.0.0.0 for itself is not modelled.
- The byte layout of packets: the first packet a starting server reads is assumed to be a COORDINATOR of another server, and ids of running servers are distinct.
- Torn reads: the snapshot in the FIND_LEADER branch and `add_peer` run without the data mutex in the code and are single steps here.
- `parse_command`, `discover_server`, `inet_ntop` and the interface files: library wrappers and output.
- The client's recovery from a failed `pthread_create`: another shutdown path.
- The health refresh inside `handle_coordinator_message`: the caller resets every timer right after it.
- The reply to a client's discovery packet and the sending of acks: their contents are results, not packets.
- Clusters.RolesMatchLeaders: takes every handler as one step; `Projection.OrderlyRunsProject` says for which runs that is no loss. Otherwise unlocked writes interleave: `Elections.RolesMatchLeaders` says what then still holds and when, `Elections.RoleRace` reaches a state where it does not, and `Elections.Convergence` shows it repaired once the election is over.
- Elections.Convergence: assumes that no server crashes or joins once the run starts, that every list contains the live servers, that a multicast is atomic, and that inboxes keep the order of sending; PING, SERVER_JOIN and REP_UPDATE change nothing the election reads and are not in its inboxes.
- Serialise.AckExactly: where a snapshot leaves the slot beyond the live ones the code reads whatever that slot holds; the model reads nothing.
- Lineage.FailoversKeepOnce: follows one line of succession; a backup that is ahead of the one promoted is not on the line.
