# itcoin-fbft: the replica engine, proved in Dafny

itcoin-fbft lets a fixed cluster of replicas take turns in mining the blocks of a signet chain. Each
replica holds a fact base (`engine/fbft-replica-engine.pl`), a PBFT-style I/O automaton: an action
has a guard and an update, run as one transaction. A C++ driver feeds it messages, blocks and
requests. This project models that engine, the ROAST coordinator inside it, the driver's buffers and
request loop, and the nonce search, and proves properties of all runs for any cluster size.

## How the model is built

| file | content |
|---|---|
| `Types`, `Codes`, `Quorums`, `Lists`, `FactLog`, `UInt32` | messages and facts, an injective digest, cardinalities of quorums, Prolog list predicates, lists of facts, 32-bit arithmetic |
| `Engine` | one replica as a value: the queries, the guard of each action, the new state |
| `ReplicaEngine` | the same as a class: one field per dynamic predicate, updated in place with the loops of the source, and the ROAST facts of the replica; each method is proved to take exactly the `Engine` step, to add exactly the messages of that step to the out buffer and to do to the ROAST facts what the action does |
| `System` | the cluster: replicas, the growing set of sent messages, a clock, runs; up to F replicas may send anything |
| `Chi`, `FactBase`, `Ledger`, `Preservation` | what one step keeps, of one fact base and of the messages sent |
| `Agreement`, `ViewChanges`, `Safety`, `ViewRecovery`, `ViewGrowth`, `Slots`, `NewViewWindow`, `RequestSlots` | what no run does |
| `Progress`, `NextSteps` | what the messages accomplish: when a replica is prepared, committed, may recover, leave its view, announce the next, propose in it, and receive |
| `Roast`, `RoastSessions`, `RoastTheorems`, `RoastData`, `RoastCoordinator` | the ROAST coordinator as a value, its invariant, its theorems, what its sessions hold, and as a class |
| `Reach`, `FourReplicas`, `Counterexamples`, `ViewZero`, `Completions`, `OneReplica` | concrete runs built action by action: one of four replicas that meets the hypotheses of the view-change theorem and reaches the states in which the window is left, one in which the primary of view 0 lists another block, one that ends in EXECUTE and one in RECOVER_VIEW, and one of a single replica |
| `Driver`, `RequestGeneration`, `Grind` | the buffers of `ReplicaState`, the loop of `Replica2::GenerateRequests`, the nonce search |

A run is any sequence of enabled actions of any replicas, clock ticks and, where faulty replicas are
allowed, arbitrary messages from them. The network may lose, delay, reorder and repeat: a message
stays available for ever and need never be received. A message counts as sent from the moment it is
in the out buffer. A crashed replica is one that takes no further step.

## Assumptions

- The cluster has n = 3F + 1 replicas (`ValidConfig`); for other n the quorum 2F + 1 is too small.
- A signature is a function of sender and content, and one signature of a sender belongs to one
  message; the digest of a VIEW-CHANGE is injective; requests of different slots, and in the class of
  different times in whole seconds, have different digests. Such digests exist (`ConfigExists`,
  `ScheduleExists`, `SpellExists`), and with them the clusters of the concrete runs (`SceneExists`).
- Digests, blocks and commit data chosen by a replica are arbitrary wherever quorums are concerned.
- Each replica's block feed has strictly increasing heights. `RequestSlots` also assumes that the
  block of height h carries the timestamp of slot h, and that requests come from `GenerateRequests`
  (the program never sends requests over the network, `src/fbft/messages/Message.cpp:32`).
- Agreement within a view, window, slot uniqueness and view growth hold with up to F replicas that
  send arbitrary messages. Theorems with `cl.faulty == {}` are for replicas that follow the code or
  stop; COMMITs carry no digest, so nothing better can be had from counting them.
- ROAST starts from cleared facts; each commit is delivered once; no signer is marked malicious.

## Where the code does not do what it is expected to do

The engine states below are each reached by a run without faults, which the lemma named builds. One of
them, `OneReplica.ProcessKeepsWindowFails`, only exists in the engine, see the item on "null".

- PROCESS_NEW_VIEW's `findall` over the VIEW-CHANGEs of Nu runs with Hi already bound (`:1030-1041`),
  so it drops those with another Hi instead of refusing them. A replica one block behind can then
  process a Chi with the slot it has itself prepared at h + 1 and a committed request at h + 2
  (`ProcessLeavesWindow`). The exact condition under which the window h < N <= h + 1 is kept is
  `ProcessKeepsWindow` for one step and `WindowExactly` for whole runs. The same leak is the only way a VIEW-CHANGE of a correct replica can fail
  `correct_view_change` (`ViewChangeAccepted`), and that happens too (`OwnViewChangeRefused`).
- A "null" entry of Chi has an unbound block, which the program cannot encode: it takes the text of the
  Prolog variable for a serialized block (`src/fbft/messages/NewView.cpp:55-69`), and the exception is
  not of the kind caught in `src/fbft/state/ReplicaState.cpp:309`, so the primary stops before it
  broadcasts such a NEW-VIEW. What is proved of "null" (`NullExactly` and the lemmas of `OneReplica` on
  it) is about the engine.
- SEND_NEW_VIEW does not require a pending view change, so the active primary of view 0 can send a
  NEW-VIEW for view 0 that lists a slot it has proposed. The request is always that of the slot
  (`NewViewListsSlots`), the block need not be the one proposed (`OtherBlockListed`). It is that
  block if no VIEW-CHANGE for a view past 1 has prepared the slot, and otherwise exactly if the primary
  of the view in which it was prepared repeated it (`View0NewViewLists`). Receivers refuse such a message (`:1003`) and no replica in view 0 processes one (`View0NewViewIgnored`);
  uniqueness of proposals is stated accordingly.
- `GenerateRequests` can loop for ever when request times wrap around 2^32 (`PassCanStall`). It ends
  exactly when `Ends` holds, which a caller can test beforehand (`EndsExactly`), and always when the
  log is aligned with last_rep and five block times past it fit (`AlignedReach`).
- In a cluster of one replica a PREPARE quorum is empty and the Qi row of an older view counts as
  prepared, so what holds of emitted VIEW-CHANGEs and of the window in larger clusters fails there
  (`OneReplica`).
- `Grind` never tries the nonces 2^32 - 2 and 2^32 - 1 (`Grind.Grind`).
- Three `retractall` goals name predicates of another arity (`:303`, `:900-901`) and remove nothing;
  the model keeps those facts.

## Model

| member | source | states |
|---|---|---|
| Agreement.InvRun | engine/fbft-replica-engine.pl:684-1076 | the invariant of logs, messages sent and their sources holds in every state of every run, with up to F arbitrary replicas |
| Agreement.CertsAgree | engine/fbft-replica-engine.pl:477-489 | two prepared certificates for one (v, n) have one digest, by quorum intersection with up to F arbitrary replicas |
| Agreement.PreparedAgree | engine/fbft-replica-engine.pl:477-489 | prepared(d,v,n) and prepared(d',v,n) at correct replicas, in any two states of a run, imply d = d' |
| Agreement.RecoverNotPrimary | engine/fbft-replica-engine.pl:829-846 | RECOVER_VIEW never takes a correct replica to a view of which it is itself the primary |
| Safety.CommitWasPrepared | engine/fbft-replica-engine.pl:783-791 | every COMMIT sent by a correct replica comes from a state in which it had prepared some request for that slot |
| Safety.CommittedMeansPrepared | engine/fbft-replica-engine.pl:492-496 | committed(d,v,n) anywhere implies that at least 2F+1 replicas had prepared exactly d at (v,n), although COMMITs carry no digest |
| Safety.ExecuteIsCertified | engine/fbft-replica-engine.pl:853-877 | EXECUTE fires only at last_exec + 1 and on a request that 2F+1 replicas had prepared there; if that request is still logged and later than last_rep, then last_exec, last_rep and the state value become its number, its time and the new value, nothing else changes and that number is not executed again; otherwise nothing changes |
| Safety.ViewChangeKeepsCommitted | engine/fbft-replica-engine.pl:936-1044 | after 2F+1 COMMITs for (v,n), every NEW-VIEW sent or processed on a Nu of VIEW-CHANGEs for v+1 with Hi < n has the committed request and block in its Chi, and the pair is unique |
| Safety.CommittedInChi | engine/fbft-replica-engine.pl:543-605 | the same for one state and any Nu, Chi that pass correct_nu_all and correct_chi |
| Safety.ChiRespectsLaterQuorum | engine/fbft-replica-engine.pl:543-605 | also when the commit quorum is completed only after the NEW-VIEW was sent |
| Safety.NextViewAgrees | engine/fbft-replica-engine.pl:982-992 | every proposal for n in view v+1 is then the committed request and block |
| Safety.NuOnceIsNuAll | engine/fbft-replica-engine.pl:522-534 | the Nu of correct_nu_once is one of those of correct_nu_all |
| ViewChanges.CarryRun | engine/fbft-replica-engine.pl:337-370 | in every state, VIEW-CHANGEs of correct replicas carry their prepared certificates of the view just left, and everything they committed to above Hi |
| ViewRecovery.RecoverLosesNoCertificate | engine/fbft-replica-engine.pl:829-846 | whenever RECOVER_VIEW is enabled the replica holds no prepared certificate of any view above its h, neither in the logs the step clears nor in Pi |
| ViewRecovery.NoLaterCommitQuorum | engine/fbft-replica-engine.pl:783-820 | F+1 replicas that had checkpoint h in a view up to v exclude a commit quorum for (w,h) in any view w > v: some member of it has sent no such COMMIT |
| ViewRecovery.CertGrounded | engine/fbft-replica-engine.pl:754-764 | a certificate for (v,n) means that F+1 replicas had checkpoint n-1 while in a view up to v |
| Progress.PreparesSuffice | engine/fbft-replica-engine.pl:733-776 | a replica that stays in view v with n = h+1, logs the request, and gets the proposal of the primary and the PREPAREs of 2F replicas, in whatever order, is prepared at (v,n) |
| Progress.CommitsSuffice | engine/fbft-replica-engine.pl:783-816 | a replica that stays in view v with n = h+1, is prepared there at some time, and has sent its COMMIT and received those of 2F others, in whatever order, has committed |
| Progress.CommittedExecutes | engine/fbft-replica-engine.pl:853-861 | with a final ROAST session, EXECUTE of n is enabled for some time exactly at the primary of v that has committed d at (v,n) and stands at last_exec = n - 1 |
| Progress.CommitsRecover | engine/fbft-replica-engine.pl:798-842 | an active replica that has received COMMITs of 2F+1 replicas for the height of its checkpoint in a later view, at whatever time and in whatever view of its own, may recover to that view or a later one |
| Progress.RecoverSettles | engine/fbft-replica-engine.pl:844-849 | after RECOVER_VIEW the replica is in that view with its timeout and empty logs, still active, with nothing left to recover to; checkpoint, requests, state, Pi, Qi and recovery log are as before |
| NextSteps.LeavesExactly | engine/fbft-replica-engine.pl:916-934 | SEND_VIEW_CHANGE is enabled iff a request later than last_rep has waited longer than half a block time doubled once per view |
| NextSteps.NamesCheckpoint | engine/fbft-replica-engine.pl:950-955 | the VIEW-CHANGE a replica sends is for the next view and names the height and hash of its one checkpoint |
| NextSteps.ViewChangesSuffice | engine/fbft-replica-engine.pl:966-992 | the primary of a view that is in it and has VIEW-CHANGEs of 2F+1 replicas for it, received at whatever time and in whatever view of its own, may send a NEW-VIEW unless it has logged one |
| NextSteps.ProcessSeqno | engine/fbft-replica-engine.pl:1052-1066 | after PROCESS_NEW_VIEW the sequence number is the greatest of Chi, and h if Chi is empty |
| NextSteps.EntersPrepared | engine/fbft-replica-engine.pl:1025-1050 | a replica enters a view only with every request of Chi logged, Chi starting at its h+1, some VIEW-CHANGE of Nu at its height, and all of those naming its checkpoint |
| NextSteps.NewPrimaryProposes | engine/fbft-replica-engine.pl:701-724 | after PROCESS_NEW_VIEW on an empty Chi the new primary may propose at h+1 iff the time of some logged request has come |
| NextSteps.FirstProposal | engine/fbft-replica-engine.pl:622-677 | so may the primary of view 0 after init at any height |
| NextSteps.BlockLeaves | engine/fbft-replica-engine.pl:886-912 | what RECEIVE_BLOCK removes and keeps of every log, of Pi and Qi and of the requests, and when it moves last_exec, last_rep and the state value |
| NextSteps.TimelyReceived | engine/fbft-replica-engine.pl:736-1006 | of the messages correct replicas send, exactly those for the view and window of the receiver can be received, whatever was logged before and whatever faulty replicas sent |
| NextSteps.LoggedViewChanges | engine/fbft-replica-engine.pl:499-502 | in every state of every run, with up to F arbitrary replicas, each VIEW-CHANGE logged of another replica has entries only of views before its own and at Hi + 1 |
| NextSteps.NotTwice | engine/fbft-replica-engine.pl:701-992 | after SEND_PRE_PREPARE, SEND_PREPARE, SEND_COMMIT or SEND_NEW_VIEW the same step is not enabled again |
| ViewGrowth.ViewsLogarithmic | engine/fbft-replica-engine.pl:381-393 | a replica in view v > 0 satisfies 2^(v-1) * target_block_time/2 < now - T0, also after RECOVER_VIEW |
| Slots.OneVotePerSlot | engine/fbft-replica-engine.pl:754-791 | a correct replica never sends two PREPAREs or COMMITs for one (v,n), nor two VIEW-CHANGEs or NEW-VIEWs for one v, in a whole run |
| Slots.OneProposalPerSlot | engine/fbft-replica-engine.pl:701-729 | a correct primary issues one request and block per (v,n), entries of its NEW-VIEW included |
| Slots.View0NewViewIgnored | engine/fbft-replica-engine.pl:1025-1044 | in no run does a correct replica in view 0 process a NEW-VIEW |
| Slots.EntryWasProposed | engine/fbft-replica-engine.pl:568-603 | each request and block in the Chi a replica may send comes from a P and a Q that name one view, and the primary of that view proposed it |
| Slots.View0NewViewLists | engine/fbft-replica-engine.pl:982-992 | for a slot it has proposed, the primary of view 0 lists the pair it proposed whenever no VIEW-CHANGE of Nu for a view past 1 has prepared the slot, and otherwise iff the primary of the view in which the slot was prepared repeated that pair |
| ViewZero.OtherBlockListed | engine/fbft-replica-engine.pl:982-992 | in a run of four replicas without faults the active primary of view 0 proposes one block for slot 1 and then sends a NEW-VIEW for view 0 with another block for it |
| NewViewWindow.LogsInWindow | engine/fbft-replica-engine.pl:464-474 | one checkpoint; every logged PRE-PREPARE, PREPARE, COMMIT is of the current view and above h, and at h+1 unless it stems from a NEW-VIEW |
| NewViewWindow.EmittedViewChange | engine/fbft-replica-engine.pl:916-961 | P of an emitted VIEW-CHANGE is of view V-1 at Hi+1, one entry per number, each matched in Q; it passes correct_view_change iff Q stays in the window |
| NewViewWindow.ViewChangeAccepted | engine/fbft-replica-engine.pl:499-502 | exactly when the VIEW-CHANGE a replica is about to send passes correct_view_change |
| NewViewWindow.NullExactly | engine/fbft-replica-engine.pl:568-603 | "null" is written for a number exactly when no VIEW-CHANGE of Nu prepared anything there |
| NewViewWindow.ProcessKeepsWindow | engine/fbft-replica-engine.pl:1025-1076 | after PROCESS_NEW_VIEW the log is in the window iff no VIEW-CHANGE of Nu is ahead of h with a prepared entry; then Chi has at most one entry, at h+1, and no "null" |
| NewViewWindow.WindowExactly | engine/fbft-replica-engine.pl:464-474 | up to any state of a run of four or more replicas without faults, every logged PRE-PREPARE of every replica was at h + 1 in every state iff no event was a PROCESS_NEW_VIEW on a Nu with a VIEW-CHANGE ahead of the replica |
| Counterexamples.ProcessLeavesWindow | engine/fbft-replica-engine.pl:1030-1041 | in a run of four replicas without faults a replica at h = 0 that has prepared slot 1 may process a NEW-VIEW whose Nu names VIEW-CHANGEs with Hi = 1; the committed request at 2 is then logged outside its window |
| Counterexamples.OwnViewChangeRefused | engine/fbft-replica-engine.pl:499-502 | in the next state of that run the VIEW-CHANGE this replica may send fails correct_view_change |
| OneReplica.SceneExists | engine/fbft-replica-engine.pl:622-677 | there is a cluster of one replica for the runs below |
| OneReplica.EmittedViewChangeFails | engine/fbft-replica-engine.pl:337-350 | alone, a replica sends a VIEW-CHANGE whose P entry is of an older view and not matched in Q |
| OneReplica.NullExactlyFails | engine/fbft-replica-engine.pl:568-603 | for that VIEW-CHANGE "null" is written for a number at which it has prepared something |
| OneReplica.ProcessKeepsWindowFails | engine/fbft-replica-engine.pl:1025-1050 | in the engine, PROCESS_NEW_VIEW is then enabled on a "null" although no VIEW-CHANGE is ahead |
| OneReplica.ViewChangeAcceptedFails | engine/fbft-replica-engine.pl:899-901 | alone, and with no PRE-PREPARE logged, a VIEW-CHANGE may fail correct_view_change through rows left in Qi below a skipped block |
| NewViewWindow.HonestNewViewAccepted | engine/fbft-replica-engine.pl:522-612 | correct_new_view accepts an honest primary's NEW-VIEW at any replica in its view that logged it and the VIEW-CHANGEs it names |
| NewViewWindow.CorrectNuAllIsSearch | engine/fbft-replica-engine.pl:529-534 | the search of correct_nu_all over subsets succeeds for exactly the sorted lists of enough logged pairs |
| NewViewWindow.ChiIsFunctionOfNu | engine/fbft-replica-engine.pl:543-612 | replicas that accept NEW-VIEWs on one Nu accept the same Chi, up to the open block of a "null" |
| Chi.ChiAtMeaning | engine/fbft-replica-engine.pl:568-603 | the entry chosen for n has a CASE1 derivation from Nu, or none exists and it is "null" |
| Chi.ChiNumbers | engine/fbft-replica-engine.pl:556-603 | Chi lists each number from Min_s + 1 to Max_s once, in order |
| Chi.NuMsgsResolve | engine/fbft-replica-engine.pl:536-539 | a Nu over logged VIEW-CHANGEs resolves entry by entry |
| Lists.SubsetsMember | engine/fbft-replica-engine.pl:45-49 | subsets/2 yields exactly the order-preserving selections |
| Lists.SearchFindsExactly | engine/fbft-replica-engine.pl:51-56 | filtering subsets by size and sorting finds exactly the sorted lists of at least that many collected pairs |
| FactBase.LocalStep | engine/fbft-replica-engine.pl:688-1076 | every enabled action keeps the local invariant of the fact base: windows, views, one digest per slot, timeout, sequence number |
| FactBase.OnlyBlocksMoveWindow | engine/fbft-replica-engine.pl:435-436 | no action but RECEIVE_BLOCK changes h |
| FactBase.BlockH | engine/fbft-replica-engine.pl:886-912 | after RECEIVE_BLOCK the only checkpoint is the block's |
| Codes.ConfigExists | engine/fbft-replica-engine.pl:120-123 | for every size 3F + 1 and block time there is an injective digest of VIEW-CHANGEs, so the assumptions on a cluster can be met |
| RequestSlots.ScheduleExists | src/fbft/messages/Request.cpp:101-108 | spelling out the timestamp meets what the theorems ask of a schedule, from any block on and for any block time |
| RequestSlots.PrePrepareCarriesSlot | engine/fbft-replica-engine.pl:701-729 | every PRE-PREPARE ever sent at n carries the request stamped (n - start height) block times after the start, whatever the view or primary |
| RequestSlots.ProposesSlot | engine/fbft-replica-engine.pl:701-724 | the least pending request of a primary is the slot of its next sequence number |
| RequestSlots.NewViewListsSlots | engine/fbft-replica-engine.pl:568-603 | every entry of every NEW-VIEW ever sent, view 0 included, is "null" or the request of the slot with its number |
| RequestSlots.PreparedAgreeAcrossViews | engine/fbft-replica-engine.pl:477-489 | prepared certificates for one n name one request across any number of view changes |
| RequestSlots.ExecutesSlot | engine/fbft-replica-engine.pl:853-877 | whatever is executed at n is the request of slot n |
| RequestSlots.RequestLogIsProgression | engine/fbft-replica-engine.pl:206-217 | in every state the request log is the slots h+1, h+2, ... up to at most five past last_exec, and last_rep is the slot of last_exec |
| FourReplicas.SceneExists | engine/fbft-replica-engine.pl:622-677 | there is a cluster and a schedule for the runs below, with any two blocks |
| FourReplicas.HypothesesMet | engine/fbft-replica-engine.pl:688-992 | a run of four replicas without faults meets every hypothesis of ViewChangeKeepsCommitted: three of them commit at 2 in view 0 and the primary of view 1 may send its NEW-VIEW |
| Completions.ExecutesSlot2 | engine/fbft-replica-engine.pl:798-877 | in that run the primary of view 0 receives the COMMITs, has committed slot 2 and executes it |
| Completions.RecoversView1 | engine/fbft-replica-engine.pl:829-849 | in a run of four replicas without faults a replica left in view 0 keeps the COMMITs of view 1 and recovers to it |
| RequestGeneration.GenerateRequests | src/fbft/Replica2.cpp:40-94 | on every log on which the loop ends, it ends, and logs exactly the missing requests, one block time apart, and nothing else |
| RequestGeneration.EndsExactly | src/fbft/Replica2.cpp:55-74 | with wrap-around as it is, some number of passes leaves the loop guard false if and only if nothing is missing up to the nearer bound or the last missing request time is below 2^32 |
| RequestGeneration.LoopedLatest | src/fbft/Replica2.cpp:60-73 | the latest request time after any number of passes, wrap-around included |
| RequestGeneration.MissingIsLeast | src/fbft/Replica2.cpp:55-58 | the requests logged are as many as it takes to reach five block times past the earlier of clock and last_rep, and no more |
| RequestGeneration.ReachesBounds | src/fbft/Replica2.cpp:51-58 | the last request logged is the first at or past five block times after the clock or after last_rep, in the arithmetic of uint32_t |
| RequestGeneration.PassMovesOn | src/fbft/Replica2.cpp:60-73 | one pass moves the latest request time iff the block time is positive and the sum does not wrap around, and never moves it back |
| RequestGeneration.PassCanStall | src/fbft/Replica2.cpp:55-73 | with a block time of one minute, a clock near 2^32 and a latest request not aligned with last_rep, the guard of the loop stays true after any number of passes |
| RequestGeneration.LatestRequestTime | src/fbft/state/ReplicaState.cpp:426-439 | the maximum over the request log and last_rep |
| RequestGeneration.GeneratedOnSchedule | src/fbft/Replica2.cpp:55-74 | each request the loop makes is one block time after the latest, itself less than five block times past last_rep, which is what the run theorems ask of requests |
| RequestGeneration.AlignedReach | src/fbft/Replica2.cpp:51-58 | aligned with last_rep, and with five block times past it below 2^32, the loop ends and the log reaches at most five slots past last_rep |
| ReplicaEngines.ReplicaEngine.SpellExists | src/fbft/messages/Request.cpp:101-108 | spelling out the timestamp meets what the constructor asks of a digest |
| ReplicaEngines.ReplicaEngine.constructor | engine/fbft-replica-engine.pl:622-677 | the fact base after init: the initial block, view 0, active, empty logs and out buffer |
| ReplicaEngines.ReplicaEngine.GetH | engine/fbft-replica-engine.pl:435-436 | the least checkpoint height, and the window it decides |
| ReplicaEngines.ReplicaEngine.PreparedMeaning | engine/fbft-replica-engine.pl:484-489 | counting listed PREPARE facts agrees with the cardinality used in the quorum proofs |
| ReplicaEngines.ReplicaEngine.ClearBelowView | engine/fbft-replica-engine.pl:292-310 | the loops leave exactly the messages of view V and above, and the recovery log as it was |
| ReplicaEngines.ReplicaEngine.ReceiveRequest | engine/fbft-replica-engine.pl:688-694 | takes the RECEIVE_REQUEST step of the cluster model for the digest of the timestamp |
| ReplicaEngines.ReplicaEngine.SendPrePrepare | engine/fbft-replica-engine.pl:726-729 | takes the SEND_PRE_PREPARE step and puts exactly its message in the out buffer |
| ReplicaEngines.ReplicaEngine.ReceivePrePrepare | engine/fbft-replica-engine.pl:736-747 | succeeds exactly when the step is enabled and takes it, else changes nothing |
| ReplicaEngines.ReplicaEngine.SendPrepare | engine/fbft-replica-engine.pl:762-764 | takes the SEND_PREPARE step and puts exactly its message in the out buffer |
| ReplicaEngines.ReplicaEngine.ReceivePrepare | engine/fbft-replica-engine.pl:771-776 | succeeds exactly when the step is enabled and takes it, else changes nothing |
| ReplicaEngines.ReplicaEngine.SendCommit | engine/fbft-replica-engine.pl:789-791 | takes the SEND_COMMIT step and puts exactly its message in the out buffer |
| ReplicaEngines.ReplicaEngine.ReceiveCommit | engine/fbft-replica-engine.pl:798-820 | logs a COMMIT of the window, keeps one of a later view for recovery, fails otherwise; exactly a COMMIT of the session it coordinates, with no session final, also goes to RECEIVE_SIG_SHARE, the first of its sender with its data, and if that fails nothing changes |
| ReplicaEngines.ReplicaEngine.RecoverView | engine/fbft-replica-engine.pl:844-846 | takes the RECOVER_VIEW step |
| ReplicaEngines.ReplicaEngine.Execute | engine/fbft-replica-engine.pl:863-877 | takes the EXECUTE step |
| ReplicaEngines.ReplicaEngine.CollectGarbage | engine/fbft-replica-engine.pl:886-912 | the loop over heights leaves exactly the facts the step keeps, and no ROAST fact or pre-signature message |
| ReplicaEngines.ReplicaEngine.UpdatePi | engine/fbft-replica-engine.pl:337-350 | Pi becomes the slots prepared in the log with no higher prepared view |
| ReplicaEngines.ReplicaEngine.UpdateQi | engine/fbft-replica-engine.pl:359-370 | Qi becomes the pre-prepared slots with no higher view for the same request |
| ReplicaEngines.ReplicaEngine.SendViewChange | engine/fbft-replica-engine.pl:936-961 | takes the SEND_VIEW_CHANGE step with P and Q that list the new Pi and Qi once, and retracts roast_active |
| ReplicaEngines.ReplicaEngine.ReceiveViewChange | engine/fbft-replica-engine.pl:968-975 | succeeds exactly when the step is enabled and takes it, else changes nothing |
| ReplicaEngines.ReplicaEngine.SendNewView | engine/fbft-replica-engine.pl:989-992 | takes the SEND_NEW_VIEW step and puts exactly its message in the out buffer |
| ReplicaEngines.ReplicaEngine.ReceiveNewView | engine/fbft-replica-engine.pl:999-1006 | succeeds exactly when the step is enabled and takes it, else changes nothing |
| ReplicaEngines.ReplicaEngine.ReceiveBlock | engine/fbft-replica-engine.pl:1013-1018 | refused, with nothing changed, iff no logged request has the block's timestamp; else takes the RECEIVE_BLOCK step and clears the ROAST facts |
| ReplicaEngines.ReplicaEngine.RoastInit | engine/fbft-replica-engine.pl:1236-1261 | a backup notes the session; the primary restarts the counter and feeds in its logged COMMITs, all or nothing; from cleared facts and with COMMITs of F+1 distinct replicas logged it succeeds, and the first session is signed by the senders of the first F+1 with the pre-signature of exactly their data, in order |
| ReplicaEngines.ReplicaEngine.ProcessNewView | engine/fbft-replica-engine.pl:1052-1076 | takes the PROCESS_NEW_VIEW step and puts a backup's PREPAREs in the out buffer |
| FactLog.RetractEach | engine/fbft-replica-engine.pl:292-310 | retracting facts one by one leaves exactly those not to be dropped, each once |
| RoastTheorems.SessionBound | engine/fbft-replica-engine.pl:1283-1374 | the session counter never exceeds n - t + 1 |
| RoastTheorems.Accounting | engine/fbft-replica-engine.pl:1283-1374 | short of a final session: shares = signers minus pending ones, fewer than t responsive signers, every input accounted for |
| RoastTheorems.OneFinalSession | engine/fbft-replica-engine.pl:1145-1149 | at most one session ever becomes final, with one share from each of its t signers |
| RoastTheorems.SomeoneOwes | engine/fbft-replica-engine.pl:1283-1374 | with t contributors, in every state that is not final one of them owes an answer |
| RoastTheorems.EnoughInputsFinish | engine/fbft-replica-engine.pl:1283-1374 | after (n - t + 2) * t inputs there is a final session, whatever they were |
| RoastTheorems.RoastTerminates | engine/fbft-replica-engine.pl:1236-1374 | from any such state, answers of t honest contributors lead to a final session within the bound |
| RoastTheorems.InitSucceeds | engine/fbft-replica-engine.pl:1236-1258 | ROAST_INIT fed with COMMITs of distinct senders never fails and opens one session for every t of them |
| RoastData.SessionsInOrder | engine/fbft-replica-engine.pl:1337-1365 | in every run session k is signed by the senders of the k-th t inputs, and its pre-signature aggregates exactly the shares they brought, in that order |
| RoastData.SharesAreAnswers | engine/fbft-replica-engine.pl:1303-1318 | every share a session holds is the data one of its signers sent after it was opened |
| RoastData.MaliciousExactly | engine/fbft-replica-engine.pl:1291-1301 | whatever the inputs, a signer is marked malicious iff one of its inputs came while it was responsive |
| RoastSessions.RunInvariant | engine/fbft-replica-engine.pl:1283-1374 | the coordinator's invariant over every run |
| RoastCoordinators.RoastCoordinator.ReceiveShare | engine/fbft-replica-engine.pl:1283-1377 | the transaction in place: all of the step, with the pre-signature message of the session it opens, or nothing |
| RoastCoordinators.RoastCoordinator.OpenNextSession | engine/fbft-replica-engine.pl:1345-1365 | assigns every responsive signer to the new session, stores it, puts out its pre-signature message and clears the responsive set |
| RoastCoordinators.RoastCoordinator.FeedCommits | engine/fbft-replica-engine.pl:1245-1251 | the loop over the logged COMMITs, with one pre-signature message per session opened, rolled back if one fails |
| RoastCoordinators.RoastCoordinator.CollectGarbage | engine/fbft-replica-engine.pl:1188-1197 | no ROAST fact is left, so the next session starts as the theorems assume |
| RoastCoordinators.CollectShares | src/fbft/actions/Execute.cpp:59-82 | the collecting loop ends with the pre-signature, the t signers and the t shares of the one final session, one share per signer |
| Driver.RunAwaits | src/fbft/state/ReplicaState.cpp:379-400 | in every state of every run each message awaiting a checkpoint has sequence number h + 2 |
| Driver.RunConserves | src/fbft/state/ReplicaState.cpp:355-402 | every message received is held once, in one of the two buffers, or was consumed once |
| Driver.AppliedConserves | src/fbft/state/ReplicaState.cpp:324-402 | an Apply loses nothing but the one copy it consumes |
| Driver.AppliedExactly | src/fbft/state/ReplicaState.cpp:379-400 | since a signature belongs to one message, an Apply on a buffered message takes exactly one copy of that very message out of the input buffer, to be retried or consumed, and moves nothing else but what a block releases |
| Driver.FailedExactly | src/fbft/state/ReplicaState.cpp:379-400 | after an Apply that failed on a buffered message, the message is in the awaiting buffer iff it is a PRE-PREPARE, PREPARE or COMMIT numbered h + 2 modulo 2^32, and is consumed in every other case |
| Driver.SucceededExactly | src/fbft/state/ReplicaState.cpp:355-400 | after one that succeeded the message is consumed and nothing is added to the awaiting buffer |
| Driver.FailedComesBack | src/fbft/state/ReplicaState.cpp:360-400 | in every run over verified messages such a message is back in the input buffer after the next block that takes effect, whatever happens in between |
| Driver.RunAppliesExactly | src/fbft/Replica2.cpp:221-226 | so in every state of every run over messages whose signatures were verified |
| Driver.BlockReleases | src/fbft/state/ReplicaState.cpp:360-377 | a successful block empties the awaiting buffer into the input buffer; what it releases is then at h + 1 |
| Driver.ReplicaState.Apply | src/fbft/state/ReplicaState.cpp:324-413 | the two loops take exactly the buffer step, and one receive action is active per buffered message |
| Driver.ReplicaState.RemoveFirst | src/fbft/state/ReplicaState.cpp:379-400 | removes the first equal message, or moves it to the awaiting buffer |
| Driver.ReplicaState.ReceiveIncomingMessage | src/fbft/state/ReplicaState.cpp:92-99 | appends the message |
| Grind.GrindTask | src/blockchain/grind.cpp:12-36 | tries the terms of the progression below finish in order, reports the first that meets the target, and reports none iff none does |
| Grind.Grind | src/blockchain/grind.cpp:38-58 | answers the least nonce below 2^32 - 2 that meets the target, or fails iff there is none |
| Grind.FinishIsTerm | src/blockchain/grind.cpp:21-22 | finish is a term of the progression, computed without wrap-around |
| Grind.TriedInOrder | src/blockchain/grind.cpp:24-35 | the nonces hashed strictly increase, so none is hashed twice |
| Grind.TasksSplitNonces | src/blockchain/grind.cpp:12-22 | tasks with one step and different offsets split the nonces between them |

## Left out

- Safety over two or more consecutive view changes for blocks: Pi is emptied before it is rebuilt, so a certificate is carried over one view change; for request digests see `PreparedAgreeAcrossViews`.
- Safety.ViewChangeKeepsCommitted: takes a Nu whose VIEW-CHANGEs are all for v+1 with Hi < n, because `correct_nu_element` accepts any logged view and the code guarantees no more.
- Grind.GrindTask: one task run alone with `found` false; several tasks racing on `found` are not modelled. Whether a nonce meets the target is a function parameter.
- RoastTheorems.SessionBound: takes runs in which no signer is marked malicious and each commit comes once; with duplicate shares the code has no such bound.
- The ROAST facts in the cluster model: they are in the class and in the coordinator's own model. EXECUTE takes the existence of a final session as a parameter, a COMMIT whose share the coordinator refuses counts as not received, and the ROAST theorems do not cover facts that survive from an earlier view (SEND_VIEW_CHANGE resets only `roast_active`).
- RECEIVE_PRE_SIGNATURE: only puts the signer's share in the out buffer.
- Slots.OneProposalPerSlot: does not count the entries of a NEW-VIEW for view 0, because such a message can list another block for a slot already proposed (`OtherBlockListed`); no replica accepts it.
- NewViewWindow.EmittedViewChange: takes four replicas or more, because it fails for one (`OneReplica`); so do ViewChangeAccepted, NullExactly and ProcessKeepsWindow.
- `ApplyActiveActions`: picks an enabled action at random and sends the out buffer; in the model any enabled action may be next and a message is sent as soon as it is in the out buffer.
- The checks of blocks, request time and signatures that precede an engine effect in C++: the model lets every such check succeed or the message stay unreceived.
- Order among facts of different dynamic predicates and between messages of the out buffer: sets in the cluster model, lists per predicate in the class.
- Byzantine claims beyond those listed under Assumptions.
- Sockets, RPC, signing and hashing, block building, JSON conversion, persistence and restart, logging, the Python tooling: plumbing or foreign libraries.
