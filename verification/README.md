# QuorumESP: a verified model of the arbiter

QuorumESP answers, for the nodes of a split Corosync cluster, who gets the arbiter's vote.
At most one partition may hold it. This project models the parts that decide and deliver
that vote, and proves what they promise:

* **FFSplit** (`FFSplit.dfy`, `FFSplitLaws.dfy`): the client table, the stability check, the
  comparison of partitions, the selection fold and the decision. `PreferenceLaws.dfy` says in
  the reported fields alone when a table is stable and which half wins.
* **LMS** (`Lms.dfy`, `LmsLaws.dfy`): grouping by ring, the tiered decision, saved votes.
  `VerdictLaws.dfy` says whom each tier grants.
* **Pushing** (`Push.dfy`): the shared state of the server -- slot states, sequence numbers,
  the phase, recompute, waiter refresh, join and leave. `PushLaws.dfy` has the invariant every
  turn keeps, `RoundLaws.dfy` the course of one push round, `FailureLaws.dfy` exactly when lost
  pushes and second sessions of a node are harmful.
* **Turns** (`Turns.dfy`, `TurnLaws.dfy`): the handshake and the dispatch of one frame.
  `RunLaws.dfy` proves the safety of every run, that is of every interleaving of frames and
  disconnects of any number of sessions. `WitnessLaws.dfy` builds concrete runs, turn by turn
  from the first frame: one in which a vote is granted, and one for each failure that the
  assumptions of the run theorems exclude. `LedgerLaws.dfy` proves that the table of a run is
  what the clients said, `GrantLaws.dfy` what replies and pushes tell them.
* **Codec** (`Wire.dfy`, `Tlv.dfy`, `Msg.dfy`, `JsMsg.dfy`): the C builders and decoder and the
  JavaScript decoder. `LayoutLaws.dfy` pins the bytes, `MsgLaws.dfy` has the round trip,
  `CodecLaws.dfy` the agreement.
* **Oracle** (`Session.dfy`, `Net.dfy`, with `SessionLaws.dfy` and `NetLaws.dfy`): the
  JavaScript session machine and the reassembly of frames from socket events. `OracleLaws.dfy`
  sets server and oracle side by side.

`Defs.dfy` and `Lists.dfy` hold shared types and facts. `dafny verify dfyconfig.toml` checks
everything.

## How the model is built

Code that updates tables and buffers in place is a class whose methods are proved equal to
specification functions on the class's value (`Table.View`, `Server.View`, `Session.View`,
`Buf.Contents`, `Iter.Rest`, `Connection.View`). The lemmas then speak about those functions.

A turn is atomic, because the server holds one mutex from receiving a frame to sending its
answer. What a turn takes from outside is its parameter: `Env.ok` is the set of slots whose
transport accepts a push in that turn, `Env.admits` the outcome of the cluster-name check,
`Env.tls` and `Env.certReq` the TLS configuration. A push that fails still uses up a sequence
number, as in the code.

The ledger of the exclusivity theorem is independent of the slot states: `State.logs` records,
per connected node, the votes its transport took and the replies it sent, and
`PushLaws.MayHold` reads off that record whether an ACK was pushed and not revoked by a NACK
confirmed by number. `RunLaws.InForce` is the latest selection outside phase 1: a new selection
comes into force only once its refused clients have nothing left to confirm.

The run theorems assume two things of every turn, both as predicates on the run
(`RunLaws.Fair`):

* `Admissible`. Sessions of one node share a slot (firmware/quorum/ffsplit.c:19-23), and the
  server refuses neither a second INIT nor its consequences. Two things can go wrong. The second
  INIT clears the slot's push state (firmware/qdevice/server.c:434-436): if the node is refused
  and may hold an ACK while NACKs are still to be confirmed, its own NACK is forgotten
  (`WitnessLaws.DuplicateSessionBreaksExclusivity`). And when one of the two sessions closes, it
  frees the slot the other still refers to (firmware/qdevice/server.c:862-869): the node drops
  out of the table with its ACK, in any phase (`WitnessLaws.OlderCloseBreaksExclusivity`).
  `Admissible` excludes these two turns and nothing else. A turn keeps the invariant exactly
  when it is admissible (`RunLaws.StepKeepsExactly`), but the invariant is stronger than
  exclusivity, so two theorems say what the turns themselves cost. After a second INIT, some
  sequence of replies ends the round with a holder outside the selection exactly when, besides,
  another slot has a NACK pending and none has one due (`FailureLaws.JoinHoldersExactly`). After
  a close, the table still knows every live session that may hold an ACK exactly when the slot
  was not shared or its node could not hold one (`RunLaws.CloseAccountsExactly`). A run in which
  no accepted INIT names a connected node (`FreshNode`) is admissible throughout. With two
  sessions the push numbers restart, and "confirmed by number" cannot tell a late reply of the
  older session from one of the newer; with `FreshNode` that question does not arise.
* `NacksGetThrough`: a turn that decides gets at least one NACK out, or refuses nobody that may
  hold an ACK, the condition that `FailureLaws.LostNacksExactly` proves exact. If every NACK
  push fails, the ACKs are sent at once (firmware/qdevice/server.c:266-269);
  `WitnessLaws.LostNacksBreakExclusivity` is a run in which that lets two decided sets hold ACKs.

`RunLaws.CleanRunIsExclusive` needs only `FreshNode` and that pushes succeed, and
`WitnessLaws.CleanRunWithHolder` is such a run, from the first frame to a held ACK.

## What differs from the documentation

* docs/ffsplit.md:11 lets an even config be decided by "more than half". With an *empty*
  config every reported membership is more than half: in a stable table some client without a
  config is granted the vote exactly when one reports a membership
  (`FFSplitLaws.EmptyConfigExactly`), the last reporter in slot order wins
  (`FFSplitLaws.LastReporterWins`), and so slot order decides between disjoint partitions
  (`FFSplitLaws.OrderMattersWithoutConfig`), and matters exactly when two reporters list
  different sets (`FFSplitLaws.NoConfigOrderExactly`). A clean run gets there, because a leaving client
  triggers a recompute without asking whether the others sent configs
  (`WitnessLaws.LeaveGrantsWithoutConfig`).
* docs/ffsplit.md:15-16 speaks of the partition that "was quorate" under keep-active. The code asks
  whether the *reporting client* is in the last selection. The two agree for clients that list
  themselves; without that, the winner depends on slot order
  (`FFSplitLaws.OrderMattersWithoutSelfListing`).
* LMS grants every caller next to a single group (firmware/quorum/lms.c:103-106), also one that
  is not in it because it has no ring yet (`LmsLaws.UninitialisedCallerIsGranted`). That is the
  only way to grant two rings: `LmsLaws.OneRingExactly` proves that no sequence of calls grants
  two rings exactly when no connected pair is stray, that is on different rings next to a single
  group with both passing the ring check.
* firmware/qdevice/server.c:793 drains oversize frames, but its condition never holds:
  `recv_frame` closes the connection on a bad header. No draining is modelled.

## Model

| member | source | states |
|---|---|---|
| FFSplit.Table.FindSlot | firmware/quorum/ffsplit.c:19-23 | finds the first connected slot of a node, or -1 |
| FFSplit.Table.Slot | firmware/quorum/ffsplit.c:17-39 | reuses the node's slot, else takes the first free one cleared, else -1; nothing else changes |
| FFSplit.Table.Remove | firmware/quorum/ffsplit.c:41-45 | frees one slot, ignores an index out of range |
| FFSplit.Table.PreferredIn | firmware/quorum/ffsplit.c:82-105 | the membership contains the node the tie-breaker nominates: the given one, or the lowest or highest of the config |
| FFSplit.Table.Stats | firmware/quorum/ffsplit.c:107-130 | counts connected members, passes and failures |
| FFSplit.Table.Better | firmware/quorum/ffsplit.c:136-201 | majority beats, exact half beats by score, active count, keep-active, tie-breaker; less than half never beats |
| FFSplit.Table.SlotScore | firmware/quorum/ffsplit.c:161-167 | the wrapping sum is the true score |
| FFSplit.Table.Select | firmware/quorum/ffsplit.c:203-220 | returns the membership of the best slot, or reports that there is none |
| FFSplit.Table.SetsEqual | firmware/quorum/ffsplit.c:68-80 | equal length and one-way inclusion |
| FFSplit.Table.IsStable | firmware/quorum/ffsplit.c:222-263 | all configs agree, and every connected member agrees on ring and membership |
| FFSplit.Table.Decide | firmware/quorum/ffsplit.c:265-285 | unstable: nothing changes; stable: selection stored, every connected slot voted ACK exactly when its node is selected |
| FFSplit.WrappedScoreExact | firmware/quorum/ffsplit.c:161-167 | although the inner subtraction wraps when failures exceed passes, the unsigned sum is the true score, between 0 and twice the active count |
| FFSplitLaws.ScorePermutation | firmware/quorum/ffsplit.c:107-130 | permuted memberships have the same, exactly computed score |
| FFSplitLaws.NackAllExactly | firmware/quorum/ffsplit.c:265-285 | every reporting client is refused exactly when none reports half of the config or more |
| FFSplitLaws.LoneHalfWins | firmware/quorum/ffsplit.c:136-201 | a lone exact half is granted whatever its heuristics |
| FFSplitLaws.EmptyConfigExactly | firmware/quorum/ffsplit.c:151-160 | in a stable self-listing table a client without a config is granted the vote exactly when one without a config reports a membership |
| FFSplitLaws.EmptyConfigIsGranted | firmware/quorum/ffsplit.c:151-160 | a whole table in which this happens |
| FFSplitLaws.LastReporterWins | firmware/quorum/ffsplit.c:203-220 | without configs the last reporter in slot order is selected |
| FFSplitLaws.OrderMattersWithoutConfig | firmware/quorum/ffsplit.c:203-220 | two stable self-listing tables of the same clients without configs select disjoint partitions |
| FFSplitLaws.NoConfigOrderExactly | firmware/quorum/ffsplit.c:203-220 | in a self-listing table without configs, every reordering of the clients selects the same set exactly when all reporters list the same set |
| FFSplitLaws.ListedPeersAgree | firmware/quorum/ffsplit.c:222-263 | in a stable table being listed is mutual, and listed clients share ring and membership set |
| FFSplitLaws.StableIsEquivalence | firmware/quorum/ffsplit.c:222-263 | "j is in i's membership" is reflexive, symmetric and transitive on connected reporting clients |
| FFSplitLaws.DecisionIsOnePartition | firmware/quorum/ffsplit.c:265-285 | granted clients share ring and membership; no refused client lists a granted one |
| FFSplitLaws.MajorityWins | firmware/quorum/ffsplit.c:151-160 | for equal-or-disjoint parts of one config, a part above half is exactly the set granted, in any slot order |
| FFSplitLaws.SelectIsMaximal | firmware/quorum/ffsplit.c:203-220 | the fold returns the partition that outranks every other one reaching half by (majority, score, active, kept, preferred) |
| FFSplitLaws.SelectIgnoresSlotOrder | firmware/quorum/ffsplit.c:203-220 | the same clients in any other slots select the same partition |
| FFSplitLaws.OrderMattersWithoutSelfListing | firmware/quorum/ffsplit.c:190-199 | without self-listing the winner can depend on slot order |
| PreferenceLaws.StableExactly | firmware/quorum/ffsplit.c:222-263 | a table is stable exactly when all connected clients report the same config and every connected client agrees with those it lists on ring node, ring number and membership |
| PreferenceLaws.ScoreIsHealth | firmware/quorum/ffsplit.c:107-130 | the score of a membership is its connected nodes plus those that passed minus those that failed, each counted as a set |
| PreferenceLaws.AheadIsSelected | firmware/quorum/ffsplit.c:160-201 | a half ahead of every other half -- by score, then connected members, then keep-active, then nominated node -- is selected |
| PreferenceLaws.SelectedIsAhead | firmware/quorum/ffsplit.c:160-201 | among disjoint halves under one tie-breaker the selected one is ahead of every other |
| PreferenceLaws.KeepActiveKeeps | firmware/quorum/ffsplit.c:183-199 | when every connected client asks for keep-active, of level halves the one in the last selection is selected again, whatever the tie-breaker |
| PreferenceLaws.KeepActiveOff | firmware/quorum/ffsplit.c:183-189 | when one connected client does not ask for it, the last selection has no influence |
| PreferenceLaws.TieBreakerDecides | firmware/quorum/ffsplit.c:200-200 | without keep-active, of level halves the one that contains the nominated node is selected |
| PreferenceLaws.MoreThanHalfWins | firmware/quorum/ffsplit.c:151-157 | more than half of the shared config wins whatever else is reported |
| Lms.CheckRings | firmware/quorum/lms.c:16-46 | no peer of the same partition, in either direction, is on another ring |
| Lms.MakePartitions | firmware/quorum/lms.c:49-86 | fills the groups by ring with counts and scores, or -1 beyond capacity |
| Lms.FindTier | firmware/quorum/lms.c:120-131 | the two scans find the unique maximum, or report a shared one |
| Lms.BreakTie | firmware/quorum/lms.c:164-212 | grants the ring of the lowest or highest connected node, or the nominated node |
| Lms.Decide | firmware/quorum/lms.c:88-213 | the vote and the saved votes after one decision, including the unsaved newcomer refusal |
| LmsLaws.GroupingConserves | firmware/quorum/lms.c:49-86 | groups never exceed the table, have distinct rings, hold each initialised client once, sum to all of them, and score count + passes - failures in [0, 2 * count] |
| LmsLaws.GrantsShareRingExactly | firmware/quorum/lms.c:88-213 | grants of two connected clients always go to one ring exactly when they are not a stray pair: different rings, both passing the ring check, next to a single group |
| LmsLaws.GrantsShareRing | firmware/quorum/lms.c:88-213 | two granted initialised callers are on one ring, whichever tier decided and whatever was saved |
| LmsLaws.OneRingIsGranted | firmware/quorum/lms.c:88-213 | over any sequence of decisions of initialised clients on a fixed table only one ring is granted |
| LmsLaws.OneRingExactly | firmware/quorum/lms.c:88-213 | no sequence of decisions of connected clients grants two rings, exactly when no connected pair is stray |
| LmsLaws.UninitialisedCallerIsGranted | firmware/quorum/lms.c:103-106 | a whole table in which a caller without a ring is granted next to a single foreign partition |
| LmsLaws.NewcomerNeverTakesOver | firmware/quorum/lms.c:107-119 | a client that never voted is not granted against a partition holding a saved ACK, and its refusal is not saved |
| VerdictLaws.UncontestedVerdict | firmware/quorum/lms.c:94-119 | wait while a peer is on another ring or nobody has one; grant next to a single ring; refuse a newcomer that faces a grant |
| VerdictLaws.TopScoreIsGranted | firmware/quorum/lms.c:120-139 | the ring with strictly the highest count + passes - failures is granted, every other one refused |
| VerdictLaws.TopSizeIsGranted | firmware/quorum/lms.c:140-163 | on a shared highest score strictly the largest ring is granted, every other one refused |
| VerdictLaws.TieBreakerIsGranted | firmware/quorum/lms.c:164-212 | else the ring of the lowest or highest connected node is granted, or the nominated node alone; without a valid mode the caller waits |
| LmsLaws.DecideTwice | firmware/quorum/lms.c:88-213 | a second decision on an unchanged table gives the same vote and saved votes |
| Push.Server.PushVote | firmware/qdevice/server.c:194-209 | the number is used up; the vote is recorded exactly when the transport takes it |
| Push.Server.DrainNacks | firmware/qdevice/server.c:212-223 | every due NACK is pushed; those taken become pending, others stay due |
| Push.Server.DrainAcks | firmware/qdevice/server.c:225-236 | the same for ACKs |
| Push.Server.AnyState | firmware/qdevice/server.c:238-246 | some connected slot is in one of two states |
| Push.Server.Recompute | firmware/qdevice/server.c:250-273 | unstable: only the flag changes; stable: all connected slots become due, NACKs go first, ACKs only if no NACK went out, phase set accordingly |
| Push.Server.OnVoteInfoReply | firmware/qdevice/server.c:276-292 | a stale reply changes no push state; a matching one ends the wait and the last NACK releases the ACKs |
| Push.Server.LmsRefreshOthers | firmware/qdevice/server.c:298-319 | every waiting client but the caller is decided again and its decided vote pushed |
| Push.Server.Join | firmware/qdevice/server.c:422-446 | a slot is found or taken and its push state, number and saved vote are reset |
| Push.Server.Leave | firmware/qdevice/server.c:862-895 | remove first, then decide or refresh without the client; the last one out clears the cluster state |
| PushLaws.RecomputedAt | firmware/qdevice/server.c:250-273 | what a decision does to one connected slot, in terms of the selection and its transport |
| PushLaws.RecomputedKeeps | firmware/qdevice/server.c:250-273 | a recompute, also in mid-round, keeps the exclusivity invariant |
| PushLaws.AnsweredKeeps | firmware/qdevice/server.c:276-292 | any reply, stale or matching, keeps the invariant |
| PushLaws.JoinedExactly | firmware/qdevice/server.c:422-446 | a join keeps the invariant exactly when its node is not a connected, refused one that may hold an ACK in phase 1 |
| PushLaws.LeftKeeps | firmware/qdevice/server.c:862-895 | a leave whose decision gets a NACK out, or refuses no possible holder, keeps the invariant |
| RoundLaws.RecomputedAckIsLast | firmware/qdevice/server.c:250-273 | a recompute that pushes an ACK leaves no NACK pending, from any state and with failing pushes |
| RoundLaws.AnsweredAckIsLast | firmware/qdevice/server.c:276-292 | a reply that releases an ACK leaves no NACK due or pending |
| RoundLaws.RoundCompletes | firmware/qdevice/server.c:250-292 | after a decision and any replies: at most one push per client and it is its decided vote; phase 0 exactly when every client confirmed its push; ACKs only after all NACKs are confirmed; until then some push is unconfirmed |
| FailureLaws.LostNacksExactly | firmware/qdevice/server.c:266-272 | after a decision NACKs are pending or all holders are selected, exactly when a refused client's transport works or no refused client holds an ACK |
| FailureLaws.JoinHoldersExactly | firmware/qdevice/server.c:276-292 | after a second INIT of a connected node every sequence of replies leaves, outside phase 1, only selected holders, unless, and only unless, in phase 1 the node is refused and may hold an ACK, another slot has a NACK pending and none has one due |
| WitnessLaws.LostNacksBreakExclusivity | firmware/qdevice/server.c:266-272 | a fair run after which one admissible turn, its only NACK push failing, lets clients of two decided sets hold ACKs |
| WitnessLaws.DuplicateSessionBreaksExclusivity | firmware/qdevice/server.c:422-436 | a fair run after which a second session of a refused node and one confirmation of another node, all pushes succeeding, let clients of two decided sets hold ACKs |
| WitnessLaws.OlderCloseBreaksExclusivity | firmware/qdevice/server.c:862-871 | a fair run after which the close of one of two sessions of a node, outside phase 1, lets two live sessions hold ACKs of different sets |
| FailureLaws.RefreshTwiceIsOnce | firmware/qdevice/server.c:298-319 | a second waiter refresh pushes nothing and leaves the whole server state unchanged |
| Turns.Session.OnConnected | firmware/qdevice/server.c:335-375 | only a PREINIT with a usable name, once admitted, advances the session |
| Turns.Session.CheckInit | firmware/qdevice/server.c:392-413 | the code an INIT is refused with, in the order of the checks, or none |
| Turns.Session.OnPreinitDone | firmware/qdevice/server.c:377-452 | STARTTLS, the INIT checks in order with their codes, and the slot taken on success |
| Turns.Session.OnListLms | firmware/qdevice/server.c:477-534 | LMS node lists: vote in the reply, membership stored and waiters refreshed |
| Turns.Session.OnListFFSplit | firmware/qdevice/server.c:535-604 | FFSplit node lists: validated, stored, decided once both lists are known |
| Turns.Session.OnAskForVote | firmware/qdevice/server.c:605-627 | LMS only: decide and refresh the others |
| Turns.Session.OnHeuristicsChange | firmware/qdevice/server.c:628-657 | FFSplit stores the result and decides; LMS ignores it |
| Turns.Session.OnSetOption | firmware/qdevice/server.c:658-671 | stores the keep-active flag and echoes the options |
| Turns.Session.OnVoteInfoReply | firmware/qdevice/server.c:672-678 | FFSplit advances the push sequencing; no reply |
| Turns.Session.OnFrame | firmware/qdevice/server.c:323-684 | decode, then act on the session's stage; the new server state, session and reply |
| Turns.Session.OnEnd | firmware/qdevice/server.c:862-895 | the session's client leaves |
| Turns.EveryReplyFits | firmware/qdevice/server.c:528-533 | every reply of the server fits its transmit buffer, so building it never fails |
| Turns.DecodedNodesFit | firmware/qdevice/msg.c:409-616 | a decoded frame never has more nodes than a slot can store |
| TurnLaws.PreinitExactly | firmware/qdevice/server.c:335-375 | a new session advances exactly by a PREINIT with a name of 1 to 63 bytes that is admitted; the codes of the refusals |
| TurnLaws.InitExactly | firmware/qdevice/server.c:377-452 | INIT succeeds exactly with node, tie-breaker, ring, the algorithm of the cluster, a heartbeat of 1 to 120 seconds and a slot for the node |
| TurnLaws.ListAcceptedExactly | firmware/qdevice/server.c:487-562 | a complete node list is accepted exactly when it needs no nodes or names its sender; the codes of the refusals |
| TurnLaws.RepliesMatch | firmware/qdevice/server.c:452-684 | every reply repeats number and settings of its request, has the reply type of the request or is an error, and carries the ring of the session |
| TurnLaws.RingIsLatest | firmware/qdevice/server.c:511-519 | the ring of a session changes exactly with an accepted INIT or membership list that brings one |
| TurnLaws.ErrorsChangeNothing | firmware/qdevice/server.c:323-684 | an error reply leaves the shared state and the session unchanged |
| TurnLaws.StatusIsTruthful | firmware/qdevice/server.c:589-603 | the status of a node list reply says exactly whether both lists are known, the table is stable and a decision was taken |
| TurnLaws.HeurStatusIsTruthful | firmware/qdevice/server.c:636-650 | the same for the status in the reply to a heuristics change |
| LedgerLaws.TableIsWhatWasSaid | firmware/qdevice/server.c:452-671 | in every fair run the table holds exactly the connected nodes, each with the tie-breaker, keep-active flag, config, membership, ring and heuristics of its latest accepted frames |
| LedgerLaws.InitStartsAfresh | firmware/qdevice/server.c:422-446 | a welcomed INIT leaves its slot with nothing due, pending, counted or saved, and every other slot as it was |
| LedgerLaws.LastOneOutResets | firmware/qdevice/server.c:875-891 | in every fair run an algorithm is set exactly while somebody is connected; an empty table keeps no selection, decision or phase |
| GrantLaws.LmsReplyAnswers | firmware/qdevice/server.c:605-627 | every vote in an LMS reply is the decision for the caller on the table as the request left it, and is what was saved for it, but for a newcomer's refusal and an unbreakable tie |
| GrantLaws.LmsTurnPushes | firmware/qdevice/server.c:298-319 | every vote an LMS turn pushes is a saved decision on the current table, and every vote saved for another client is pushed if its transport works |
| GrantLaws.GrantsGoToOneRing | firmware/qdevice/server.c:477-534 | clients that LMS turns grant on one table, by replies or pushes and whatever was saved before, are on one ring |
| GrantLaws.RunGrantsOneRing | firmware/qdevice/server.c:605-627 | the same at any points of any fair runs that leave the same table |
| GrantLaws.RefreshSettlesWaiters | firmware/qdevice/server.c:298-319 | after an LMS client asked or reported, no other waiter is left whose vote could be decided |
| GrantLaws.LeaveSettlesWaiters | firmware/qdevice/server.c:872-876 | the same when an LMS client leaves |
| GrantLaws.LeaveDecidesExactly | firmware/qdevice/server.c:862-871 | when an FFSplit client leaves, a decision is taken exactly when the table of the others is stable |
| GrantLaws.PushesAreCurrent | firmware/qdevice/server.c:194-209 | in any turn a pushed vote carries the ring its client has in the table and the current number of the slot |
| GrantLaws.SplitConfigsDecideNothing | firmware/qdevice/server.c:250-273 | a turn that leaves two connected clients with different configs decides nothing and pushes nothing, but for ACKs of the decision before that a confirmation releases |
| WitnessLaws.LateAckOverSplitConfigs | firmware/qdevice/server.c:276-292 | a fair run after which a confirmation does release such an ACK |
| RunLaws.StepKeepsExactly | firmware/qdevice/server.c:422-446 | while due NACKs get through, a turn keeps the invariant (which is stronger than exclusivity) exactly when it is admissible |
| RunLaws.CloseAccountsExactly | firmware/qdevice/server.c:862-871 | after a session closed, every live session that may hold an ACK is still in the table exactly when no other session used the slot or its node could not hold an ACK |
| RunLaws.RunIsExclusive | firmware/qdevice/server.c:212-292 | in every fair run, all clients that may still hold an unrevoked ACK lie inside the selection in force, which is empty or was decided; outside phase 1 they lie inside the current selection |
| RunLaws.CleanRunIsExclusive | firmware/qdevice/server.c:212-292 | the same when pushes succeed and node ids are distinct |
| RunLaws.PhaseOneShrinks | firmware/qdevice/server.c:212-292 | a turn that ends with NACKs outstanding makes nobody a holder |
| WitnessLaws.CleanRunWithHolder | firmware/qdevice/server.c:323-684 | a clean run of frames, from PREINIT to two node lists, ends with a client holding an ACK |
| WitnessLaws.LeaveGrantsWithoutConfig | firmware/qdevice/server.c:862-871 | a clean run in which a disconnect grants a client that never sent a config |
| RunLaws.RunIsSeated | firmware/qdevice/server.c:422-428 | in every fair run active sessions own connected slots, nodes are distinct, and every reported membership lists its node |
| RunLaws.RunDecidesOnePartition | firmware/qdevice/server.c:250-273 | every decision of a run selects nothing or a membership reaching half of its config, and grants clients of one ring and membership, listed by nobody refused |
| RunLaws.LeftSeats | firmware/qdevice/server.c:862-895 | whatever is decided or refreshed, leaving frees exactly the leaver's slot |
| RunLaws.PhaseSummarises | firmware/qdevice/server.c:105-110 | with pushes succeeding, phase 0, 1 and 2 bound the slot states in every run |
| RunLaws.AckOnlyAfterNacks | firmware/qdevice/server.c:212-292 | from any state, with failing pushes too, a turn that pushes an ACK leaves no NACK pending |
| Wire.RoundTrip16 | firmware/qdevice/tlv.c:7-10 | big-endian 16-bit put and get are inverse both ways |
| Wire.RoundTrip32 | firmware/qdevice/tlv.c:12-37 | the same for 32 bits |
| Wire.RoundTrip64 | firmware/qdevice/tlv.c:19-44 | the same for 64 bits |
| LayoutLaws.BigEndian16 | firmware/qdevice/tlv.c:7-32 | written and read, the first of two bytes weighs 256 |
| LayoutLaws.BigEndian32 | firmware/qdevice/tlv.c:12-37 | byte k of four weighs 256 to the power 3 - k, both ways |
| LayoutLaws.BigEndian64 | firmware/qdevice/tlv.c:19-44 | the same for eight bytes |
| LayoutLaws.EntryLayout | firmware/qdevice/tlv.c:46-65 | an entry is its type, the length of its value and the value |
| LayoutLaws.OptionLayout | firmware/qdevice/tlv.c:67-162 | the value bytes of every kind of option |
| LayoutLaws.FrameLayout | firmware/qdevice/msg.c:19-47 | a built frame starts with its type and the number of bytes after the header |
| LayoutLaws.HeaderExactly | firmware/qdevice/msg.c:49-72 | a header is accepted exactly when its type is at most 17 and the frame it announces is within the limit and complete |
| LayoutLaws.KnownPreinit | firmware/qdevice/msg.c:122-128 | one PREINIT frame, byte by byte |
| LayoutLaws.KnownVote | firmware/qdevice/msg.c:268-275 | one ASK_FOR_VOTE_REPLY frame, byte by byte |
| Tlv.Iter.Advance | firmware/qdevice/tlv.c:172-190 | one strict step: next entry, end, truncated or overrun; a failure does not move |
| Tlv.DecodeTlvs | host/src/tlv.js:123-139 | the position loop yields the entries of the strict parse, or fails where it fails |
| Tlv.ParseEncoded | host/src/tlv.js:34-47 | parsing encoded entries gives them back |
| Tlv.EncodeParsed | host/src/tlv.js:123-139 | re-encoding a parsed buffer gives its bytes back |
| Tlv.ParseFailsExactly | firmware/qdevice/tlv.c:172-190 | parsing fails exactly on buffers that are no concatenation of entries |
| Msg.Buf.AddTlv | firmware/qdevice/tlv.c:46-65 | an entry is appended whole or not at all |
| Msg.Buf.AddNodeInfo | firmware/qdevice/tlv.c:136-162 | the nested entry with optional datacentre and state, or its refusal |
| Msg.Buf.Add | firmware/qdevice/tlv.c:67-134 | each typed adder appends its encoded value or returns its error |
| Msg.Buf.Begin | firmware/qdevice/msg.c:19-34 | reserves the header, or refuses the type or the space |
| Msg.Buf.End | firmware/qdevice/msg.c:36-47 | backfills the payload length and nothing else |
| Msg.Buf.Build | firmware/qdevice/msg.c:122-341 | a builder leaves exactly the encoded frame, or the first refusal |
| Msg.CheckHeader | firmware/qdevice/msg.c:49-72 | accepts exactly known types within the size limit |
| Msg.DecodeNodeInfo | firmware/qdevice/msg.c:370-407 | the nested loop computes the folded node or its error |
| Msg.Decode | firmware/qdevice/msg.c:409-616 | the option loop computes the folded message or its error |
| MsgLaws.RoundTrip | firmware/qdevice/msg.c:19-47 | for every builder and argument list that fits: decoding succeeds exactly on arguments in range and returns them; the header length is the total minus 6 |
| MsgLaws.OptionRoundTrip | firmware/qdevice/tlv.c:67-162 | one written option decodes to its own field, or is refused when out of range |
| MsgLaws.NodeRoundTrip | firmware/qdevice/tlv.c:136-162 | nested node infos with optional datacentre and state round-trip |
| MsgLaws.CrossRoundTrip | host/src/msg.js:231-314 | the JavaScript decoder reads back what the C builders wrote |
| JsMsg.DecodeU16Array | host/src/tlv.js:172-181 | the accumulating loop is the element-wise decode, odd lengths are refused |
| JsMsg.DecodeNodeInfo | host/src/tlv.js:257-274 | the nested loop computes the filled node or throws |
| JsMsg.DecodeMessage | host/src/msg.js:231-314 | split, parse all, fill in order; the object or the exception |
| CodecLaws.NodeInfosAlike | firmware/qdevice/msg.c:370-407 | both codecs accept the same node infos with the same values |
| CodecLaws.MessagesFoldAlike | host/src/msg.js:231-314 | the one-pass C decoder and the parse-first JavaScript decoder agree on every payload, repeated options included |
| CodecLaws.DecodersAgree | firmware/qdevice/msg.c:409-616 | for every byte string and limit, C accepts exactly when JavaScript accepts within the C capacities, with the same values |
| Session.QnetSession.OnConnected | host/src/session.js:161-180 | only a PREINIT with a name advances |
| Session.QnetSession.OnPreinitDone | host/src/session.js:182-221 | STARTTLS and INIT under the TLS policy |
| Session.QnetSession.OnActive | host/src/session.js:258-320 | the replies of an active session and the ring it remembers |
| Session.QnetSession.HandleFrame | host/src/session.js:136-159 | new state, answer and activity time of one frame; misuse when closed |
| Session.QnetSession.Close | host/src/session.js:114-118 | closes and keeps the rest |
| SessionLaws.ActiveExactly | host/src/session.js:136-221 | over every sequence of frames: active exactly after a valid PREINIT, then STARTTLS if required, then a valid INIT |
| SessionLaws.ErrorsChangeNothing | host/src/session.js:124-135 | an error reply never changes the state |
| SessionLaws.InitExactly | host/src/session.js:182-256 | INIT succeeds exactly under the TLS policy with node, algorithm, heartbeat, tie-breaker and ring in range, and only then the session becomes active |
| SessionLaws.HandshakeAnnounces | host/src/session.js:161-232 | the handshake replies announce the TLS mode, the certificate policy, the size limits and both algorithms |
| SessionLaws.AnswersMatch | host/src/session.js:258-320 | every answer repeats number and settings of its request, has its reply type or is an error, and votes as configured; an echo differs in its type only |
| SessionLaws.ReplyCarriesLatestRing | host/src/session.js:266-277 | every NODE_LIST_REPLY carries the current list's ring, else the latest accepted one |
| OracleLaws.GreetingsAlike | host/src/session.js:161-180 | before PREINIT server and oracle report the same errors and advance on the same frames, but for the length limit and the admission of the cluster name |
| OracleLaws.InitsAlike | host/src/session.js:182-256 | after PREINIT both refuse the same frames, with the same codes unless an INIT lacks its tie-breaker or ring; the server besides refuses another algorithm than that of its cluster |
| OracleLaws.ServiceAlike | host/src/session.js:258-320 | once active, every error of the oracle is the error of the server, settings are answered alike, and echoes up to the reply buffer are the same bytes |
| Net.Connection.Kill | host/src/net.js:149-156 | destroys once and closes the session |
| Net.Connection.OnError | host/src/net.js:197 | a socket error destroys the transport |
| Net.Connection.OnClose | host/src/net.js:198 | a closed socket closes the session only |
| Net.Connection.OnData | host/src/net.js:158-195 | one event: whole frames are consumed in order, the rest is kept, a bad header kills |
| NetLaws.FramesComeBack | host/src/net.js:158-195 | a stream of frames, the last perhaps unfinished, splits into exactly those frames |
| NetLaws.BadExactly | host/src/net.js:163-176 | the stream is given up exactly at a header of unknown type or beyond the limit |
| NetLaws.WholeStream | host/src/net.js:158-195 | frames, replies, session and death are those of the whole stream parsed at once |
| NetLaws.ChunkingIsInvisible | host/src/net.js:158-195 | two cuts of one stream cannot be told apart |

## Left out

- Push.Server.PushVote: sequence numbers are unbounded, so the wrap of `s_seq` at 2^32 is not modelled.
- Turns.Session.OnConnected: the comparison of cluster names (firmware/qdevice/server.c:344-352) is the parameter `Env.admits`.
- Turns.Session.OnFrame: timers, `last_rx_us`, heartbeat bookkeeping and log fields of the session are not modelled.
- Turns.Session.OnFrame: the transports `s_tp` are the parameter `Env.ok`; a failed TLS upgrade or reply is a later `Close` turn.
- Lms.MakePartitions: group counters are unbounded; with eight slots they cannot overflow.
- Msg.Buf.Add: the string adder takes bytes, so the `strlen` of a C string is not modelled.
- JsMsg.DecodeMessage: the cluster name stays bytes; UTF-8 decoding is not modelled.
- Session.QnetSession.Close: the reason text of a close is not recorded.
- Session.QnetSession.HandleFrame: `isAlive` and `clientShouldStartTls` only compute.
- Net.Connection.OnData: a reply is recorded as the message built; `readOneMessage` is not modelled.
- JavaScript builders: the session's answers are the C builders' argument lists, whose field order is the same; `nodeList` differs from C only in writing an undefined heuristics result.
- Sockets, timeouts, accept and heap admission, watchdog, tasks: input/output plumbing around the atomic turn.
- TLS, X.509, Wi-Fi, time synchronisation, configuration storage, web interface, command-line tools: external or user-facing.
