# A verified model of Matryca Plumber's checks and protocols

Matryca Plumber reads a Logseq graph through a bounded gateway, runs its readers as owned child
processes, ships an authenticated resource tree, and collects release evidence that must survive
crashes. This project models the parts of it whose correctness is not visible from one function,
and proves what those parts are for.

`dafny verify dfyconfig.toml` checks everything. The modules follow the program:

- **Graph topology.** `Topology` says what an ordered page forest is, how it is serialised in
  preorder, and which flat lists are canonical. `WireNodes` is the gateway's streaming check of
  untrusted JSON, `InstalledTopology` the installed kit's stack check, `ContractTopology` the
  contract kit's rebuild, search and comparison, with the search over arbitrary parent pointers
  studied in `ParentPointers`. `Forests`, `TopologyAgreement` and `GatewayAgreement` prove that
  the canonical lists are exactly the serialised forests and that all three checks recognise
  them. `Edges` does the same for the three checks of reference edges.
- **Encoder.** `ObjectGraph` describes Python values that may share or contain themselves,
  `EncoderWalk` the explicit-stack walk and the recursion it refines, `Encoder` what that walk
  accepts, why it refuses, and the byte ceiling.
- **Soak and evidence.** `SoakHistory` is the hash-chained attempt log, `Soak` the resumable
  collector over it, with a crash possible around every write, `GateStore` the two evidence files
  and their collectors one after another. `GateInterleaving` lets the collectors run side by side,
  file read by file read; `GateOverlap`, `GateReports` and `GateAdmission` say which overlaps keep
  the files equal, what a report's verdict then means, and which keep the write-once gates and
  the binding of a soak to its wheel. `GateMisreports` has the runs that mislead a report.
- **Child processes.** `ChildReader` drains two pipes under limits, `ChildCleanup` stops the
  process group against a system that may answer anything, `CleanupSnapshot` is the diagnosis
  the owner writes and its reader re-checks.
- **Smaller cores.** `ResourceTree` (the installed resource inventory), `RandIndex` (the adjusted
  Rand index in exact arithmetic) and `RandChance` (its average over all arrangements),
  `ReleaseRoute` (tags, versions and their precedence). `Common` holds shared types and the sort
  behind Python's `sorted`.

Loops over local state are methods with loops, objects with fields are classes, and each such
method is tied to a specification function whose properties are then proved as lemmas. The outside
world (clock, signals, reads, crashes, interruptions) answers nondeterministically; hashes are
arbitrary functions, injective only where a lemma says so.

Some natural claims about the source need a condition; each has its witness and its exact form:

- Crash-free collectors can leave the two evidence files different (`GateOverlap.FilesPart`). Beginning
  a new record is safe iff every other collector about to write writes that same record
  (`GateOverlap.StartIsSafeIff`); reports and resuming collectors may overlap with anything.
- A report can say ready about content that the two files never shared, without a crash
  (`GateMisreports.ReadyUnsettled`) or among collectors that begin in turn but die
  (`GateMisreports.ReadyAfterDeaths`). If new records are begun in turn and nobody dies half-way while
  the report is made, both files held exactly what it judges at one moment between its two reads,
  whatever died before (`GateReports.InStepIsTrustworthy`). A start keeps all later reports of crash-free
  collectors so iff it is in turn, or the files are equal and whoever else writes another record has
  only the evidence left to write (`GateReports.StartIsTrustworthyIff`).
- A wheel can be recorded over another, and then a passed soak stands beside a passed wheel it was not
  run for, although no two collectors write at once (`GateAdmission.WheelReplaced`): the check of the
  input precedes the recording. Admitting a wheel or soak is safe iff every other one admitted and not
  yet recorded has the same input (`GateAdmission.AdmissionIsSafeIff`), and then two passed
  records always satisfy the binding check (`GateAdmission.OrderlyRuns`), whatever crashes.
- Comparing paths alone does not establish the resource inventory (`ResourceTree.PathsAloneMislead`).
  It does iff no directory has the name of a declared file or of one of the two documents
  (`ResourceTree.PathsDecide`), and together with that it is the whole inventory
  (`ResourceTree.InventoryExact`).

## Model

| member | source | states |
|---|---|---|
| WireNodes.Nodes | matryca_plumber/graph_gateway/wire.py:37-75 | For every JSON value: accepted iff it is a list of at most 1,024 well-formed nodes in canonical preorder with block depth at most 64; an accepted list is exactly the returned nodes as they are sent, key by key; "bounds exceeded" exactly for an over-long list or a list whose first fault is depth, otherwise "source rejected". The loop keeps the ancestor stack equal to the open path and the counters equal to the sibling counts. |
| WireNodes.ReadIff | matryca_plumber/graph_gateway/wire.py:48-74 | A list denotes nodes iff it is those nodes as they are sent and nothing besides: tokens as identifiers, a page without a parent or a block with a token for one, an ordinal that is not negative. |
| Forests.SnapshotIsCanonical | matryca_plumber/graph_gateway/wire.py:43-75 | Serialising any forest with distinct identifiers gives a canonical list, and the list is shallow exactly when the forest is. |
| Forests.Rebuild | matryca_plumber/graph_gateway/wire.py:43-75 | Every canonical list is the serialisation of a forest with distinct identifiers, whose last root-to-leaf path is the list's open path. |
| Forests.CanonicalIffSnapshot | matryca_plumber/graph_gateway/wire.py:43-75 | A list is canonical and within a depth limit iff some forest with distinct identifiers, within that limit, serialises to it. |
| GatewayAgreement.ForestAccepted | matryca_plumber/graph_gateway/wire.py:37-75 | Every page forest of distinct tokens, at most 1,024 nodes and block depth at most 64, sent as JSON, is accepted and read back as itself. |
| GatewayAgreement.AcceptedIsOneForest | matryca_plumber/graph_gateway/wire.py:37-75 | Every accepted list is, as sent, the serialisation of exactly one forest of tokens within the limits. |
| GatewayAgreement.GatewayAgrees | matryca_plumber/graph_gateway/wire.py:37-75 | On every list of readable nodes the gateway accepts iff the list is within the limits, the contract kit accepts it, and a node is a page exactly when it has no parent. |
| GatewayAgreement.OpenPathIsRootPath | matryca_plumber/graph_gateway/wire.py:55-74 | The open-ancestor stack after any canonical list is the path of parent pointers from a root to the last node. |
| InstalledTopology.PopTo | matryca_plumber/graph_gateway/tck.py:281-282 | Popping until the parent is uncovered leaves the path up to the parent, or nothing when the parent is not open. |
| InstalledTopology.Nodes | matryca_plumber/graph_gateway/tck.py:261-293 | Accepts exactly the canonical lists, and counts their pages and blocks. |
| ContractTopology.ValidateNodes | scripts/run_plumber_graph_topology_v1_tck.py:320-347 | Reports exactly the first broken rule of: unique identifiers, declared parents, contiguous sibling ordinals, no cycle, canonical order. |
| ContractTopology.Traversal.Visit | scripts/run_plumber_graph_topology_v1_tck.py:338-341 | For any parent pointers the recursion ends and appends the preorder of the searched forest, and nothing else. |
| ParentPointers.RootPathBounded | scripts/run_plumber_graph_topology_v1_tck.py:338-341 | A path of parent pointers from a root never names a node twice, so it is no longer than the list: why the search ends. |
| ParentPointers.SearchDistinct | scripts/run_plumber_graph_topology_v1_tck.py:338-341 | For any parent pointers, the search below any node lists no identifier twice. |
| ParentPointers.ListedIffGrounded | scripts/run_plumber_graph_topology_v1_tck.py:336-343 | The search from the roots lists exactly the nodes that a path of parent pointers joins to a root. |
| ParentPointers.GroundedIffChainEnds | scripts/run_plumber_graph_topology_v1_tck.py:344-345 | A node is joined to a root iff its chain of parents ends. |
| ParentPointers.SearchShortIffCycle | scripts/run_plumber_graph_topology_v1_tck.py:336-345 | With unique, declared identifiers: no node is listed twice, and fewer nodes are listed than given iff some chain of parents never reaches a root, so the length test detects cycles exactly. |
| TopologyAgreement.ContractAgrees | scripts/run_plumber_graph_topology_v1_tck.py:320-347 | On every list: canonical iff the rebuild-and-search check accepts it and pages are exactly the roots. |
| TopologyAgreement.SnapshotRoundTrip | scripts/run_plumber_graph_topology_v1_tck.py:328-343 | Serialising a forest and searching the list from its roots gives the same forest back. |
| Edges.Gateway | matryca_plumber/graph_gateway/wire.py:78-99 | For every JSON value: accepted iff a list of at most 4,096 references between declared nodes, strictly increasing. Whatever is accepted is exactly the returned edges as they are sent, each end in its place, and every such list of edges is accepted and read back as itself; "bounds exceeded" exactly for an over-long list. |
| Edges.ReadEdgesIff | matryca_plumber/graph_gateway/wire.py:86-98 | A list denotes edges iff it is those edges as they are sent, each a reference from its source token to its target token. |
| Edges.IncreasingMeans | matryca_plumber/graph_gateway/wire.py:88-97 | For references, strictly increasing means: sources in order, and under one source the targets in order, none twice. |
| Edges.Installed | matryca_plumber/graph_gateway/tck.py:295-304 | Equality with the sorted de-duplicated list accepts exactly the strictly increasing lists with declared endpoints. |
| Edges.Contract | scripts/run_plumber_graph_topology_v1_tck.py:350-361 | No duplicate and equality with the sorted set accepts exactly the strictly increasing lists with declared endpoints. |
| Edges.SortedSetIffIncreasing | matryca_plumber/graph_gateway/tck.py:303-304 | A list equals its sorted set of elements iff it is strictly increasing in the lexicographic order of triples. |
| EncoderWalk.Walk | matryca_plumber/graph_gateway/wire.py:283-319 | On every object graph, cyclic or not, the explicit-stack loop ends, as the last of finitely many turns of the walk machine, with the outcome of the recursive walk. |
| EncoderWalk.EveryTurn | matryca_plumber/graph_gateway/wire.py:287-302 | In every state between turns: the stack has at most 65,536 entries, the count is at most 65,536, every entry is as deep as there are containers entered below it, and the active set is exactly those containers, each once. |
| EncoderWalk.AdvanceKeeps | matryca_plumber/graph_gateway/wire.py:288-319 | One turn keeps all that and makes progress, or finds the fault of the whole walk. |
| ObjectGraph.EndlessIffCycle | matryca_plumber/graph_gateway/wire.py:295-297 | A value has no finite unfolding iff it reaches a container that is its own descendant. |
| Encoder.CycleExact | matryca_plumber/graph_gateway/wire.py:295-297 | The cycle fault is raised only for values that reach a cycle, so never for shared acyclic ones, and no value that reaches a cycle is accepted. |
| Encoder.AcceptedWithin | matryca_plumber/graph_gateway/wire.py:292-319 | An accepted value is acyclic, holds only what JSON carries, unfolds to depth at most 64 and at most 65,536 items, within the character budget; the counts are those of the unfolding. |
| Encoder.WithinIsAccepted | matryca_plumber/graph_gateway/wire.py:292-319 | A clean value of depth at most 64, at most 65,472 items and within the character budget is accepted. |
| Encoder.RefusedFairly | matryca_plumber/graph_gateway/wire.py:292-319 | An acyclic value is refused only for a limit it breaks or content JSON cannot carry: never for a cycle, for depth only beyond 64, for items only beyond 65,472, for characters only beyond the budget. |
| Encoder.Encode | matryca_plumber/graph_gateway/wire.py:279-337 | For any encoder output: the result is exactly the walk's refusal, or the byte ceiling's, or the encoder's failure, in that order, or the bytes with one newline; a result never exceeds the limit, newline included. |
| Encoder.AnswersAreFair | matryca_plumber/graph_gateway/wire.py:279-337 | What each answer means: a value that reaches a cycle is never encoded, and gets "source rejected" where the cycle is what was met; "source rejected" otherwise means an odd key, a float that is not finite, a foreign object or a failed encoding; "bounds exceeded" of an acyclic value means too deep, too many items or characters, an integer of more than 64 bits, or too many bytes. |
| Encoder.CharactersImplyBytes | matryca_plumber/graph_gateway/wire.py:318-331 | With an encoder that emits at least a byte per character, what the character check refuses could not have met the byte ceiling. |
| SoakHistory.ValidateAttemptHistory | scripts/beta_evidence/soak.py:340-375 | Accepts exactly the bounded histories whose entries are numbered in order, safe, linked to their predecessor's digest and hashed correctly, with the cursor at the last. |
| SoakHistory.AppendKeepsChain | scripts/beta_evidence/soak.py:312-337 | Appending an attempt to a chained history gives a chained history. |
| SoakHistory.CursorDeterminesHistory | scripts/beta_evidence/soak.py:308-375 | With an injective hash that never yields the empty string, two chained histories with equal cursors are the same history. |
| SoakHistory.ShapeGrows | scripts/beta_evidence/soak.py:634-647 | An OFF attempt after a dangling ON-PASS, or an ON attempt otherwise, keeps a history in the shape legacy* (ON-PASS OFF-PASS, ON-PASS OFF-FAIL or ON-FAIL)* [ON-PASS]. |
| SoakHistory.OffFollowsOnPass | scripts/beta_evidence/soak.py:918-997 | In a history of that shape every OFF attempt comes right after an ON-PASS. |
| Soak.CheckpointSound | scripts/beta_evidence/soak.py:634-647 | A phase checkpoint keeps a state sound (valid chain, shape, next phase OFF iff an ON-PASS dangles, cycles equal trends, numbers ordered, every completed cycle covered), loses nothing, and adds exactly one attempt of that cycle, phase, outcome and category. |
| Soak.CycleSound | scripts/beta_evidence/soak.py:944-959 | Completing a cycle after its passed pair keeps a state sound, adds one trend, and gives no time back. |
| Soak.MigratedSound | scripts/beta_evidence/soak.py:378-417 | A migrated state is sound: one legacy pass per trend, chained, with the cursor validation accepts. |
| Soak.Collector.WriteState | scripts/beta_evidence/soak.py:420-421 | After an atomic replacement the file is the new state, or, if the process died, the old or the new one. |
| Soak.Collector.LoadState | scripts/beta_evidence/soak.py:269-305 | A loaded state is sound; a current file is read as it is; a legacy one as what it migrates to, its trends, time and inputs kept. |
| Soak.Collector.CheckpointPhase | scripts/beta_evidence/soak.py:634-647 | The attempt, the next phase and the file change together or not at all; a full history is refused and nothing written. |
| Soak.Collector.RunPair | scripts/beta_evidence/soak.py:922-942 | A pair counts only when both probes passed, each with the working copy looked at and intact before its checkpoint; nothing is written before the first such look. |
| Soak.Collector.RunCycle | scripts/beta_evidence/soak.py:919-960 | A finished cycle has added exactly a passed ON/OFF pair of its number and one trend of what its two probes reported, with the larger memory of the two; it counts what the clock gained since the last reading, and a setback as nothing; the working copy was intact after each probe; the file holds it. An error leaves a sound state that the file holds too, a crash one the file may be behind. |
| Soak.Collector.RunCycles | scripts/beta_evidence/soak.py:918-967 | The loop ends, with cycles or time enough, in a sound continuation that the file holds; the time it has added is what the clock gained up to the end of each of its cycles, and the working copy was looked at twice in each and intact. |
| Soak.Collector.HandleFailure | scripts/beta_evidence/soak.py:979-1003 | A recoverable error with the working copy intact becomes one failed attempt of the phase that was due, with its category, the next phase is ON, and no gate is touched; any other ends the soak as failed, in the state file and then in both evidence files; nothing recorded is lost and no pass is written. |
| Soak.Collector.Finish | scripts/beta_evidence/soak.py:737-758 | The verdict reaches the file before the gate, and the gate then says what the file says: the verdict, the inputs, the wheel; no other gate changes; a pass needs the target duration; a reported verdict is in both evidence files alike. |
| Soak.Collector.Conclude | scripts/beta_evidence/soak.py:966-978 | After the cycles: a pass takes an intact working copy at the very end and the target time; what is too short or changed never passes. |
| Soak.Collector.Run | scripts/beta_evidence/soak.py:918-1003 | The cycles only continue the state they started from; a reported verdict is in both evidence files, and a pass also in the state file, with the target duration reached and the working copy intact at every look, two in each cycle and one at the end. |
| Soak.Collector.Open | scripts/beta_evidence/soak.py:814-847 | A new soak starts from the empty sound state, with no time, no trend and no attempt counted, or leaves no file. |
| Soak.Collector.Resume | scripts/beta_evidence/soak.py:874-887 | After a resume the next phase is ON: a pair left open by an interruption is closed by exactly one failed OFF attempt, so no OFF-PASS ever completes it; otherwise nothing but the status changes. |
| Soak.Collector.Admit | scripts/beta_evidence/soak.py:780-811 | Admits iff the limits hold, the paths resolve, the files agree on a passed wheel bound to this candidate, and the soak gate is absent or recorded for these inputs; a refusal is an error category. |
| Soak.Collector.Enter | scripts/beta_evidence/soak.py:813-865 | A collection starts from what it found: nothing counted for a new soak, the migrated state of a legacy file, or the state read, with these same inputs and the working copy intact; anything else ends it without a pass and with no time or trend added. |
| Soak.Collector.Collect | scripts/beta_evidence/soak.py:761-1003 | One collection, cut off anywhere: the file stays sound, only moves on (a legacy one from what it migrates to), closes an interrupted pair first, keeps a terminal state as it is. The seconds it adds are what the clock gained up to the ends of its own cycles, each once; a new soak counts from nothing, so its pass takes a cycle. A reported verdict is in both evidence files, the soak gate changes only with the state file and no other gate does, and a pass has reached the target duration with the working copy intact at every look. |
| Soak.EveryRun | scripts/beta_evidence/soak.py:761-1003 | Any number of collections of every kind, each with limits and inputs of its own, with crashes anywhere: the state stays sound, history and trends only grow, elapsed time never decreases (of a legacy file, from what it migrates to) and is, beyond what was found, the sum of what one clock gained up to the end of each added trend's cycle; an interrupted pair is closed as failed before anything else, wheel and soak records never change. |
| GateStore.WriteCheckpointKeeps | scripts/beta_evidence/core.py:156-187 | Recording a permitted gate keeps the store invariant after the first write and after the second: well-formed records, write-once evidence never ahead of the checkpoint, a passed soak bound to the passed wheel. |
| GateStore.Store.RecordGate | scripts/beta_evidence/core.py:156-187 | A resumed gate changes nothing and succeeds iff both files hold the same record; a new one ends in both files, or, if cut off, in neither, in the checkpoint alone, or in both; write-once gates keep their records. |
| GateStore.Store.RequireBoundWheel | scripts/beta_evidence/core.py:218-243 | Succeeds, with the recorded binding, iff the files agree and hold a passed wheel whose binding is the digest of its wheel and the live provenance. |
| GateStore.Store.CollectWheel | scripts/beta_evidence/wheel.py:469-579 | Refuses a wheel gate recorded for another input and changes nothing; when done, one wheel record for this input stands in both files. A new one is Pass iff the checks ended and passed and the candidate's provenance is a digest, with the binding of this wheel and this provenance, and Fail otherwise; no other gate changes; equal files stay equal unless cut off. |
| GateStore.Store.CollectOther | scripts/beta_evidence/core.py:405-443 | When done, exactly this record stands in both files; a new input is never refused; no other gate changes; the invariant and the write-once records are kept; equal files stay equal unless cut off. |
| GateStore.Store.CollectReport | scripts/beta_evidence/core.py:613-634 | Unequal files are refused and stay; otherwise `ready` iff preflight, issues, wheel, soak and final code audit all pass, and then the soak necessarily has the wheel's provenance and both the binding computed from them; when done, a passed report saying so stands in both files. |
| GateInterleaving.StepKeeps | scripts/beta_evidence/core.py:156-187 | Every move of any collector keeps: what a collector holds was read from files as they once were, the evidence holds only what was checkpointed, and a recorded "ready" goes back to a report that said so. |
| GateInterleaving.SoloRecords | scripts/beta_evidence/core.py:156-187 | A new record, recorded while nobody else is about to write, ends in both files and changes nothing else. |
| GateInterleaving.EveryInterleaving | scripts/beta_evidence/core.py:613-634 | In every interleaving with crashes: every evidence record was in the checkpoint before; the gates of every report were the whole checkpoint at one moment and the whole evidence at one moment, not necessarily the same; a recorded "ready" goes back to a report that said so. |
| GateOverlap.CarefulRunsAgree | scripts/beta_evidence/core.py:156-187 | In every crash-free run in which a new record is begun only while every other writer writes that same record, the files are equal, or a collector is between its writes and the second makes them equal. |
| GateOverlap.StartIsSafeIff | scripts/beta_evidence/core.py:156-187 | From every state such runs reach, beginning a new record keeps that for every careful continuation iff every other writer writes this same record. |
| GateOverlap.FilesPart | scripts/beta_evidence/core.py:156-187 | A concrete crash-free run for any two different records that ends, nobody at work, with one in the checkpoint and the other in the evidence. |
| GateOverlap.RunInStep | scripts/beta_evidence/core.py:156-187 | In every run in which records are begun in turn, wherever collectors die: all writers write one record, and no writer's copy of either file is out of date but for its own gate. |
| GateReports.ReportsSettled | scripts/beta_evidence/core.py:613-634 | In every careful run, what a report judges was at one moment the whole content of both files. |
| GateReports.WhatReportsJudge | scripts/beta_evidence/core.py:613-629 | A report made beside any moves of the others may judge iff the evidence is what it read of the checkpoint and the records are well formed; it judges that, and both files have held it since the report began iff the trust condition of the next rows holds. |
| GateReports.InStepIsTrustworthy | scripts/beta_evidence/core.py:613-629 | From every state that collectors beginning in turn reach, whatever died before, and for every continuation in turn in which nobody dies half-way: the report it ends with judges what both files held together at some moment between its two reads. |
| GateReports.StartIsTrustworthyIff | scripts/beta_evidence/core.py:613-620 | From every state careful runs reach, beginning a new record keeps that for every later report of careful continuations iff every other writer writes this same record, or the files are equal and every writer of another one has only the evidence left to write. |
| GateMisreports.ReadyUnsettled | scripts/beta_evidence/core.py:613-634 | A concrete crash-free run from the empty store in which a report says ready on well-formed gates that the two files never shared. |
| GateMisreports.ReadyAfterDeaths | scripts/beta_evidence/core.py:613-634 | Such a run in which every record is begun in turn and every admission is in order, but two collectors die between their writes, one of them while the report is made. |
| GateAdmission.OrderlyRuns | scripts/beta_evidence/core.py:190-272 | In every run, crashes included, whose records are begun in turn and whose wheels and soaks are admitted only while every other pending one has the same input: no wheel or soak record is ever replaced in either file, the evidence holds none that the checkpoint does not, two passed ones satisfy the binding check in both, and a report is ready as soon as five gates pass. |
| GateAdmission.AdmissionIsSafeIff | scripts/beta_evidence/core.py:190-195 | From every state such runs reach, admitting a wheel or soak keeps the write-once records of both files in every orderly continuation iff every other one pending for that gate has the same input. |
| GateAdmission.BindingBreaks | scripts/beta_evidence/core.py:246-272 | From any state of well-formed equal files, nobody writing, with two wheels admitted with different inputs, a run without crash or overlapping writes replaces one by the other and leaves a passed soak beside a passed wheel it is not bound to. |
| GateAdmission.WheelReplaced | scripts/beta_evidence/wheel.py:469-579 | For any two different input digests, such a run from the empty store, ending with equal files. |
| ChildReader.Pipe.Read | matryca_plumber/graph_gateway/consumer.py:637 | A read delivers some nonempty next part of the stream of at most the size asked for, the end only at the end, or nothing. |
| ChildReader.Pipe.Serve | matryca_plumber/graph_gateway/consumer.py:636-657 | What is kept stays an exact prefix within the limit, at most one byte more is ever read, a pipe is given up only when complete; one read takes at most 65,536 bytes; overflow is reported iff the byte past the limit was delivered, a read error iff the read failed. |
| ChildReader.ServeReady | matryca_plumber/graph_gateway/consumer.py:631-659 | Serving any selection of ready pipes in any order keeps that for both. |
| ChildReader.Drain | matryca_plumber/graph_gateway/consumer.py:613-659 | For every chunking, readiness and interruption the loop ends; without a failure both streams are complete; an overflow or a read error is reported iff that pipe delivered one byte past its limit or broke, a time-out only at a clock reading past the deadline, an internal error only when the clock fails. |
| ChildReader.ReadAndSettle | matryca_plumber/graph_gateway/consumer.py:613-684 | Without a failure the child was waited for to its end and its group was gone, or seen with a denied look; every failure is the one met in the reading, the wait or the look, by name. |
| ChildReader.FinalizeAndAnswer | matryca_plumber/graph_gateway/consumer.py:687-746 | The answer is the two captured streams, given only if nothing failed before and the cleanup is verified; a failure has the reason met before, or "cleanup error" when only the cleanup failed. A child already gone, handles that close and a clock in time force the answer, unless capturing the diagnosis failed. |
| ChildReader.RunChild | matryca_plumber/graph_gateway/consumer.py:546-746 | An answer holds both complete streams within their limits, no cleanup event, a reaped child with an absent group, closed pipes and selector. A failure carries a diagnosis its reader passes on unchanged; it names overflow iff the byte past that limit was delivered, and a read error iff a read failed. With both streams read, the child waited for, the group gone at both looks, handles that close and a clock in time, there is an answer, unless capturing the diagnosis failed. |
| ChildCleanup.Finalizer.CleanupGroup | matryca_plumber/graph_gateway/consumer.py:203-350 | If the first look sees a reaped child and an absent group, that is success, with those two observations and no signal. Otherwise TERM comes next, and then at most one KILL, only when TERM failed or half the time left after it is gone; success ends in a reaped child and an absent group; a failure has sent both and used up the time. |
| ChildCleanup.Finalizer.WatchGroup | matryca_plumber/graph_gateway/consumer.py:259-350 | With any clock that passes the deadline for good, even one whose readings fail or jump, the watch ends; it sends at most one KILL, only when due, and never gives up without it or before the time is up. |
| ChildCleanup.Finalizer.WatchTurn | matryca_plumber/graph_gateway/consumer.py:259-325 | One turn stops at once when it sees child and group gone; otherwise KILL is sent in the first turn in which it is due and never twice, and the watch goes on iff a reading leaves time. |
| ChildCleanup.Finalizer.KillReapFallback | matryca_plumber/graph_gateway/consumer.py:353-430 | The fallback always begins with KILL, sends it once, succeeds only on a reaped child with an absent group, and gives up only when the time is up. |
| ChildCleanup.Finalizer.StopGroup | matryca_plumber/graph_gateway/consumer.py:453-475 | A group gone at the first look is left alone; without success SIGKILL has been attempted and the time is up, unless the fallback itself was cut off and said so. |
| ChildCleanup.Finalizer.ClosePipes | matryca_plumber/graph_gateway/consumer.py:485-512 | Success means every pipe is known to be closed; no event is lost. |
| ChildCleanup.Finalizer.Finalize | matryca_plumber/graph_gateway/consumer.py:433-543 | Success implies: the last observation was a reaped child with an absent group, selector and pipes closed, the deadline not passed, no event. A child gone at the first look gets no signal, and with handles that close, a clock in time and nothing interrupted that is success. A failure reports every denied signal among its events. The snapshot carries the answer and what was last seen unless capturing it failed, and whatever happens it stays consistent. |
| CleanupSnapshot.ConsistentIsPassedOn | matryca_plumber/graph_gateway/tck.py:64-129 | The document of any consistent snapshot, complete, partial, failed or interrupted, is returned by its validator unchanged, and unless capturing failed or nothing was begun it says exactly what was captured. |
| CleanupSnapshot.StatableIsPassedOn | matryca_plumber/graph_gateway/tck.py:97-123 | Whatever may be said (a complete document leaves nothing out, open gates are backed by what was seen) is passed on as it is. |
| CleanupSnapshot.OnlyStatableIsPassedOn | matryca_plumber/graph_gateway/tck.py:64-129 | Any document that is passed on is the empty diagnosis or states what may be said, value by value; every other one is replaced by the empty diagnosis. |
| ResourceTree.Walk.Visit | matryca_plumber/graph_gateway/resources.py:105-144 | From any state: the visit succeeds iff the subtree has no defect and the running bounds hold with all of it, and then adds exactly its files, paths and size. |
| ResourceTree.SortedListing | matryca_plumber/graph_gateway/resources.py:110-115 | The order in which a directory is listed changes nothing that is collected or refused. |
| ResourceTree.ReadTree | matryca_plumber/graph_gateway/resources.py:100-149 | Reads exactly the trees within depth 5, 272 paths, 256 files, 1 MiB a file and 8 MiB in all, without links or odd names; returns their files with their contents and all their paths. |
| ResourceTree.ExpectedPaths | matryca_plumber/graph_gateway/resources.py:213-221 | Name by name and parent by parent, computes the declared names, all their parents and the two documents. |
| ResourceTree.ParentsAreDirectories | matryca_plumber/graph_gateway/resources.py:105-128 | Every proper beginning of a collected path is a collected directory. |
| ResourceTree.PathsDecide | matryca_plumber/graph_gateway/resources.py:213-223 | When the paths are the expected ones, the files are the declared ones and the two documents iff no directory has the name of one of those. |
| ResourceTree.InventoryExact | matryca_plumber/graph_gateway/resources.py:206-223 | For every tree of files and directories: it has exactly the parent closure's paths and no directory named like a declared file or document, iff its files are exactly those and every directory contains, at some depth, a declared file. |
| ResourceTree.AdmitTree | matryca_plumber/graph_gateway/resources.py:312-335 | The namespace is admitted iff the tree is readable, its files are exactly the declared ones and the two documents, and no directory is idle; the assets are the declared files. |
| ResourceTree.PathsAloneMislead | matryca_plumber/graph_gateway/resources.py:222-223 | A concrete tree with an empty directory in place of a declared file has the expected paths but not the declared files. |
| RandIndex.Counter | scripts/bench_semantic_clustering_quality.py:84-87 | The counting loop computes how often each key occurs. |
| RandIndex.CounterPairs | scripts/bench_semantic_clustering_quality.py:89-95 | Summing n(n-1)/2 over the counts counts the pairs of equal keys. |
| RandIndex.PairsMapped | scripts/bench_semantic_clustering_quality.py:89-95 | Forgetting one of the two classifications only merges pairs, and merges none iff it determines the other. |
| RandIndex.SumOfPairs | scripts/bench_semantic_clustering_quality.py:89-95 | The summing loop computes that sum in whatever order the counts come. |
| RandIndex.IndexTheorem | scripts/bench_semantic_clustering_quality.py:76-104 | For any clustering the exact index is at most 1, and 1 iff the two partitions coincide. |
| RandIndex.ClosedForm | scripts/bench_semantic_clustering_quality.py:99-104 | With J, L, C equal pairs in the joint classification, the labels and the clusters, of n pairs in all: index * (n*(L+C) - 2*L*C) = 2*(n*J - L*C), or 1 where that factor is 0. |
| RandIndex.ZeroDenominatorIsTrivial | scripts/bench_semantic_clustering_quality.py:99-104 | A zero denominator means two identical trivial partitions and the answer 1: the branch answering 0 is never taken. |
| RandIndex.AdjustedRandIndex | scripts/bench_semantic_clustering_quality.py:76-104 | Refuses exactly clusterings of other titles; otherwise returns the index, at most 1, and 1 iff titles share a cluster exactly when they share a label. |
| RandChance.ArrangedIffAlike | scripts/bench_semantic_clustering_quality.py:99-104 | The arrangements of a cluster column are exactly the columns with the same clusters, each as often. |
| RandChance.ChanceLaw | scripts/bench_semantic_clustering_quality.py:99 | Over all arrangements of the clusters against the labels, the joint pairs average the label pairs times the cluster pairs over all pairs: the expectation that the index subtracts. |
| RandChance.IndexAveragesZero | scripts/bench_semantic_clustering_quality.py:99-104 | Hence the index averages 0 over all arrangements of the clusters, whenever its denominator is not 0. |
| ReleaseRoute.ParseSpelled | scripts/release_qualification/release_target.py:10-12 | In any grammar whose marks are clear of the digits and of each other, parsing reads back exactly the release that was spelled. |
| ReleaseRoute.Parse | scripts/release_qualification/release_target.py:10-12 | Whatever parses is spelled again as it was, with every number in the grammar's form. |
| ReleaseRoute.SpelledIsFound | scripts/release_qualification/release_target.py:24-48 | Every valid release is found under its tag and under its version, as one route. |
| ReleaseRoute.TagVersionInverse | scripts/release_qualification/release_target.py:24-48 | On all tags and all normalised versions, numbers unbounded, the two entries are inverse to each other. |
| ReleaseRoute.TagsByName | scripts/release_qualification/release_target.py:24-35 | For all plain numbers, v1.2.3-alpha.n leads to 1.2.3an, -beta.n to bn, -rc.n to rcn, each a prerelease, and v1.2.3 to 1.2.3, which is none; spelled out for any three numbers. |
| ReleaseRoute.OnlyTheseTags | scripts/release_qualification/release_target.py:10-28 | Every tag that is found is one of those four kinds. |
| ReleaseRoute.ValueOfDecimal | scripts/release_qualification/release_target.py:30-34 | The number read from the decimal notation of a natural number is that number. |
| ReleaseRoute.DecimalOfValue | scripts/release_qualification/release_target.py:10 | Every plain number is the decimal notation of its value: no leading zeros. |
| ReleaseRoute.HardenedIsPrecedence | scripts/release_qualification/release_target.py:32-34 | Hardened iff the release does not precede v2.1.0-alpha.3 in the order of section 11 of Semantic Versioning 2.0.0. |
| ReleaseRoute.ReplacingGivesVersion | scripts/build_release_artifacts.py:112-114 | The three textual replacements turn every display version into the package version. |
| ReleaseRoute.NormalisersAgree | scripts/beta_evidence/core.py:275-284 | On every display version the collector reads, the build script agrees with it; on every one the closed grammar reads, all three agree; the collector reads more only where a number has leading zeros or other digits. |
| ReleaseRoute.NormalisersByName | scripts/beta_evidence/core.py:275-284 | For all numbers the two other normalisers make 1.2.3a4 of 1.2.3-alpha.4, 1.2.3b4 of -beta.4, 1.2.3rc4 of -rc.4, and leave 1.2.3 as it is; spelled out for any four numbers. |

## Left out

- GateInterleaving.EveryInterleaving: claims neither equal files nor write-once records for collectors that overlap freely, because both are false there; StartIsSafeIff and AdmissionIsSafeIff give the exact conditions.
- GateStore.Store.RecordGate: the store rolls nothing forward after a crash between its two writes; the source fails closed there, so only safety is claimed.
- Encoder.CharactersImplyBytes: assumes one byte at least per counted character of the JSON encoder's output, which is not modelled itself.
- EncoderWalk.Walk: heights and characters of scalars are numbers; string contents, integer values and the interpreter's recursion limit are not modelled.
- InstalledTopology.Nodes: takes nodes already admitted by the schema, so a kind is page or block; comparing the counts with the fixture manifest is left out.
- ContractTopology.ValidateNodes: takes nodes already parsed by the schema model.
- ChildReader.RunChild: the invocation checks and the start of the process are left out; the wait for the child answers ended, timed out, interrupted or failed in one step, and a result that cannot be built is not an error.
- ChildReader.Pipe.Read: stands for one nonblocking read of the operating system; what the child will ever write is fixed beforehand, how it arrives is not.
- ChildCleanup.Finalizer.Finalize: the clock may stand still, jump or fail, but must pass every instant for good.
- Soak.Collector.Admit: whether vault, candidate, output and working root resolve, and with what error, is given.
- Soak.Collector.Collect: the probes, the working copy and the candidate are nondeterministic answers; heartbeats, summaries, event log, result file and the per-field checks of the state document are left out, and so is an interrupt between reading an error and recording it.
- RandIndex.AdjustedRandIndex: exact rational arithmetic; rounding and floating point are left out, predicted totals are counted over the labelled titles.
- ReleaseRoute.TagVersionInverse: Python's limit on the length of decimal conversions is not modelled.
- ResourceTree.ReadTree: a listing is a value; read errors, races and the text of paths (a path is the sequence of its parts) are left out.
- ResourceTree.AdmitTree: digests, pins, descriptor and schema checks of the resources are left out; they compare fixed fields.
- Descriptor and profile admission, response and snapshot documents of the gateway: straight-line field checks.
- Issue, disposition and audit parsers, the summary text, the quality metrics other than the Rand index: would only add easy members.
- Release guard chains, smoke scripts, archive comparison, documentation and changelog tooling, benchmarks, frontend and configuration.
- Code the repository imports from elsewhere (graph parsing and shadow storage) is not part of this model.
