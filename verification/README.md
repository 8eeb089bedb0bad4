# SwarmFi in Dafny

A model of the parts of SwarmFi whose correctness is hard to see from the code, with proofs about all inputs,
all runs and all interleavings:

- **the storage stack** (`core/storage`): length-prefixed framing, the content-addressed in-memory store and the
  write-back buffer, the key-value store whose manifest is itself stored on every write, the append-only log whose
  index lives in that store, and the per-agent memory with its aggregate record. It is modelled twice: as classes
  whose methods are proved equal to specification functions (`Framing.dfy`, `Models.dfy`, `Client.dfy`, `Kv.dfy`,
  `Memory.dfy`), and as a step machine with one step per `await`, in which uploads land, return and fail in any
  order (`Interleaving.dfy`, with `SharedRecords.dfy`, `ExactIndex.dfy` and `ExactAggregate.dfy` for the log index and the
  aggregate). The two are tied together in `Alone.dfy`: in every run, a call that meets no other does, whether it
  completes or has to raise, exactly what the sequential function says (`SetIsSequential`, `DeleteIsSequential`,
  `AppendIsSequential`, `StatusIsSequential`);
- **one trade's execution** (`core/keeperhub`, `KeeperHub.dfy`): retry policy, polling, log fallback, audit and
  result, for arbitrary external replies and exceptions;
- **the risk gate** (`core/compute/risk_scorer.py`, `core/schema.py`, `agents`, `Agents.dfy`): from a model's opinion
  over a lossy, duplicating, reordering network to the transfers made and the results reported;
- **the price cache and the pair ranking** (`core/scanner.py`, `Scanner.dfy`);
- **profit and loss** (`core/pnl.py`, `Pnl.dfy`).

Everything outside is a parameter: hash and serialisers are fields of `Models.Env`, clock readings, fresh ids and
external replies are arguments. Hashing is assumed collision-free only on the byte strings a run actually hashes
(`Env.blobs`), digests are lower-case hex, and the serialisers are assumed to round-trip. None of this is an axiom:
each lemma that needs it says so in its `requires` (`Ideal`, `Trusted`, `RunTrusted` and the like), and `Assumptions.dfy`
constructs an environment in which all of it holds at once, on every byte string (`Assumptions.Met`). Numbers the code
calculates with are reals; floats that are only stored are kept by their bit pattern.

`dafny verify dfyconfig.toml` checks the project.

## Where the code and its documentation differ

The model follows the code. Each of these is stated by a lemma.

- The padding contract (core/storage/client.py:306-311) says that downloads strip trailing NULs. They do not; the
  length prefix decides, and payloads ending in NULs survive (`FrameRoundTrip`).
- A snapshot is uploaded without a frame but downloaded through `_unframe`; it survives exactly below
  2065851493 bytes (`SnapshotSurvivesIff`).
- `by_agent` promises recent entries and returns the oldest k in a window of 3k; `ByAgentIsNewestIff` says exactly
  when these are the newest, `ByAgentCanMissNewest` that they need not be. `recent(0)` returns the whole log (`RecentIs`).
- The log is called append-only, but a completed append can vanish from it when two look the index up before either has
  written it (`AppendCanBeLost`). When lookups and writes do not overlap, the index lists exactly the appends whose index
  write took effect, in order, every completed one among them (`IndexIsExact`).
- `update_status` says that other agents see the change. They do when they share one KV, as `make_shared_memory_set`
  arranges, and the call gets as far as storing the aggregate (`AggregateAgreesWithRecords`), which one that raises
  half-way does not (`HalfReport`). agents/base.py:68 gives each agent a KV of its own, and then they never do
  (`SeparateMemoriesDoNotShare`).
- The aggregate's version can exceed the number of completed updates (`VersionCanExceedCompleted`). On runs in which no
  update reads the aggregate while another's write of it is still to come, it equals the number of updates whose
  aggregate write took effect, and so stays within the completed ones if and only if each of those has completed
  (`AggregateIsExact`). On all runs that condition is still sufficient (`VersionWithinUpdates`) but not necessary, because
  an increment can be lost (`IncrementCanBeLost`).
- A completed `set` can be missing from the published manifest when two persists overlap
  (`CompletedSetCanGoUnpublished`). The published root always stands for the manifest of the moment at which the persist
  that returned last had begun, so it is up to date if and only if the manifest is that one again or still
  (`PublishedIsLastReturned`); it is whenever persists neither overlap nor fail (`SerialPersistsStayInSync`).
- The executor is said to report its result to the researcher. `UnansweredIff` says exactly for which replies of the
  outside world it does not: among others, when all polls stay pending (`SilentExecution`) and when a hash shows while
  the transfer is still pending (`PendingHashIsSilent`).
- The 30 s limit of the price cache holds for a source of prices if and only if all its useful responses cover the
  requested ids (`LimitHoldsIff`); two refreshes closer than that always mean a missing id (`RefreshesSpaced`).

## Model

| member | source | states |
|---|---|---|
| Framing.BigEndianRoundTrip | core/storage/client.py:67-83 | the length prefix reads back as the length, for every width that can hold it |
| Framing.FrameRoundTrip | core/storage/client.py:67-83 | a payload can be framed exactly if it is shorter than 2^32 bytes; then unframing returns it (empty, NUL-terminated or short alike) and the frame has max(256, n + 4) bytes |
| Framing.FrameLayout | core/storage/client.py:67-72 | byte by byte: the length, most significant byte first, then the payload, then NULs only |
| Framing.FrameInjective | core/storage/client.py:67-72 | different payloads have different frames |
| Framing.UnframeIsIdentityIff | core/storage/client.py:74-83 | data comes back untouched exactly if it has fewer than 4 bytes or its prefix claims more than follows |
| Framing.SnapshotSurvivesIff | core/storage/client.py:167-174 | the unframed snapshot text survives a client download exactly below 2065851493 bytes |
| Hex.RoundTrip | core/storage/client.py:171 | lower-case Base16 (section 8 of RFC 4648) decodes to the bytes encoded |
| Hex.EncodeIs | core/storage/client.py:171 | two lower-case digits a byte, the high one first |
| Hex.NeverPrefixed | core/storage/client.py:107-109 | no hex digest starts with "0x", so stripping that prefix never damages one |
| Models.AgentKeysSeparate | core/storage/models.py:162-168 | the format of `agent_state`; it is injective in the role and never one of the two shared keys |
| Assumptions.Met | core/storage/models.py:64-156 | there is an environment in which hashing is collision-free on all byte strings, digests are hex and every serialiser decodes what it encoded, so no result that assumes this is empty |
| Client.InMemoryStore.Upload | core/storage/client.py:101-105 | the blob is stored under its hash, nothing else changes |
| Client.InMemoryStore.Download | core/storage/client.py:107-113 | the falsy-`or` lookup with and without prefix, KeyError included |
| Client.BufferedStore.Upload | core/storage/client.py:144-148 | the blob is buffered under its hash, the snapshot fields stay |
| Client.BufferedStore.Download | core/storage/client.py:150-157 | buffered blobs first, the live node only for a root that is not buffered |
| Client.BufferedStore.Flush | core/storage/client.py:159-184 | answers and records the root and transaction of the live reply exactly if there is something buffered and the live node accepts; raises exactly if it refuses; else nothing changes |
| Client.ZeroGClient.Upload | core/storage/client.py:392-393 | every upload goes through the frame; an unframable payload changes nothing |
| Client.ZeroGClient.Fetch | core/storage/client.py:395-397 | every download is unframed, whichever backend answers |
| Client.ZeroGClient.Flush | core/storage/client.py:355-362 | only a buffered client commits anything; no client loses a blob by it |
| Client.SnapshotRoundTrip | core/storage/client.py:167-172 | a snapshot has exactly its four fields; it decodes to the buffered blobs, and its entry_count is their number |
| Client.PutExtends | core/storage/client.py:101-105 | storing a frame forgets nothing stored before and makes the payload readable |
| Client.LookupStored | core/storage/client.py:107-157 | both lookups find a stored root by either spelling, whatever the live node would say |
| Client.BufferRefinesMemory | core/storage/client.py:97-184 | in every trace of uploads, downloads and flushes each call answers the same from the buffer as from the plain store, except that unknown roots go to the live node |
| Client.StoredReadsBack | core/storage/client.py:97-184 | whatever a trace stored at step i reads back ever after, from both backends, with or without "0x" |
| Client.SnapshotsNested | core/storage/client.py:159-184 | each snapshot of a trace decodes to what was buffered then, and each is contained in the next and in the buffer |
| Client.FlushAnswers | core/storage/client.py:159-184 | over every trace: a flush answers with a root exactly if something was stored before and the live node accepted with that root, raises exactly if it was refused, and submits one snapshot of all that is buffered exactly if something was stored |
| Client.SnapshotIsLastAccepted | core/storage/client.py:175-192 | at every moment of every trace the recorded root and transaction are those of the last flush the live node accepted, and None before the first |
| Client.RawLookupsAgreeIff | core/storage/client.py:107-157 | below the framing layer the two lookups differ exactly on an empty blob the second probe misses |
| Client.RawLookupsDisagree | core/storage/client.py:109 | an input on which they do differ |
| Kv.ManifestJsonRoundTrip | core/storage/kv.py:69-87 | a manifest survives its JSON wrapper whatever its keys are called, "_keys" and "_ts" included |
| Kv.SwarmKV.LoadManifest | core/storage/kv.py:62-78 | the new manifest and root for every download and decoding outcome |
| Kv.SwarmKV.PersistManifest | core/storage/kv.py:80-95 | the manifest is uploaded and the root replaced only if that succeeds |
| Kv.SwarmKV.SetValue | core/storage/kv.py:108-123 | new store, manifest, root and outcome, failures included |
| Kv.SwarmKV.GetValue | core/storage/kv.py:125-143 | absent, found or raised |
| Kv.SwarmKV.DeleteKey | core/storage/kv.py:150-161 | new store, manifest, root and outcome; an absent key changes nothing |
| Kv.GetIsView | core/storage/kv.py:125-143 | `get` answers exactly from the abstract map of a closed KV, from every backend |
| Kv.PersistCorrect | core/storage/kv.py:80-95 | a persist changes no answer, and its root then stands for exactly the present map |
| Kv.SetCorrect | core/storage/kv.py:108-123 | a set changes exactly one entry of the abstract map and publishes a root that stands for the new map; a set that raises publishes nothing |
| Kv.DeleteCorrect | core/storage/kv.py:150-161 | a delete removes exactly one entry and publishes the rest; the data stay stored |
| Kv.LoadSnapshot | core/storage/kv.py:62-78 | loading a published root yields exactly the manifest and the map it stands for |
| Kv.FailedLoad | core/storage/kv.py:62-78 | a root that cannot be read or decoded empties the manifest and leaves the root as it was; no root changes nothing |
| Kv.BareManifestLoadsIff | core/storage/kv.py:69 | a manifest stored without its wrapper loads as it is exactly if no key is called "_keys" |
| Kv.PublishedLoadsClosed | core/storage/kv.py:62-78 | loading a root that stands, or one that cannot be read, leaves no dangling reference |
| Kv.RunKeepsOk | core/storage/kv.py:62-161 | any number of KVs on one client, whatever they load: over every run nothing stored is lost, and every root ever published still stores the manifest it was published for |
| Kv.RunKeepsClosed | core/storage/kv.py:62-161 | a KV that loads only what is on this client never holds a dangling reference, whatever the other KVs do or load |
| Kv.SnapshotOutlives | core/storage/kv.py:62-143 | a root that stands loads as the map it stands for, key by key, after any further operations of any KVs |
| Kv.TimeTravel | core/storage/kv.py:62-161 | from the empty client on: the root that a set or a delete publishes through a KV without dangling references loads, after any later sets, deletes, loads and uploads of any KV, as exactly the map that operation made, keys and values |
| Kv.OtherKvsDoNotInterfere | core/storage/kv.py:52-168 | no operation through other KVs of a client, whatever they load, changes any answer of a KV without dangling references |
| Log.SwarmLog.ReadIndex | core/storage/log.py:157-166 | the stored index, an empty one if absent or undecodable, an error if the download raises |
| Log.SwarmLog.AppendEntry | core/storage/log.py:65-99 | new store and KV for every outcome; the returned entry carries the root of the stored one |
| Log.SwarmLog.ReadRecent | core/storage/log.py:103-123 | the entries behind the last roots, unreadable ones skipped, for every integer limit |
| Log.SwarmLog.ReadEntries | core/storage/log.py:111-123 | the fetching loop keeps exactly the readable entries in order |
| Log.AppendCorrect | core/storage/log.py:65-99 | an append adds its entry at the end of the log and touches no other key exactly if it gets as far as storing the index, else it changes nothing; one that returns has got that far |
| Log.RecentIs | core/storage/log.py:103-123 | `recent(k)` is the last min(k, n) appended entries for k >= 1, the whole log for 0, and drops from the front for negative k |
| Log.ByAgentIs | core/storage/log.py:141-144 | `by_agent(role, k)` is the first k of the role's entries among the last 3k, and what the Python slices give for k <= 0 |
| Log.OfAgentIs | core/storage/log.py:144 | the filter keeps exactly the entries of the role, in order, each once |
| Log.ReadableIs | core/storage/log.py:111-123 | exactly the entries that can be fetched and decoded are kept, in order, each once |
| Log.MissingIndex | core/storage/log.py:157-166 | an index that is absent or does not decode counts as empty |
| Log.ByAgentIsNewestIff | core/storage/log.py:141-144 | that is the role's newest k exactly if the window holds k of them, or fewer and there is no older one |
| Log.ByAgentCanMissNewest | core/storage/log.py:141-144 | an input on which by_agent returns the older of two entries |
| Memory.AgentMemory.ReadSwarmState | core/storage/agent_memory.py:99-111 | the stored aggregate, an empty one if absent or undecodable |
| Memory.AgentMemory.WriteStatus | core/storage/agent_memory.py:58-97 | new store and KV of the two-key update for every outcome, each failing half included |
| Memory.MakeSharedMemorySet | core/storage/agent_memory.py:186-208 | one fresh KV behind all roles, exactly one memory per role |
| Memory.RunAgrees | core/storage/agent_memory.py:58-145 | after every sequential run of reports, log events, other sets and foreign uploads on one KV, calls that raise included: the log is the list of entries whose index was stored, each role's record is the last one stored, the aggregate has for each role the last state stored there, and its version counts the aggregate writes |
| Memory.AggregateAgreesWithRecords | core/storage/agent_memory.py:99-122 | after every such run the two readers agree on a role exactly if the last record and the last aggregate entry stored for it are the same, and the version is the number of completed reports exactly if no report raised after storing its aggregate |
| Memory.CompletedRunIsExpected | core/storage/agent_memory.py:58-145 | when every call returns, log, records, aggregate and version are what the calls alone say, records and aggregate the same |
| Memory.HalfReport | core/storage/agent_memory.py:82-91 | a report that raises between its two writes leaves a record the aggregate does not have |
| Memory.CutShortReport | core/storage/agent_memory.py:88-91 | a report that raises in its last persist counts in the version without having completed |
| Memory.HistoryIsTheRun | core/storage/log.py:103-144 | `recent` and `by_agent` after every such run, in terms of the run's own log |
| Memory.AuditIsolated | core/keeperhub/executor.py:560-575 | an audit through a fresh KV changes no answer of the shared one, sits alone in its own index, and is in the next snapshot |
| Memory.SeparateMemoriesDoNotShare | core/storage/agent_memory.py:176-183 | a report through one agent's own KV never shows in the aggregate another KV reads |
| Memory.MissingSwarm | core/storage/agent_memory.py:99-111 | an aggregate that is absent or does not decode counts as new |
| Interleaving.RunKeepsKvInv | core/storage/kv.py:80-161 | in every state of every interleaving every manifest so far is complete, and every published root decodes to one of them |
| Interleaving.RunGrows | core/storage/kv.py:80-161 | nothing stored or published is ever lost along a run |
| Interleaving.PublishedRootStaysComplete | core/storage/kv.py:80-161 | at every moment the manifest root decodes to a manifest that was the in-memory one earlier, and at every later moment it still does, each value stored and equal to bytes set under that key |
| SharedRecords.StoredIndexIsSound | core/storage/log.py:65-99 | every index ever stored counts its entries correctly, repeats none, and lists only roots under which the very entry of a real append is stored (its id, event type, role, timestamp and data), under every interleaving and failure |
| SharedRecords.IndexWriteExtendsRead | core/storage/log.py:83-90 | each index write extends, by exactly its own new root, the index that the manifest had at a moment when that append, its entry already uploaded, looked it up |
| ExactIndex.CompletedHaveWritten | core/storage/log.py:83-90 | in every reachable state every completed append has written the index |
| ExactIndex.IndexIsExact | core/storage/log.py:83-90 | when lookups and writes of the index do not overlap, the present index lists exactly the entries whose index write took effect, in the order of those writes, so every completed append |
| ExactIndex.AppendCanBeLost | core/storage/log.py:83-90 | a run in which two appends complete and the present index lists only one |
| SharedRecords.VersionWithinUpdates | core/storage/agent_memory.py:82-91 | on every run each state in a stored aggregate was reported for that role by an update whose aggregate write took effect, and its version exceeds neither the number of those writes nor, if all of them completed, the completed updates |
| ExactAggregate.CompletedHaveWritten | core/storage/agent_memory.py:82-91 | in every reachable state every completed update has written the aggregate |
| ExactAggregate.AggregateIsExact | core/storage/agent_memory.py:88-91 | when reads and writes of the aggregate do not overlap, the present aggregate has for each role the state of the last effective write, its version is their number, and that is within the completed updates if and only if every writer has completed |
| ExactAggregate.IncrementCanBeLost | core/storage/agent_memory.py:88-91 | a run in which two updates read the same aggregate: the version is within the completed updates although one writer failed |
| SharedRecords.VersionCanExceedCompleted | core/storage/agent_memory.py:88-91 | a run in which the stored version is 1 and no update has completed |
| Alone.SetIsSequential | core/storage/kv.py:108-123 | in every run and from every reachable state, a set that no other call disturbs has, when it completes, had exactly the effect of the sequential `set`, and where it must raise it does so in exactly the state in which the sequential one raises |
| Alone.DeleteIsSequential | core/storage/kv.py:150-161 | the same of `delete` |
| Alone.AppendIsSequential | core/storage/log.py:65-99 | the same of `append`, with the entry its job describes |
| Alone.StatusIsSequential | core/storage/agent_memory.py:58-97 | the same of `update_status` |
| Alone.SetAlone | core/storage/kv.py:108-123 | a set whose payloads can be stored can complete undisturbed, from every reachable state |
| Alone.DeleteAlone | core/storage/kv.py:150-161 | so can a delete |
| Alone.AppendAlone | core/storage/log.py:65-99 | so can an append |
| Alone.StatusAlone | core/storage/agent_memory.py:58-97 | so can a status update |
| Interleaving.CompletedSetCanGoUnpublished | core/storage/kv.py:88-89 | a run that ends with two completed sets and a published manifest that has only the first |
| Interleaving.PublishedIsLastReturned | core/storage/kv.py:80-95 | at every moment of every run the published root decodes to the in-memory manifest of the moment at which the persist that returned last had begun; it is the present manifest if and only if the two are equal |
| Interleaving.SerialPersistsStayInSync | core/storage/kv.py:80-95 | if persists neither overlap nor fail, the published manifest is the in-memory one whenever none is under way |
| KeeperHub.MockBackend.ExecuteTransfer | core/keeperhub/client.py:51-68 | one recorded call, one stored status of the requested kind, `fail_next` consumed |
| KeeperHub.MockBackend.GetExecutionStatus | core/keeperhub/client.py:78-81 | the stored status or the KeyError |
| KeeperHub.ShippedNeverCompleted | core/keeperhub/client.py:183-206 | no status reply of either backend carries COMPLETED, whatever raw string the service sends |
| KeeperHub.LiveStatusIff | core/keeperhub/client.py:183-206 | a live execution counts as over exactly if the service says "completed" or "error", as succeeded exactly in the first case; any other string is pending or running; hash, error and link are the service's own |
| KeeperHub.TerminalIff | core/keeperhub/models.py:153-165 | terminal is everything but PENDING and RUNNING, succeeded is SUCCESS and COMPLETED |
| KeeperHub.ExecuteTransfer | core/keeperhub/client.py:131-157 | at most three POSTs; only unreached attempts are retried; the last attempt decides |
| KeeperHub.WaitForCompletion | core/keeperhub/client.py:298-315 | terminates within ceil(timeout/interval) + 1 reads, returns the first terminal one, and a non-terminal one only if all were |
| KeeperHub.PollStatus | core/keeperhub/executor.py:402-427 | the last answer up to the first poll with a hash or a terminal status, at most 60 |
| KeeperHub.KeeperHubSwapExecutor.SubmitTreasuryCommitment | core/keeperhub/executor.py:310-452 | its outcome and its POSTs as a function of the reply streams |
| KeeperHub.KeeperHubSwapExecutor.ExecuteSwap | core/keeperhub/executor.py:149-286 | total; result, POSTs and audits as a function of the replies; a result from the exception handler means that nothing was submitted and nothing audited |
| KeeperHub.FirstHashWins | core/keeperhub/executor.py:403-421 | the first poll with a hash no later than the first terminal poll is handed on whole: status, hash, block, gas, error and link |
| KeeperHub.WithoutPolledHash | core/keeperhub/executor.py:429-452 | else the first hash a log item shows, as SUCCESS; else status and error of the last answered poll; else RUNNING because every poll raised; polling ended at the first terminal poll or the 60th |
| KeeperHub.HashInIff | core/keeperhub/executor.py:433-436 | a log item yields h exactly if h starts with "0x" and is its `transactionHash`, or its `txHash` where the former is missing or empty |
| KeeperHub.FirstLogHashIff | core/keeperhub/executor.py:430-442 | the log fallback yields exactly the hash of the first item that shows one |
| KeeperHub.FailedQuote | core/keeperhub/executor.py:251-286 | a quote that raises makes no POST; its message is the error, and the swap counts as SUBMITTED exactly if one of four texts occurs in it |
| KeeperHub.FailedTransfer | core/keeperhub/executor.py:354-397 | without a recipient nothing is sent; without an accepted attempt the error of the last one is the error of the swap |
| KeeperHub.SubmittedTransfer | core/keeperhub/executor.py:231-249 | CONFIRMED exactly on SUCCESS or COMPLETED, SUBMITTED exactly on RUNNING; hash and quoted amount are handed on, the error only without success |
| KeeperHub.HashWasReported | core/keeperhub/executor.py:391-452 | a returned hash was reported for this execution id, by one of its first 60 polls or in the fields of one of its log items, after a POST of this call |
| KeeperHub.AuditAgreesIff | core/keeperhub/models.py:229-238 | audit and result agree on success exactly if the status is not COMPLETED |
| KeeperHub.AuditAgreesWithResult | core/keeperhub/executor.py:228-240 | with either shipped backend an audited run is TRADE_EXECUTED exactly if its result is CONFIRMED |
| KeeperHub.MockSwap | core/keeperhub/client.py:51-84 | against the mock backend a quoted swap makes one POST and one poll and is CONFIRMED with the mock hash, or FAILED with the mock error when a failure was asked for |
| Agents.Score | core/compute/risk_scorer.py:138-209 | the decision for every signal and reply, valid if there is one, and HOLD from risk 7 on |
| Agents.GateHolds | core/compute/risk_scorer.py:153-195 | a buy or sell leaves the gate only if the model asked for just that, with 0 <= risk < 7 and a positive amount; a failed inference always holds |
| Agents.DecisionCarries | core/compute/risk_scorer.py:167-189 | a decision carries the signal's own tokens, chain and amount and the opinion's own risk and confidence, with the code's defaults where they are missing |
| Agents.TradesExactlyIf | core/compute/risk_scorer.py:167-195 | a buy (or sell) leaves the gate exactly if the model asks for it at a given risk below 7, and risk, confidence, amount, chain and prompt are sound |
| Agents.HoldsExactlyIf | core/compute/risk_scorer.py:153-195 | in every other sound case a HOLD is sent, and with which reason: inference error, override, the model's own, or the standard one |
| Agents.ExecutorAgent.HandleTradeDecision | agents/executor.py:64-135 | POSTs, result messages and exceptions of one delivery as a function of decision, memory failures and replies |
| Agents.ExecutorAgent.Send | agents/executor.py:137-157 | an invalid payload raises before anything is sent |
| Agents.ExecutorAgent.Route | agents/base.py:136-158 | handler exceptions are absorbed, only a failed pong gets through |
| Agents.ExecutorAgent.DispatchLoop | agents/base.py:123-134 | which messages are routed, with which effects in all, and how the loop ends |
| Agents.RoutedIsPrefix | agents/base.py:123-134 | messages are handled in order of arrival, each once, none skipped |
| Agents.LoopSurvives | agents/base.py:123-158 | the loop survives everything but an error of the receive stream, a failed pong and a stop |
| Agents.LoopEnd | agents/base.py:123-134 | where exactly the loop ends, and whether it crashes, stops or waits |
| Agents.AnsweredExactlyIf | agents/executor.py:129-157 | with working memory a valid decision is answered once exactly if it is HOLD, succeeds with a hash or fails with an error, and otherwise not at all |
| Agents.ReportSays | agents/executor.py:92-147 | the content of the one message: "HOLD: " and the reason, success with the hash, or failure with the error |
| Agents.MemoryFailures | agents/executor.py:64-135 | an invalid payload does nothing; a failed memory call ends the handling, before the transfer if it is the first, and nothing is reported |
| Agents.UnansweredIff | agents/executor.py:95-157 | a trade goes unanswered exactly if the outside world replies so: a quirk or an empty quote error, an empty transfer error, no hash unless an unsuccessful final status brings an error, or a hash with an unsuccessful status and no error |
| Agents.PendingHashIsSilent | core/keeperhub/executor.py:405-421 | a transfer that shows its hash while still PENDING ends FAILED and is never reported |
| Agents.SilentExecution | agents/executor.py:129-146 | a transfer that is made and never reported |
| Agents.GateSafety | agents/executor.py:64-106 | over every run of signals, model replies and lost, late or repeated messages: a delivery makes a transfer only for a buy or sell with positive amount and 0 <= risk < 7 that was really sent, so none for HOLD, at most three POSTs each, and POSTs are in all at most three per delivered trade |
| Agents.GateIsOpen | agents/risk.py:35-60 | what may pass does: a sound, low-risk trade that is signalled and delivered makes its POSTs |
| PriceCache.Prices.FetchPrices | core/scanner.py:205-248 | new table, age and answer of a lone caller for every response |
| PriceCache.OneFetchInFlight | core/scanner.py:220-241 | at most one fetch is in flight, with any number of concurrent callers |
| PriceCache.IdsStay | core/scanner.py:236-240 | ids never leave the cache |
| PriceCache.TableIsOfLastRefresh | core/scanner.py:236-248 | between two moments of a run table and age are the same unless a refresh succeeded in between: failed and empty fetches change nothing |
| PriceCache.CachedIsLatest | core/scanner.py:237-240 | a cached price is the one that the last response with a price for its id brought |
| PriceCache.RefreshesSpaced | core/scanner.py:214-240 | refreshes begin in order, and less than 30 s apart only when an id was missing |
| PriceCache.CoveringRun | core/scanner.py:214-240 | if successful responses cover the ids, refreshes begin at least 30 s apart and every answer from the cache rests on a fetch begun less than 30 s before |
| PriceCache.PartialResponsesDefeatLimit | core/scanner.py:216-240 | for every id set and every non-empty response that leaves an id out, a run with two refreshes at the same instant |
| PriceCache.LimitHoldsIff | core/scanner.py:214-240 | every run served from a set of responses keeps refreshes 30 s apart if and only if every useful response in it covers the ids |
| Ranking.ScanPairs | core/scanner.py:281-327 | raises exactly if a pair's price or change is no number; else the ranking is the stable descending sort of all pairs' scores and the best pick is its head |
| Ranking.SortedCorrect | core/scanner.py:322 | that sort is a descending permutation in which ties keep their order |
| Ranking.FitBounds | core/scanner.py:161-175 | size fit lies in [0.3, 1] for every amount |
| Ranking.FitShape | core/scanner.py:161-175 | size fit rises up to one ETH-equivalent and falls beyond it |
| Ranking.FitIs | core/scanner.py:161-175 | size fit exactly: 1 precisely from 0.0001 to 1 ETH-equivalent, proportional below, inverse above, 0.3 at the ends |
| Ranking.EquivalentIs | core/scanner.py:167-170 | an ETH is 10^18 wei, a cbBTC counts as 30 ETH |
| Ranking.MomentumIs | core/scanner.py:153-158 | momentum is 0 exactly up to -5 %, 1 exactly from +5 % on, linear between, and never falls as the change rises |
| Ranking.CompositeIs | core/scanner.py:299-305 | each pair's composite as 0.4 of momentum, 0.15 of fit and its own constant |
| Ranking.ScoreShows | core/scanner.py:291-320 | a score shows price and change of its own id, and is strong exactly from 0.72, weak exactly below 0.55 |
| Ranking.CompositeBounds | core/scanner.py:290-306 | every composite lies in [0.4525, 0.984] |
| Ranking.EthOrder | core/scanner.py:65-98 | ETH_USDC > ETH_USDT > WETH_USDC, always and strictly |
| Ranking.BestPick | core/scanner.py:290-327 | from the raw changes of bitcoin and ethereum: the best pick is cbBTC_USDC exactly if 0.04 times the difference of the two, each cut off at 5 % either way, plus 0.15 times the difference in size fit strictly exceeds 0.0265, else ETH_USDC |
| Pnl.ProfitIsReturn | core/pnl.py:47-107 | profit is investment times signed return, for buys and for sells, although the two are computed by different formulas |
| Pnl.LineMeaning | core/pnl.py:80-114 | of a counted cycle, from cycle and price map alone: size (with the cbBTC rescaling and the 1e-9 clamp), investment, profit as size times the move from the entry to the quote (reversed for a sell, none without a quote), return, and whether it won |
| Pnl.CountsIff | core/pnl.py:82-91 | a cycle counts exactly if it is a buy or a sell, in any case of letters, at a positive price |
| Pnl.LinesAreInOrder | core/pnl.py:80-126 | exactly the cycles that count are accounted for, in order, each once |
| Pnl.LinesAreSound | core/pnl.py:80-117 | of every counted cycle profit is investment times return, and positive exactly if the price strictly moved the predicted way |
| Pnl.WinsCounted | core/pnl.py:112-113 | cycles_won counts exactly the lines whose price strictly moved the predicted way |
| Pnl.WonCyclesCounted | core/pnl.py:112-113 | these are exactly the counted cycles with a quote strictly above the entry price, or below it for a sell |
| Pnl.Extreme | core/pnl.py:133-134 | the first greatest or least per-cycle profit |
| Pnl.ComputePnl | core/pnl.py:57-147 | counts, investment, net, win rate, net fraction and extremes of the summary in terms of the counted cycles, for every commitment; the wins by the quotes |
| Pnl.NetIsWeightedMean | core/pnl.py:109-131 | net profit is a mean of the signed returns weighted by investment |
| Pnl.FractionWithinReturns | core/pnl.py:130-131 | the unrounded net fraction lies between the least and the greatest signed return |
| Pnl.ExtremesBound | core/pnl.py:130-134 | n times the worst profit <= net <= n times the best |
| Pnl.TotalsAdd | core/pnl.py:80-113 | all totals are additive over concatenated result lists |
| Pnl.FlipNegatesTotals | core/pnl.py:95-110 | swapping every buy and sell negates every profit and the net and keeps the investment |
| Pnl.ScaledTotals | core/pnl.py:78-113 | scaling all prices by a positive factor scales every dollar figure and keeps wins and returns, cbBTC rescaling included |
| Pnl.ScaledFraction | core/pnl.py:128-131 | and keeps the net fraction |

## Left out

- HTTP clients, back-off waits, the Node.js sidecars, web3 and the live node's own behaviour: only "a call may fail" and the three-attempt bound are kept.
- JSON text, date syntax and pydantic coercions: the serialisers are a round-trip assumption, over records whose free-form fields hold null, booleans, integers, floats (by bit pattern), strings, lists and objects.
- Kv.SwarmKV.LoadManifest: JSON that is not an object of strings is taken as an empty manifest, while the code keeps whatever it decoded and fails on later use, because no manifest the code writes has that form.
- Floating-point rounding, NaN and the rounding of displayed figures; profit and loss results about signs assume a positive commitment.
- `str.lower` beyond ASCII letters.
- `reset_memory_store` and `_InMemoryStore.reset`: a cleared store keeps no promise.
- What a KV answers about values that are only on the live node: time travel and non-interference are stated for a KV (and its published roots) whose values are on this client; nothing is asked of the other KVs.
- Direct writes to the two shared keys: the log and aggregate theorems leave these keys to `append` and `update_status`.
- `by_event_type`, `exists`, `keys`, `get_or_default`, `read_recent_log` and the JSON conveniences: they restate what `by_agent`, `get` and `recent` are proved to do.
- The text of prompts, summaries, tables and log messages, and the number inside the reason of an overridden decision.
- `_parse_response`: a reply is given in parsed form, with fields that are missing, usable or raise.
- `_submit_via_keeperhub`, the Universal Router decoding, workflow and check-and-execute calls: not on the execution path.
- `core/uniswap`, `core/ens`, the dashboard, the demo, the AXL transport and the scripts: plumbing or short branch readings.
- Errors of a live backend in the middle of an undisturbed call: the machine has them as `Fail` steps at any await, the sequential functions have only the uploads that cannot be framed.
- PriceCache.CoveringRun: callers share one fixed id set, as `scan_pairs` does.
