# LocalAI explorer discovery and dynamic-config handlers, in Dafny

This project models two pieces of LocalAI and proves properties of them.

**Discovery server** (`core/explorer/discovery.go`). The explorer keeps a store of
p2p network tokens. One pass (`runBackground`) goes over every token:

- It connects to the token's network and scans its ledger. Storage keys that name
  worker or federated clusters become `ClusterData` values: the online worker IDs,
  the cluster type, and the NetworkID prefix.
- If any collected cluster has workers, the token's entry in `Networks` is replaced
  and its failure count is cleared. Otherwise the count grows by one.
- After all tokens, a sweep deletes every token whose count is strictly greater
  than the error threshold.

**Dynamic-config handlers** (`core/startup/config_file_watcher.go`). A registry maps
file names to handlers. The `api_keys.json` handler rebuilds `ApiKeys` from the
startup snapshot plus the keys in the file. The `external_backends.json` handler
resets `ExternalGRPCBackends` to the startup map and merges the file's entries into
it. A watcher event runs a handler only if the event is a write, create or remove,
and only if the event path's base name has a handler.

The files:

- `wrappers.dfy`: `Option` and `Result`.
- `go_strings.dfy`: Go's `strings.Contains`, `strings.Split(s, "_")[0]`, `path.Base` and `path.Join`.
- `discovery.dfy`:
  - the key classifier and the worker aggregation, as functions;
  - the scanner loops, as methods proved against those functions;
  - the `DiscoveryServer` class, whose methods update `tokens`, `networks` and `failures` in place.
- `config_file_watcher.dfy`:
  - the handler bodies, as specification functions and as methods on `ApplicationConfig`;
  - the `ConfigFileHandler` registry class;
  - the event-dispatch test.

Where the code differs from what one might expect, the model follows the code:

- Eviction deletes the token from the store and from `failures`, but leaves its
  entry in `Networks`. `RunBackground` and `Start` state that `Networks` never loses a key.
- The pass increments before the sweep. So a token with count equal to the threshold
  that fails once more is evicted in that same pass (`EvictedAfterThresholdPlusOne`).
  It does not need to have exceeded the threshold in an earlier pass.

The marker strings `p2p.WorkerID` and `p2p.FederatedID` are a `Markers` parameter;
the p2p package is not part of this model. Every result holds for any pair of markers.
Each connection outcome is an input: node creation, start and ledger errors, or the
sequence of ledger storage snapshots the scanner saw before its timeout. The
`NodeData.Unmarshal` result of each value is an input too.

## Model

| member | source | states |
|---|---|---|
| GoStrings.ContainsIffOccurs | core/explorer/discovery.go:177-178 | `strings.Contains` is true exactly when the substring occurs at some index (the empty substring always does) |
| GoStrings.ContainsChar | core/explorer/discovery.go:188 | containing the one-character string `"_"` is the same as having `'_'` as an element |
| GoStrings.BeforeFirst | core/explorer/discovery.go:189 | `strings.Split(s, "_")[0]`: a prefix of `s` without `'_'`, followed in `s` by `'_'` when shorter than `s` |
| GoStrings.BeforeFirstOfJoined | core/explorer/discovery.go:189 | for a `p` without `'_'`, the first `Split` element of `p + "_" + q` is `p` |
| GoStrings.Base | core/startup/config_file_watcher.go:93 | `path.Base` is never empty and is either `"/"` or free of `'/'` |
| GoStrings.BaseOfJoin | core/startup/config_file_watcher.go:93 | the base of a directory joined with a plain file name is that file name, so a file's handler is found again from its full path |
| Discovery.ClassifyByOccurrence | core/explorer/discovery.go:177-186 | worker iff the key equals the worker marker, or contains `'_'` and the marker; federated iff it is not a worker key and the same rule holds for the federated marker; otherwise the key is ignored |
| Discovery.NetworkIDSpec | core/explorer/discovery.go:188-190 | NetworkID is `""` for a key without `'_'`; otherwise it is the proper prefix that ends just before the first `'_'` |
| Discovery.UnscopedKey | core/explorer/discovery.go:177-190 | a key without `'_'` is classified only when it equals a marker, the worker marker winning, and its NetworkID is `""` |
| Discovery.ScopedWorkerKey | core/explorer/discovery.go:177-190 | `net_<worker marker>` is a worker key with NetworkID `net` |
| Discovery.ScopedFederatedKey | core/explorer/discovery.go:177-190 | `net_<federated marker>` is a federated key with NetworkID `net` when the worker marker does not occur in it |
| Discovery.OnlineIDsAppend | core/explorer/discovery.go:198-208 | the worker list keeps value order: it distributes over concatenation of the values |
| Discovery.OnlineIDsMembers | core/explorer/discovery.go:198-208 | an ID is listed iff some value decoded to that ID and online; values that fail to decode are skipped |
| Discovery.OnlineIDsEmpty | core/explorer/discovery.go:196-208 | the list is empty iff no value decodes as online, and it is never longer than the values |
| Discovery.KeyClusterSpec | core/explorer/discovery.go:175-212 | a key yields a cluster iff it is classified and some value decodes as online; the cluster has that type, that NetworkID and exactly the online IDs |
| Discovery.OnlineThenOffline | core/explorer/discovery.go:196-212 | one online and one offline node under `net_<worker marker>` give the worker cluster `[a]` of network `net` |
| Discovery.AllOfflineYieldsNothing | core/explorer/discovery.go:210-212 | a key whose nodes are all offline yields no cluster |
| Discovery.ScanAllKeys | core/explorer/discovery.go:165-213 | the collected map has a key iff some ledger snapshot yielded a cluster for it; a later all-offline snapshot does not remove it |
| Discovery.ScanAllLatest | core/explorer/discovery.go:165-213 | the stored cluster for a key is the one from the last snapshot that yielded a cluster for it |
| Discovery.ScanAllClusters | core/explorer/discovery.go:175-212 | every collected cluster is classified, carries its key's NetworkID and has a non-empty worker list |
| Discovery.UnclassifiedNeverReported | core/explorer/discovery.go:192-194 | a key matching neither marker never appears in the collected map |
| Discovery.HasWorkersIffNonEmpty | core/explorer/discovery.go:100-107 | `hasWorkers` is the same as "at least one cluster was collected", because empty clusters are never stored |
| Discovery.ListsLength | core/explorer/discovery.go:158-163 | the clusters received from the channel number exactly the collected keys |
| Discovery.ListsCovers | core/explorer/discovery.go:158-163 | every collected cluster is received |
| Discovery.ListsMember | core/explorer/discovery.go:158-163 | every received cluster is a collected one |
| Discovery.ListsHasWorkers | core/explorer/discovery.go:100-107 | some received cluster has workers iff some collected cluster has workers |
| Discovery.ListsSingleton | core/explorer/discovery.go:158-163 | a one-key map is received as exactly that one cluster |
| Discovery.CollectWorkers | core/explorer/discovery.go:196-208 | the loop builds exactly the online IDs in value order, and `atLeastOneWorker` holds iff some value decodes as online |
| Discovery.ScanKey | core/explorer/discovery.go:175-212 | the body of the `LEDGER` loop computes the key's cluster as `KeyCluster` specifies |
| Discovery.ScanSample | core/explorer/discovery.go:172-213 | one scan of a storage snapshot overwrites the map with the snapshot's clusters and keeps every other entry |
| Discovery.RetrieveNetworkData | core/explorer/discovery.go:155-216 | the map built over all snapshots is `ScanAll` of them |
| Discovery.ReceiveClusters | core/explorer/discovery.go:100-107 | `ledgerK` holds each collected cluster once, in some key order, and `hasWorkers` holds iff one of them has workers |
| Discovery.Bump | core/explorer/discovery.go:134 | `failures[token]++` adds the token if absent, sets its count to the old count (0 when absent) plus 1, and keeps every other entry |
| Discovery.PassFailuresStepSuccess | core/explorer/discovery.go:116-122 | a token whose scan has workers leaves the failure map without its entry |
| Discovery.PassFailuresStepFailure | core/explorer/discovery.go:123-125 | a token whose connection or scan fails adds exactly 1 to its count |
| Discovery.SucceededStep | core/explorer/discovery.go:116-125 | the set of tokens stored so far grows by the token exactly when it succeeds |
| Discovery.PassNetworksStep | core/explorer/discovery.go:116-125 | processing a token replaces only that token's `Networks` entry, and only on success |
| Discovery.PassStep | core/explorer/discovery.go:64-126 | the failure-map and `Networks` update of one token keeps the pass specification in step |
| Discovery.PassCountsFailure | core/explorer/discovery.go:72-91 | a token that fails in a pass ends the pass with its old count plus 1 |
| Discovery.RepeatedFailuresCount | core/explorer/discovery.go:131-147 | a token failing `n` passes in a row, staying at or below the threshold, stays stored with `n` more failures |
| Discovery.EvictedAfterThresholdPlusOne | core/explorer/discovery.go:137-147 | starting from no failures, `threshold` failing passes keep the token with count `threshold`; one more evicts it from the store and the failure map |
| Discovery.PassesSplit | core/explorer/discovery.go:219-229 | running passes back to back is running the concatenated passes |
| Discovery.SuccessClearsFailures | core/explorer/discovery.go:116-122 | a successful pass keeps the token and clears its failure entry, whatever its earlier count |
| Discovery.RecoveryResetsCount | core/explorer/discovery.go:116-147 | failures below the threshold followed by a success leave the token stored with no failure entry |
| Discovery.SingleWorkerNetwork | core/explorer/discovery.go:172-212 | one online worker `w` under `net_<worker marker>` makes the pass succeed and store exactly `[{[w], worker, net}]` |
| Discovery.CollectedIsUsable | core/explorer/discovery.go:104-120 | a stored network is non-empty and every cluster in it has workers |
| Discovery.DiscoveryServer.constructor | core/explorer/discovery.go:37-51 | a zero duration becomes 50s, a zero threshold becomes 3, other values are kept, and `Networks` starts empty |
| Discovery.DiscoveryServer.NetworkState | core/explorer/discovery.go:29-33 | returns the current `Networks`, in which every network lists at least one cluster |
| Discovery.DiscoveryServer.FailedToken | core/explorer/discovery.go:131-135 | `failedToken` sets `failures` to `Bump` of the old map |
| Discovery.DiscoveryServer.ProcessToken | core/explorer/discovery.go:65-125 | a connection error, or a scan without workers, adds 1 to the token's count and leaves `Networks` alone; otherwise the token's entry becomes a listing of the collected clusters and its count is removed |
| Discovery.DiscoveryServer.StoreNetwork | core/explorer/discovery.go:116-122 | replaces the token's network wholesale and deletes its failure entry |
| Discovery.DiscoveryServer.DeleteFailedConnections | core/explorer/discovery.go:137-147 | deletes from the store and from `failures` exactly the tokens with count greater than the threshold; counts at or below it survive unchanged |
| Discovery.DiscoveryServer.VisitToken | core/explorer/discovery.go:64-126 | one loop iteration moves the pass specification on by one token |
| Discovery.DiscoveryServer.VisitTokens | core/explorer/discovery.go:64-126 | after the loop, `failures` and `Networks` are what the pass specification gives for all stored tokens, in any order |
| Discovery.DiscoveryServer.RunBackground | core/explorer/discovery.go:58-129 | an empty store changes nothing; otherwise every token is processed once and the sweep runs, so all counts end at or below the threshold; `Networks` never loses a key |
| Discovery.DiscoveryServer.Start | core/explorer/discovery.go:219-229 | after a series of passes, the store and failures are those of the passes run in order; a ghost history of `Networks` relates each pass to the one before it, so every entry holds the listing of its token's most recent successful pass; it ends with the "context cancelled" error |
| Discovery.IncrementAsWritten | core/explorer/discovery.go:134 | `failures[token]++` on a Go map panics exactly when the map is nil, and otherwise bumps the count |
| Discovery.FirstFailurePanics | core/explorer/discovery.go:44-51 | a server built by `NewDiscoveryServer` panics on its first failed token; an allocated empty map gives the count 1 |
| ConfigFileWatcher.ApiKeysHandler | core/startup/config_file_watcher.go:123-144 | on success the startup keys come first and the file's keys follow; empty content restores the startup keys; a decode error is returned as the error and the keys are unchanged |
| ConfigFileWatcher.ApiKeysForgetPast | core/startup/config_file_watcher.go:135-137 | a successful run does not depend on the keys set before it |
| ConfigFileWatcher.ApiKeysIdempotent | core/startup/config_file_watcher.go:123-141 | running the handler twice on the same content is running it once |
| ConfigFileWatcher.KeysFromLastAccepted | core/startup/config_file_watcher.go:127-138 | after a series of file versions, `ApiKeys` is the startup keys followed by the keys of the last version that decoded; keys never accumulate |
| ConfigFileWatcher.KeysWhenAllRejected | core/startup/config_file_watcher.go:130-133 | when no version decodes, `ApiKeys` keeps its value |
| ConfigFileWatcher.BackendsHandler | core/startup/config_file_watcher.go:146-169 | empty content restores the startup map; a decode error is returned and the map is unchanged; a successful decode and merge return no error and set the merged map; a failed merge returns the merge error and leaves the map reset to the startup map |
| ConfigFileWatcher.BackendsForgetPast | core/startup/config_file_watcher.go:150-163 | unless decoding fails, the result does not depend on the previous map |
| ConfigFileWatcher.BackendsIdempotent | core/startup/config_file_watcher.go:146-167 | running the handler twice on the same content is running it once |
| ConfigFileWatcher.Handle | core/startup/config_file_watcher.go:16 | each built-in handler changes only its own setting, as its handler function specifies |
| ConfigFileWatcher.MissingFileAtStartup | core/startup/config_file_watcher.go:29-36 | a handler run at registration on a missing file leaves the settings as they were |
| ConfigFileWatcher.WatchedOps | core/startup/config_file_watcher.go:92 | the `Has` test on write, create and remove holds iff the event carries one of the three operations |
| ConfigFileWatcher.DispatchOfFile | core/startup/config_file_watcher.go:92-98 | an event on `dir/file` runs the handler registered for `file` iff it is a write, create or remove and `file` has a handler |
| ConfigFileWatcher.RenameOrChmodIgnored | core/startup/config_file_watcher.go:92 | rename and chmod events alone never run a handler |
| ConfigFileWatcher.EventEffect | core/startup/config_file_watcher.go:92-98 | an event without a write, create or remove leaves the settings unchanged |
| ConfigFileWatcher.RemovingKeysFileReverts | core/startup/config_file_watcher.go:53-58 | deleting `api_keys.json` reaches the handler as empty content and puts `ApiKeys` back to the startup keys, backends untouched |
| ConfigFileWatcher.ReadApiKeysJson | core/startup/config_file_watcher.go:124-141 | the closure body sets `ApiKeys` and returns the error exactly as `ApiKeysHandler` specifies |
| ConfigFileWatcher.ReadExternalBackendsJson | core/startup/config_file_watcher.go:147-167 | the closure body sets `ExternalGRPCBackends` and returns the error exactly as `BackendsHandler` specifies |
| ConfigFileWatcher.RunHandler | core/startup/config_file_watcher.go:58 | calling a registered handler updates the configuration as `Handle` specifies |
| ConfigFileWatcher.ConfigFileHandler.constructor | core/startup/config_file_watcher.go:29-38 | registers exactly the two built-in handlers over the startup snapshots and runs each once on its file in the configuration directory |
| ConfigFileWatcher.ConfigFileHandler.Register | core/startup/config_file_watcher.go:40-50 | a duplicate file name returns an error and changes nothing; a new one adds exactly that entry, returns no error, and runs the handler on `dir/filename` when asked |
| ConfigFileWatcher.ConfigFileHandler.CallHandler | core/startup/config_file_watcher.go:52-61 | the handler runs on the file's content, empty when the file is missing; handler and read errors are only logged |
| ConfigFileWatcher.ConfigFileHandler.OnEvent | core/startup/config_file_watcher.go:85-99 | an event is handled iff it dispatches, and the configuration then changes as `EventEffect` states |

## Left out

- The p2p and edgevpn calls (`p2p.NewNode`, `Start`, `Ledger`, `LastBlock().Storage`) and `NodeData.Unmarshal` are inputs (`Connection`, `RawValue`). The p2p package is not part of this model.
- The ledger's storage type is not part of this model. A key's values are a sequence in the order the Go loop visits them, and the worker list follows that order.
- The scan's sleep-and-poll loop until the context deadline is a finite sequence of storage snapshots. Timeouts, `time.Sleep`, `context` and the deferred `cancel` are not modelled.
- The goroutine and channel hand-off between the scanner and the pass is not modelled. The received clusters are related to the collected map by `Lists`, which fixes each cluster once in an unspecified key order.
- The mutex is not modelled; the pass runs sequentially.
- Discovery.DiscoveryServer.NetworkState: the model returns a snapshot value of `Networks`, where Go hands out the live shared `*NetworkState` pointer. A later pass writes into that same map, so the caller's result changes under it, and its reads race with the pass. Neither the aliasing nor the race is captured.
- The token database type is not part of this model. The store is a set of tokens that the sweep deletes from. The order of `TokenList` is unspecified, and the pass visits tokens in any order.
- `Start` runs until its context is cancelled. It is modelled as a finite series of passes followed by the cancellation error.
- Counts and durations are unbounded integers. Overflow of `int` and `time.Duration` is not modelled.
- Logging in both files is not modelled.
- `json.Unmarshal` and `mergo.Merge` are uninterpreted functions of a `Codec` parameter, since their libraries are not part of this model.
- ConfigFileWatcher.BackendsHandler: Go maps are references and `mergo.Merge` writes into the destination map. That map is the one the startup snapshot shares, so merged entries may leak into the snapshot. The model treats maps as values and does not capture this sharing.
- `os.ReadFile` is a `FileSystem` parameter. A missing file reads as empty content; a read error passes on the partial content.
- GoStrings.Join: the lexical clean-up `path.Join` applies is not modelled. It does not change the base name of a plain file name other than `.` or `..`.
- The fsnotify watcher is not part of this model:
  - Not modelled: its creation and `log.Fatal`, `watcher.Add`, the error channel, channel closing and `Stop`.
  - An event is its path and its set of operations. `Has` is read as "carries any of the given operations".
- The polling goroutine (`core/startup/config_file_watcher.go:70-82`) is not modelled. It also passes the bare file name, not the joined path, to `callHandler`.
- Handlers registered by code outside this file are not modelled. `FileHandler` covers the two built-in handlers only.

## Findings

| source | as written | input that shows it | evidently intended | confidence | as-written member | corrected member |
|---|---|---|---|---|---|---|
| core/explorer/discovery.go:44-51 | `NewDiscoveryServer` never assigns `failures`, so it stays a nil map, and `failedToken` assigns into it with `s.failures[token]++` (line 134) | a fresh server whose first token fails to connect, or yields no workers: the increment panics | `failures` starts as an empty map, and the first failure records a count of 1 | high, not executed | Discovery.FirstFailurePanics | Discovery.DiscoveryServer.constructor |
