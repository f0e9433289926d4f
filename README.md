# redux-pouchdb-plus in Dafny

This is a model of the part of redux-pouchdb-plus that keeps Redux reducer state in step with PouchDB documents, with proofs about that model. It has two parts.

- **The save queue** (`save.js`) serialises writes of each reducer's state to the document named after the reducer. It keeps two module-level maps: `isSaving` (key ↦ busy) and `unpersistedQueue` (key ↦ states waiting). In `save.dfy`, one `SaveQueue` object stands for the module. A saver is a `Saver` value: its connection and its origin tag (`localId`). A write chain is an outstanding `Write`, and the database's answers are events.
  - `ReadCompleted` is the answer to the `get`: found, 404, or another error.
  - `PutCompleted` is the answer to the `put`.
  - Ghost logs record, for each key, what was requested, what settled, what was persisted, and whether a write ever failed. The invariant `QueueInv` ties these logs to the two maps.
- **The proxy reducer** wraps a reducer and reacts to INIT, REINIT, SET_REDUCER and every other action. It also drives the load-or-create chain and the change feed. There are two machines:
  - `proxy_reducer.dfy` models lib/index.js, the current behaviour.
  - `legacy_proxy_reducer.dfy` models the older src/index.js.
  - `sync.dfy` holds what they share: options, the effects a proxy has on the outside, chain stages, resolving the connector, the order of the hook callbacks, and the readiness loop.

  The closure variables are object fields. Calls of the saver, SET_REDUCER dispatches, hook calls, subscriptions and `get` requests are appended to an `effects` log. Each continuation of a promise chain is an event method:
  - `LoadCompleted`: the `get` has answered;
  - `SaveSettled`: a saver call's promise has resolved, so its `.then` runs;
  - `FinishLoad`: the continuation that marks the reducer initialised;
  - `Changed`: a change-feed delivery.

  The requires of each event method name the continuation that is pending.

`values.dfy` models JavaScript values (`Value`, JS truthiness, documents as `map<string, Value>`).

Two points about the save queue:

- The queue drains FIFO, one state per completed write, and never coalesces to the latest state.
- The busy flag is only deleted after a successful `put` (src/save.js:40-50). A failed write evidently should release the key too, or the key deadlocks; this is the first finding below. `Save.SaveQueue.Finish` follows the code as written. The event methods `Save.SaveQueue.ReadCompleted` and `Save.SaveQueue.PutCompleted` end a write with the corrected release, `Save.SaveQueue.FinishCorrected`.

## Model

| member | source | states |
|---|---|---|
| Save.PreparedDoc | src/save.js:26-39 | a failed read yields no document; otherwise the written document has the saver's `localId` and the requested `state`; a found document keeps all its other fields, and on a 404 it is `{_id: key, localId, state}` |
| Save.EnqueueKeepsInv | src/save.js:16-21 | queueing a state on a busy key keeps the queue invariant |
| Save.StartKeepsInv | src/save.js:24-26 | an idle key has no write running and an empty queue; starting its write keeps the invariant |
| Save.AbandonKeepsInv | src/save.js:48-50 | a failed chain that leaves the flag set keeps the invariant, with the key recorded as failed |
| Save.ReleaseIdleKeepsInv | src/save.js:40-47 | releasing a key with nothing queued keeps the invariant |
| Save.ReleaseDrainKeepsInv | src/save.js:43-46 | shifting the oldest queued state into flight keeps the invariant, including the order of requested states |
| Save.NoFailureNoStuck | src/save.js:14-50 | while no write has failed, every busy key has a running write |
| Save.InSyncMeansPersisted | src/save.js:40-47 | when no key is busy, the persisted states of every key without failures are exactly its requested states, in call order |
| Save.ReleaseKeepsNoStuck | src/save.js:40-47 | releasing a key, with or without draining, leaves no busy key without a running write |
| Save.SaveQueue.constructor | src/save.js:1-2 | both module maps start empty |
| Save.SaveQueue.InSync | src/save.js:5-12 | true iff no key has a truthy busy flag, stopping at the first busy key (lib/save.js:11-39 is the compiled copy) |
| Save.SaveQueue.SaveReducer | src/save.js:15-24 | a busy key gets the state appended to its queue and nothing else changes; an idle key had no running write, becomes busy, and exactly one write of the state starts with a `get`; other keys are untouched (lib/save.js:42-51 is the compiled copy) |
| Save.SaveQueue.ReadCompleted | src/save.js:26-39 | a found document or a 404 turns into the `put` of `PreparedDoc`; any other error ends the chain (lib/save.js:53-66 is the compiled copy) |
| Save.SaveQueue.PutCompleted | lib/save.js:65-76 | the answer of the `put` ends the chain: a success is persisted, and the key is released or its oldest queued state is written next by the same saver |
| Save.SaveQueue.Finish | src/save.js:40-50 | as written, callable with success only once the `put` is running: on success the flag is deleted and the oldest queued state is shifted off and written next (FIFO); on failure the key stays busy with no running write |
| Save.SaveQueue.FinishCorrected | src/save.js:40-47 | success or failure, the key is released or its next queued state starts, so no key is left stuck |
| Save.StuckAfterFailure | src/save.js:26-50 | after a failed first write of a key, a second save is only queued and no request for it is ever sent |
| Save.RecoversAfterFailure | src/save.js:40-47 | with the corrected release, the second save starts a new `get` |
| Sync.CancelChain | lib/index.js:115 | only the subscribed chain changes, from live to closed; with `CancelEffects`, the feed's `cancel()` is the one effect |
| Sync.Connect | lib/index.js:120 | a connection is used as it is; a connector function is called with the name and the store |
| Sync.ResolveDb | lib/index.js:117-120 | the reducer's connector wins over the store's; without store options the lookup throws; with neither connector it throws "no db connector", a TypeError here and a string in src/index.js:92-97 |
| Sync.HookCalls | lib/index.js:92-109 | a hook is called iff it is a function, with the name and the state, the reducer's before the store's; it throws iff there are no store options yet |
| Sync.AllInitialized | lib/index.js:136-166 | true iff every entry of the shared map is true, stopping at the first false one; src/index.js:117-124 runs the same loop over the module-global map |
| Sync.InitMap.constructor | lib/index.js:56 | the map holds the given entries |
| Sync.CreatesAreUnique | lib/index.js:126-129 | no two pending saves of a missing document belong to the same chain |
| Sync.PlainCallbackKeepsInv | lib/index.js:176-178 | a saver call whose `.then` only runs `onSave` keeps the chain bookkeeping |
| Sync.CreateKeepsInv | lib/index.js:126-129 | the save of a missing document leaves its chain waiting for exactly that save's ticket, and keeps the bookkeeping |
| Sync.StageKeepsInv | lib/index.js:124-172 | moving a chain that waits for no create into another stage, and holding its subscription, keeps the bookkeeping |
| Sync.SettlePlainKeepsInv | lib/index.js:176-178 | a settled save whose `.then` only runs `onSave` keeps the bookkeeping |
| Sync.SettleResumeKeepsInv | lib/index.js:127-132 | a settled create belongs to a chain, which may leave its waiting stage, and the bookkeeping is kept |
| Sync.CancelKeepsInv | lib/index.js:115 | cancelling the held subscription keeps the bookkeeping |
| Sync.NewChainKeepsInv | lib/index.js:117-124 | a new chain waiting for its `get`, once a saver exists, keeps the bookkeeping |
| ProxyReducer.DefaultCodec | lib/index.js:202-213 | for `ToPouch`, `FromPouch` and `IsEqual` without codec options, decoding inverts encoding and equality is structural |
| ProxyReducer.ReducerName | lib/index.js:80 | the `name` option if given, else the function's name |
| ProxyReducer.Reinit | lib/index.js:45-49 | a TypeError iff a truthy name is not registered (`Listed`, the `indexOf` test of line 46); otherwise the REINIT action for that name |
| ProxyReducer.ChangeReaction | lib/index.js:175-181 | ignore iff the document carries this process's origin tag; re-save iff a foreign document has no truthy `state`; adopt, with the decoded state, iff that state is not equal to the current one |
| ProxyReducer.OwnWritesAreEchoes | lib/index.js:122 | every document the queue writes for this process's saver is ignored when it comes back through the change feed |
| ProxyReducer.ReducerRegistry.constructor | lib/index.js:43 | `allReducers` starts empty |
| ProxyReducer.PersistentStore | lib/index.js:51-68 | every store's INIT action carries a fresh, empty map of initialised reducers |
| ProxyReducer.PersistentReducer.constructor | lib/index.js:69-82 | the name is fixed and registered as not initialised in the proxy's own map; everything else starts undefined |
| ProxyReducer.PersistentReducer.ReinitSelf | lib/index.js:114-124 | the map entry is cleared and the old subscription cancelled; with a connector, a saver stamped with the origin tag is made, the `get` is sent, and the state is reset to `initialState`; a throw leaves the state as it was |
| ProxyReducer.PersistentReducer.Default | lib/index.js:239-256 | `initialState` is fixed while falsy; the saver is called with the encoded new state iff the reducer is initialised and the new state is not equal to the current one; the new state always becomes current |
| ProxyReducer.PersistentReducer.Init | lib/index.js:215-221 | INIT records the store and its options and adopts the store's map; a name already in it throws and nothing else changes; otherwise the name is registered, not initialised, and the reducer reinitialises |
| ProxyReducer.PersistentReducer.Step | lib/index.js:213-258 | INIT adopts the store's map, throws on a duplicate name, else registers the name and reinitialises; a REINIT for another reducer returns the state unchanged; an addressed SET_REDUCER with a truthy state runs the reducer and `onUpdate` and never saves; everything else is the default path |
| ProxyReducer.PersistentReducer.LoadCompleted | lib/index.js:124-132 | a found document is dispatched as SET_REDUCER with the decoded state; a 404 saves the encoded initial state and waits for it; any other error ends the chain |
| ProxyReducer.PersistentReducer.SaveSettled | lib/index.js:126-131 | `onSave` of the chain's state for the create of a missing document, which then lets the chain continue; of the state current when the save settles for the default-path save (lines 250-251) and the change-feed re-save (lines 177-178) |
| ProxyReducer.PersistentReducer.FinishLoad | lib/index.js:132-172 | the reducer is marked initialised and `onInit` runs; `onReady` runs iff every entry of the map is true and the option is set; the chain subscribes to its document's changes |
| ProxyReducer.PersistentReducer.Changed | lib/index.js:170-181 | the reaction of `ChangeReaction`: no effect for an echo or an equal state, a save of the encoded current state, or a SET_REDUCER dispatch of the decoded state |
| LegacyProxyReducer.PlainCodec | src/index.js:168-188 | for non-Immutable state, `ToPouch` and `FromPouch` are the identity and `IsEqual` is structural equality |
| LegacyProxyReducer.ClearAll | src/index.js:14-18 | the same reducers, none of them initialised |
| LegacyProxyReducer.Reinit | src/index.js:11-27 | no name clears every entry; an unknown name throws a string and changes nothing; a known name clears only its own entry |
| LegacyProxyReducer.LegacyReaction | src/index.js:133-140 | re-save iff there is no truthy `state`; adopt iff the stored state is not equal to the current one; the origin is not looked at |
| LegacyProxyReducer.EchoRevertsState | src/index.js:133-140 | this process's own older write, echoed after a newer state became current, is adopted |
| LegacyProxyReducer.AgreesWithLibOnForeignDocs | src/index.js:133-140 | on foreign documents with the plain codec, both variants react the same way |
| LegacyProxyReducer.LegacyHookCalls | src/index.js:59-84 | with a store, the hooks are called as in lib; with no store, a hook that is a function makes `store.dispatch` throw before it is called, so no hook runs |
| LegacyProxyReducer.LegacyReducer.constructor | src/index.js:41-50 | the function's name is registered as not initialised in the module-global map |
| LegacyProxyReducer.LegacyReducer.ReinitSelf | src/index.js:89-101 | the old subscription is cancelled; with a connector, a saver without an origin tag is made and the `get` is sent, and the state is reset to `initialState`; the shared map is not touched |
| LegacyProxyReducer.LegacyReducer.Default | src/index.js:208-223 | the first truthy state fixes `initialState` and the Immutable flag; it saves iff initialised and not equal; a throw from the missing saver comes before the state is stored |
| LegacyProxyReducer.LegacyReducer.Step | src/index.js:191-225 | INIT records the store and falls into REINIT with no duplicate check; SET_REDUCER as in lib, except that with no store `onUpdate` is never called and the failure reads property `dispatch` when the reducer has the hook, `onUpdate` otherwise; everything else is the default path |
| LegacyProxyReducer.LegacyReducer.LoadCompleted | src/index.js:101-111 | as in lib, but the errors are logged |
| LegacyProxyReducer.LegacyReducer.SaveSettled | src/index.js:107-109 | `onSave` of the saved state for the create and the default-path save (lines 218-219); of the state current when the save settles for the change-feed re-save (lines 135-136); never called while there is no store; a throw in the load chain's `onSave` is logged and ends it |
| LegacyProxyReducer.LegacyReducer.FinishLoad | src/index.js:112-143 | as in lib, over the module-global map, with no hook called while there is no store; a throw from `onInit` is logged |
| LegacyProxyReducer.LegacyReducer.Changed | src/index.js:133-140 | the reaction of `LegacyReaction` |

## Left out

- PouchDB I/O (`get`, `put`, `changes`, `cancel`) is not executed. A `get` answers as `Found`/`NotFound`/`ReadFailed` and a `put` as success or failure. Connections are numbers, and a connector function's results come from a `connect` parameter.
- Promise timing and interleaving are not modelled. The order in which the environment delivers events is free, within each event's requires.
- Redux's `createStore`, `dispatch` and `getState` are not modelled. A SET_REDUCER dispatch is a recorded effect; the environment feeds it back with `Step`.
- Throws inside user code are not modelled: a throw inside a hook callback, inside `onReady`, or inside a dispatch started from the change-feed listener. The throws of the proxies themselves are modelled. A missing `db`, a duplicate name, an unknown REINIT name, a saver that is not a function, the legacy `store.dispatch` with no store, and hooks reading `storeOptions` while it is undefined are `Err` results. `setReducer` with no store rejects the load chain.
- The `this` binding and the extra `store`/`dispatch` arguments of hook calls are not modelled. A hook call records its level, kind, name and state.
- In the proxies, `console.error` is a recorded `ErrorLogged` effect.
- The save queue's `console.error` calls (src/save.js:33,49; lib/save.js:60,75) are not recorded. A failed write shows only in the ghost `failed` log and, in `Save.SaveQueue.Finish`, as a key left busy.
- `CLIENT_HASH` (a `uuid`) is a constant parameter.
- `lodash.clonedeep` is the identity on values without identity.
- `lodash.isequal`, `deep-equal` and the Immutable.js functions are not modelled. The first two are structural equality; the Immutable.js functions are parameters. deep-equal's loose comparison of primitives is not modelled.
- Numbers are modelled as integers.
- LegacyProxyReducer: `persistentStore` of src/index.js:29-39 only dispatches `InitAction(store, storeOptions)`, so it is that action value and not a member.
- ProxyReducer: `proxyReducer.getName` (lib/index.js:260-262) returns the `name` field.
- Pause/resume and "latest state wins" coalescing are not modelled: neither is in the code.
- Save.SaveQueue.ReadCompleted, Save.SaveQueue.PutCompleted: use the corrected release of the first finding. The code as written leaves a failed key busy, and that behaviour is `Save.SaveQueue.Finish`.

## Findings

| source | as written | input that shows it | evidently intended | confidence | as-written member | corrected member |
|---|---|---|---|---|---|---|
| src/save.js:26-50 | a non-404 read error or a failed `put` is only logged, so `delete isSaving[key]` never runs and the queue is never drained | save state A to key "k"; its `get` fails; save state B to "k": B is queued, the key stays busy, and no request for B is ever sent | the flag is deleted after a failed write too, and the next queued state is written, so the key cannot deadlock | high, not executed | Save.StuckAfterFailure | Save.SaveQueue.FinishCorrected |
| src/index.js:133-140 | the change-feed listener adopts any stored state that differs from the current one, including this process's own older writes | save A, then B while A is being written; A's change arrives while B is current, and the proxy dispatches A, reverting the state | ignore documents written by this process, as lib/index.js:176 does with the origin tag | medium, not executed | LegacyProxyReducer.EchoRevertsState | ProxyReducer.OwnWritesAreEchoes |
