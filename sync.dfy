/** What the two proxy-reducer variants (lib/index.js and the older
    src/index.js) share: options, thrown errors, the recorded effects of a
    proxy, the stages of a load-or-create chain, the shared
    "initialized reducers" map, connector resolution, hook calls and the
    readiness loop. */
module Sync {
  import opened Values
  import opened Save

  /** Identity of a Redux store. */
  type StoreRef = nat

  /** What a `throw` throws: a `TypeError`, an `Error`, or a bare string. */
  datatype Thrown = TypeErrorObject | ErrorObject | StringValue

  datatype Failure =
    | InvalidReinitName(name: Value, thrown: Thrown)
    | NoDbConnector(thrown: Thrown)
    | DuplicateReducer(reducerName: string)
      /** a `TypeError` from reading `property` of `undefined` */
    | PropertyOfUndefined(property: string)
      /** a `TypeError` from calling `callee` while it is `undefined` */
    | NotAFunction(callee: string)

  datatype Result<+T> = Ok(value: T) | Err(failure: Failure)

  /** A `db` option: absent (or falsy), a connection, or a connector
      function; the function is known by its identity and its results come
      from the `connect` parameter of `ResolveDb`. */
  datatype DbOption = NoDb | Instance(db: DbRef) | Factory(id: nat)

  /** Which of the per-reducer callbacks an options object holds as functions. */
  datatype Hooks = Hooks(onInit: bool, onUpdate: bool, onSave: bool)

  /** The store-level options: a connector, the callbacks, and `onReady`. */
  datatype StoreOptions = StoreOptions(db: DbOption, hooks: Hooks, onReady: bool)

  datatype HookKind = OnInit | OnUpdate | OnSave
  datatype Level = ReducerLevel | StoreLevel

  /** Everything a proxy does outside its own closure, in order. */
  datatype Effect =
    | SubscriptionCancelled(chain: nat)
    | ConnectorCalled(name: string, store: Option<StoreRef>)
    | DocRequested(db: DbRef, id: string)
    | SaveCalled(ticket: nat, saver: Saver, key: string, state: Value)
    | SetReducerDispatched(reducer: Value, state: Value, rev: Value)
    | HookCalled(level: Level, kind: HookKind, name: string, state: Value)
    | ReadyCalled
    | ChangesSubscribed(chain: nat, db: DbRef, id: string)
    | ErrorLogged

  /** Where one call of `reinitReducer` has got to: waiting for the `get`,
      for the save (by ticket) of a missing document, or for the
      continuation that marks the reducer initialised; dead after an error;
      subscribed to the change feed; or subscribed and then cancelled. */
  datatype Stage = AwaitingRead | AwaitingInitialSave(ticket: nat) | AwaitingFinish | Rejected | Live | Closed

  /** One call of `reinitReducer(state)`: the connection it resolved, its
      `state` argument, and its stage. */
  datatype Chain = Chain(db: DbRef, state: Value, stage: Stage)

  /** The `.then` attached to a call of the saver: `onSave` of whatever the
      current state is when the save settles, `onSave` of a fixed state, or
      the continuation of a load-or-create chain. */
  datatype SaveCallback = OnSaveOfCurrent | OnSaveOf(state: Value) | ResumeLoad(chain: nat)

  /** The `changes.cancel()` of a chain's subscription. */
  function CancelChain(chains: map<nat, Chain>, changes: Option<nat>): (r: map<nat, Chain>)
    ensures r.Keys == chains.Keys
    ensures forall c :: c in chains && (changes != Some(c) || chains[c].stage != Live) ==> r[c] == chains[c]
    ensures changes.Some? && changes.value in chains && chains[changes.value].stage == Live ==>
      r[changes.value] == chains[changes.value].(stage := Closed)
  {
    if changes.Some? && changes.value in chains && chains[changes.value].stage == Live then
      chains[changes.value := chains[changes.value].(stage := Closed)]
    else
      chains
  }

  /** The effect list of `if (changes) changes.cancel()`. */
  function CancelEffects(changes: Option<nat>): seq<Effect>
  {
    if changes.Some? then [SubscriptionCancelled(changes.value)] else []
  }

  /** The bookkeeping every proxy keeps about its chains and its pending
      saver callbacks: ids are below the next free id; a pending create
      belongs to a chain that waits for exactly that ticket; the held
      subscription is a chain's; and a chain exists only once a saver has
      been made. */
  ghost predicate ChainsInv(chains: map<nat, Chain>, nextChain: nat, callbacks: map<nat, SaveCallback>,
                            nextTicket: nat, changes: Option<nat>, hasSaver: bool)
  {
    && (forall c :: c in chains ==> c < nextChain)
    && (forall t :: t in callbacks ==> t < nextTicket)
    && (forall t :: t in callbacks && callbacks[t].ResumeLoad? ==>
          callbacks[t].chain in chains && chains[callbacks[t].chain].stage == AwaitingInitialSave(t))
    && (changes.Some? ==> changes.value in chains)
    && (chains != map[] ==> hasSaver)
  }

  /** No two pending creates belong to the same chain. */
  lemma CreatesAreUnique(chains: map<nat, Chain>, nextChain: nat, callbacks: map<nat, SaveCallback>,
                         nextTicket: nat, changes: Option<nat>, hasSaver: bool, t: nat, u: nat)
    requires ChainsInv(chains, nextChain, callbacks, nextTicket, changes, hasSaver)
    requires t in callbacks && u in callbacks && callbacks[t].ResumeLoad? && callbacks[t] == callbacks[u]
    ensures t == u
  {
  }

  /** A saver call whose `.then` only runs `onSave` keeps the bookkeeping. */
  lemma PlainCallbackKeepsInv(chains: map<nat, Chain>, nextChain: nat, callbacks: map<nat, SaveCallback>,
                              nextTicket: nat, changes: Option<nat>, hasSaver: bool, cb: SaveCallback)
    requires ChainsInv(chains, nextChain, callbacks, nextTicket, changes, hasSaver)
    requires !cb.ResumeLoad?
    ensures ChainsInv(chains, nextChain, callbacks[nextTicket := cb], nextTicket + 1, changes, hasSaver)
  {
  }

  /** The save of a missing document: the chain that asked for it waits for
      that save's ticket, and the bookkeeping is kept. */
  lemma CreateKeepsInv(chains: map<nat, Chain>, nextChain: nat, callbacks: map<nat, SaveCallback>,
                       nextTicket: nat, changes: Option<nat>, hasSaver: bool, c: nat)
    requires ChainsInv(chains, nextChain, callbacks, nextTicket, changes, hasSaver)
    requires c in chains && chains[c].stage == AwaitingRead
    ensures ChainsInv(chains[c := chains[c].(stage := AwaitingInitialSave(nextTicket))], nextChain,
                      callbacks[nextTicket := ResumeLoad(c)], nextTicket + 1, changes, hasSaver)
  {
  }

  /** Moving a chain that no pending create belongs to into another stage
      (and possibly holding its subscription) keeps the bookkeeping. */
  lemma StageKeepsInv(chains: map<nat, Chain>, nextChain: nat, callbacks: map<nat, SaveCallback>,
                      nextTicket: nat, changes: Option<nat>, hasSaver: bool, c: nat, stage: Stage,
                      changes': Option<nat>)
    requires ChainsInv(chains, nextChain, callbacks, nextTicket, changes, hasSaver)
    requires c in chains && !chains[c].stage.AwaitingInitialSave? && !stage.AwaitingInitialSave?
    requires changes' == changes || changes' == Some(c)
    ensures ChainsInv(chains[c := chains[c].(stage := stage)], nextChain, callbacks, nextTicket, changes', hasSaver)
  {
  }

  /** A settled saver call whose `.then` only runs `onSave` keeps the
      bookkeeping. */
  lemma SettlePlainKeepsInv(chains: map<nat, Chain>, nextChain: nat, callbacks: map<nat, SaveCallback>,
                            nextTicket: nat, changes: Option<nat>, hasSaver: bool, t: nat)
    requires ChainsInv(chains, nextChain, callbacks, nextTicket, changes, hasSaver)
    ensures ChainsInv(chains, nextChain, callbacks - {t}, nextTicket, changes, hasSaver)
  {
  }

  /** A settled create lets its chain leave the waiting stage, and the
      bookkeeping is kept. */
  lemma SettleResumeKeepsInv(chains: map<nat, Chain>, nextChain: nat, callbacks: map<nat, SaveCallback>,
                             nextTicket: nat, changes: Option<nat>, hasSaver: bool, t: nat, stage: Stage)
    requires ChainsInv(chains, nextChain, callbacks, nextTicket, changes, hasSaver)
    requires t in callbacks && callbacks[t].ResumeLoad? && !stage.AwaitingInitialSave?
    ensures callbacks[t].chain in chains
    ensures var c := callbacks[t].chain;
            ChainsInv(chains[c := chains[c].(stage := stage)], nextChain, callbacks - {t}, nextTicket, changes, hasSaver)
  {
  }

  /** Cancelling the held subscription keeps the bookkeeping. */
  lemma CancelKeepsInv(chains: map<nat, Chain>, nextChain: nat, callbacks: map<nat, SaveCallback>,
                       nextTicket: nat, changes: Option<nat>, hasSaver: bool)
    requires ChainsInv(chains, nextChain, callbacks, nextTicket, changes, hasSaver)
    ensures ChainsInv(CancelChain(chains, changes), nextChain, callbacks, nextTicket, changes, hasSaver)
  {
  }

  /** Starting a new chain that waits for its `get`, once a saver has been
      made, keeps the bookkeeping. */
  lemma NewChainKeepsInv(chains: map<nat, Chain>, nextChain: nat, callbacks: map<nat, SaveCallback>,
                         nextTicket: nat, changes: Option<nat>, hasSaver: bool, chain: Chain)
    requires ChainsInv(chains, nextChain, callbacks, nextTicket, changes, hasSaver)
    requires chain.stage == AwaitingRead
    ensures ChainsInv(chains[nextChain := chain], nextChain + 1, callbacks, nextTicket, changes, true)
  {
  }

  /** The `initializedReducers` object: reducer name ↦ initialised. */
  class InitMap {
    var entries: map<string, bool>

    constructor (entries: map<string, bool>)
      ensures this.entries == entries
    {
      this.entries := entries;
    }
  }

  /** A resolved connector: the connection and the calls made to get it. */
  datatype Resolved = Resolved(db: DbRef, effects: seq<Effect>)

  /** A truthy `db` option in use: a connection as it is, or a connector
      function called with `(name, store)`. */
  function Connect(option: DbOption, connect: (nat, string, Option<StoreRef>) -> DbRef,
                   name: string, store: Option<StoreRef>): (r: Resolved)
    requires !option.NoDb?
    ensures option.Instance? ==> r.db == option.db && r.effects == []
    ensures option.Factory? ==>
      r.db == connect(option.id, name, store) && r.effects == [ConnectorCalled(name, store)]
  {
    match option
    case Instance(db) => Resolved(db, [])
    case Factory(id) => Resolved(connect(id, name, store), [ConnectorCalled(name, store)])
  }

  /** `reducerOptions.db || storeOptions.db`, then the throw when neither is
      set and the call of a connector function. The store options are only
      read when the reducer has no connector of its own. */
  function ResolveDb(reducerDb: DbOption, storeOptions: Option<StoreOptions>,
                     connect: (nat, string, Option<StoreRef>) -> DbRef,
                     name: string, store: Option<StoreRef>, thrown: Thrown): (r: Result<Resolved>)
    ensures !reducerDb.NoDb? ==> r == Ok(Connect(reducerDb, connect, name, store))
    ensures reducerDb.NoDb? && storeOptions.None? ==> r == Err(PropertyOfUndefined("db"))
    ensures reducerDb.NoDb? && storeOptions.Some? ==>
      if storeOptions.value.db.NoDb? then r == Err(NoDbConnector(thrown))
      else r == Ok(Connect(storeOptions.value.db, connect, name, store))
  {
    if !reducerDb.NoDb? then Ok(Connect(reducerDb, connect, name, store))
    else if storeOptions.None? then Err(PropertyOfUndefined("db"))
    else if storeOptions.value.db.NoDb? then Err(NoDbConnector(thrown))
    else Ok(Connect(storeOptions.value.db, connect, name, store))
  }

  predicate Has(hooks: Hooks, kind: HookKind)
  {
    match kind
    case OnInit => hooks.onInit
    case OnUpdate => hooks.onUpdate
    case OnSave => hooks.onSave
  }

  /** The calls a hook dispatcher makes, and whether it returns normally. */
  datatype HookResult = HookResult(calls: seq<Effect>, completed: bool)

  /** `onInit` / `onUpdate` / `onSave`: the reducer's callback, if it is a
      function, then the store's. Reading the store's callback throws while
      the store options are still `undefined`. */
  function HookCalls(kind: HookKind, reducerHooks: Hooks, storeOptions: Option<StoreOptions>,
                     name: string, state: Value): (r: HookResult)
    ensures r.completed <==> storeOptions.Some?
    ensures forall e :: e in r.calls ==> e.HookCalled? && e == HookCalled(e.level, kind, name, state)
    ensures HookCalled(ReducerLevel, kind, name, state) in r.calls <==> Has(reducerHooks, kind)
    ensures HookCalled(StoreLevel, kind, name, state) in r.calls <==>
      storeOptions.Some? && Has(storeOptions.value.hooks, kind)
    ensures forall i, j :: 0 <= i < j < |r.calls| ==>
      r.calls[i] == HookCalled(ReducerLevel, kind, name, state) &&
      r.calls[j] == HookCalled(StoreLevel, kind, name, state)
  {
    var own := if Has(reducerHooks, kind) then [HookCalled(ReducerLevel, kind, name, state)] else [];
    if storeOptions.None? then
      HookResult(own, false)
    else
      var shared := if Has(storeOptions.value.hooks, kind) then [HookCalled(StoreLevel, kind, name, state)] else [];
      HookResult(own + shared, true)
  }

  /** The readiness loop: true iff every entry of the shared map is true;
      it stops at the first false entry. */
  method AllInitialized(m: map<string, bool>) returns (ready: bool)
    ensures ready <==> forall k :: k in m ==> m[k]
  {
    ready := true;
    var keys := m.Keys;
    while keys != {}
      invariant keys <= m.Keys
      invariant forall k :: k in m && k !in keys ==> m[k]
      decreases keys
    {
      var k :| k in keys;
      if !m[k] {
        ready := false;
        break;
      }
      keys := keys - {k};
    }
  }
}
