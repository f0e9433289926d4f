/** The proxy reducer of lib/index.js: `persistentReducer(reducer,
    reducerOptions)` returns a reducer that keeps the wrapped reducer's
    state in step with the document named after it.

    The closure variables of `persistentReducer` are the fields of a
    `PersistentReducer` object. The reducer itself, the codec, the database
    and the connector functions are parameters. What the proxy does to the
    outside (calls of the saver, SET_REDUCER dispatches, callbacks, database
    requests) is appended to `effects`. Every asynchronous continuation is
    an event method: `LoadCompleted` (the `get` of a load-or-create chain
    has answered), `SaveSettled` (a saver call's promise has resolved),
    `FinishLoad` (the continuation that marks the reducer initialised) and
    `Changed` (the change feed delivers a document). */
module ProxyReducer {
  import opened Values
  import opened Save
  import opened Sync

  datatype Action =
    | InitAction(store: StoreRef, storeOptions: StoreOptions, initializedReducers: InitMap)
    | ReinitAction(reducerName: Value)
    | SetReducerAction(reducer: Value, state: Value, rev: Value)
    | OtherAction(kind: string, payload: Value)

  /** `reducerOptions`: the name override, the connector, the callbacks and
      the codec overrides. */
  datatype ReducerOptions = ReducerOptions(
    name: string,
    db: DbOption,
    hooks: Hooks,
    toPouch: Option<Value -> Value>,
    fromPouch: Option<Value -> Value>,
    isEqual: Option<(Value, Value) -> bool>)

  /** `toPouch`: the option if given, otherwise a deep clone, which is the
      value itself once values have no identity. */
  function ToPouch(options: ReducerOptions, x: Value): Value
  {
    match options.toPouch
    case Some(f) => f(x)
    case None => x
  }

  /** `fromPouch`: the option if given, otherwise a deep clone. */
  function FromPouch(options: ReducerOptions, x: Value): Value
  {
    match options.fromPouch
    case Some(f) => f(x)
    case None => x
  }

  /** `isEqual`: the option if given, otherwise deep equality. */
  predicate IsEqual(options: ReducerOptions, x: Value, y: Value)
  {
    match options.isEqual
    case Some(f) => f(x, y)
    case None => x == y
  }

  /** Without codec options the encoding round-trips and equality is
      structural equality. */
  lemma DefaultCodec(options: ReducerOptions, x: Value, y: Value)
    requires options.toPouch.None? && options.fromPouch.None? && options.isEqual.None?
    ensures FromPouch(options, ToPouch(options, x)) == x
    ensures ToPouch(options, FromPouch(options, x)) == x
    ensures IsEqual(options, x, y) <==> x == y
  {
  }

  /** The key of a wrapped reducer: `reducerOptions.name` when it is given
      (a non-empty string), otherwise the reducer function's name. */
  function ReducerName(options: ReducerOptions, functionName: string): (r: string)
    ensures options.name != "" ==> r == options.name
    ensures options.name == "" ==> r == functionName
  {
    if options.name != "" then options.name else functionName
  }

  /** `allReducers.indexOf(name) !== -1`. */
  predicate Listed(allReducers: seq<string>, name: Value)
  {
    name.Str? && name.s in allReducers
  }

  /** `reinit(reducerName)`: a REINIT action, or a `TypeError` when a name
      is given that no store has registered. It changes nothing. */
  function Reinit(allReducers: seq<string>, reducerName: Value): (r: Result<Action>)
    ensures r.Err? <==> Truthy(reducerName) && !Listed(allReducers, reducerName)
    ensures r.Err? ==> r.failure == InvalidReinitName(reducerName, TypeErrorObject)
    ensures r.Ok? ==> r.value == ReinitAction(reducerName)
  {
    if Truthy(reducerName) && !Listed(allReducers, reducerName) then
      Err(InvalidReinitName(reducerName, TypeErrorObject))
    else
      Ok(ReinitAction(reducerName))
  }

  /** How the change-feed listener reacts to a document. */
  datatype Reaction = Echo | Resave | Adopt(state: Value) | NoReaction

  /** The change-feed listener's decision: ignore a document stamped with
      this process's `CLIENT_HASH`; re-save the current state when a foreign
      document has no `state`; adopt a foreign state that differs (after
      `fromPouch`) from the current one; otherwise do nothing. */
  function ChangeReaction(options: ReducerOptions, clientHash: string, doc: Doc, current: Value): (r: Reaction)
    ensures r == Echo <==> Field(doc, "localId") == Str(clientHash)
    ensures r == Resave <==> Field(doc, "localId") != Str(clientHash) && !Truthy(Field(doc, "state"))
    ensures r.Adopt? <==>
      && Field(doc, "localId") != Str(clientHash)
      && Truthy(Field(doc, "state"))
      && !IsEqual(options, FromPouch(options, Field(doc, "state")), current)
    ensures r.Adopt? ==> r.state == FromPouch(options, Field(doc, "state"))
  {
    if Field(doc, "localId") == Str(clientHash) then Echo
    else if !Truthy(Field(doc, "state")) then Resave
    else if !IsEqual(options, FromPouch(options, Field(doc, "state")), current) then
      Adopt(FromPouch(options, Field(doc, "state")))
    else NoReaction
  }

  /** A document the save queue writes for a saver stamped with
      `CLIENT_HASH` comes back through the change feed as an echo, whatever
      state it carries. */
  lemma OwnWritesAreEchoes(options: ReducerOptions, clientHash: string, key: string,
                           outcome: ReadOutcome, state: Value, current: Value)
    requires outcome != ReadFailed
    ensures PreparedDoc(key, outcome, Str(clientHash), state).Some?
    ensures ChangeReaction(options, clientHash, PreparedDoc(key, outcome, Str(clientHash), state).value, current) == Echo
  {
  }

  /** The module-level `allReducers` array. */
  class ReducerRegistry {
    var names: seq<string>

    constructor ()
      ensures names == []
    {
      names := [];
    }
  }

  /** `persistentStore(storeOptions)(createStore)(...)`: every store gets
      a fresh, empty map of initialised reducers, handed to its reducers by
      the INIT action it dispatches. */
  method PersistentStore(store: StoreRef, storeOptions: StoreOptions) returns (init: Action)
    ensures init.InitAction? && init.store == store && init.storeOptions == storeOptions
    ensures fresh(init.initializedReducers) && init.initializedReducers.entries == map[]
  {
    var m := new InitMap(map[]);
    init := InitAction(store, storeOptions, m);
  }

  /** The frame of a step: the INIT action's map is written too. */
  function ActionMaps(action: Action): set<object>
  {
    if action.InitAction? then {action.initializedReducers} else {}
  }

  class PersistentReducer {
    const reducer: (Value, Action) -> Value
    const reducerOptions: ReducerOptions
    const name: string
    /** `CLIENT_HASH`, the origin tag of this process. */
    const clientHash: string
    /** What each connector function returns for `(name, store)`. */
    const connect: (nat, string, Option<StoreRef>) -> DbRef
    const allReducers: ReducerRegistry

    var initialState: Value
    var store: Option<StoreRef>
    var storeOptions: Option<StoreOptions>
    var initializedReducers: InitMap
    /** The chain whose subscription `changes` holds. */
    var changes: Option<nat>
    var saveReducer: Option<Saver>
    var currentState: Value

    var effects: seq<Effect>
    /** Every call of `reinitReducer` so far, by number. */
    var chains: map<nat, Chain>
    var nextChain: nat
    /** The pending `.then` of each saver call, by ticket. */
    var callbacks: map<nat, SaveCallback>
    var nextTicket: nat

    ghost predicate Valid()
      reads this
    {
      ChainsInv(chains, nextChain, callbacks, nextTicket, changes, saveReducer.Some?)
    }

    /** `persistentReducer(reducer, reducerOptions)`: the name is fixed and
        registered as not initialised in the proxy's own map, which INIT
        replaces with the store's. */
    constructor (reducer: (Value, Action) -> Value, functionName: string, reducerOptions: ReducerOptions,
                 clientHash: string, connect: (nat, string, Option<StoreRef>) -> DbRef,
                 allReducers: ReducerRegistry)
      ensures Valid()
      ensures this.reducer == reducer && this.reducerOptions == reducerOptions
      ensures this.clientHash == clientHash && this.connect == connect && this.allReducers == allReducers
      ensures name == ReducerName(reducerOptions, functionName)
      ensures fresh(initializedReducers) && initializedReducers.entries == map[name := false]
      ensures initialState == Undefined && currentState == Undefined
      ensures store.None? && storeOptions.None? && changes.None? && saveReducer.None?
      ensures effects == [] && chains == map[] && nextChain == 0 && callbacks == map[] && nextTicket == 0
    {
      this.reducer := reducer;
      this.reducerOptions := reducerOptions;
      this.clientHash := clientHash;
      this.connect := connect;
      this.allReducers := allReducers;
      var n := ReducerName(reducerOptions, functionName);
      name := n;
      initialState, currentState := Undefined, Undefined;
      store, storeOptions, changes, saveReducer := None, None, None, None;
      initializedReducers := new InitMap(map[n := false]);
      effects, chains, nextChain, callbacks, nextTicket := [], map[], 0, map[], 0;
    }

    /** A global REINIT, or one naming this reducer (and INIT after its
        registration): the map entry is cleared, `reinitReducer(initialState)`
        cancels the previous subscription, resolves the connector, makes a
        saver stamped with `CLIENT_HASH` and sends the `get`; then the state
        is reset to `initialState`. A throw from the connector resolution
        leaves the state as it was. */
    twostate predicate ReinitSelfDone(entries0: map<string, bool>, new r: Result<Value>)
      reads this, initializedReducers
    {
      var chains0 := CancelChain(old(chains), old(changes));
      var effects0 := old(effects) + CancelEffects(old(changes));
      && initializedReducers.entries == entries0[name := false]
      && match ResolveDb(reducerOptions.db, storeOptions, connect, name, store, TypeErrorObject)
         case Err(f) =>
           && r == Err(f) && currentState == old(currentState)
           && effects == effects0 && chains == chains0
           && saveReducer == old(saveReducer) && nextChain == old(nextChain)
         case Ok(db) =>
           && r == Ok(old(initialState)) && currentState == old(initialState)
           && saveReducer == Some(Saver(db.db, Str(clientHash)))
           && chains == chains0[old(nextChain) := Chain(db.db, old(initialState), AwaitingRead)]
           && nextChain == old(nextChain) + 1
           && effects == effects0 + db.effects + [DocRequested(db.db, name)]
    }

    /** What reinitialising leaves alone: the held subscription,
        `initialState` and the pending saver callbacks. */
    twostate predicate KeepsSaves()
      reads this
    {
      && changes == old(changes) && initialState == old(initialState)
      && callbacks == old(callbacks) && nextTicket == old(nextTicket)
    }

    method ReinitSelf() returns (r: Result<Value>)
      requires Valid()
      modifies this`chains, this`effects, this`saveReducer, this`nextChain, this`currentState, initializedReducers
      ensures Valid()
      ensures store == old(store) && storeOptions == old(storeOptions)
      ensures initializedReducers == old(initializedReducers)
      ensures ReinitSelfDone(old(initializedReducers.entries), r) && KeepsSaves()
    {
      initializedReducers.entries := initializedReducers.entries[name := false];
      // reinitReducer(initialState): the previous subscription is cancelled
      CancelKeepsInv(chains, nextChain, callbacks, nextTicket, changes, saveReducer.Some?);
      var chains0, effects0 := CancelChain(chains, changes), effects + CancelEffects(changes);
      var resolved := ResolveDb(reducerOptions.db, storeOptions, connect, name, store, TypeErrorObject);
      if resolved.Err? {
        chains, effects := chains0, effects0;
        return Err(resolved.failure);
      }
      var db := resolved.value;
      var chain := Chain(db.db, initialState, AwaitingRead);
      NewChainKeepsInv(chains0, nextChain, callbacks, nextTicket, changes, saveReducer.Some?, chain);
      saveReducer, chains, nextChain := Some(Saver(db.db, Str(clientHash))), chains0[nextChain := chain], nextChain + 1;
      effects, currentState := effects0 + db.effects + [DocRequested(db.db, name)], initialState;
      r := Ok(initialState);
    }

    /** The default case: the wrapped reducer runs on the incoming state;
        `initialState` is fixed by the first truthy result; the saver is
        called with the encoded new state iff this reducer is initialised in
        its map and the new state is not equal to the current one; the new
        state becomes current in every case. */
    twostate predicate DefaultDone(next: Value, new r: Result<Value>)
      reads this
    {
      var m := old(initializedReducers.entries);
      var saves := name in m && m[name] && !IsEqual(reducerOptions, next, old(currentState));
      && currentState == next
      && initialState == (if Truthy(old(initialState)) then old(initialState) else next)
      && if !saves then
           r == Ok(next) && effects == old(effects) && callbacks == old(callbacks) && nextTicket == old(nextTicket)
         else if saveReducer.None? then
           r == Err(NotAFunction("saveReducer"))
           && effects == old(effects) && callbacks == old(callbacks) && nextTicket == old(nextTicket)
         else
           && r == Ok(next)
           && effects == old(effects) + [SaveCalled(old(nextTicket), saveReducer.value, name, ToPouch(reducerOptions, next))]
           && callbacks == old(callbacks)[old(nextTicket) := OnSaveOfCurrent]
           && nextTicket == old(nextTicket) + 1
    }

    /** What the default case leaves alone: the store, the map, the
        subscription, the saver and the chains. */
    twostate predicate KeepsConnection()
      reads this, initializedReducers
    {
      && store == old(store) && storeOptions == old(storeOptions)
      && initializedReducers == old(initializedReducers) && initializedReducers.entries == old(initializedReducers.entries)
      && changes == old(changes) && saveReducer == old(saveReducer)
      && chains == old(chains) && nextChain == old(nextChain)
    }

    method Default(state: Value, action: Action) returns (r: Result<Value>)
      requires Valid()
      modifies this`initialState, this`currentState, this`effects, this`callbacks, this`nextTicket
      ensures Valid()
      ensures DefaultDone(reducer(state, action), r)
    {
      var nextState := reducer(state, action);
      if !Truthy(initialState) {
        initialState := nextState;
      }
      var isInitialized := name in initializedReducers.entries && initializedReducers.entries[name];
      if isInitialized && !IsEqual(reducerOptions, nextState, currentState) {
        currentState := nextState;
        if saveReducer.None? {
          return Err(NotAFunction("saveReducer"));
        }
        effects := effects + [SaveCalled(nextTicket, saveReducer.value, name, ToPouch(reducerOptions, nextState))];
        PlainCallbackKeepsInv(chains, nextChain, callbacks, nextTicket, changes, true, OnSaveOfCurrent);
        callbacks := callbacks[nextTicket := OnSaveOfCurrent];
        nextTicket := nextTicket + 1;
      } else {
        currentState := nextState;
      }
      r := Ok(currentState);
    }

    /** INIT: the store and its options are recorded and the store's map
        replaces the proxy's own; a name already in it throws, otherwise
        the name is registered, not initialised, and the reducer
        reinitialises. */
    method Init(st: StoreRef, so: StoreOptions, m: InitMap) returns (r: Result<Value>)
      requires Valid()
      modifies this, initializedReducers, allReducers, m
      ensures Valid()
      ensures store == Some(st) && storeOptions == Some(so) && initializedReducers == m
      ensures old(initializedReducers) != m ==> unchanged(old(initializedReducers))
      ensures if name in old(m.entries) then
                && r == Err(DuplicateReducer(name))
                && m.entries == old(m.entries) && allReducers.names == old(allReducers.names)
                && initialState == old(initialState) && currentState == old(currentState)
                && changes == old(changes) && saveReducer == old(saveReducer)
                && effects == old(effects) && chains == old(chains) && nextChain == old(nextChain)
                && callbacks == old(callbacks) && nextTicket == old(nextTicket)
              else
                && allReducers.names == old(allReducers.names) + [name]
                && ReinitSelfDone(old(m.entries), r) && KeepsSaves()
    {
      store := Some(st);
      storeOptions := Some(so);
      initializedReducers := m;
      if name in m.entries {
        return Err(DuplicateReducer(name));
      }
      m.entries := m.entries[name := false];
      allReducers.names := allReducers.names + [name];
      r := ReinitSelf();
    }

    /** The proxy reducer `(state, action) => ...`. */
    method Step(state: Value, action: Action) returns (r: Result<Value>)
      requires Valid()
      modifies this, initializedReducers, allReducers, ActionMaps(action)
      ensures Valid()
      ensures action.InitAction? ==>
        var m := action.initializedReducers;
        && store == Some(action.store) && storeOptions == Some(action.storeOptions)
        && initializedReducers == m
        && (old(initializedReducers) != m ==> unchanged(old(initializedReducers)))
        && if name in old(m.entries) then
             && r == Err(DuplicateReducer(name))
             && m.entries == old(m.entries) && allReducers.names == old(allReducers.names)
             && initialState == old(initialState) && currentState == old(currentState)
             && changes == old(changes) && saveReducer == old(saveReducer)
             && effects == old(effects) && chains == old(chains) && nextChain == old(nextChain)
             && callbacks == old(callbacks) && nextTicket == old(nextTicket)
           else
             && allReducers.names == old(allReducers.names) + [name]
             && ReinitSelfDone(old(m.entries), r) && KeepsSaves()
      ensures action.ReinitAction? ==>
        && initializedReducers == old(initializedReducers) && allReducers.names == old(allReducers.names)
        && if !Truthy(action.reducerName) || action.reducerName == Str(name) then
             store == old(store) && storeOptions == old(storeOptions)
             && ReinitSelfDone(old(initializedReducers.entries), r) && KeepsSaves()
           else
             r == Ok(state) && unchanged(this) && unchanged(initializedReducers)
      ensures action.SetReducerAction? && action.reducer == Str(name) && Truthy(action.state) ==>
        var next := reducer(action.state, action);
        var hooks := HookCalls(OnUpdate, reducerOptions.hooks, storeOptions, name, next);
        && r == (if hooks.completed then Ok(next) else Err(PropertyOfUndefined("onUpdate")))
        && currentState == next && effects == old(effects) + hooks.calls
        && initialState == old(initialState) && store == old(store) && storeOptions == old(storeOptions)
        && initializedReducers == old(initializedReducers) && unchanged(initializedReducers)
        && changes == old(changes) && saveReducer == old(saveReducer)
        && chains == old(chains) && nextChain == old(nextChain)
        && callbacks == old(callbacks) && nextTicket == old(nextTicket)
        && allReducers.names == old(allReducers.names)
      ensures (action.SetReducerAction? && !(action.reducer == Str(name) && Truthy(action.state))) || action.OtherAction? ==>
        DefaultDone(reducer(state, action), r) && KeepsConnection() && allReducers.names == old(allReducers.names)
    {
      match action
      case InitAction(st, so, m) =>
        r := Init(st, so, m);
      case ReinitAction(reducerName) =>
        if !Truthy(reducerName) || reducerName == Str(name) {
          r := ReinitSelf();
        } else {
          r := Ok(state);
        }
      case SetReducerAction(id, s, _) =>
        if id == Str(name) && Truthy(s) {
          currentState := reducer(s, action);
          var hooks := HookCalls(OnUpdate, reducerOptions.hooks, storeOptions, name, currentState);
          effects := effects + hooks.calls;
          if !hooks.completed {
            return Err(PropertyOfUndefined("onUpdate"));
          }
          r := Ok(currentState);
        } else {
          r := Default(state, action);
        }
      case OtherAction(_, _) =>
        r := Default(state, action);
    }

    /** The `get` of chain `c` has answered. A found document is passed to
        `setReducer`, which dispatches SET_REDUCER with the decoded state
        (with no store yet, `store.dispatch` throws and the chain dies). On
        a 404 the chain's `state` is saved, encoded, and the chain waits for
        that save. Any other error is rethrown and ends the chain. */
    method LoadCompleted(c: nat, outcome: ReadOutcome)
      requires Valid()
      requires c in chains && chains[c].stage == AwaitingRead
      modifies this`chains, this`effects, this`callbacks, this`nextTicket
      ensures Valid()
      ensures var ch := old(chains[c]);
        match outcome
        case Found(doc) =>
          && callbacks == old(callbacks) && nextTicket == old(nextTicket)
          && if store.Some? then
               && effects == old(effects) + [SetReducerDispatched(Field(doc, "_id"),
                                              FromPouch(reducerOptions, Field(doc, "state")), Field(doc, "_rev"))]
               && chains == old(chains)[c := ch.(stage := AwaitingFinish)]
             else
               effects == old(effects) && chains == old(chains)[c := ch.(stage := Rejected)]
        case NotFound =>
          && effects == old(effects) + [SaveCalled(old(nextTicket), saveReducer.value, name, ToPouch(reducerOptions, ch.state))]
          && callbacks == old(callbacks)[old(nextTicket) := ResumeLoad(c)]
          && nextTicket == old(nextTicket) + 1
          && chains == old(chains)[c := ch.(stage := AwaitingInitialSave(old(nextTicket)))]
        case ReadFailed =>
          && effects == old(effects) && callbacks == old(callbacks) && nextTicket == old(nextTicket)
          && chains == old(chains)[c := ch.(stage := Rejected)]
    {
      var ch := chains[c];
      match outcome
      case Found(doc) =>
        if store.None? {
          StageKeepsInv(chains, nextChain, callbacks, nextTicket, changes, saveReducer.Some?, c, Rejected, changes);
          chains := chains[c := ch.(stage := Rejected)];
          return;
        }
        effects := effects + [SetReducerDispatched(Field(doc, "_id"),
                                FromPouch(reducerOptions, Field(doc, "state")), Field(doc, "_rev"))];
        StageKeepsInv(chains, nextChain, callbacks, nextTicket, changes, saveReducer.Some?, c, AwaitingFinish, changes);
        chains := chains[c := ch.(stage := AwaitingFinish)];
      case NotFound =>
        effects := effects + [SaveCalled(nextTicket, saveReducer.value, name, ToPouch(reducerOptions, ch.state))];
        CreateKeepsInv(chains, nextChain, callbacks, nextTicket, changes, saveReducer.Some?, c);
        chains := chains[c := ch.(stage := AwaitingInitialSave(nextTicket))];
        callbacks := callbacks[nextTicket := ResumeLoad(c)];
        nextTicket := nextTicket + 1;
      case ReadFailed =>
        StageKeepsInv(chains, nextChain, callbacks, nextTicket, changes, saveReducer.Some?, c, Rejected, changes);
        chains := chains[c := ch.(stage := Rejected)];
    }

    /** The promise of the saver call with ticket `t` has resolved and its
        `.then` runs: `onSave` of the state current at that moment, or, for
        the save of a missing document, `onSave` of the chain's `state`
        after which the chain goes on to `FinishLoad`. */
    method SaveSettled(t: nat)
      requires Valid()
      requires t in callbacks
      modifies this`callbacks, this`effects, this`chains
      ensures Valid()
      ensures callbacks == old(callbacks) - {t}
      ensures match old(callbacks[t])
        case OnSaveOfCurrent =>
          effects == old(effects) + HookCalls(OnSave, reducerOptions.hooks, storeOptions, name, currentState).calls
          && chains == old(chains)
        case OnSaveOf(s) =>
          effects == old(effects) + HookCalls(OnSave, reducerOptions.hooks, storeOptions, name, s).calls
          && chains == old(chains)
        case ResumeLoad(c) =>
          var ch := old(chains[c]);
          var hooks := HookCalls(OnSave, reducerOptions.hooks, storeOptions, name, ch.state);
          && effects == old(effects) + hooks.calls
          && chains == old(chains)[c := ch.(stage := if hooks.completed then AwaitingFinish else Rejected)]
    {
      var cb := callbacks[t];
      match cb
      case OnSaveOfCurrent =>
        SettlePlainKeepsInv(chains, nextChain, callbacks, nextTicket, changes, saveReducer.Some?, t);
        callbacks := callbacks - {t};
        effects := effects + HookCalls(OnSave, reducerOptions.hooks, storeOptions, name, currentState).calls;
      case OnSaveOf(s) =>
        SettlePlainKeepsInv(chains, nextChain, callbacks, nextTicket, changes, saveReducer.Some?, t);
        callbacks := callbacks - {t};
        effects := effects + HookCalls(OnSave, reducerOptions.hooks, storeOptions, name, s).calls;
      case ResumeLoad(c) =>
        var ch := chains[c];
        var hooks := HookCalls(OnSave, reducerOptions.hooks, storeOptions, name, ch.state);
        SettleResumeKeepsInv(chains, nextChain, callbacks, nextTicket, changes, saveReducer.Some?, t,
                             if hooks.completed then AwaitingFinish else Rejected);
        callbacks := callbacks - {t};
        effects := effects + hooks.calls;
        chains := chains[c := ch.(stage := if hooks.completed then AwaitingFinish else Rejected)];
    }

    /** The continuation after a load or a create: the reducer is marked
        initialised in its map, `onInit` runs with the current state,
        `onReady` runs iff every entry of the map is now true, and the chain
        subscribes to the change feed of this reducer's document (the
        subscription is stored in `changes`; a previous one is not
        cancelled here). */
    method FinishLoad(c: nat)
      requires Valid()
      requires c in chains && chains[c].stage == AwaitingFinish
      modifies this`chains, this`effects, this`changes, initializedReducers
      ensures Valid()
      ensures initializedReducers.entries == old(initializedReducers.entries)[name := true]
      ensures var m := initializedReducers.entries;
              var init := HookCalls(OnInit, reducerOptions.hooks, storeOptions, name, currentState);
              var ch := old(chains[c]);
              if !init.completed then
                effects == old(effects) + init.calls
                && chains == old(chains)[c := ch.(stage := Rejected)] && changes == old(changes)
              else
                var ready := forall k :: k in m ==> m[k];
                && effects == old(effects) + init.calls
                              + (if ready && storeOptions.value.onReady then [ReadyCalled] else [])
                              + [ChangesSubscribed(c, ch.db, name)]
                && changes == Some(c)
                && chains == old(chains)[c := ch.(stage := Live)]
    {
      var ch := chains[c];
      initializedReducers.entries := initializedReducers.entries[name := true];
      var init := HookCalls(OnInit, reducerOptions.hooks, storeOptions, name, currentState);
      effects := effects + init.calls;
      if !init.completed {
        StageKeepsInv(chains, nextChain, callbacks, nextTicket, changes, saveReducer.Some?, c, Rejected, changes);
        chains := chains[c := ch.(stage := Rejected)];
        return;
      }
      var ready := AllInitialized(initializedReducers.entries);
      if ready && storeOptions.value.onReady {
        effects := effects + [ReadyCalled];
      }
      StageKeepsInv(chains, nextChain, callbacks, nextTicket, changes, saveReducer.Some?, c, Live, Some(c));
      changes := Some(c);
      chains := chains[c := ch.(stage := Live)];
      effects := effects + [ChangesSubscribed(c, ch.db, name)];
    }

    /** The change feed of chain `c` delivers `doc` (the feed is filtered
        to this reducer's document). */
    method Changed(c: nat, doc: Doc)
      requires Valid()
      requires c in chains && chains[c].stage == Live
      requires Field(doc, "_id") == Str(name)
      modifies this`effects, this`callbacks, this`nextTicket
      ensures Valid()
      ensures match ChangeReaction(reducerOptions, clientHash, doc, currentState)
        case Resave =>
          && effects == old(effects) + [SaveCalled(old(nextTicket), saveReducer.value, name, ToPouch(reducerOptions, currentState))]
          && callbacks == old(callbacks)[old(nextTicket) := OnSaveOfCurrent]
          && nextTicket == old(nextTicket) + 1
        case Adopt(s) =>
          && effects == old(effects) + (if store.Some? then [SetReducerDispatched(Str(name), s, Field(doc, "_rev"))] else [])
          && callbacks == old(callbacks) && nextTicket == old(nextTicket)
        case Echo =>
          effects == old(effects) && callbacks == old(callbacks) && nextTicket == old(nextTicket)
        case NoReaction =>
          effects == old(effects) && callbacks == old(callbacks) && nextTicket == old(nextTicket)
    {
      match ChangeReaction(reducerOptions, clientHash, doc, currentState)
      case Resave =>
        effects := effects + [SaveCalled(nextTicket, saveReducer.value, name, ToPouch(reducerOptions, currentState))];
        PlainCallbackKeepsInv(chains, nextChain, callbacks, nextTicket, changes, saveReducer.Some?, OnSaveOfCurrent);
        callbacks := callbacks[nextTicket := OnSaveOfCurrent];
        nextTicket := nextTicket + 1;
      case Adopt(s) =>
        if store.Some? {
          effects := effects + [SetReducerDispatched(Str(name), s, Field(doc, "_rev"))];
        }
      case Echo =>
      case NoReaction =>
    }
  }
}
