/** The older proxy reducer of src/index.js. It differs from the one in
    lib/index.js in these ways:
    - there is one module-level map of initialised reducers, shared by every
      store, and `reinit` clears its entries itself;
    - the name is always the reducer function's name, and duplicates are
      not detected;
    - the saver is made without an origin tag;
    - the codec is Immutable.js support chosen by the first captured
      initial state;
    - the change feed has no origin filter;
    - a failing load chain ends in `console.error`. */
module LegacyProxyReducer {
  import opened Values
  import opened Save
  import opened Sync
  import ProxyReducer

  datatype Action =
    | InitAction(store: StoreRef, storeOptions: StoreOptions)
    | ReinitAction(reducerName: Value)
    | SetReducerAction(reducer: Value, state: Value, rev: Value)
    | OtherAction(kind: string, payload: Value)

  /** The Immutable.js functions the proxy uses: `Iterable.isIterable`,
      `x.toJS()`, `fromJS` and `is`. */
  datatype ImmutableSupport = ImmutableSupport(
    isImmutable: Value -> bool,
    toJS: Value -> Value,
    fromJS: Value -> Value,
    immutableIs: (Value, Value) -> bool)

  function ToPouch(support: ImmutableSupport, immutable: bool, x: Value): Value
  {
    if immutable then support.toJS(x) else x
  }

  function FromPouch(support: ImmutableSupport, immutable: bool, x: Value): Value
  {
    if immutable then support.fromJS(x) else x
  }

  /** `Immutable.is` for an Immutable state, deep equality otherwise. */
  predicate IsEqual(support: ImmutableSupport, immutable: bool, x: Value, y: Value)
  {
    if immutable then support.immutableIs(x, y) else x == y
  }

  /** For a plain (non-Immutable) state the codec is the identity and
      equality is structural equality. */
  lemma PlainCodec(support: ImmutableSupport, x: Value, y: Value)
    ensures FromPouch(support, false, ToPouch(support, false, x)) == x
    ensures IsEqual(support, false, x, y) <==> x == y
  {
  }

  /** The map after `reinit()` without a name: the same reducers, none of
      them initialised. */
  function ClearAll(entries: map<string, bool>): (r: map<string, bool>)
    ensures r.Keys == entries.Keys
    ensures forall k :: k in r ==> !r[k]
  {
    map k | k in entries :: false
  }

  /** `reinit(reducerName)`: without a name, every entry of the shared map
      is cleared; a name that is not a key of the map throws a string and
      changes nothing; a known name clears its own entry. */
  method Reinit(initialized: InitMap, reducerName: Value) returns (r: Result<Action>)
    modifies initialized
    ensures !Truthy(reducerName) ==>
      r == Ok(ReinitAction(reducerName)) && initialized.entries == ClearAll(old(initialized.entries))
    ensures Truthy(reducerName) && !(reducerName.Str? && reducerName.s in old(initialized.entries)) ==>
      r == Err(InvalidReinitName(reducerName, StringValue)) && initialized.entries == old(initialized.entries)
    ensures Truthy(reducerName) && reducerName.Str? && reducerName.s in old(initialized.entries) ==>
      r == Ok(ReinitAction(reducerName)) && initialized.entries == old(initialized.entries)[reducerName.s := false]
  {
    if !Truthy(reducerName) {
      var names := initialized.entries.Keys;
      while names != {}
        invariant names <= initialized.entries.Keys
        invariant initialized.entries.Keys == old(initialized.entries.Keys)
        invariant forall k :: k in initialized.entries && k !in names ==> !initialized.entries[k]
        decreases names
      {
        var n :| n in names;
        initialized.entries := initialized.entries[n := false];
        names := names - {n};
      }
      return Ok(ReinitAction(reducerName));
    }
    if !(reducerName.Str? && reducerName.s in initialized.entries) {
      return Err(InvalidReinitName(reducerName, StringValue));
    }
    initialized.entries := initialized.entries[reducerName.s := false];
    r := Ok(ReinitAction(reducerName));
  }

  /** The change-feed listener of src/index.js: re-save when the document
      has no `state`; otherwise adopt it whenever the stored state (not
      decoded) differs from the current one. The document's origin is not
      looked at. */
  function LegacyReaction(support: ImmutableSupport, immutable: bool, doc: Doc, current: Value): (r: LegacyReactionKind)
    ensures r == Resave <==> !Truthy(Field(doc, "state"))
    ensures r.Adopt? <==> Truthy(Field(doc, "state")) && !IsEqual(support, immutable, Field(doc, "state"), current)
    ensures r.Adopt? ==> r.state == FromPouch(support, immutable, Field(doc, "state"))
  {
    if !Truthy(Field(doc, "state")) then Resave
    else if !IsEqual(support, immutable, Field(doc, "state"), current) then
      Adopt(FromPouch(support, immutable, Field(doc, "state")))
    else NoReaction
  }

  datatype LegacyReactionKind = Resave | Adopt(state: Value) | NoReaction

  /** Without an origin check, this process's own earlier write, coming
      back through the change feed after a newer state has become current,
      is adopted: the proxy dispatches the older state. */
  lemma EchoRevertsState(support: ImmutableSupport, key: string, outcome: ReadOutcome,
                         written: Value, current: Value)
    requires outcome != ReadFailed
    requires Truthy(written) && written != current
    ensures PreparedDoc(key, outcome, Undefined, written).Some?
    ensures LegacyReaction(support, false, PreparedDoc(key, outcome, Undefined, written).value, current) == Adopt(written)
  {
  }

  /** On documents from another origin, and with the plain codec on both
      sides, the listener of src/index.js reacts as the one of lib/index.js:
      the two differ only on this process's own writes. */
  lemma AgreesWithLibOnForeignDocs(support: ImmutableSupport, options: ProxyReducer.ReducerOptions,
                                   clientHash: string, doc: Doc, current: Value)
    requires options.toPouch.None? && options.fromPouch.None? && options.isEqual.None?
    requires Field(doc, "localId") != Str(clientHash)
    ensures var lib := ProxyReducer.ChangeReaction(options, clientHash, doc, current);
            match LegacyReaction(support, false, doc, current)
            case Resave => lib == ProxyReducer.Resave
            case Adopt(s) => lib == ProxyReducer.Adopt(s)
            case NoReaction => lib == ProxyReducer.NoReaction
  {
  }

  /** The hook dispatchers of src/index.js: as in lib/index.js, except
      that each callback is passed `store.dispatch`. While there is no store,
      evaluating that argument throws before the callback runs, so no
      callback is called. */
  function LegacyHookCalls(kind: HookKind, reducerHooks: Hooks, store: Option<StoreRef>,
                           storeOptions: Option<StoreOptions>, name: string, state: Value): (r: HookResult)
    ensures store.Some? ==> r == HookCalls(kind, reducerHooks, storeOptions, name, state)
    ensures store.None? ==> r.calls == []
    ensures store.None? ==>
      (r.completed <==> !Has(reducerHooks, kind) && storeOptions.Some? && !Has(storeOptions.value.hooks, kind))
    ensures r.completed ==> storeOptions.Some?
  {
    if store.Some? then HookCalls(kind, reducerHooks, storeOptions, name, state)
    else if Has(reducerHooks, kind) || storeOptions.None? then HookResult([], false)
    else HookResult([], !Has(storeOptions.value.hooks, kind))
  }

  class LegacyReducer {
    const reducer: (Value, Action) -> Value
    /** `reducer.name`. */
    const name: string
    const support: ImmutableSupport
    const connect: (nat, string, Option<StoreRef>) -> DbRef
    /** The module-level `initializedReducers` object. */
    const initializedReducers: InitMap
    const reducerDb: DbOption
    const reducerHooks: Hooks

    var initialState: Value
    var immutable: bool
    var store: Option<StoreRef>
    var storeOptions: Option<StoreOptions>
    var changes: Option<nat>
    var saveReducer: Option<Saver>
    var currentState: Value

    var effects: seq<Effect>
    var chains: map<nat, Chain>
    var nextChain: nat
    var callbacks: map<nat, SaveCallback>
    var nextTicket: nat

    ghost predicate Valid()
      reads this
    {
      && ChainsInv(chains, nextChain, callbacks, nextTicket, changes, saveReducer.Some?)
      // INIT records the store and its options together
      && (store.None? ==> storeOptions.None?)
    }

    /** `persistentReducer(reducer, reducerOptions)`: the reducer's name is
        registered, not initialised, in the shared map, overwriting any
        entry of the same name. */
    constructor (reducer: (Value, Action) -> Value, name: string, reducerDb: DbOption, reducerHooks: Hooks,
                 support: ImmutableSupport, connect: (nat, string, Option<StoreRef>) -> DbRef,
                 initializedReducers: InitMap)
      modifies initializedReducers
      ensures Valid()
      ensures this.reducer == reducer && this.name == name && this.reducerDb == reducerDb
      ensures this.reducerHooks == reducerHooks && this.support == support && this.connect == connect
      ensures this.initializedReducers == initializedReducers
      ensures initializedReducers.entries == old(initializedReducers.entries)[name := false]
      ensures initialState == Undefined && currentState == Undefined && !immutable
      ensures store.None? && storeOptions.None? && changes.None? && saveReducer.None?
      ensures effects == [] && chains == map[] && nextChain == 0 && callbacks == map[] && nextTicket == 0
    {
      this.reducer := reducer;
      this.name := name;
      this.reducerDb := reducerDb;
      this.reducerHooks := reducerHooks;
      this.support := support;
      this.connect := connect;
      this.initializedReducers := initializedReducers;
      initialState, currentState, immutable := Undefined, Undefined, false;
      store, storeOptions, changes, saveReducer := None, None, None, None;
      effects, chains, nextChain, callbacks, nextTicket := [], map[], 0, map[], 0;
      new;
      initializedReducers.entries := initializedReducers.entries[name := false];
    }

    /** INIT, a global REINIT, or one naming this reducer:
        `reinitReducer(initialState)` cancels the previous subscription,
        resolves the connector (throwing a string when there is none),
        makes a saver without an origin tag and sends the `get`; then the
        state is reset to `initialState`. The shared map is not touched. */
    twostate predicate ReinitSelfDone(new r: Result<Value>)
      reads this
    {
      var chains0 := CancelChain(old(chains), old(changes));
      var effects0 := old(effects) + CancelEffects(old(changes));
      && match ResolveDb(reducerDb, storeOptions, connect, name, store, StringValue)
         case Err(f) =>
           && r == Err(f) && currentState == old(currentState)
           && effects == effects0 && chains == chains0
           && saveReducer == old(saveReducer) && nextChain == old(nextChain)
         case Ok(db) =>
           && r == Ok(old(initialState)) && currentState == old(initialState)
           && saveReducer == Some(Saver(db.db, Undefined))
           && chains == chains0[old(nextChain) := Chain(db.db, old(initialState), AwaitingRead)]
           && nextChain == old(nextChain) + 1
           && effects == effects0 + db.effects + [DocRequested(db.db, name)]
    }

    /** What reinitialising leaves alone: the held subscription,
        `initialState`, the codec and the pending saver callbacks. */
    twostate predicate KeepsSaves()
      reads this
    {
      && changes == old(changes) && initialState == old(initialState) && immutable == old(immutable)
      && callbacks == old(callbacks) && nextTicket == old(nextTicket)
    }

    method ReinitSelf() returns (r: Result<Value>)
      requires Valid()
      modifies this`chains, this`effects, this`saveReducer, this`nextChain, this`currentState
      ensures Valid()
      ensures store == old(store) && storeOptions == old(storeOptions)
      ensures ReinitSelfDone(r) && KeepsSaves()
    {
      CancelKeepsInv(chains, nextChain, callbacks, nextTicket, changes, saveReducer.Some?);
      chains := CancelChain(chains, changes);
      effects := effects + CancelEffects(changes);
      var resolved := ResolveDb(reducerDb, storeOptions, connect, name, store, StringValue);
      if resolved.Err? {
        return Err(resolved.failure);
      }
      var db := resolved.value;
      effects := effects + db.effects;
      NewChainKeepsInv(chains, nextChain, callbacks, nextTicket, changes, saveReducer.Some?,
                       Chain(db.db, initialState, AwaitingRead));
      saveReducer := Some(Saver(db.db, Undefined));
      chains := chains[nextChain := Chain(db.db, initialState, AwaitingRead)];
      nextChain := nextChain + 1;
      effects := effects + [DocRequested(db.db, name)];
      currentState := initialState;
      r := Ok(initialState);
    }

    /** The default case: the first truthy result of the wrapped reducer
        becomes `initialState` and decides whether the Immutable codec is
        used; the saver is called iff the shared map says this reducer is
        initialised and the new state is not equal to the current one, and
        the `onSave` of that save is for this new state. A throw from the
        saver call (no saver yet) comes before the new state is stored. */
    twostate predicate DefaultDone(next: Value, new r: Result<Value>)
      reads this, initializedReducers
    {
      var capture := !Truthy(old(initialState));
      var codec := if capture then support.isImmutable(next) else old(immutable);
      var m := initializedReducers.entries;
      var saves := name in m && m[name] && !IsEqual(support, codec, next, old(currentState));
      && initialState == (if capture then next else old(initialState))
      && immutable == codec
      && if !saves then
           && r == Ok(next) && currentState == next
           && effects == old(effects) && callbacks == old(callbacks) && nextTicket == old(nextTicket)
         else if saveReducer.None? then
           && r == Err(NotAFunction("saveReducer")) && currentState == old(currentState)
           && effects == old(effects) && callbacks == old(callbacks) && nextTicket == old(nextTicket)
         else
           && r == Ok(next) && currentState == next
           && effects == old(effects) + [SaveCalled(old(nextTicket), saveReducer.value, name, ToPouch(support, codec, next))]
           && callbacks == old(callbacks)[old(nextTicket) := OnSaveOf(next)]
           && nextTicket == old(nextTicket) + 1
    }

    /** What the default case leaves alone: the store, the subscription,
        the saver and the chains. */
    twostate predicate KeepsConnection()
      reads this
    {
      && store == old(store) && storeOptions == old(storeOptions)
      && changes == old(changes) && saveReducer == old(saveReducer)
      && chains == old(chains) && nextChain == old(nextChain)
    }

    method Default(state: Value, action: Action) returns (r: Result<Value>)
      requires Valid()
      modifies this`initialState, this`immutable, this`currentState, this`effects, this`callbacks, this`nextTicket
      ensures Valid()
      ensures DefaultDone(reducer(state, action), r)
    {
      var nextState := reducer(state, action);
      if !Truthy(initialState) {
        initialState := nextState;
        immutable := support.isImmutable(initialState);
      }
      var isInitialized := name in initializedReducers.entries && initializedReducers.entries[name];
      if isInitialized && !IsEqual(support, immutable, nextState, currentState) {
        if saveReducer.None? {
          return Err(NotAFunction("saveReducer"));
        }
        effects := effects + [SaveCalled(nextTicket, saveReducer.value, name, ToPouch(support, immutable, nextState))];
        PlainCallbackKeepsInv(chains, nextChain, callbacks, nextTicket, changes, true, OnSaveOf(nextState));
        callbacks := callbacks[nextTicket := OnSaveOf(nextState)];
        nextTicket := nextTicket + 1;
      }
      currentState := nextState;
      r := Ok(currentState);
    }

    /** The proxy reducer `(state, action) => ...`. */
    method Step(state: Value, action: Action) returns (r: Result<Value>)
      requires Valid()
      modifies this
      ensures Valid()
      ensures action.InitAction? ==>
        && store == Some(action.store) && storeOptions == Some(action.storeOptions)
        && ReinitSelfDone(r) && KeepsSaves()
      ensures action.ReinitAction? ==>
        && store == old(store) && storeOptions == old(storeOptions)
        && if !Truthy(action.reducerName) || action.reducerName == Str(name) then ReinitSelfDone(r) && KeepsSaves()
           else r == Ok(state) && unchanged(this)
      ensures action.SetReducerAction? && action.reducer == Str(name) && Truthy(action.state) ==>
        var next := reducer(action.state, action);
        var hooks := LegacyHookCalls(OnUpdate, reducerHooks, store, storeOptions, name, next);
        // without a store, the reducer's hook fails on `store.dispatch`;
        // otherwise the missing store options fail on `.onUpdate`
        var failure := if store.None? && Has(reducerHooks, OnUpdate) then "dispatch" else "onUpdate";
        && r == (if hooks.completed then Ok(next) else Err(PropertyOfUndefined(failure)))
        && currentState == next && effects == old(effects) + hooks.calls
        && initialState == old(initialState) && immutable == old(immutable)
        && store == old(store) && storeOptions == old(storeOptions)
        && changes == old(changes) && saveReducer == old(saveReducer)
        && chains == old(chains) && nextChain == old(nextChain)
        && callbacks == old(callbacks) && nextTicket == old(nextTicket)
      ensures (action.SetReducerAction? && !(action.reducer == Str(name) && Truthy(action.state))) || action.OtherAction? ==>
        DefaultDone(reducer(state, action), r) && KeepsConnection()
    {
      match action
      case InitAction(st, so) =>
        store := Some(st);
        storeOptions := Some(so);
        r := ReinitSelf();
      case ReinitAction(reducerName) =>
        if !Truthy(reducerName) || reducerName == Str(name) {
          r := ReinitSelf();
        } else {
          r := Ok(state);
        }
      case SetReducerAction(id, s, _) =>
        if id == Str(name) && Truthy(s) {
          currentState := reducer(s, action);
          var hooks := LegacyHookCalls(OnUpdate, reducerHooks, store, storeOptions, name, currentState);
          effects := effects + hooks.calls;
          if !hooks.completed {
            if store.None? && Has(reducerHooks, OnUpdate) {
              return Err(PropertyOfUndefined("dispatch"));
            }
            return Err(PropertyOfUndefined("onUpdate"));
          }
          r := Ok(currentState);
        } else {
          r := Default(state, action);
        }
      case OtherAction(_, _) =>
        r := Default(state, action);
    }

    /** The `get` of chain `c` has answered. A found document is decoded and
        dispatched as SET_REDUCER; with no store yet the dispatch throws, and
        the error ends the chain in `console.error`. A 404 saves the chain's
        `state`, encoded; any other error is logged and ends the chain. */
    method LoadCompleted(c: nat, outcome: ReadOutcome)
      requires Valid()
      requires c in chains && chains[c].stage == AwaitingRead
      modifies this`chains, this`effects, this`callbacks, this`nextTicket
      ensures Valid()
      ensures var ch := old(chains[c]);
        match outcome
        case Found(doc) =>
          && callbacks == old(callbacks) && nextTicket == old(nextTicket)
          && if store.Some? then
               && effects == old(effects) + [SetReducerDispatched(Field(doc, "_id"),
                                              FromPouch(support, immutable, Field(doc, "state")), Field(doc, "_rev"))]
               && chains == old(chains)[c := ch.(stage := AwaitingFinish)]
             else
               effects == old(effects) + [ErrorLogged] && chains == old(chains)[c := ch.(stage := Rejected)]
        case NotFound =>
          && effects == old(effects) + [SaveCalled(old(nextTicket), saveReducer.value, name, ToPouch(support, immutable, ch.state))]
          && callbacks == old(callbacks)[old(nextTicket) := ResumeLoad(c)]
          && nextTicket == old(nextTicket) + 1
          && chains == old(chains)[c := ch.(stage := AwaitingInitialSave(old(nextTicket)))]
        case ReadFailed =>
          && effects == old(effects) + [ErrorLogged] && callbacks == old(callbacks) && nextTicket == old(nextTicket)
          && chains == old(chains)[c := ch.(stage := Rejected)]
    {
      var ch := chains[c];
      match outcome
      case Found(doc) =>
        if store.None? {
          StageKeepsInv(chains, nextChain, callbacks, nextTicket, changes, saveReducer.Some?, c, Rejected, changes);
          effects := effects + [ErrorLogged];
          chains := chains[c := ch.(stage := Rejected)];
          return;
        }
        effects := effects + [SetReducerDispatched(Field(doc, "_id"),
                                FromPouch(support, immutable, Field(doc, "state")), Field(doc, "_rev"))];
        StageKeepsInv(chains, nextChain, callbacks, nextTicket, changes, saveReducer.Some?, c, AwaitingFinish, changes);
        chains := chains[c := ch.(stage := AwaitingFinish)];
      case NotFound =>
        effects := effects + [SaveCalled(nextTicket, saveReducer.value, name, ToPouch(support, immutable, ch.state))];
        CreateKeepsInv(chains, nextChain, callbacks, nextTicket, changes, saveReducer.Some?, c);
        chains := chains[c := ch.(stage := AwaitingInitialSave(nextTicket))];
        callbacks := callbacks[nextTicket := ResumeLoad(c)];
        nextTicket := nextTicket + 1;
      case ReadFailed =>
        StageKeepsInv(chains, nextChain, callbacks, nextTicket, changes, saveReducer.Some?, c, Rejected, changes);
        effects := effects + [ErrorLogged];
        chains := chains[c := ch.(stage := Rejected)];
    }

    /** The promise of the saver call with ticket `t` has resolved: `onSave`
        of the state that call saved (or, from the change feed, of the state
        current now); for the save of a missing document the chain goes on,
        or, when `onSave` throws, logs the error and ends. */
    method SaveSettled(t: nat)
      requires Valid()
      requires t in callbacks
      modifies this`callbacks, this`effects, this`chains
      ensures Valid()
      ensures callbacks == old(callbacks) - {t}
      ensures match old(callbacks[t])
        case OnSaveOfCurrent =>
          effects == old(effects) + LegacyHookCalls(OnSave, reducerHooks, store, storeOptions, name, currentState).calls
          && chains == old(chains)
        case OnSaveOf(s) =>
          effects == old(effects) + LegacyHookCalls(OnSave, reducerHooks, store, storeOptions, name, s).calls
          && chains == old(chains)
        case ResumeLoad(c) =>
          var ch := old(chains[c]);
          var hooks := LegacyHookCalls(OnSave, reducerHooks, store, storeOptions, name, ch.state);
          && effects == old(effects) + hooks.calls + (if hooks.completed then [] else [ErrorLogged])
          && chains == old(chains)[c := ch.(stage := if hooks.completed then AwaitingFinish else Rejected)]
    {
      var cb := callbacks[t];
      match cb
      case OnSaveOfCurrent =>
        SettlePlainKeepsInv(chains, nextChain, callbacks, nextTicket, changes, saveReducer.Some?, t);
        callbacks := callbacks - {t};
        effects := effects + LegacyHookCalls(OnSave, reducerHooks, store, storeOptions, name, currentState).calls;
      case OnSaveOf(s) =>
        SettlePlainKeepsInv(chains, nextChain, callbacks, nextTicket, changes, saveReducer.Some?, t);
        callbacks := callbacks - {t};
        effects := effects + LegacyHookCalls(OnSave, reducerHooks, store, storeOptions, name, s).calls;
      case ResumeLoad(c) =>
        var ch := chains[c];
        var hooks := LegacyHookCalls(OnSave, reducerHooks, store, storeOptions, name, ch.state);
        SettleResumeKeepsInv(chains, nextChain, callbacks, nextTicket, changes, saveReducer.Some?, t,
                             if hooks.completed then AwaitingFinish else Rejected);
        callbacks := callbacks - {t};
        effects := effects + hooks.calls;
        if hooks.completed {
          chains := chains[c := ch.(stage := AwaitingFinish)];
        } else {
          effects := effects + [ErrorLogged];
          chains := chains[c := ch.(stage := Rejected)];
        }
    }

    /** The continuation after a load or a create: the reducer is marked
        initialised in the shared map, `onInit` runs with the current
        state, `onReady` runs iff every reducer of every store is now
        initialised, and the chain subscribes to the change feed. A throw
        from `onInit` is logged and ends the chain. */
    method FinishLoad(c: nat)
      requires Valid()
      requires c in chains && chains[c].stage == AwaitingFinish
      modifies this`chains, this`effects, this`changes, initializedReducers
      ensures Valid()
      ensures initializedReducers.entries == old(initializedReducers.entries)[name := true]
      ensures var m := initializedReducers.entries;
              var init := LegacyHookCalls(OnInit, reducerHooks, store, storeOptions, name, currentState);
              var ch := old(chains[c]);
              if !init.completed then
                effects == old(effects) + init.calls + [ErrorLogged]
                && chains == old(chains)[c := ch.(stage := Rejected)] && changes == old(changes)
              else
                var ready := forall k :: k in m ==> m[k];
                && effects == old(effects) + init.calls
                              + (if ready && storeOptions.value.onReady then [ReadyCalled] else [])
                              + [ChangesSubscribed(c, ch.db, name)]
                && changes == Some(c)
                && chains == old(chains)[c := ch.(stage := Live)]
    {
      var ch := chains[c];
      initializedReducers.entries := initializedReducers.entries[name := true];
      var init := LegacyHookCalls(OnInit, reducerHooks, store, storeOptions, name, currentState);
      effects := effects + init.calls;
      if !init.completed {
        StageKeepsInv(chains, nextChain, callbacks, nextTicket, changes, saveReducer.Some?, c, Rejected, changes);
        effects := effects + [ErrorLogged];
        chains := chains[c := ch.(stage := Rejected)];
        return;
      }
      var ready := AllInitialized(initializedReducers.entries);
      if ready && storeOptions.value.onReady {
        effects := effects + [ReadyCalled];
      }
      StageKeepsInv(chains, nextChain, callbacks, nextTicket, changes, saveReducer.Some?, c, Live, Some(c));
      changes := Some(c);
      chains := chains[c := ch.(stage := Live)];
      effects := effects + [ChangesSubscribed(c, ch.db, name)];
    }

    /** The change feed of chain `c` delivers `doc`. */
    method Changed(c: nat, doc: Doc)
      requires Valid()
      requires c in chains && chains[c].stage == Live
      requires Field(doc, "_id") == Str(name)
      modifies this`effects, this`callbacks, this`nextTicket
      ensures Valid()
      ensures match LegacyReaction(support, immutable, doc, currentState)
        case Resave =>
          && effects == old(effects) + [SaveCalled(old(nextTicket), saveReducer.value, name, ToPouch(support, immutable, currentState))]
          && callbacks == old(callbacks)[old(nextTicket) := OnSaveOfCurrent]
          && nextTicket == old(nextTicket) + 1
        case Adopt(s) =>
          && effects == old(effects) + (if store.Some? then [SetReducerDispatched(Str(name), s, Field(doc, "_rev"))] else [])
          && callbacks == old(callbacks) && nextTicket == old(nextTicket)
        case NoReaction =>
          effects == old(effects) && callbacks == old(callbacks) && nextTicket == old(nextTicket)
    {
      match LegacyReaction(support, immutable, doc, currentState)
      case Resave =>
        effects := effects + [SaveCalled(nextTicket, saveReducer.value, name, ToPouch(support, immutable, currentState))];
        PlainCallbackKeepsInv(chains, nextChain, callbacks, nextTicket, changes, saveReducer.Some?, OnSaveOfCurrent);
        callbacks := callbacks[nextTicket := OnSaveOfCurrent];
        nextTicket := nextTicket + 1;
      case Adopt(s) =>
        if store.Some? {
          effects := effects + [SetReducerDispatched(Str(name), s, Field(doc, "_rev"))];
        }
      case NoReaction =>
    }
  }
}
