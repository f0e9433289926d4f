/** The per-key save queue of save.js. The two module-level dictionaries
    `isSaving` and `unpersistedQueue` are shared by every saver the factory
    makes, so one `SaveQueue` object stands for the module. A saver (the
    closure `saveReducer` returned by the factory) is a `Saver` value: the
    database connection and origin tag it was made with.

    The promise chain started for a key is an outstanding `Write`; the
    database's answers are the event methods `ReadCompleted` and
    `PutCompleted`. */
module Save {
  import opened Values

  /** Identity of a database connection. */
  type DbRef = nat

  /** The closure made by `save(db, localId)`. */
  datatype Saver = Saver(db: DbRef, localId: Value)

  /** How `db.get(key)` ends: the stored document, a 404, or any other error. */
  datatype ReadOutcome = Found(doc: Doc) | NotFound | ReadFailed

  /** A request the queue sends to a database. */
  datatype DbRequest = Get(db: DbRef, id: string) | Put(db: DbRef, doc: Doc)

  /** Where an outstanding write chain is: waiting for its `get` or for its `put`. */
  datatype Stage = Reading | Putting(doc: Doc)

  /** The write chain of one key: the saver whose closure runs it, the state
      it writes, and its stage. */
  datatype Write = Write(saver: Saver, state: Value, stage: Stage)

  /** The document the chain hands to `put`: the fetched document, or
      `{_id: key}` on a 404, with `localId` and `state` overwritten and every
      other field kept. After any other read error the chain has no
      document (`doc` is `undefined`, so setting its fields throws) and no
      `put` happens. */
  function PreparedDoc(key: string, outcome: ReadOutcome, localId: Value, state: Value): (d: Option<Doc>)
    ensures d.None? <==> outcome.ReadFailed?
    ensures d.Some? ==> "localId" in d.value && d.value["localId"] == localId
    ensures d.Some? ==> "state" in d.value && d.value["state"] == state
    ensures outcome.Found? ==> d.Some? && d.value.Keys == outcome.doc.Keys + {"localId", "state"}
    ensures outcome.Found? ==>
      forall f :: f in outcome.doc && f != "localId" && f != "state" ==> d.value[f] == outcome.doc[f]
    ensures outcome.NotFound? ==>
      d.Some? && d.value.Keys == {"_id", "localId", "state"} && d.value["_id"] == Str(key)
  {
    match outcome
    case ReadFailed => None
    case NotFound => Some(map["_id" := Str(key)]["localId" := localId]["state" := state])
    case Found(doc) => Some(doc["localId" := localId]["state" := state])
  }

  /** The entry of a key in a map of sequences (`[]` when it has none):
      the queue of a key, or the log of a key. */
  function Entry(m: map<string, seq<Value>>, key: string): seq<Value>
  {
    if key in m then m[key] else []
  }

  /** `isSaving[key]` is truthy. */
  predicate IsBusy(isSaving: map<string, bool>, key: string)
  {
    key in isSaving && isSaving[key]
  }

  /** The state the outstanding write of `key` carries, if there is one. */
  ghost function InFlight(writes: map<string, Write>, key: string): seq<Value>
  {
    if key in writes then [writes[key].state] else []
  }

  /** The invariant of the save queue at one key, over the two module maps,
      the outstanding writes and the ghost logs of what was requested, what
      settled, what was persisted and which keys ever failed. */
  ghost predicate KeyInv(isSaving: map<string, bool>, queue: map<string, seq<Value>>,
                         writes: map<string, Write>, requested: map<string, seq<Value>>,
                         settled: map<string, seq<Value>>, persisted: map<string, seq<Value>>,
                         failed: set<string>, k: string)
  {
    // a flag is either set to true or deleted
    && (k in isSaving ==> isSaving[k])
    // an outstanding write keeps its key busy, so there is at most one per key
    && (k in writes ==> IsBusy(isSaving, k))
    // only a busy key has queued states
    && (Entry(queue, k) != [] ==> IsBusy(isSaving, k))
    // a busy key without a running write is one whose write failed
    && (IsBusy(isSaving, k) && k !in writes ==> k in failed)
    // while nothing failed for the key, every settled write of it was persisted
    && (k !in failed ==> Entry(persisted, k) == Entry(settled, k))
    // requests are written in order: settled ones, then the one in flight, then the queued ones
    && Entry(requested, k) == Entry(settled, k) + InFlight(writes, k) + Entry(queue, k)
  }

  ghost predicate QueueInv(isSaving: map<string, bool>, queue: map<string, seq<Value>>,
                           writes: map<string, Write>, requested: map<string, seq<Value>>,
                           settled: map<string, seq<Value>>, persisted: map<string, seq<Value>>,
                           failed: set<string>)
  {
    forall k :: KeyInv(isSaving, queue, writes, requested, settled, persisted, failed, k)
  }

  /** A save to a busy key appends to that key's queue and its request log
      and keeps the invariant. */
  lemma EnqueueKeepsInv(isSaving: map<string, bool>, queue: map<string, seq<Value>>,
                        writes: map<string, Write>, requested: map<string, seq<Value>>,
                        settled: map<string, seq<Value>>, persisted: map<string, seq<Value>>,
                        failed: set<string>, key: string, state: Value)
    requires QueueInv(isSaving, queue, writes, requested, settled, persisted, failed)
    requires IsBusy(isSaving, key)
    ensures QueueInv(isSaving, queue[key := Entry(queue, key) + [state]], writes,
                     requested[key := Entry(requested, key) + [state]], settled, persisted, failed)
  {
    var queue', requested' := queue[key := Entry(queue, key) + [state]], requested[key := Entry(requested, key) + [state]];
    forall k ensures KeyInv(isSaving, queue', writes, requested', settled, persisted, failed, k) {
      assert KeyInv(isSaving, queue, writes, requested, settled, persisted, failed, k);
    }
  }

  /** A save to an idle key starts a write of it and keeps the invariant. */
  lemma StartKeepsInv(isSaving: map<string, bool>, queue: map<string, seq<Value>>,
                      writes: map<string, Write>, requested: map<string, seq<Value>>,
                      settled: map<string, seq<Value>>, persisted: map<string, seq<Value>>,
                      failed: set<string>, key: string, w: Write)
    requires QueueInv(isSaving, queue, writes, requested, settled, persisted, failed)
    requires !IsBusy(isSaving, key)
    ensures key !in writes && Entry(queue, key) == []
    ensures QueueInv(isSaving[key := true], queue, writes[key := w],
                     requested[key := Entry(requested, key) + [w.state]], settled, persisted, failed)
  {
    assert KeyInv(isSaving, queue, writes, requested, settled, persisted, failed, key);
    var isSaving', writes', requested' := isSaving[key := true], writes[key := w], requested[key := Entry(requested, key) + [w.state]];
    forall k ensures KeyInv(isSaving', queue, writes', requested', settled, persisted, failed, k) {
      assert KeyInv(isSaving, queue, writes, requested, settled, persisted, failed, k);
    }
  }

  /** A failed write chain, as save.js ends it: the state is settled but
      not persisted, the key is recorded as failed, and the key stays busy. */
  lemma AbandonKeepsInv(isSaving: map<string, bool>, queue: map<string, seq<Value>>,
                        writes: map<string, Write>, requested: map<string, seq<Value>>,
                        settled: map<string, seq<Value>>, persisted: map<string, seq<Value>>,
                        failed: set<string>, key: string)
    requires QueueInv(isSaving, queue, writes, requested, settled, persisted, failed)
    requires key in writes
    ensures QueueInv(isSaving, queue, writes - {key}, requested,
                     settled[key := Entry(settled, key) + [writes[key].state]], persisted, failed + {key})
  {
    var settled' := settled[key := Entry(settled, key) + [writes[key].state]];
    forall k ensures KeyInv(isSaving, queue, writes - {key}, requested, settled', persisted, failed + {key}, k) {
      assert KeyInv(isSaving, queue, writes, requested, settled, persisted, failed, k);
    }
  }

  /** A write chain whose key is released with nothing queued: the flag is
      deleted and the key is idle. `persisted'` is `persisted` with the state
      appended (a successful `put`), or `persisted` with the key recorded as
      failed. */
  lemma ReleaseIdleKeepsInv(isSaving: map<string, bool>, queue: map<string, seq<Value>>,
                            writes: map<string, Write>, requested: map<string, seq<Value>>,
                            settled: map<string, seq<Value>>, persisted: map<string, seq<Value>>,
                            failed: set<string>, key: string, ok: bool)
    requires QueueInv(isSaving, queue, writes, requested, settled, persisted, failed)
    requires key in writes && Entry(queue, key) == []
    ensures var w := writes[key];
            QueueInv(isSaving - {key}, queue, writes - {key}, requested,
                     settled[key := Entry(settled, key) + [w.state]],
                     if ok then persisted[key := Entry(persisted, key) + [w.state]] else persisted,
                     if ok then failed else failed + {key})
  {
    var w := writes[key];
    var settled' := settled[key := Entry(settled, key) + [w.state]];
    var persisted' := if ok then persisted[key := Entry(persisted, key) + [w.state]] else persisted;
    var failed' := if ok then failed else failed + {key};
    forall k ensures KeyInv(isSaving - {key}, queue, writes - {key}, requested, settled', persisted', failed', k) {
      assert KeyInv(isSaving, queue, writes, requested, settled, persisted, failed, k);
    }
  }

  /** A write chain whose key is released while states are queued: the
      recursive `saveReducer` on the shifted head finds the key idle, so the
      key is busy again at once and the head is in flight. */
  lemma ReleaseDrainKeepsInv(isSaving: map<string, bool>, queue: map<string, seq<Value>>,
                             writes: map<string, Write>, requested: map<string, seq<Value>>,
                             settled: map<string, seq<Value>>, persisted: map<string, seq<Value>>,
                             failed: set<string>, key: string, ok: bool)
    requires QueueInv(isSaving, queue, writes, requested, settled, persisted, failed)
    requires key in writes && Entry(queue, key) != []
    ensures var w := writes[key];
            var q := Entry(queue, key);
            QueueInv(isSaving, queue[key := q[1..]], writes[key := Write(w.saver, q[0], Reading)], requested,
                     settled[key := Entry(settled, key) + [w.state]],
                     if ok then persisted[key := Entry(persisted, key) + [w.state]] else persisted,
                     if ok then failed else failed + {key})
  {
    var w := writes[key];
    var q := Entry(queue, key);
    var settled' := settled[key := Entry(settled, key) + [w.state]];
    var persisted' := if ok then persisted[key := Entry(persisted, key) + [w.state]] else persisted;
    var failed' := if ok then failed else failed + {key};
    var queue' := queue[key := q[1..]];
    var writes' := writes[key := Write(w.saver, q[0], Reading)];
    forall k ensures KeyInv(isSaving, queue', writes', requested, settled', persisted', failed', k) {
      assert KeyInv(isSaving, queue, writes, requested, settled, persisted, failed, k);
      if k == key {
        ShiftHead(Entry(settled, k), w.state, q);
      }
    }
  }

  /** Moving the head of the queue into flight keeps the order of states. */
  lemma ShiftHead(settled: seq<Value>, state: Value, q: seq<Value>)
    requires q != []
    ensures settled + [state] + q == (settled + [state]) + [q[0]] + q[1..]
  {
    assert q == [q[0]] + q[1..];
  }

  /** Every busy key has a write chain running for it, so some answer of
      the database will release it. */
  predicate NoStuck(isSaving: map<string, bool>, writes: map<string, Write>)
  {
    forall k :: k in isSaving && isSaving[k] ==> k in writes
  }

  /** While no write chain has failed, no key is stuck. */
  lemma NoFailureNoStuck(isSaving: map<string, bool>, queue: map<string, seq<Value>>,
                         writes: map<string, Write>, requested: map<string, seq<Value>>,
                         settled: map<string, seq<Value>>, persisted: map<string, seq<Value>>)
    requires QueueInv(isSaving, queue, writes, requested, settled, persisted, {})
    ensures NoStuck(isSaving, writes)
  {
    forall k | IsBusy(isSaving, k) ensures k in writes {
      assert KeyInv(isSaving, queue, writes, requested, settled, persisted, {}, k);
    }
  }

  /** When no key is busy (`inSync()` holds), every state ever saved to a key
      whose writes never failed has been persisted, in call order. */
  lemma InSyncMeansPersisted(isSaving: map<string, bool>, queue: map<string, seq<Value>>,
                             writes: map<string, Write>, requested: map<string, seq<Value>>,
                             settled: map<string, seq<Value>>, persisted: map<string, seq<Value>>,
                             failed: set<string>)
    requires QueueInv(isSaving, queue, writes, requested, settled, persisted, failed)
    requires forall k :: k in isSaving ==> !isSaving[k]
    ensures forall k :: k !in failed ==> Entry(persisted, k) == Entry(requested, k)
  {
    forall k | k !in failed ensures Entry(persisted, k) == Entry(requested, k) {
      assert KeyInv(isSaving, queue, writes, requested, settled, persisted, failed, k);
    }
  }

  /** Releasing a key at the end of its chain, with or without a queued
      state to write next, leaves no key stuck. */
  lemma ReleaseKeepsNoStuck(isSaving: map<string, bool>, queue: map<string, seq<Value>>,
                            writes: map<string, Write>, key: string)
    requires key in writes
    ensures NoStuck(isSaving, writes) ==> NoStuck(isSaving - {key}, writes - {key})
    ensures NoStuck(isSaving, writes) && Entry(queue, key) != [] ==>
      NoStuck(isSaving[key := true], writes[key := Write(writes[key].saver, Entry(queue, key)[0], Reading)])
  {
  }

  class SaveQueue {
    /** `isSaving`: key ↦ a write chain is running (or has died) for it. */
    var isSaving: map<string, bool>
    /** `unpersistedQueue`: key ↦ states requested while the key was busy. */
    var unpersistedQueue: map<string, seq<Value>>
    /** The outstanding write chain of each key. */
    var writes: map<string, Write>
    /** Every `get` and `put` sent to a database, in order. */
    var requests: seq<DbRequest>

    /** Every state passed to a save of the key, in call order. */
    ghost var requested: map<string, seq<Value>>
    /** States whose write chain has ended, successfully or not, in order. */
    ghost var settled: map<string, seq<Value>>
    /** States whose `put` succeeded, in order. */
    ghost var persisted: map<string, seq<Value>>
    /** Keys whose write chain has ever failed. */
    ghost var failed: set<string>

    ghost predicate Valid()
      reads this
    {
      QueueInv(isSaving, unpersistedQueue, writes, requested, settled, persisted, failed)
    }

    ghost predicate NoStuckKeys()
      reads this
    {
      NoStuck(isSaving, writes)
    }

    constructor ()
      ensures Valid() && NoStuckKeys()
      ensures isSaving == map[] && unpersistedQueue == map[] && writes == map[] && requests == []
      ensures requested == map[] && settled == map[] && persisted == map[] && failed == {}
    {
      isSaving, unpersistedQueue, writes, requests := map[], map[], map[], [];
      requested, settled, persisted, failed := map[], map[], map[], {};
    }

    /** `inSync()`: no key has a truthy `isSaving` entry. Stops at the first
        busy key. */
    method InSync() returns (r: bool)
      ensures r <==> forall k :: k in isSaving ==> !isSaving[k]
    {
      var keys := isSaving.Keys;
      while keys != {}
        invariant keys <= isSaving.Keys
        invariant forall k :: k in isSaving && k !in keys ==> !isSaving[k]
        decreases keys
      {
        var n :| n in keys;
        if isSaving[n] {
          return false;
        }
        keys := keys - {n};
      }
      return true;
    }

    /** `saveReducer(key, state)` of `saver`. A busy key only gets `state`
        appended to its queue (and the call resolves at once); an idle key
        becomes busy and exactly one write of `state` starts with its `get`. */
    method SaveReducer(saver: Saver, key: string, state: Value)
      requires Valid()
      modifies this
      ensures Valid()
      ensures old(NoStuckKeys()) ==> NoStuckKeys()
      ensures requested == old(requested)[key := Entry(old(requested), key) + [state]]
      ensures settled == old(settled) && persisted == old(persisted) && failed == old(failed)
      ensures old(IsBusy(isSaving, key)) ==>
        && unpersistedQueue == old(unpersistedQueue)[key := Entry(old(unpersistedQueue), key) + [state]]
        && isSaving == old(isSaving) && writes == old(writes) && requests == old(requests)
      ensures !old(IsBusy(isSaving, key)) ==>
        && key !in old(writes)
        && isSaving == old(isSaving)[key := true]
        && writes == old(writes)[key := Write(saver, state, Reading)]
        && requests == old(requests) + [Get(saver.db, key)]
        && unpersistedQueue == old(unpersistedQueue)
    {
      if IsBusy(isSaving, key) {
        EnqueueKeepsInv(isSaving, unpersistedQueue, writes, requested, settled, persisted, failed, key, state);
        unpersistedQueue := unpersistedQueue[key := Entry(unpersistedQueue, key) + [state]];
        requested := requested[key := Entry(requested, key) + [state]];
        return;
      }
      StartKeepsInv(isSaving, unpersistedQueue, writes, requested, settled, persisted, failed,
                    key, Write(saver, state, Reading));
      isSaving := isSaving[key := true];
      writes := writes[key := Write(saver, state, Reading)];
      requests := requests + [Get(saver.db, key)];
      requested := requested[key := Entry(requested, key) + [state]];
    }

    /** The `get` of `key`'s chain has answered. A found document or a 404
        yields the document to write and the `put` is sent; any other error
        ends the chain as a failure, which releases the key. */
    method ReadCompleted(key: string, outcome: ReadOutcome)
      requires Valid()
      requires key in writes && writes[key].stage.Reading?
      modifies this
      ensures Valid()
      ensures old(NoStuckKeys()) ==> NoStuckKeys()
      ensures var w := old(writes[key]);
              var d := PreparedDoc(key, outcome, w.saver.localId, w.state);
              if d.Some? then
                && writes == old(writes)[key := Write(w.saver, w.state, Putting(d.value))]
                && requests == old(requests) + [Put(w.saver.db, d.value)]
                && isSaving == old(isSaving) && unpersistedQueue == old(unpersistedQueue)
                && requested == old(requested) && settled == old(settled)
                && persisted == old(persisted) && failed == old(failed)
              else
                FinishedCorrected(key, false)
    {
      var w := writes[key];
      var d := PreparedDoc(key, outcome, w.saver.localId, w.state);
      if d.Some? {
        writes := writes[key := Write(w.saver, w.state, Putting(d.value))];
        requests := requests + [Put(w.saver.db, d.value)];
        forall k ensures KeyInv(isSaving, unpersistedQueue, writes, requested, settled, persisted, failed, k) {
          assert KeyInv(isSaving, unpersistedQueue, old(writes), requested, settled, persisted, failed, k);
        }
      } else {
        FinishCorrected(key, false);
      }
    }

    /** The `put` of `key`'s chain has answered, successfully or not. */
    method PutCompleted(key: string, ok: bool)
      requires Valid()
      requires key in writes && writes[key].stage.Putting?
      modifies this
      ensures Valid()
      ensures old(NoStuckKeys()) ==> NoStuckKeys()
      ensures FinishedCorrected(key, ok)
    {
      FinishCorrected(key, ok);
    }

    /** What the end of `key`'s chain leaves behind, as save.js does it. On
        success the flag is deleted and, when the queue is non-empty, its
        oldest state is shifted off and written next by the same saver, so
        the key is busy again at once. On failure the error is only logged:
        the flag stays set and the queue is not drained. */
    twostate predicate FinishedAsWritten(key: string, ok: bool)
      reads this
      requires old(key in writes)
    {
      var w := old(writes[key]);
      var q := Entry(old(unpersistedQueue), key);
      && requested == old(requested)
      && settled == old(settled)[key := Entry(old(settled), key) + [w.state]]
      && (if ok then
            && persisted == old(persisted)[key := Entry(old(persisted), key) + [w.state]]
            && failed == old(failed)
            && (if q != [] then
                  && isSaving == old(isSaving)
                  && writes == old(writes)[key := Write(w.saver, q[0], Reading)]
                  && unpersistedQueue == old(unpersistedQueue)[key := q[1..]]
                  && requests == old(requests) + [Get(w.saver.db, key)]
                else
                  && isSaving == old(isSaving) - {key}
                  && writes == old(writes) - {key}
                  && unpersistedQueue == old(unpersistedQueue)
                  && requests == old(requests))
          else
            && persisted == old(persisted)
            && failed == old(failed) + {key}
            && isSaving == old(isSaving) && IsBusy(isSaving, key)
            && writes == old(writes) - {key}
            && unpersistedQueue == old(unpersistedQueue)
            && requests == old(requests))
    }

    /** The end of `key`'s write chain as save.js writes it. A failure
        leaves the key stuck: busy, with no chain that could release it. */
    method Finish(key: string, ok: bool)
      requires Valid()
      requires key in writes
      requires ok ==> writes[key].stage.Putting?
      modifies this
      ensures Valid()
      ensures FinishedAsWritten(key, ok)
      ensures !ok ==> !NoStuckKeys()
    {
      var w := writes[key];
      assert KeyInv(isSaving, unpersistedQueue, writes, requested, settled, persisted, failed, key);
      if !ok {
        AbandonKeepsInv(isSaving, unpersistedQueue, writes, requested, settled, persisted, failed, key);
        settled := settled[key := Entry(settled, key) + [w.state]];
        writes := writes - {key};
        failed := failed + {key};
        return;
      }
      if Entry(unpersistedQueue, key) == [] {
        ReleaseIdleKeepsInv(isSaving, unpersistedQueue, writes, requested, settled, persisted, failed, key, true);
      } else {
        ReleaseDrainKeepsInv(isSaving, unpersistedQueue, writes, requested, settled, persisted, failed, key, true);
      }
      settled := settled[key := Entry(settled, key) + [w.state]];
      persisted := persisted[key := Entry(persisted, key) + [w.state]];
      isSaving := isSaving - {key};
      if key in unpersistedQueue && |unpersistedQueue[key]| > 0 {
        var next := unpersistedQueue[key][0];
        unpersistedQueue := unpersistedQueue[key := unpersistedQueue[key][1..]];
        isSaving := isSaving[key := true];
        assert isSaving == old(isSaving);
        writes := writes[key := Write(w.saver, next, Reading)];
        requests := requests + [Get(w.saver.db, key)];
      } else {
        writes := writes - {key};
      }
    }

    /** The end of a chain as it is evidently meant to be: the flag is
        deleted whether the write succeeded or not, and a queued state is
        written next in both cases. */
    twostate predicate FinishedCorrected(key: string, ok: bool)
      reads this
      requires old(key in writes)
    {
      var w := old(writes[key]);
      var q := Entry(old(unpersistedQueue), key);
      && requested == old(requested)
      && settled == old(settled)[key := Entry(old(settled), key) + [w.state]]
      && persisted == (if ok then old(persisted)[key := Entry(old(persisted), key) + [w.state]] else old(persisted))
      && failed == (if ok then old(failed) else old(failed) + {key})
      && if q != [] then
           && isSaving == old(isSaving)
           && writes == old(writes)[key := Write(w.saver, q[0], Reading)]
           && unpersistedQueue == old(unpersistedQueue)[key := q[1..]]
           && requests == old(requests) + [Get(w.saver.db, key)]
         else
           && isSaving == old(isSaving) - {key}
           && writes == old(writes) - {key}
           && unpersistedQueue == old(unpersistedQueue)
           && requests == old(requests)
    }

    method FinishCorrected(key: string, ok: bool)
      requires Valid()
      requires key in writes
      requires ok ==> writes[key].stage.Putting?
      modifies this
      ensures Valid()
      ensures FinishedCorrected(key, ok)
      ensures old(NoStuckKeys()) ==> NoStuckKeys()
    {
      var w := writes[key];
      var q := Entry(unpersistedQueue, key);
      var settled' := settled[key := Entry(settled, key) + [w.state]];
      var persisted' := if ok then persisted[key := Entry(persisted, key) + [w.state]] else persisted;
      var failed' := if ok then failed else failed + {key};
      ReleaseKeepsNoStuck(isSaving, unpersistedQueue, writes, key);
      if q == [] {
        // delete isSaving[key]; nothing queued
        ReleaseIdleKeepsInv(isSaving, unpersistedQueue, writes, requested, settled, persisted, failed, key, ok);
        isSaving, writes := isSaving - {key}, writes - {key};
      } else {
        // delete isSaving[key], then saveReducer(key, queue.shift()) sets it again
        ReleaseDrainKeepsInv(isSaving, unpersistedQueue, writes, requested, settled, persisted, failed, key, ok);
        unpersistedQueue := unpersistedQueue[key := q[1..]];
        writes := writes[key := Write(w.saver, q[0], Reading)];
        requests := requests + [Get(w.saver.db, key)];
      }
      settled, persisted, failed := settled', persisted', failed';
    }
  }

  /** The deadlock of save.js: after the first write of a key fails, a
      second save of that key is only queued, and no request for it is
      ever sent. */
  method StuckAfterFailure(saver: Saver, first: Value, second: Value)
    returns (requests: seq<DbRequest>, queued: seq<Value>, stuck: bool)
    ensures requests == [Get(saver.db, "k")]
    ensures queued == [second]
    ensures stuck
  {
    var q := new SaveQueue();
    q.SaveReducer(saver, "k", first);
    q.Finish("k", false);
    q.SaveReducer(saver, "k", second);
    requests, queued := q.requests, Entry(q.unpersistedQueue, "k");
    stuck := IsBusy(q.isSaving, "k") && "k" !in q.writes;
  }

  /** With the corrected end of chain, the same calls start a new write
      for the second state. */
  method RecoversAfterFailure(saver: Saver, first: Value, second: Value)
    returns (requests: seq<DbRequest>, queued: seq<Value>)
    ensures requests == [Get(saver.db, "k"), Get(saver.db, "k")]
    ensures queued == []
  {
    var q := new SaveQueue();
    q.SaveReducer(saver, "k", first);
    q.FinishCorrected("k", false);
    q.SaveReducer(saver, "k", second);
    requests, queued := q.requests, Entry(q.unpersistedQueue, "k");
  }
}
