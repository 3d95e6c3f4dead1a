/** The manager object: shared worker objects behind mutable indexes. Each method is one
    critical section and is proved against the registry functions. */
module LinkWorkerManager {
  import opened Ids
  import opened LinkWorkers

  class LinkWorker {
    const key: Id
    const generation: nat
    const session: nat
    var thread: Id

    constructor (key: Id, thread: Id, generation: nat, session: nat)
      ensures this.key == key && this.thread == thread && this.generation == generation && this.session == session
    {
      this.key, this.thread, this.generation, this.session := key, thread, generation, session;
    }

    ghost function Value(): Worker
      reads this
    {
      Worker(key, thread, session)
    }
  }

  type Index = map<nat, LinkWorker>

  ghost predicate Numbered(created: seq<LinkWorker>) {
    forall i :: 0 <= i < |created| ==> created[i].generation == i + 1
  }

  ghost predicate Within(index: Index, created: seq<LinkWorker>) {
    forall k :: k in index ==> Known(index[k], created)
  }

  ghost predicate Known(w: LinkWorker, created: seq<LinkWorker>) {
    0 < w.generation <= |created| && created[w.generation - 1] == w
  }

  /** A worker object is named by its position in the order of creation. */
  ghost function Position(w: LinkWorker): nat {
    if w.generation == 0 then 0 else w.generation - 1
  }

  ghost function Positions(index: Index): map<nat, nat> {
    map k | k in index :: Position(index[k])
  }

  ghost function Values(created: seq<LinkWorker>): (values: seq<Worker>)
    reads created
    ensures |values| == |created|
    ensures forall i :: 0 <= i < |created| ==> values[i] == created[i].Value()
  {
    if created == [] then [] else Values(created[..|created| - 1]) + [created[|created| - 1].Value()]
  }

  /** A new worker is created last and may be entered into an index. */
  lemma NewWorkerFits(index: Index, created: seq<LinkWorker>, k: nat, w: LinkWorker)
    requires Within(index, created) && w.generation == |created| + 1
    ensures Within(index, created + [w]) && Within(index[k := w], created + [w])
    ensures Positions(index[k := w]) == Positions(index)[k := |created|]
  {
  }

  lemma WithinUpdated(index: Index, created: seq<LinkWorker>, k: nat, w: LinkWorker)
    requires Within(index, created) && Known(w, created)
    ensures Within(index[k := w], created)
    ensures Positions(index[k := w]) == Positions(index)[k := Position(w)]
  {
  }

  /** What a lookup finds in an index. */
  lemma Lookup(index: Index, created: seq<LinkWorker>, k: nat, w: LinkWorker)
    requires Within(index, created) && Known(w, created)
    ensures k in Positions(index) <==> k in index
    ensures k in index ==> Positions(index)[k] == Position(index[k]) && Known(index[k], created)
    ensures k in index ==> (index[k].generation == w.generation <==> index[k] == w)
    ensures k in index ==> (index[k] == w <==> Positions(index)[k] == Position(w))
  {
  }

  lemma Domain(index: Index, k: nat)
    ensures k in Positions(index) <==> k in index
  {
  }

  lemma ValuesAppend(created: seq<LinkWorker>, w: LinkWorker)
    ensures Values(created + [w]) == Values(created) + [w.Value()]
  {
  }

  /** Deletes `w` under `k`, unless the entry names another worker object. */
  function Dropped(index: Index, k: nat, w: LinkWorker): Index {
    if k in index && index[k] == w then index - {k} else index
  }

  /** Comparing worker objects is the same as comparing their positions. */
  lemma DroppedPositions(index: Index, created: seq<LinkWorker>, k: nat, w: LinkWorker)
    requires Within(index, created) && Known(w, created)
    ensures Within(Dropped(index, k, w), created)
    ensures Positions(Dropped(index, k, w)) == Without(Positions(index), k, Position(w))
  {
  }

  class Manager {
    var nextGeneration: nat
    var closed: bool
    var waiting: int
    var byKey: map<Id, LinkWorker>
    var byThread: map<Id, LinkWorker>
    var byIdentity: map<nat, LinkWorker>
    var confirmed: map<Id, nat>
    var busyKeys: set<Id>
    var busyThreads: set<Id>
    ghost var created: seq<LinkWorker>

    ghost predicate Valid()
      reads this
    {
      && |created| == nextGeneration
      && Numbered(created)
      && Within(byKey, created) && Within(byThread, created) && Within(byIdentity, created)
    }

    ghost function State(): Registry
      reads this, created
    {
      Registry(Values(created), closed, waiting, Positions(byKey), Positions(byThread), Positions(byIdentity), confirmed, busyKeys, busyThreads)
    }

    constructor ()
      ensures Valid() && State() == EMPTY && created == []
    {
      nextGeneration, closed, waiting := 0, false, 0;
      byKey, byThread, byIdentity, confirmed := map[], map[], map[], map[];
      busyKeys, busyThreads := {}, {};
      created := [];
    }

    method BeginAcquire(key: Id, linked: Id) returns (error: Error)
      requires Valid()
      modifies this
      ensures Valid() && created == old(created)
      ensures error == BeginError(old(State()), key, linked)
      ensures State() == if error == NoError then Begin(old(State()), key, linked) else old(State())
    {
      if key == NONE { return KeyRequired; }
      if closed { return ShuttingDown; }
      if key in busyKeys { return KeyBusy; }
      if key in byKey { return KeyActive; }
      if linked != NONE {
        if linked in busyThreads { return ThreadBusy; }
        if linked in byThread { return ThreadActive; }
      }
      busyKeys := busyKeys + {key};
      if linked != NONE {
        busyThreads := busyThreads + {linked};
      }
      waiting := waiting + 1;
      error := NoError;
    }

    method FinishAcquireLocked(key: Id, linked: Id)
      requires Valid()
      modifies this
      ensures Valid() && created == old(created)
      ensures State() == FinishAcquire(old(State()), key, linked)
    {
      busyKeys := busyKeys - {key};
      if linked != NONE {
        busyThreads := busyThreads - {linked};
      }
      waiting := waiting - 1;
    }

    method RegisterWorker(key: Id, linked: Id, session: nat) returns (worker: LinkWorker)
      requires Valid()
      modifies this
      ensures Valid() && fresh(worker) && created == old(created) + [worker]
      ensures State() == Register(old(State()), key, linked, session)
    {
      hide Positions, Values, Within;
      nextGeneration := nextGeneration + 1;
      worker := new LinkWorker(key, linked, nextGeneration, session);
      NewWorkerFits(byKey, created, key, worker);
      NewWorkerFits(byThread, created, linked, worker);
      NewWorkerFits(byIdentity, created, worker.generation, worker);
      ghost var was := Values(created);
      ValuesAppend(created, worker);
      created := created + [worker];
      byKey := byKey[key := worker];
      if linked != NONE {
        byThread := byThread[linked := worker];
        confirmed := confirmed - {linked};
      }
      byIdentity := byIdentity[worker.generation := worker];
      assert Values(created) == was + [Worker(key, linked, session)];
    }

    /** The section of Acquire that registers the started session. */
    method CommitAcquire(key: Id, linked: Id, session: nat) returns (worker: LinkWorker?, error: Error)
      requires Valid()
      modifies this
      ensures Valid() && error == CommitError(old(State()), key, linked)
      ensures error != NoError ==> worker == null && created == old(created) && State() == old(State())
      ensures error == NoError ==> worker != null && fresh(worker) && created == old(created) + [worker]
      ensures error == NoError ==> State() == Commit(old(State()), key, linked, session)
    {
      hide Positions, Values, Within, Register;
      Domain(byKey, key);
      Domain(byThread, linked);
      if closed { return null, ShuttingDown; }
      if key in byKey { return null, KeyActive; }
      if linked != NONE && linked in byThread { return null, ThreadActive; }
      worker := RegisterWorker(key, linked, session);
      FinishAcquireLocked(key, linked);
      error := NoError;
    }

    method BindCurrent(worker: LinkWorker, threadID: Id)
      requires Valid() && Known(worker, created)
      modifies this, worker
      ensures Valid() && created == old(created)
      ensures
        var was := old(State());
        && Position(worker) < |was.workers|
        && State() == was.(workers := was.workers[Position(worker) := was.workers[Position(worker)].(thread := threadID)],
                           byThread := was.byThread[threadID := Position(worker)],
                           confirmed := was.confirmed - {threadID})
    {
      hide Positions, Values, Within;
      WithinUpdated(byThread, created, threadID, worker);
      ghost var was := Values(created);
      worker.thread := threadID;
      assert created[Position(worker)] == worker && Values(created)[Position(worker)] == worker.Value();
      assert Values(created) == was[Position(worker) := was[Position(worker)].(thread := threadID)];
      byThread := byThread[threadID := worker];
      confirmed := confirmed - {threadID};
    }

    method BindThread(worker: LinkWorker, threadID: Id) returns (error: Error)
      requires Valid() && Known(worker, created)
      modifies this, worker
      ensures Valid() && created == old(created)
      ensures Position(worker) < |created|
      ensures error == LinkWorkers.BindError(old(State()), Position(worker), threadID)
      ensures State() == Bind(old(State()), Position(worker), threadID)
    {
      hide Positions, Values, Within;
      Lookup(byKey, created, worker.key, worker);
      Lookup(byThread, created, threadID, worker);
      assert State().workers[Position(worker)] == worker.Value();
      if threadID == NONE { return ThreadRequired; }
      if closed { return ShuttingDown; }
      if worker.key !in byKey || byKey[worker.key].generation != worker.generation { return NoLongerActive; }
      var current := byKey[worker.key];
      if current.thread == threadID { return NoError; }
      if current.thread != NONE { return BoundElsewhere; }
      if threadID in byThread && byThread[threadID].generation != worker.generation { return ThreadActive; }
      if threadID in busyThreads { return ThreadBusy; }
      BindCurrent(current, threadID);
      error := NoError;
    }

    method DropKey(worker: LinkWorker)
      requires Valid() && Known(worker, created)
      modifies `byKey
      ensures Valid() && State() == old(State()).(byKey := Without(old(State()).byKey, worker.key, Position(worker)))
    {
      hide Positions, Values, Without;
      DroppedPositions(byKey, created, worker.key, worker);
      byKey := Dropped(byKey, worker.key, worker);
    }

    method DropThread(worker: LinkWorker)
      requires Valid() && Known(worker, created)
      modifies `byThread
      ensures Valid() && State() == old(State()).(byThread := Without(old(State()).byThread, worker.thread, Position(worker)))
    {
      hide Positions, Values, Without;
      DroppedPositions(byThread, created, worker.thread, worker);
      byThread := Dropped(byThread, worker.thread, worker);
    }

    method DropIdentity(worker: LinkWorker)
      requires Valid() && Known(worker, created)
      modifies `byIdentity
      ensures Valid() && State() == old(State()).(byIdentity := Without(old(State()).byIdentity, worker.generation, Position(worker)))
    {
      hide Positions, Values, Without;
      DroppedPositions(byIdentity, created, worker.generation, worker);
      byIdentity := Dropped(byIdentity, worker.generation, worker);
    }

    method RemoveLocked(worker: LinkWorker)
      requires Valid() && Known(worker, created)
      modifies `byKey, `byThread, `byIdentity
      ensures Valid()
      ensures Position(worker) < |created| && State() == Remove(old(State()), Position(worker))
    {
      hide Valid, Positions;
      assert State().workers[Position(worker)] == worker.Value();
      DropKey(worker);
      if worker.thread != NONE {
        DropThread(worker);
      }
      DropIdentity(worker);
    }

    /** The first section of Release: takes the worker out before it is closed. */
    method TakeForRelease(threadID: Id, generation: nat) returns (worker: LinkWorker?)
      requires Valid()
      modifies this
      ensures Valid() && created == old(created)
      ensures worker == null <==> ReleaseTarget(old(State()), threadID, generation).None?
      ensures worker == null ==> State() == old(State())
      ensures worker != null ==> Known(worker, created) && ReleaseTarget(old(State()), threadID, generation) == Some(Position(worker))
      ensures worker != null ==> Position(worker) < |created| && State() == Remove(old(State()), Position(worker))
    {
      if threadID == NONE || threadID !in byThread || byThread[threadID].generation != generation { return null; }
      worker := byThread[threadID];
      RemoveLocked(worker);
    }

    method RecordConfirmedRelease(worker: LinkWorker)
      requires Valid() && Known(worker, created)
      modifies this
      ensures Valid() && created == old(created)
      ensures Position(worker) < |created| && State() == RecordRelease(old(State()), Position(worker))
    {
      if worker.thread == NONE || worker.thread in byThread { return; }
      confirmed := confirmed[worker.thread := worker.generation];
    }

    method ForgetConfirmedRelease(threadID: Id, generation: nat)
      requires Valid()
      modifies this
      ensures Valid() && created == old(created)
      ensures State() == Forget(old(State()), threadID, generation)
    {
      if threadID in confirmed && confirmed[threadID] == generation {
        confirmed := confirmed - {threadID};
      }
    }

    method MarkClosed()
      requires Valid()
      modifies this
      ensures Valid() && created == old(created)
      ensures State() == old(State()).(closed := true)
    {
      closed := true;
    }

    /** The second section of CloseAll: every registered worker is handed to the caller. */
    method TakeAll() returns (workers: set<LinkWorker>)
      requires Valid()
      modifies this
      ensures Valid() && created == old(created)
      ensures workers == old(byIdentity.Values)
      ensures State() == Reset(old(State()))
    {
      workers := byIdentity.Values;
      byKey, byThread, byIdentity, confirmed := map[], map[], map[], map[];
      busyKeys, busyThreads := {}, {};
    }
  }
}
