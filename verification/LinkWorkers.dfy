/** The registry of linked workers: three indexes over one worker set, reservations of
    acquires in flight, and the ledger of confirmed releases. Every function is one
    critical section of the manager. */
module LinkWorkers {
  import opened Ids

  datatype Worker = Worker(key: Id, thread: Id, session: nat)

  /** Workers are created only by a commit, so a worker is named by its index. Its
      generation, and with it its session identity, is the index plus one. */
  datatype Registry = Registry(
    workers: seq<Worker>, closed: bool, waiting: int,
    byKey: map<Id, nat>, byThread: map<Id, nat>, byIdentity: map<nat, nat>,
    confirmed: map<Id, nat>, busyKeys: set<Id>, busyThreads: set<Id>)

  const EMPTY := Registry([], false, 0, map[], map[], map[], map[], {}, {})

  datatype Error =
    | NoError | KeyRequired | ThreadRequired | ShuttingDown | KeyBusy | KeyActive | ThreadBusy | ThreadActive
    | NoLongerActive | BoundElsewhere

  function Generation(w: nat): nat {
    w + 1
  }

  predicate Live(m: Registry, w: nat) {
    Generation(w) in m.byIdentity && m.byIdentity[Generation(w)] == w
  }

  function Named(x: Id): set<Id> {
    if x == NONE then {} else {x}
  }

  function BeginError(m: Registry, key: Id, linked: Id): Error {
    if key == NONE then KeyRequired
    else if m.closed then ShuttingDown
    else if key in m.busyKeys then KeyBusy
    else if key in m.byKey then KeyActive
    else if linked != NONE && linked in m.busyThreads then ThreadBusy
    else if linked != NONE && linked in m.byThread then ThreadActive
    else NoError
  }

  function Begin(m: Registry, key: Id, linked: Id): Registry {
    m.(busyKeys := m.busyKeys + {key}, busyThreads := m.busyThreads + Named(linked), waiting := m.waiting + 1)
  }

  function FinishAcquire(m: Registry, key: Id, linked: Id): Registry {
    m.(busyKeys := m.busyKeys - {key}, busyThreads := m.busyThreads - Named(linked), waiting := m.waiting - 1)
  }

  function CommitError(m: Registry, key: Id, linked: Id): Error {
    if m.closed then ShuttingDown
    else if key in m.byKey then KeyActive
    else if linked != NONE && linked in m.byThread then ThreadActive
    else NoError
  }

  function Register(m: Registry, key: Id, linked: Id, session: nat): Registry {
    var w := |m.workers|;
    m.(workers := m.workers + [Worker(key, linked, session)],
       byKey := m.byKey[key := w],
       byThread := if linked == NONE then m.byThread else m.byThread[linked := w],
       confirmed := m.confirmed - Named(linked),
       byIdentity := m.byIdentity[Generation(w) := w])
  }

  function Commit(m: Registry, key: Id, linked: Id, session: nat): Registry {
    FinishAcquire(Register(m, key, linked, session), key, linked)
  }

  function BindError(m: Registry, w: nat, thread: Id): Error
    requires w < |m.workers|
  {
    if thread == NONE then ThreadRequired
    else if m.closed then ShuttingDown
    else if m.workers[w].key !in m.byKey || m.byKey[m.workers[w].key] != w then NoLongerActive
    else if m.workers[w].thread == thread then NoError
    else if m.workers[w].thread != NONE then BoundElsewhere
    else if thread in m.byThread && m.byThread[thread] != w then ThreadActive
    else if thread in m.busyThreads then ThreadBusy
    else NoError
  }

  function Bind(m: Registry, w: nat, thread: Id): Registry
    requires w < |m.workers|
  {
    if BindError(m, w, thread) != NoError || m.workers[w].thread == thread then m
    else m.(workers := m.workers[w := m.workers[w].(thread := thread)],
            byThread := m.byThread[thread := w],
            confirmed := m.confirmed - {thread})
  }

  /** Deletes `w` under `k`, unless the entry names another worker. */
  function Without(index: map<Id, nat>, k: Id, w: nat): map<Id, nat> {
    if k in index && index[k] == w then index - {k} else index
  }

  function Remove(m: Registry, w: nat): Registry
    requires w < |m.workers|
  {
    m.(byKey := Without(m.byKey, m.workers[w].key, w),
       byThread := if m.workers[w].thread == NONE then m.byThread else Without(m.byThread, m.workers[w].thread, w),
       byIdentity := Without(m.byIdentity, Generation(w), w))
  }

  function ReleaseTarget(m: Registry, thread: Id, generation: nat): Option<nat> {
    if thread != NONE && thread in m.byThread && Generation(m.byThread[thread]) == generation then Some(m.byThread[thread]) else None
  }

  function RecordRelease(m: Registry, w: nat): Registry
    requires w < |m.workers|
  {
    var thread := m.workers[w].thread;
    if thread == NONE || thread in m.byThread then m else m.(confirmed := m.confirmed[thread := Generation(w)])
  }

  function Forget(m: Registry, thread: Id, generation: nat): Registry {
    if thread in m.confirmed && m.confirmed[thread] == generation then m.(confirmed := m.confirmed - {thread}) else m
  }

  function Reset(m: Registry): Registry {
    m.(byKey := map[], byThread := map[], byIdentity := map[], confirmed := map[], busyKeys := {}, busyThreads := {})
  }

  // ---- Coherence ----

  ghost predicate KeyOk(m: Registry, k: Id)
    requires k in m.byKey
  {
    var w := m.byKey[k];
    k != NONE && w < |m.workers| && m.workers[w].key == k && Live(m, w)
  }

  ghost predicate ThreadOk(m: Registry, x: Id)
    requires x in m.byThread
  {
    var w := m.byThread[x];
    x != NONE && w < |m.workers| && m.workers[w].thread == x && Live(m, w)
  }

  ghost predicate IdentityOk(m: Registry, g: nat)
    requires g in m.byIdentity
  {
    var w := m.byIdentity[g];
    && w < |m.workers| && g == Generation(w)
    && m.workers[w].key in m.byKey && m.byKey[m.workers[w].key] == w
    && (m.workers[w].thread != NONE ==> m.workers[w].thread in m.byThread && m.byThread[m.workers[w].thread] == w)
  }

  /** All three indexes describe the live workers; byThread holds exactly the bound ones. */
  ghost predicate Coherent(m: Registry) {
    && (forall k :: k in m.byKey ==> KeyOk(m, k))
    && (forall x :: x in m.byThread ==> ThreadOk(m, x))
    && (forall g :: g in m.byIdentity ==> IdentityOk(m, g))
  }

  ghost predicate Reserved(m: Registry) {
    && (forall k :: k in m.busyKeys ==> k != NONE && k !in m.byKey)
    && (forall x :: x in m.busyThreads ==> x != NONE && x !in m.byThread)
    && m.waiting == |m.busyKeys|
  }

  /** A confirmed release names a worker whose close or exit was confirmed and never
      a thread that has a live worker. */
  ghost predicate Confirmed(m: Registry, exited: set<nat>) {
    && (forall w :: w in exited ==> w < |m.workers| && !Live(m, w))
    && (forall x :: x in m.confirmed ==> x !in m.byThread && ReleaseOk(m.workers, exited, x, m.confirmed[x]))
  }

  ghost predicate ReleaseOk(workers: seq<Worker>, exited: set<nat>, x: Id, generation: nat) {
    0 < generation <= |workers| && workers[generation - 1].thread == x && generation - 1 in exited
  }

  ghost predicate Valid(m: Registry, exited: set<nat>) {
    Coherent(m) && Reserved(m) && Confirmed(m, exited)
  }

  lemma BeginKeeps(m: Registry, key: Id, linked: Id, exited: set<nat>)
    requires Valid(m, exited) && BeginError(m, key, linked) == NoError
    ensures Valid(Begin(m, key, linked), exited)
  {
  }

  lemma FinishKeeps(m: Registry, key: Id, linked: Id, exited: set<nat>)
    requires Valid(m, exited) && key in m.busyKeys
    ensures Valid(FinishAcquire(m, key, linked), exited)
  {
  }

  lemma RegisterKeepsCoherent(m: Registry, key: Id, linked: Id, session: nat)
    requires Coherent(m) && key != NONE && CommitError(m, key, linked) == NoError
    ensures Coherent(Register(m, key, linked, session))
  {
    var n := Register(m, key, linked, session);
    var fresh' := |m.workers|;
    forall k | k in n.byKey
      ensures KeyOk(n, k)
    {
      if k != key {
        assert KeyOk(m, k);
      }
    }
    forall x | x in n.byThread
      ensures ThreadOk(n, x)
    {
      if n.byThread[x] != fresh' {
        assert ThreadOk(m, x);
      }
    }
    forall g | g in n.byIdentity
      ensures IdentityOk(n, g)
    {
      if g != Generation(fresh') {
        assert IdentityOk(m, g);
      }
    }
  }

  /** Coherence looks at the workers and the three indexes only. */
  lemma CoherentFrame(m: Registry, n: Registry)
    requires Coherent(m)
    requires n.workers == m.workers && n.byKey == m.byKey && n.byThread == m.byThread && n.byIdentity == m.byIdentity
    ensures Coherent(n)
  {
  }

  lemma RegisterKeepsConfirmed(m: Registry, key: Id, linked: Id, session: nat, exited: set<nat>)
    requires Confirmed(m, exited)
    ensures Confirmed(Register(m, key, linked, session), exited)
  {
  }

  lemma CommitKeepsReserved(m: Registry, key: Id, linked: Id, session: nat)
    requires Reserved(m) && key in m.busyKeys
    ensures Reserved(Commit(m, key, linked, session))
  {
  }

  lemma CommitKeeps(m: Registry, key: Id, linked: Id, session: nat, exited: set<nat>)
    requires Valid(m, exited) && CommitError(m, key, linked) == NoError
    requires key in m.busyKeys && (linked != NONE ==> linked in m.busyThreads)
    ensures Valid(Commit(m, key, linked, session), exited)
  {
    assert key != NONE;
    RegisterKeepsCoherent(m, key, linked, session);
    RegisterKeepsConfirmed(m, key, linked, session, exited);
    CommitKeepsReserved(m, key, linked, session);
    CoherentFrame(Register(m, key, linked, session), Commit(m, key, linked, session));
  }

  lemma BindKeepsCoherent(m: Registry, w: nat, thread: Id)
    requires Coherent(m) && w < |m.workers|
    ensures Coherent(Bind(m, w, thread))
    ensures BindError(m, w, thread) == NoError ==> Live(m, w)
  {
    var n := Bind(m, w, thread);
    if BindError(m, w, thread) == NoError {
      assert KeyOk(m, m.workers[w].key);
    }
    if n != m {
      forall k | k in n.byKey
        ensures KeyOk(n, k)
      {
        assert KeyOk(m, k);
      }
      forall x | x in n.byThread
        ensures ThreadOk(n, x)
      {
        if x != thread {
          assert ThreadOk(m, x);
        }
      }
      forall g | g in n.byIdentity
        ensures IdentityOk(n, g)
      {
        assert IdentityOk(m, g);
      }
    }
  }

  lemma BindKeeps(m: Registry, w: nat, thread: Id, exited: set<nat>)
    requires Valid(m, exited) && w < |m.workers|
    ensures Valid(Bind(m, w, thread), exited)
  {
    BindKeepsCoherent(m, w, thread);
    BindKeepsTheRest(m, w, thread, exited);
  }

  lemma BindKeepsTheRest(m: Registry, w: nat, thread: Id, exited: set<nat>)
    requires Reserved(m) && Confirmed(m, exited) && w < |m.workers|
    requires BindError(m, w, thread) == NoError ==> Live(m, w)
    ensures Reserved(Bind(m, w, thread)) && Confirmed(Bind(m, w, thread), exited)
  {
  }

  lemma RemoveKeepsCoherent(m: Registry, w: nat)
    requires Coherent(m) && w < |m.workers|
    ensures Coherent(Remove(m, w))
    ensures !Live(Remove(m, w), w)
    ensures forall v :: v != w ==> Live(Remove(m, w), v) == Live(m, v)
  {
    var n := Remove(m, w);
    forall k | k in n.byKey
      ensures KeyOk(n, k)
    {
      assert KeyOk(m, k);
    }
    forall x | x in n.byThread
      ensures ThreadOk(n, x)
    {
      assert ThreadOk(m, x);
    }
    forall g | g in n.byIdentity
      ensures IdentityOk(n, g)
    {
      assert IdentityOk(m, g);
    }
  }

  lemma RemoveKeeps(m: Registry, w: nat, exited: set<nat>)
    requires Valid(m, exited) && w < |m.workers|
    ensures Valid(Remove(m, w), exited)
    ensures !Live(Remove(m, w), w)
    ensures forall v :: v != w ==> Live(Remove(m, w), v) == Live(m, v)
  {
    RemoveKeepsCoherent(m, w);
  }

  lemma RecordKeeps(m: Registry, w: nat, exited: set<nat>)
    requires Valid(m, exited) && w in exited
    ensures Valid(RecordRelease(m, w), exited)
  {
    CoherentFrame(m, RecordRelease(m, w));
    RecordKeepsConfirmed(m, w, exited);
  }

  lemma RecordKeepsConfirmed(m: Registry, w: nat, exited: set<nat>)
    requires Confirmed(m, exited) && w in exited
    ensures Confirmed(RecordRelease(m, w), exited)
  {
  }

  lemma ForgetKeeps(m: Registry, thread: Id, generation: nat, exited: set<nat>)
    requires Valid(m, exited)
    ensures Valid(Forget(m, thread, generation), exited)
  {
  }

  /** In a valid registry no two live workers share a key, a thread or a generation. */
  lemma LiveWorkersDiffer(m: Registry, exited: set<nat>, v: nat, w: nat)
    requires Valid(m, exited) && v < |m.workers| && w < |m.workers| && Live(m, v) && Live(m, w) && v != w
    ensures m.workers[v].key != m.workers[w].key
    ensures m.workers[v].thread == NONE || m.workers[v].thread != m.workers[w].thread
    ensures Generation(v) != Generation(w)
  {
    assert IdentityOk(m, Generation(v)) && IdentityOk(m, Generation(w));
  }
}
