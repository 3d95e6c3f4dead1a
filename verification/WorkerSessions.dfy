/** The worker manager at work: any number of acquires, binds, releases and shutdowns
    interleave, each between two critical sections of the registry, and sessions are
    started and closed outside the lock. */
module WorkerSessions {
  import opened Ids
  import opened LinkWorkers

  /** An acquire between its critical sections; it owns a session from the factory
      until it registers a worker or closes the session itself. */
  datatype Acquire =
    | Begun(key: Id, linked: Id)
    | Holding(key: Id, linked: Id, session: nat)
    | Doomed(key: Id, linked: Id, session: nat)
    | Finishing(key: Id, linked: Id)
  {
    predicate Owns(x: nat) {
      (Holding? || Doomed?) && session == x
    }
  }

  datatype Release = Closing(worker: nat, record: bool) | Recording(worker: nat)
  datatype Drain = Waiting | Draining(rest: set<nat>)
  datatype CloseResult = Closed | ExitConfirmed | CloseFailed

  /** `closes` counts the close calls of every session the factory handed out, by the
      order in which it did. `exited` are the workers whose close or exit was
      confirmed, `drained` says that a shutdown emptied the registry. */
  datatype Sys = Sys(
    m: Registry, acquires: map<nat, Acquire>, releases: map<nat, Release>, drains: map<nat, Drain>,
    closes: seq<nat>, exited: set<nat>, drained: bool)

  const START := Sys(EMPTY, map[], map[], map[], [], {}, false)

  datatype Op =
    | BeginAcquire(t: nat, key: Id, linked: Id)
    | NoSession(t: nat)
    | GetSession(t: nat)
    | StartFails(t: nat)
    | CommitAcquire(t: nat)
    | CloseProvisional(t: nat)
    | EndAcquire(t: nat)
    | BindThread(worker: nat, thread: Id)
    | BeginRelease(r: nat, thread: Id, generation: nat)
    | RouterRelease(r: nat, worker: nat)
    | CloseReleased(r: nat, result: CloseResult)
    | RecordReleased(r: nat)
    | ForgetRelease(thread: Id, generation: nat)
    | BeginCloseAll(d: nat)
    | TakeAll(d: nat)
    | CloseTaken(d: nat, worker: nat)
    | EndCloseAll(d: nat)

  // ---- Steps ----

  function CloseSession(s: Sys, x: nat): seq<nat> {
    if x < |s.closes| then s.closes[x := s.closes[x] + 1] else s.closes
  }

  function SessionOf(s: Sys, w: nat): nat {
    if w < |s.m.workers| then s.m.workers[w].session else |s.closes|
  }

  function DoBegin(s: Sys, t: nat, key: Id, linked: Id): Sys {
    if t in s.acquires || BeginError(s.m, key, linked) != NoError then s
    else s.(m := Begin(s.m, key, linked), acquires := s.acquires[t := Begun(key, linked)])
  }

  function DoNoSession(s: Sys, t: nat): Sys {
    if t !in s.acquires || !s.acquires[t].Begun? then s
    else s.(acquires := s.acquires[t := Finishing(s.acquires[t].key, s.acquires[t].linked)])
  }

  function DoGetSession(s: Sys, t: nat): Sys {
    if t !in s.acquires || !s.acquires[t].Begun? then s
    else s.(acquires := s.acquires[t := Holding(s.acquires[t].key, s.acquires[t].linked, |s.closes|)], closes := s.closes + [0])
  }

  function Doom(a: Acquire): Acquire
    requires a.Holding?
  {
    Doomed(a.key, a.linked, a.session)
  }

  function DoStartFails(s: Sys, t: nat): Sys {
    if t !in s.acquires || !s.acquires[t].Holding? then s else s.(acquires := s.acquires[t := Doom(s.acquires[t])])
  }

  function DoCommit(s: Sys, t: nat): Sys {
    if t !in s.acquires || !s.acquires[t].Holding? then s
    else
      var a := s.acquires[t];
      if CommitError(s.m, a.key, a.linked) != NoError then s.(acquires := s.acquires[t := Doom(a)])
      else s.(m := Commit(s.m, a.key, a.linked, a.session), acquires := s.acquires - {t})
  }

  function DoCloseProvisional(s: Sys, t: nat): Sys {
    if t !in s.acquires || !s.acquires[t].Doomed? then s
    else
      var a := s.acquires[t];
      s.(acquires := s.acquires[t := Finishing(a.key, a.linked)], closes := CloseSession(s, a.session))
  }

  function DoEndAcquire(s: Sys, t: nat): Sys {
    if t !in s.acquires || !s.acquires[t].Finishing? then s
    else s.(m := FinishAcquire(s.m, s.acquires[t].key, s.acquires[t].linked), acquires := s.acquires - {t})
  }

  function DoBind(s: Sys, w: nat, thread: Id): Sys {
    if w < |s.m.workers| then s.(m := Bind(s.m, w, thread)) else s
  }

  function StartRelease(s: Sys, r: nat, w: nat, record: bool): Sys
    requires w < |s.m.workers|
  {
    s.(m := Remove(s.m, w), releases := s.releases[r := Closing(w, record)])
  }

  function DoBeginRelease(s: Sys, r: nat, thread: Id, generation: nat): Sys {
    var target := ReleaseTarget(s.m, thread, generation);
    if r in s.releases || target.None? || target.value >= |s.m.workers| then s else StartRelease(s, r, target.value, true)
  }

  /** Router.releaseMinimalWorker: a bound worker goes through Release, an unbound one
      is removed and closed without asking whether it is still registered. */
  function DoRouterRelease(s: Sys, r: nat, w: nat): Sys {
    if r in s.releases || w >= |s.m.workers| then s
    else if s.m.workers[w].thread != NONE then DoBeginRelease(s, r, s.m.workers[w].thread, Generation(w))
    else StartRelease(s, r, w, false)
  }

  function DoCloseReleased(s: Sys, r: nat, result: CloseResult): Sys {
    if r !in s.releases || !s.releases[r].Closing? then s
    else
      var w := s.releases[r].worker;
      var s1 := s.(closes := CloseSession(s, SessionOf(s, w)), exited := if result.CloseFailed? then s.exited else s.exited + {w});
      if result.CloseFailed? || !s.releases[r].record then s1.(releases := s.releases - {r})
      else s1.(releases := s.releases[r := Recording(w)])
  }

  function DoRecord(s: Sys, r: nat): Sys {
    if r !in s.releases || !s.releases[r].Recording? || s.releases[r].worker >= |s.m.workers| then s
    else s.(m := RecordRelease(s.m, s.releases[r].worker), releases := s.releases - {r})
  }

  function LiveWorkers(m: Registry): (live: set<nat>)
    ensures forall w: nat :: w in live <==> w < |m.workers| && Live(m, w)
  {
    set w | 0 <= w < |m.workers| && Live(m, w)
  }

  function DoTakeAll(s: Sys, d: nat): Sys {
    if d !in s.drains || !s.drains[d].Waiting? || s.m.waiting != 0 then s
    else s.(m := Reset(s.m), drains := s.drains[d := Draining(LiveWorkers(s.m))], drained := true)
  }

  function DoCloseTaken(s: Sys, d: nat, w: nat): Sys {
    if d !in s.drains || !s.drains[d].Draining? || w !in s.drains[d].rest then s
    else s.(drains := s.drains[d := Draining(s.drains[d].rest - {w})], closes := CloseSession(s, SessionOf(s, w)))
  }

  function Next(s: Sys, op: Op): Sys {
    match op
    case BeginAcquire(t, key, linked) => DoBegin(s, t, key, linked)
    case NoSession(t) => DoNoSession(s, t)
    case GetSession(t) => DoGetSession(s, t)
    case StartFails(t) => DoStartFails(s, t)
    case CommitAcquire(t) => DoCommit(s, t)
    case CloseProvisional(t) => DoCloseProvisional(s, t)
    case EndAcquire(t) => DoEndAcquire(s, t)
    case BindThread(w, thread) => DoBind(s, w, thread)
    case BeginRelease(r, thread, generation) => DoBeginRelease(s, r, thread, generation)
    case RouterRelease(r, w) => DoRouterRelease(s, r, w)
    case CloseReleased(r, result) => DoCloseReleased(s, r, result)
    case RecordReleased(r) => DoRecord(s, r)
    case ForgetRelease(thread, generation) => s.(m := Forget(s.m, thread, generation))
    case BeginCloseAll(d) => if d in s.drains then s else s.(m := s.m.(closed := true), drains := s.drains[d := Waiting])
    case TakeAll(d) => DoTakeAll(s, d)
    case CloseTaken(d, w) => DoCloseTaken(s, d, w)
    case EndCloseAll(d) => if d in s.drains && s.drains[d] == Draining({}) then s.(drains := s.drains - {d}) else s
  }

  function Run(s: Sys, ops: seq<Op>): Sys
    decreases |ops|
  {
    if ops == [] then s else Run(Next(s, ops[0]), ops[1..])
  }

  // ---- The state of the manager in every run ----

  ghost predicate AcquiresOk(m: Registry, acquires: map<nat, Acquire>) {
    && (forall t :: t in acquires ==> acquires[t].key in m.busyKeys && (acquires[t].linked != NONE ==> acquires[t].linked in m.busyThreads))
    && (forall t, u :: t in acquires && u in acquires && t != u ==> Apart(acquires[t], acquires[u]))
  }

  predicate Apart(a: Acquire, b: Acquire) {
    a.key != b.key && (a.linked != NONE ==> a.linked != b.linked)
  }

  ghost predicate Removed(m: Registry, w: nat) {
    w < |m.workers| && !Live(m, w)
  }

  ghost predicate ReleasesOk(m: Registry, releases: map<nat, Release>, exited: set<nat>) {
    forall r :: r in releases ==> Removed(m, releases[r].worker) && (releases[r].Recording? ==> releases[r].worker in exited)
  }

  ghost predicate DrainsOk(m: Registry, drains: map<nat, Drain>) {
    && (drains != map[] ==> m.closed)
    && (forall d :: d in drains ==> DrainOk(m, drains[d]))
  }

  ghost predicate DrainOk(m: Registry, drain: Drain) {
    drain.Draining? ==> forall w :: w in drain.rest ==> Removed(m, w)
  }

  ghost predicate DrainedOk(s: Sys) {
    s.drained ==>
      s.m.closed && s.m.byKey == map[] && s.m.byThread == map[] && s.m.byIdentity == map[] && s.acquires == map[]
  }

  /** Sessions of workers are all different and not those of acquires in flight. */
  ghost predicate SessionsOk(workers: seq<Worker>, acquires: map<nat, Acquire>, handed: nat) {
    && (forall w :: 0 <= w < |workers| ==> workers[w].session < handed)
    && (forall v, w :: 0 <= v < w < |workers| ==> workers[v].session != workers[w].session)
    && (forall t, x: nat :: t in acquires && acquires[t].Owns(x) ==> x < handed && forall w :: 0 <= w < |workers| ==> workers[w].session != x)
    && (forall t, u, x: nat :: t in acquires && u in acquires && acquires[t].Owns(x) && acquires[u].Owns(x) ==> t == u)
  }

  ghost predicate Inv(s: Sys) {
    && Valid(s.m, s.exited)
    && AcquiresOk(s.m, s.acquires)
    && ReleasesOk(s.m, s.releases, s.exited)
    && DrainsOk(s.m, s.drains)
    && DrainedOk(s)
    && SessionsOk(s.m.workers, s.acquires, |s.closes|)
  }

  // ---- Session ownership ----

  datatype Holder = Gone | ByAcquire(t: nat) | ByRegistry(worker: nat) | ByRelease(r: nat) | ByDrain(d: nat, worker: nat)

  /** Who will still close session x. */
  ghost predicate Holds(s: Sys, h: Holder, x: nat) {
    match h
    case Gone => false
    case ByAcquire(t) => t in s.acquires && s.acquires[t].Owns(x)
    case ByRegistry(w) => w < |s.m.workers| && Live(s.m, w) && s.m.workers[w].session == x
    case ByRelease(r) => r in s.releases && s.releases[r].Closing? && s.releases[r].worker < |s.m.workers| && SessionOf(s, s.releases[r].worker) == x
    case ByDrain(d, w) => d in s.drains && s.drains[d].Draining? && w in s.drains[d].rest && w < |s.m.workers| && SessionOf(s, w) == x
  }

  /** The ledger names the one holder of every session, or nobody once it was closed. */
  ghost predicate Tracks(s: Sys, ledger: seq<Holder>) {
    && |ledger| == |s.closes|
    && (forall h, x: nat :: Holds(s, h, x) <==> x < |ledger| && ledger[x] == h && h != Gone)
    && (forall x :: 0 <= x < |ledger| ==> s.closes[x] == if ledger[x] == Gone then 1 else 0)
  }

  ghost function Moved(ledger: seq<Holder>, x: nat, h: Holder): seq<Holder> {
    if x < |ledger| then ledger[x := h] else ledger
  }

  ghost function Taken(h: Holder, d: nat): Holder {
    if h.ByRegistry? then ByDrain(d, h.worker) else h
  }

  ghost function Follow(s: Sys, ledger: seq<Holder>, op: Op): seq<Holder> {
    if Next(s, op) == s then ledger
    else match op
      case GetSession(t) => ledger + [ByAcquire(t)]
      case CommitAcquire(t) =>
        if t in s.acquires && s.acquires[t].Holding? && t !in Next(s, op).acquires
        then Moved(ledger, s.acquires[t].session, ByRegistry(|s.m.workers|)) else ledger
      case CloseProvisional(t) => if t in s.acquires && s.acquires[t].Doomed? then Moved(ledger, s.acquires[t].session, Gone) else ledger
      case BeginRelease(r, thread, generation) =>
        if ReleaseTarget(s.m, thread, generation).Some? then Moved(ledger, SessionOf(s, ReleaseTarget(s.m, thread, generation).value), ByRelease(r))
        else ledger
      case RouterRelease(r, w) => Moved(ledger, SessionOf(s, w), ByRelease(r))
      case CloseReleased(r, _) => if r in s.releases then Moved(ledger, SessionOf(s, s.releases[r].worker), Gone) else ledger
      case TakeAll(d) => seq(|ledger|, x requires 0 <= x < |ledger| => Taken(ledger[x], d))
      case CloseTaken(d, w) => Moved(ledger, SessionOf(s, w), Gone)
      case _ => ledger
  }

  /** An unbound release is careful when its worker is still registered. */
  ghost predicate CarefulStep(s: Sys, op: Op) {
    op.RouterRelease? && op.worker < |s.m.workers| && s.m.workers[op.worker].thread == NONE && op.r !in s.releases ==> Live(s.m, op.worker)
  }

  ghost predicate Careful(s: Sys, ops: seq<Op>)
    decreases |ops|
  {
    ops == [] || (CarefulStep(s, ops[0]) && Careful(Next(s, ops[0]), ops[1..]))
  }
}
