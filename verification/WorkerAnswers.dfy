/** What callers of the worker manager are answered, in terms of the acquires in flight and
    the live workers: which requests are accepted, and which reason refuses the others. */
module WorkerAnswers {
  import opened Ids
  import opened LinkWorkers
  import opened WorkerSessions
  import opened WorkerSafety

  /** An acquire in flight has this key. */
  ghost predicate Acquiring(s: Sys, key: Id) {
    exists t :: t in s.acquires && s.acquires[t].key == key
  }

  /** An acquire in flight reserves this thread. */
  ghost predicate Reserving(s: Sys, thread: Id) {
    exists t :: t in s.acquires && s.acquires[t].linked == thread
  }

  ghost predicate LiveKey(m: Registry, key: Id) {
    exists w: nat :: w < |m.workers| && Live(m, w) && m.workers[w].key == key
  }

  ghost predicate LiveThread(m: Registry, thread: Id) {
    exists w: nat :: w < |m.workers| && Live(m, w) && m.workers[w].thread == thread
  }

  ghost predicate ShutDown(ops: seq<Op>) {
    exists i :: 0 <= i < |ops| && ops[i].BeginCloseAll?
  }

  // ---- The reservations are exactly those of the acquires ----

  ghost predicate Exact(s: Sys) {
    && (forall k :: k in s.m.busyKeys ==> Acquiring(s, k))
    && (forall x :: x in s.m.busyThreads ==> Reserving(s, x))
    && s.m.waiting == |s.acquires|
  }

  lemma BeginKeepsExact(s: Sys, t: nat, key: Id, linked: Id)
    requires Exact(s)
    ensures Exact(DoBegin(s, t, key, linked))
  {
    var n := DoBegin(s, t, key, linked);
    if n != s {
      assert n.acquires.Keys == s.acquires.Keys + {t};
      Grown(s, n);
      assert n.acquires[t].key == key && n.acquires[t].linked == linked;
    }
  }

  /** Reservations that were those of acquires still are when no acquire is lost. */
  lemma Grown(s: Sys, n: Sys)
    requires Exact(s)
    requires forall t :: t in s.acquires ==> t in n.acquires && n.acquires[t].key == s.acquires[t].key && n.acquires[t].linked == s.acquires[t].linked
    ensures forall k :: k in s.m.busyKeys ==> Acquiring(n, k)
    ensures forall x :: x in s.m.busyThreads ==> Reserving(n, x)
  {
    forall k | k in s.m.busyKeys
      ensures Acquiring(n, k)
    {
      var t :| t in s.acquires && s.acquires[t].key == k;
      assert n.acquires[t].key == k;
    }
    forall x | x in s.m.busyThreads
      ensures Reserving(n, x)
    {
      var t :| t in s.acquires && s.acquires[t].linked == x;
      assert n.acquires[t].linked == x;
    }
  }

  lemma MoveKeepsExact(s: Sys, t: nat, a: Acquire, closes: seq<nat>)
    requires Exact(s) && t in s.acquires && a.key == s.acquires[t].key && a.linked == s.acquires[t].linked
    ensures Exact(s.(acquires := s.acquires[t := a], closes := closes))
  {
    var n := s.(acquires := s.acquires[t := a], closes := closes);
    assert n.acquires.Keys == s.acquires.Keys;
    assert |n.acquires| == |n.acquires.Keys| == |s.acquires|;
    Grown(s, n);
  }

  /** An acquire that ends gives up exactly its own reservations. */
  lemma EndKeepsExact(s: Sys, t: nat, n: Sys)
    requires Exact(s) && t in s.acquires
    requires n.acquires == s.acquires - {t} && n.m.waiting == s.m.waiting - 1
    requires n.m.busyKeys == s.m.busyKeys - {s.acquires[t].key} && n.m.busyThreads == s.m.busyThreads - Named(s.acquires[t].linked)
    requires s.acquires[t].linked == NONE ==> NONE !in s.m.busyThreads
    ensures Exact(n)
  {
    assert n.acquires.Keys == s.acquires.Keys - {t};
    assert |n.acquires| == |n.acquires.Keys| && |s.acquires| == |s.acquires.Keys|;
    forall k | k in n.m.busyKeys
      ensures Acquiring(n, k)
    {
      var u :| u in s.acquires && s.acquires[u].key == k;
      assert u in n.acquires && n.acquires[u].key == k;
    }
    forall x | x in n.m.busyThreads
      ensures Reserving(n, x)
    {
      var u :| u in s.acquires && s.acquires[u].linked == x;
      assert u in n.acquires && n.acquires[u].linked == x;
    }
  }

  lemma SameReservations(s: Sys, n: Sys)
    requires Exact(s) && n.acquires == s.acquires
    requires n.m.busyKeys == s.m.busyKeys && n.m.busyThreads == s.m.busyThreads && n.m.waiting == s.m.waiting
    ensures Exact(n)
  {
    Grown(s, n);
  }

  predicate OfAcquire(op: Op) {
    op.BeginAcquire? || op.NoSession? || op.GetSession? || op.StartFails? || op.CommitAcquire? || op.CloseProvisional? || op.EndAcquire?
  }

  lemma AcquireKeepsExact(s: Sys, op: Op)
    requires Inv(s) && Exact(s) && OfAcquire(op)
    ensures Exact(Next(s, op))
  {
    assert NONE !in s.m.busyThreads;
    hide Exact, Inv;
    if op.BeginAcquire? {
      BeginKeepsExact(s, op.t, op.key, op.linked);
    } else if op.t in s.acquires && Next(s, op) != s {
      var a, n := s.acquires[op.t], Next(s, op);
      if op.t in n.acquires {
        MoveKeepsExact(s, op.t, n.acquires[op.t], n.closes);
      } else {
        EndKeepsExact(s, op.t, n);
      }
    }
  }

  predicate OfRelease(op: Op) {
    op.BindThread? || op.BeginRelease? || op.RouterRelease? || op.CloseReleased? || op.RecordReleased? || op.ForgetRelease?
  }

  /** These steps neither reserve anything nor begin a shutdown. */
  predicate Apart(s: Sys, n: Sys) {
    && n.acquires == s.acquires && n.drains == s.drains && n.m.closed == s.m.closed
    && n.m.busyKeys == s.m.busyKeys && n.m.busyThreads == s.m.busyThreads && n.m.waiting == s.m.waiting
  }

  lemma RemovalsAreApart(s: Sys, op: Op)
    requires op.BeginRelease? || op.RouterRelease?
    ensures Apart(s, Next(s, op))
  {
    hide Live, Without, ReleaseTarget;
  }

  lemma ReleaseStepsAreApart(s: Sys, op: Op)
    requires OfRelease(op)
    ensures Apart(s, Next(s, op))
  {
    hide Live, CloseSession, BindError, SessionOf;
    if op.BeginRelease? || op.RouterRelease? {
      hide Next;
      RemovalsAreApart(s, op);
    }
  }

  lemma TakeAllKeepsExact(s: Sys, d: nat)
    requires Exact(s)
    ensures Exact(DoTakeAll(s, d))
  {
    var n := DoTakeAll(s, d);
    if n != s {
      assert n.m.busyKeys == {} && n.m.busyThreads == {};
    }
  }

  lemma ShutdownKeepsExact(s: Sys, op: Op)
    requires Exact(s) && (op.BeginCloseAll? || op.CloseTaken? || op.EndCloseAll?)
    ensures Exact(Next(s, op))
  {
    hide Exact;
    SameReservations(s, Next(s, op));
  }

  lemma OtherKeepsExact(s: Sys, op: Op)
    requires Exact(s) && !OfAcquire(op)
    ensures Exact(Next(s, op))
  {
    hide Exact;
    if OfRelease(op) {
      ReleaseStepsAreApart(s, op);
      hide Next;
      SameReservations(s, Next(s, op));
    } else if op.TakeAll? {
      TakeAllKeepsExact(s, op.d);
    } else {
      ShutdownKeepsExact(s, op);
    }
  }

  lemma {:induction false} RunKeepsExact(s: Sys, ops: seq<Op>)
    requires Inv(s) && Exact(s)
    ensures Inv(Run(s, ops)) && Exact(Run(s, ops))
    decreases |ops|
  {
    hide Inv, Exact, Next;
    if ops != [] {
      NextKeepsInv(s, ops[0]);
      if OfAcquire(ops[0]) {
        AcquireKeepsExact(s, ops[0]);
      } else {
        OtherKeepsExact(s, ops[0]);
      }
      RunKeepsExact(Next(s, ops[0]), ops[1..]);
    }
  }

  ghost predicate NoDrainWhileOpen(s: Sys) {
    s.drains != map[] ==> s.m.closed
  }

  lemma AcquireLeavesClosed(s: Sys, op: Op)
    requires OfAcquire(op)
    ensures Next(s, op).m.closed == s.m.closed && Next(s, op).drains == s.drains
  {
  }

  lemma ClosedStep(s: Sys, op: Op)
    requires NoDrainWhileOpen(s)
    ensures Next(s, op).m.closed <==> s.m.closed || op.BeginCloseAll?
    ensures NoDrainWhileOpen(Next(s, op))
  {
    if OfAcquire(op) {
      hide Next;
      AcquireLeavesClosed(s, op);
    } else if OfRelease(op) {
      hide Next;
      ReleaseStepsAreApart(s, op);
    }
  }

  /** The manager is closed from the first shutdown call on. */
  lemma {:induction false} ClosedByShutdown(s: Sys, ops: seq<Op>)
    requires NoDrainWhileOpen(s)
    ensures Run(s, ops).m.closed <==> s.m.closed || ShutDown(ops)
    decreases |ops|
  {
    if ops != [] {
      ClosedStep(s, ops[0]);
      hide Next, NoDrainWhileOpen;
      ClosedByShutdown(Next(s, ops[0]), ops[1..]);
      assert forall i :: 0 <= i < |ops[1..]| ==> ops[1..][i] == ops[i + 1];
      if ShutDown(ops) {
        var i :| 0 <= i < |ops| && ops[i].BeginCloseAll?;
        assert i > 0 ==> ops[1..][i - 1].BeginCloseAll?;
      }
      if ShutDown(ops[1..]) {
        var i :| 0 <= i < |ops[1..]| && ops[1..][i].BeginCloseAll?;
        assert ops[i + 1].BeginCloseAll?;
      }
    }
  }

  /** In a valid registry the indexes name exactly the live workers. */
  lemma IndexedAreLive(m: Registry, exited: set<nat>, key: Id, thread: Id)
    requires Valid(m, exited)
    ensures key in m.byKey <==> LiveKey(m, key)
    ensures thread != NONE ==> (thread in m.byThread <==> LiveThread(m, thread))
  {
    if key in m.byKey {
      assert KeyOk(m, key);
    }
    if LiveKey(m, key) {
      var w: nat :| w < |m.workers| && Live(m, w) && m.workers[w].key == key;
      assert IdentityOk(m, Generation(w));
    }
    if thread in m.byThread {
      assert ThreadOk(m, thread);
    }
    if thread != NONE && LiveThread(m, thread) {
      var w: nat :| w < |m.workers| && Live(m, w) && m.workers[w].thread == thread;
      assert IdentityOk(m, Generation(w));
    }
  }

  // ---- Main results ----

  lemma Reachable(ops: seq<Op>)
    ensures Inv(Run(START, ops)) && Exact(Run(START, ops))
    ensures Run(START, ops).m.closed <==> ShutDown(ops)
  {
    RunKeepsExact(START, ops);
    ClosedByShutdown(START, ops);
  }

  lemma Reservations(s: Sys, key: Id, linked: Id)
    requires Inv(s) && Exact(s)
    ensures key in s.m.busyKeys <==> Acquiring(s, key)
    ensures linked != NONE ==> (linked in s.m.busyThreads <==> Reserving(s, linked))
  {
  }

  /** Over every run a new acquire is accepted if and only if it has a key, no shutdown
      began, and neither an acquire in flight nor a live worker has its key or thread.
      It then waits for its session, and nobody else notices. */
  lemma AcquireAcceptedExactly(ops: seq<Op>, t: nat, key: Id, linked: Id)
    requires t !in Run(START, ops).acquires
    ensures
      var s := Run(START, ops);
      var n := Next(s, BeginAcquire(t, key, linked));
      && (t in n.acquires <==>
            && key != NONE && !ShutDown(ops) && !Acquiring(s, key) && !LiveKey(s.m, key)
            && (linked != NONE ==> !Reserving(s, linked) && !LiveThread(s.m, linked)))
      && (t in n.acquires ==> n.acquires == s.acquires[t := Begun(key, linked)])
      && (t !in n.acquires ==> n == s)
      && n.m.workers == s.m.workers && n.closes == s.closes
  {
    var s := Run(START, ops);
    Reachable(ops);
    Reservations(s, key, linked);
    IndexedAreLive(s.m, s.exited, key, linked);
  }

  /** The first failing condition names the error. */
  lemma AcquireErrors(ops: seq<Op>, key: Id, linked: Id)
    ensures
      var s := Run(START, ops);
      var error := BeginError(s.m, key, linked);
      && (error.KeyRequired? <==> key == NONE)
      && (error.ShuttingDown? <==> key != NONE && ShutDown(ops))
      && (error.KeyBusy? <==> key != NONE && !ShutDown(ops) && Acquiring(s, key))
      && (error.KeyActive? <==> key != NONE && !ShutDown(ops) && LiveKey(s.m, key))
      && (error.ThreadBusy? <==>
            key != NONE && !ShutDown(ops) && !Acquiring(s, key) && !LiveKey(s.m, key) && linked != NONE && Reserving(s, linked))
      && (error.ThreadActive? <==>
            key != NONE && !ShutDown(ops) && !Acquiring(s, key) && !LiveKey(s.m, key) && linked != NONE && LiveThread(s.m, linked))
  {
    var s := Run(START, ops);
    Reachable(ops);
    Reservations(s, key, linked);
    IndexedAreLive(s.m, s.exited, key, linked);
    assert key in s.m.busyKeys ==> key !in s.m.byKey;
    assert linked in s.m.busyThreads ==> linked !in s.m.byThread;
    hide Inv, Exact, Acquiring, Reserving, LiveKey, LiveThread, ShutDown, Run;
  }

  lemma Registered(m: Registry, key: Id, linked: Id, session: nat)
    requires Coherent(m) && CommitError(m, key, linked) == NoError
    ensures
      var n := Commit(m, key, linked, session);
      && n.workers == m.workers + [Worker(key, linked, session)]
      && forall w: nat :: Live(n, w) <==> Live(m, w) || w == |m.workers|
  {
    forall w: nat
      ensures Live(Commit(m, key, linked, session), w) <==> Live(m, w) || w == |m.workers|
    {
      if Live(m, w) {
        assert IdentityOk(m, Generation(w));
      }
    }
  }

  lemma Committable(s: Sys, t: nat)
    requires Inv(s) && t in s.acquires
    ensures CommitError(s.m, s.acquires[t].key, s.acquires[t].linked) == if s.m.closed then ShuttingDown else NoError
  {
    var a := s.acquires[t];
    assert a.key in s.m.busyKeys && (a.linked != NONE ==> a.linked in s.m.busyThreads);
  }

  /** A commit registers a live worker with the key, thread and session of its acquire;
      after the begin of a shutdown the session is left to be closed instead. */
  lemma CommitRegisters(ops: seq<Op>, t: nat)
    requires t in Run(START, ops).acquires && Run(START, ops).acquires[t].Holding?
    ensures
      var s := Run(START, ops);
      var a, n := s.acquires[t], Next(s, CommitAcquire(t));
      if ShutDown(ops) then n == s.(acquires := s.acquires[t := Doomed(a.key, a.linked, a.session)])
      else
        && n.acquires == s.acquires - {t}
        && n.m.workers == s.m.workers + [Worker(a.key, a.linked, a.session)]
        && (forall w: nat :: Live(n.m, w) <==> Live(s.m, w) || w == |s.m.workers|)
  {
    var s := Run(START, ops);
    Reachable(ops);
    var a := s.acquires[t];
    Committable(s, t);
    assert Coherent(s.m);
    hide Inv, Exact, Coherent, ShutDown, Run, CommitError, Commit, Live;
    if !ShutDown(ops) {
      Registered(s.m, a.key, a.linked, a.session);
    }
  }

  /** When a worker may be bound to a thread. */
  ghost predicate Bindable(s: Sys, w: nat, thread: Id)
    requires w < |s.m.workers|
  {
    && Live(s.m, w)
    && (s.m.workers[w].thread == thread || (s.m.workers[w].thread == NONE && !LiveThread(s.m, thread) && !Reserving(s, thread)))
  }

  lemma BindableExactly(s: Sys, w: nat, thread: Id)
    requires Inv(s) && Exact(s) && w < |s.m.workers|
    ensures BindError(s.m, w, thread) == NoError <==> thread != NONE && !s.m.closed && Bindable(s, w, thread)
  {
    Reservations(s, NONE, thread);
    IndexedAreLive(s.m, s.exited, NONE, thread);
    LiveByKey(s.m, s.exited, w);
    BoundElsewhereIsOther(s.m, s.exited, w, thread);
    hide Inv, Exact, LiveThread, Reserving, Live;
  }

  /** A worker is bound exactly when it is live, and is bound to this thread already or
      to none while no other worker and no acquire in flight has the thread. */
  lemma BindAcceptedExactly(ops: seq<Op>, w: nat, thread: Id)
    requires w < |Run(START, ops).m.workers|
    ensures
      var s := Run(START, ops);
      var n := Next(s, BindThread(w, thread));
      && n.m.workers ==
         (if thread != NONE && !ShutDown(ops) && Bindable(s, w, thread) then s.m.workers[w := s.m.workers[w].(thread := thread)] else s.m.workers)
      && (forall v: nat :: Live(n.m, v) <==> Live(s.m, v))
      && n.acquires == s.acquires
  {
    var s := Run(START, ops);
    Reachable(ops);
    BindableExactly(s, w, thread);
    hide *;
    BindEffect(s, w, thread);
  }

  lemma BindEffect(s: Sys, w: nat, thread: Id)
    requires w < |s.m.workers|
    ensures
      var n := Next(s, BindThread(w, thread));
      && n.m.workers == (if BindError(s.m, w, thread) == NoError then s.m.workers[w := s.m.workers[w].(thread := thread)] else s.m.workers)
      && (forall v: nat :: Live(n.m, v) <==> Live(s.m, v))
      && n.acquires == s.acquires
  {
  }

  lemma LiveByKey(m: Registry, exited: set<nat>, w: nat)
    requires Valid(m, exited) && w < |m.workers|
    ensures Live(m, w) <==> m.workers[w].key in m.byKey && m.byKey[m.workers[w].key] == w
  {
    if Live(m, w) {
      assert IdentityOk(m, Generation(w));
    }
    if m.workers[w].key in m.byKey {
      assert KeyOk(m, m.workers[w].key);
    }
  }

  lemma BoundElsewhereIsOther(m: Registry, exited: set<nat>, w: nat, thread: Id)
    requires Valid(m, exited) && w < |m.workers|
    ensures thread in m.byThread && m.byThread[thread] == w ==> m.workers[w].thread == thread && thread != NONE
  {
    if thread in m.byThread {
      assert ThreadOk(m, thread);
    }
  }

  lemma TargetIsLive(m: Registry, exited: set<nat>, thread: Id, generation: nat, w: nat)
    requires Valid(m, exited) && w < |m.workers|
    ensures ReleaseTarget(m, thread, generation) == Some(w) <==>
      thread != NONE && Live(m, w) && m.workers[w].thread == thread && generation == w + 1
    ensures ReleaseTarget(m, thread, generation).Some? ==> ReleaseTarget(m, thread, generation).value < |m.workers|
  {
    if thread in m.byThread {
      assert ThreadOk(m, thread);
    }
    if Live(m, w) {
      assert IdentityOk(m, Generation(w));
    }
  }

  lemma OthersStayLive(m: Registry, w: nat, v: nat)
    requires Coherent(m) && w < |m.workers| && Live(m, w)
    ensures Live(Remove(m, w), v) <==> Live(m, v) && v != w
  {
  }

  /** A release by thread takes exactly the live worker of that thread when its generation
      is the given one; all other workers stay live. */
  lemma ReleaseTakesExactly(ops: seq<Op>, r: nat, thread: Id, generation: nat, w: nat)
    requires r !in Run(START, ops).releases && w < |Run(START, ops).m.workers|
    ensures
      var s := Run(START, ops);
      var n := Next(s, BeginRelease(r, thread, generation));
      if thread != NONE && Live(s.m, w) && s.m.workers[w].thread == thread && generation == w + 1 then
        && n.releases == s.releases[r := Closing(w, true)]
        && n.m.workers == s.m.workers
        && (forall v: nat :: Live(n.m, v) <==> Live(s.m, v) && v != w)
      else r !in n.releases || n.releases[r] != Closing(w, true)
  {
    var s := Run(START, ops);
    Reachable(ops);
    TargetIsLive(s.m, s.exited, thread, generation, w);
    assert Coherent(s.m);
    hide *;
    TakenAs(s, r, thread, generation);
    if Live(s.m, w) {
      forall v: nat
        ensures Live(Remove(s.m, w), v) <==> Live(s.m, v) && v != w
      {
        OthersStayLive(s.m, w, v);
      }
    }
  }

  lemma TakenAs(s: Sys, r: nat, thread: Id, generation: nat)
    requires r !in s.releases
    ensures
      var n, target := Next(s, BeginRelease(r, thread, generation)), ReleaseTarget(s.m, thread, generation);
      if target.None? || target.value >= |s.m.workers| then n == s
      else n.m == Remove(s.m, target.value) && n.releases == s.releases[r := Closing(target.value, true)] && n.m.workers == s.m.workers
  {
  }

  /** When the thread has no live worker of that generation a release does nothing. */
  lemma ReleaseRefusedExactly(ops: seq<Op>, r: nat, thread: Id, generation: nat)
    requires r !in Run(START, ops).releases
    requires forall w: nat ::
      w < |Run(START, ops).m.workers| && Live(Run(START, ops).m, w) && Run(START, ops).m.workers[w].thread == thread ==> generation != w + 1
    ensures Next(Run(START, ops), BeginRelease(r, thread, generation)) == Run(START, ops)
  {
    var s := Run(START, ops);
    Reachable(ops);
    var target := ReleaseTarget(s.m, thread, generation);
    if target.Some? && target.value < |s.m.workers| {
      TargetIsLive(s.m, s.exited, thread, generation, target.value);
    }
    hide *;
    TakenAs(s, r, thread, generation);
  }

  /** A shutdown takes the workers exactly when no acquire is in flight any more, and
      then it takes all of them. */
  lemma ShutdownTakesExactly(ops: seq<Op>, d: nat)
    requires d in Run(START, ops).drains && Run(START, ops).drains[d].Waiting?
    ensures
      var s := Run(START, ops);
      var n := Next(s, TakeAll(d));
      if s.acquires != map[] then n == s
      else
        && n.drains[d].Draining? && forall w: nat :: w in n.drains[d].rest <==> w < |s.m.workers| && Live(s.m, w)
  {
    var s := Run(START, ops);
    Reachable(ops);
    assert |s.acquires| == 0 <==> s.acquires == map[];
    hide Inv, Run;
  }

  /** A release that was confirmed is recorded for its thread unless the thread has a live
      worker again. */
  lemma ConfirmedReleaseIsRecorded(ops: seq<Op>, r: nat)
    requires r in Run(START, ops).releases && Run(START, ops).releases[r].Recording?
    ensures
      var s := Run(START, ops);
      var w := s.releases[r].worker;
      var n := Next(s, RecordReleased(r));
      && w < |s.m.workers| && r !in n.releases
      && n.m.confirmed ==
         if s.m.workers[w].thread == NONE || LiveThread(s.m, s.m.workers[w].thread) then s.m.confirmed
         else s.m.confirmed[s.m.workers[w].thread := w + 1]
  {
    var s := Run(START, ops);
    Reachable(ops);
    var w := s.releases[r].worker;
    assert Removed(s.m, w);
    IndexedAreLive(s.m, s.exited, NONE, s.m.workers[w].thread);
    hide *;
    RecordedAs(s, r);
  }

  lemma RecordedAs(s: Sys, r: nat)
    requires r in s.releases && s.releases[r].Recording? && s.releases[r].worker < |s.m.workers|
    ensures
      var thread := s.m.workers[s.releases[r].worker].thread;
      && Next(s, RecordReleased(r)).releases == s.releases - {r}
      && Next(s, RecordReleased(r)).m.confirmed ==
         if thread == NONE || thread in s.m.byThread then s.m.confirmed else s.m.confirmed[thread := s.releases[r].worker + 1]
  {
  }

  /** The release of the router takes a bound live worker like a release by its thread. */
  lemma RouterReleaseOfBound(s: Sys, r: nat, w: nat)
    requires w < |s.m.workers| && s.m.workers[w].thread != NONE
    ensures Next(s, RouterRelease(r, w)) == Next(s, BeginRelease(r, s.m.workers[w].thread, w + 1))
  {
  }

  /** Closing a released worker closes its session; a close or exit that is confirmed is
      then recorded, a failed one is not. */
  lemma ReleaseCloses(ops: seq<Op>, r: nat, result: CloseResult)
    requires r in Run(START, ops).releases && Run(START, ops).releases[r].Closing?
    ensures
      var s := Run(START, ops);
      var w, n := s.releases[r].worker, Next(s, CloseReleased(r, result));
      && w < |s.m.workers| && s.m.workers[w].session < |s.closes|
      && n.closes == s.closes[s.m.workers[w].session := s.closes[s.m.workers[w].session] + 1]
      && n.releases == (if s.releases[r].record && !result.CloseFailed? then s.releases[r := Recording(w)] else s.releases - {r})
      && n.m == s.m
  {
    hide *;
    Reachable(ops);
    ReleasedWorker(Run(START, ops), r);
    ClosedAs(Run(START, ops), r, result);
  }

  lemma ReleasedWorker(s: Sys, r: nat)
    requires Inv(s) && r in s.releases
    ensures s.releases[r].worker < |s.m.workers| && s.m.workers[s.releases[r].worker].session < |s.closes|
  {
    assert ReleasesOk(s.m, s.releases, s.exited) && SessionsOk(s.m.workers, s.acquires, |s.closes|);
    hide Inv, Valid, AcquiresOk, DrainsOk, DrainedOk;
  }

  lemma ClosedAs(s: Sys, r: nat, result: CloseResult)
    requires r in s.releases && s.releases[r].Closing? && s.releases[r].worker < |s.m.workers|
    requires s.m.workers[s.releases[r].worker].session < |s.closes|
    ensures
      var w, n := s.releases[r].worker, Next(s, CloseReleased(r, result));
      && n.closes == s.closes[s.m.workers[w].session := s.closes[s.m.workers[w].session] + 1]
      && n.releases == (if s.releases[r].record && !result.CloseFailed? then s.releases[r := Recording(w)] else s.releases - {r})
      && n.m == s.m
  {
  }

  /** Forgetting removes exactly the record of that thread and generation. */
  lemma ForgetsExactly(s: Sys, thread: Id, generation: nat)
    ensures
      var n := Next(s, ForgetRelease(thread, generation));
      n.m.confirmed == if thread in s.m.confirmed && s.m.confirmed[thread] == generation then s.m.confirmed - {thread} else s.m.confirmed
    ensures Next(s, ForgetRelease(thread, generation)).m.workers == s.m.workers
  {
  }

  /** A session that does not start, or no session at all, gives the key and thread free
      again once its acquire has ended: the same request is then accepted. */
  lemma FailedAcquireCanBeRetried(ops: seq<Op>, t: nat, key: Id, linked: Id)
    requires !ShutDown(ops) && t !in Run(START, ops).acquires && t in Next(Run(START, ops), BeginAcquire(t, key, linked)).acquires
    ensures
      var none := ops + [BeginAcquire(t, key, linked), NoSession(t), EndAcquire(t)];
      var fails := ops + [BeginAcquire(t, key, linked), GetSession(t), StartFails(t), CloseProvisional(t), EndAcquire(t)];
      && t in Run(START, none + [BeginAcquire(t, key, linked)]).acquires
      && t in Run(START, fails + [BeginAcquire(t, key, linked)]).acquires
      && Run(START, fails).closes == Run(START, ops).closes + [1]
  {
    var s := Run(START, ops);
    Reachable(ops);
    var again := BeginAcquire(t, key, linked);
    var none := [again, NoSession(t), EndAcquire(t)];
    var fails := [again, GetSession(t), StartFails(t), CloseProvisional(t), EndAcquire(t)];
    assert (ops + none) + [again] == ops + (none + [again]);
    assert (ops + fails) + [again] == ops + (fails + [again]);
    RunSplits(START, ops, none + [again]);
    RunSplits(START, ops, fails + [again]);
    RunSplits(START, ops, fails);
    RunSplits(s, none, [again]);
    RunSplits(s, fails, [again]);
    NoneRun(s, t, key, linked);
    FailsRun(s, t, key, linked);
  }

  /** Whatever happened to its session, the end of an acquire undoes its begin. */
  lemma EndUndoesBegin(s: Sys, t: nat, key: Id, linked: Id, closes: seq<nat>)
    requires t !in s.acquires && BeginError(s.m, key, linked) == NoError
    ensures
      var begun := Next(s, BeginAcquire(t, key, linked));
      Next(begun.(acquires := begun.acquires[t := Finishing(key, linked)], closes := closes), EndAcquire(t)) == s.(closes := closes)
  {
    var begun := Next(s, BeginAcquire(t, key, linked));
    var n := Next(begun.(acquires := begun.acquires[t := Finishing(key, linked)], closes := closes), EndAcquire(t));
    assert n.acquires == s.acquires && n.m.busyKeys == s.m.busyKeys && n.m.busyThreads == s.m.busyThreads;
  }

  lemma SessionFails(s: Sys, t: nat, key: Id, linked: Id)
    requires t in s.acquires && s.acquires[t] == Begun(key, linked)
    ensures
      Next(Next(Next(s, GetSession(t)), StartFails(t)), CloseProvisional(t)) ==
      s.(acquires := s.acquires[t := Finishing(key, linked)], closes := s.closes + [1])
  {
  }

  lemma NoneRun(s: Sys, t: nat, key: Id, linked: Id)
    requires t !in s.acquires && BeginError(s.m, key, linked) == NoError
    ensures Run(s, [BeginAcquire(t, key, linked), NoSession(t), EndAcquire(t)]) == s
  {
    var ops := [BeginAcquire(t, key, linked), NoSession(t), EndAcquire(t)];
    var s1 := Next(s, ops[0]);
    assert s1.acquires == s.acquires[t := Begun(key, linked)] && s1.closes == s.closes;
    assert Next(s1, ops[1]) == s1.(acquires := s1.acquires[t := Finishing(key, linked)], closes := s.closes);
    EndUndoesBegin(s, t, key, linked, s.closes);
    hide Next;
    assert ops[1..] == [ops[1], ops[2]] && ops[1..][1..] == [ops[2]] && ops[1..][1..][1..] == [];
    assert Run(s, ops) == Run(s1, ops[1..]) == Run(Next(s1, ops[1]), ops[1..][1..]) == Run(Next(Next(s1, ops[1]), ops[2]), []);
  }

  lemma FiveSteps(s: Sys, ops: seq<Op>)
    requires |ops| == 5
    ensures Run(s, ops) == Next(Next(Next(Next(Next(s, ops[0]), ops[1]), ops[2]), ops[3]), ops[4])
  {
    hide Next;
    assert ops[1..][1..][1..][1..][1..] == [];
    assert ops[1..][0] == ops[1] && ops[1..][1..][0] == ops[2] && ops[1..][1..][1..][0] == ops[3] && ops[1..][1..][1..][1..][0] == ops[4];
    var s1 := Next(s, ops[0]);
    var s2 := Next(s1, ops[1]);
    var s3 := Next(s2, ops[2]);
    var s4 := Next(s3, ops[3]);
    assert Run(s, ops) == Run(s1, ops[1..]) == Run(s2, ops[1..][1..]) == Run(s3, ops[1..][1..][1..]) == Run(s4, ops[1..][1..][1..][1..]);
    assert Run(s4, ops[1..][1..][1..][1..]) == Run(Next(s4, ops[4]), []);
  }

  lemma FailsRun(s: Sys, t: nat, key: Id, linked: Id)
    requires t !in s.acquires && BeginError(s.m, key, linked) == NoError
    ensures Run(s, [BeginAcquire(t, key, linked), GetSession(t), StartFails(t), CloseProvisional(t), EndAcquire(t)]) == s.(closes := s.closes + [1])
  {
    var s1 := Next(s, BeginAcquire(t, key, linked));
    assert s1.acquires == s.acquires[t := Begun(key, linked)] && s1.closes == s.closes;
    hide *;
    SessionFails(s1, t, key, linked);
    EndUndoesBegin(s, t, key, linked, s.closes + [1]);
    FiveSteps(s, [BeginAcquire(t, key, linked), GetSession(t), StartFails(t), CloseProvisional(t), EndAcquire(t)]);
  }

  lemma {:induction false} RunSplits(s: Sys, first: seq<Op>, rest: seq<Op>)
    ensures Run(s, first + rest) == Run(Run(s, first), rest)
    decreases |first|
  {
    hide Next;
    if first == [] {
      assert first + rest == rest;
    } else {
      assert (first + rest)[1..] == first[1..] + rest;
      RunSplits(Next(s, first[0]), first[1..], rest);
    }
  }
}
