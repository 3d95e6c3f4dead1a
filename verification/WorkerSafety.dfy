/** The registry stays coherent in every interleaving, and sessions are conserved. */
module WorkerSafety {
  import opened Ids
  import opened LinkWorkers
  import opened WorkerSessions

  // ---- Coherence of the registry ----

  /** Removed workers stay removed. */
  ghost predicate Later(m: Registry, n: Registry) {
    && (m.closed ==> n.closed)
    && (forall w: nat :: Removed(m, w) ==> Removed(n, w))
  }

  lemma RemovedStay(m: Registry, n: Registry, releases: map<nat, Release>, drains: map<nat, Drain>, exited: set<nat>)
    requires ReleasesOk(m, releases, exited) && DrainsOk(m, drains) && Later(m, n)
    ensures ReleasesOk(n, releases, exited) && DrainsOk(n, drains)
  {
  }

  lemma BeginKeepsInv(s: Sys, t: nat, key: Id, linked: Id)
    requires Inv(s)
    ensures Inv(DoBegin(s, t, key, linked))
  {
    if t !in s.acquires && BeginError(s.m, key, linked) == NoError {
      BeginKeeps(s.m, key, linked, s.exited);
      RemovedStay(s.m, Begin(s.m, key, linked), s.releases, s.drains, s.exited);
    }
  }

  /** An acquire moves on with the same key and thread and the same or no session. */
  lemma AcquireMoves(s: Sys, t: nat, a: Acquire)
    requires Inv(s) && t in s.acquires
    requires a.key == s.acquires[t].key && a.linked == s.acquires[t].linked
    requires forall x: nat :: a.Owns(x) ==> s.acquires[t].Owns(x)
    ensures Inv(s.(acquires := s.acquires[t := a]))
  {
  }

  lemma GetSessionKeepsInv(s: Sys, t: nat)
    requires Inv(s)
    ensures Inv(DoGetSession(s, t))
  {
  }

  lemma RegisteredSession(workers: seq<Worker>, acquires: map<nat, Acquire>, handed: nat, t: nat)
    requires SessionsOk(workers, acquires, handed) && t in acquires && acquires[t].Holding?
    ensures
      var a := acquires[t];
      SessionsOk(workers + [Worker(a.key, a.linked, a.session)], acquires - {t}, handed)
  {
    assert acquires[t].Owns(acquires[t].session);
  }

  lemma CommittedAcquires(m: Registry, acquires: map<nat, Acquire>, t: nat)
    requires AcquiresOk(m, acquires) && t in acquires
    ensures
      var a := acquires[t];
      AcquiresOk(FinishAcquire(m, a.key, a.linked), acquires - {t})
  {
  }

  lemma RegisterAcquires(m: Registry, acquires: map<nat, Acquire>, t: nat, session: nat)
    requires AcquiresOk(m, acquires) && t in acquires
    ensures
      var a := acquires[t];
      AcquiresOk(Commit(m, a.key, a.linked, session), acquires - {t})
  {
  }

  lemma CommitKeepsInv(s: Sys, t: nat)
    requires Inv(s)
    ensures Inv(DoCommit(s, t))
  {
    if t in s.acquires && s.acquires[t].Holding? {
      var a := s.acquires[t];
      if CommitError(s.m, a.key, a.linked) == NoError {
        var n := Commit(s.m, a.key, a.linked, a.session);
        CommitKeeps(s.m, a.key, a.linked, a.session, s.exited);
        RegisterAcquires(s.m, s.acquires, t, a.session);
        RegisteredSession(s.m.workers, s.acquires, |s.closes|, t);
        assert Later(s.m, n);
        RemovedStay(s.m, n, s.releases, s.drains, s.exited);
      } else {
        AcquireMoves(s, t, Doom(a));
      }
    }
  }

  lemma EndKeepsInv(s: Sys, t: nat)
    requires Inv(s)
    ensures Inv(DoEndAcquire(s, t))
  {
    if t in s.acquires && s.acquires[t].Finishing? {
      var a := s.acquires[t];
      FinishKeeps(s.m, a.key, a.linked, s.exited);
      CommittedAcquires(s.m, s.acquires, t);
      RemovedStay(s.m, FinishAcquire(s.m, a.key, a.linked), s.releases, s.drains, s.exited);
    }
  }

  lemma BoundSessions(workers: seq<Worker>, acquires: map<nat, Acquire>, handed: nat, w: nat, thread: Id)
    requires SessionsOk(workers, acquires, handed) && w < |workers|
    ensures SessionsOk(workers[w := workers[w].(thread := thread)], acquires, handed)
  {
  }

  lemma BindKeepsInv(s: Sys, w: nat, thread: Id)
    requires Inv(s)
    ensures Inv(DoBind(s, w, thread))
  {
    if w < |s.m.workers| {
      var n := Bind(s.m, w, thread);
      BindKeeps(s.m, w, thread, s.exited);
      assert Later(s.m, n);
      RemovedStay(s.m, n, s.releases, s.drains, s.exited);
      BoundSessions(s.m.workers, s.acquires, |s.closes|, w, thread);
    }
  }

  lemma RemovalKeepsInv(s: Sys, r: nat, w: nat, record: bool)
    requires Inv(s) && w < |s.m.workers|
    ensures Inv(StartRelease(s, r, w, record))
  {
    RemoveKeeps(s.m, w, s.exited);
    RemovedStay(s.m, Remove(s.m, w), s.releases, s.drains, s.exited);
  }

  lemma ExitedGrows(m: Registry, exited: set<nat>, w: nat)
    requires Confirmed(m, exited) && Removed(m, w)
    ensures Confirmed(m, exited + {w})
  {
  }

  lemma CloseReleasedKeepsInv(s: Sys, r: nat, result: CloseResult)
    requires Inv(s)
    ensures Inv(DoCloseReleased(s, r, result))
  {
    if r in s.releases && s.releases[r].Closing? {
      ExitedGrows(s.m, s.exited, s.releases[r].worker);
      var n := DoCloseReleased(s, r, result);
      assert ReleasesOk(n.m, n.releases, n.exited);
      assert |n.closes| == |s.closes|;
    }
  }

  lemma RecordKeepsInv(s: Sys, r: nat)
    requires Inv(s)
    ensures Inv(DoRecord(s, r))
  {
    if r in s.releases && s.releases[r].Recording? && s.releases[r].worker < |s.m.workers| {
      var n := RecordRelease(s.m, s.releases[r].worker);
      RecordKeeps(s.m, s.releases[r].worker, s.exited);
      RemovedStay(s.m, n, s.releases, s.drains, s.exited);
    }
  }

  lemma TakeAllKeepsInv(s: Sys, d: nat)
    requires Inv(s)
    ensures Inv(DoTakeAll(s, d))
  {
  }

  lemma CloseTakenKeepsInv(s: Sys, d: nat, w: nat)
    requires Inv(s)
    ensures Inv(DoCloseTaken(s, d, w))
  {
  }

  lemma ForgetKeepsInv(s: Sys, thread: Id, generation: nat)
    requires Inv(s)
    ensures Inv(Next(s, ForgetRelease(thread, generation)))
  {
    ForgetKeeps(s.m, thread, generation, s.exited);
    RemovedStay(s.m, Forget(s.m, thread, generation), s.releases, s.drains, s.exited);
  }

  lemma FlagKeepsInv(s: Sys, d: nat)
    requires Inv(s)
    ensures Inv(Next(s, BeginCloseAll(d)))
  {
    if d !in s.drains {
      var n := s.m.(closed := true);
      CoherentFrame(s.m, n);
      assert forall w :: Live(n, w) == Live(s.m, w);
      RemovedStay(s.m, n, s.releases, s.drains, s.exited);
      assert DrainOk(n, Waiting);
    }
  }

  lemma BeginReleaseKeepsInv(s: Sys, r: nat, thread: Id, generation: nat)
    requires Inv(s)
    ensures Inv(DoBeginRelease(s, r, thread, generation))
  {
    hide Inv;
    var target := ReleaseTarget(s.m, thread, generation);
    if r !in s.releases && target.Some? && target.value < |s.m.workers| {
      RemovalKeepsInv(s, r, target.value, true);
    }
  }

  lemma RouterReleaseKeepsInv(s: Sys, r: nat, w: nat)
    requires Inv(s)
    ensures Inv(DoRouterRelease(s, r, w))
  {
    hide Inv;
    if r !in s.releases && w < |s.m.workers| {
      if s.m.workers[w].thread != NONE {
        BeginReleaseKeepsInv(s, r, s.m.workers[w].thread, Generation(w));
      } else {
        RemovalKeepsInv(s, r, w, false);
      }
    }
  }

  lemma NextKeepsInv(s: Sys, op: Op)
    requires Inv(s)
    ensures Inv(Next(s, op))
  {
    hide Inv;
    match op
    case BeginAcquire(t, key, linked) => BeginKeepsInv(s, t, key, linked);
    case NoSession(t) =>
      if t in s.acquires && s.acquires[t].Begun? {
        AcquireMoves(s, t, Finishing(s.acquires[t].key, s.acquires[t].linked));
      }
    case GetSession(t) => GetSessionKeepsInv(s, t);
    case StartFails(t) =>
      if t in s.acquires && s.acquires[t].Holding? {
        AcquireMoves(s, t, Doom(s.acquires[t]));
      }
    case CommitAcquire(t) => CommitKeepsInv(s, t);
    case CloseProvisional(t) => CloseProvisionalKeepsInv(s, t);
    case EndAcquire(t) => EndKeepsInv(s, t);
    case BindThread(w, thread) => BindKeepsInv(s, w, thread);
    case BeginRelease(r, thread, generation) => BeginReleaseKeepsInv(s, r, thread, generation);
    case RouterRelease(r, w) => RouterReleaseKeepsInv(s, r, w);
    case CloseReleased(r, result) => CloseReleasedKeepsInv(s, r, result);
    case RecordReleased(r) => RecordKeepsInv(s, r);
    case ForgetRelease(thread, generation) => ForgetKeepsInv(s, thread, generation);
    case BeginCloseAll(d) => FlagKeepsInv(s, d);
    case TakeAll(d) => TakeAllKeepsInv(s, d);
    case CloseTaken(d, w) => CloseTakenKeepsInv(s, d, w);
    case EndCloseAll(d) => EndCloseKeepsInv(s, d);
  }

  lemma CloseProvisionalKeepsInv(s: Sys, t: nat)
    requires Inv(s)
    ensures Inv(DoCloseProvisional(s, t))
  {
  }

  lemma EndCloseKeepsInv(s: Sys, d: nat)
    requires Inv(s)
    ensures Inv(Next(s, EndCloseAll(d)))
  {
  }

  lemma {:induction false} RunKeepsInv(s: Sys, ops: seq<Op>)
    requires Inv(s)
    ensures Inv(Run(s, ops))
    decreases |ops|
  {
    if ops != [] {
      NextKeepsInv(s, ops[0]);
      RunKeepsInv(Next(s, ops[0]), ops[1..]);
    }
  }
}
