/** Every session the factory hands out has exactly one holder until it is closed, and
    is closed at most once; shutdown closes all of them. */
module WorkerConservation {
  import opened Ids
  import opened LinkWorkers
  import opened WorkerSessions
  import opened WorkerSafety

  /** Holders change for session x only: h0 hands it to h, or closes it when h is Gone. */
  ghost predicate OnlyMoves(s: Sys, n: Sys, x: nat, h0: Holder, h: Holder) {
    && (forall g, y: nat :: y != x || (g != h0 && g != h) ==> Holds(n, g, y) == Holds(s, g, y))
    && (h != h0 ==> !Holds(n, h0, x))
    && (h != Gone ==> Holds(n, h, x))
  }

  lemma Passed(s: Sys, n: Sys, ledger: seq<Holder>, x: nat, h0: Holder, h: Holder)
    requires Tracks(s, ledger) && Holds(s, h0, x) && OnlyMoves(s, n, x, h0, h)
    requires n.closes == if h == Gone then CloseSession(s, x) else s.closes
    ensures Tracks(n, Moved(ledger, x, h))
  {
  }

  lemma Unmoved(s: Sys, n: Sys, ledger: seq<Holder>)
    requires Tracks(s, ledger) && n.closes == s.closes
    requires forall g, y: nat :: Holds(n, g, y) == Holds(s, g, y)
    ensures Tracks(n, ledger)
  {
  }

  /** The registry changes without touching workers, acquires or releases. */
  lemma RegistryOnly(s: Sys, n: Sys, ledger: seq<Holder>)
    requires Tracks(s, ledger)
    requires n.closes == s.closes && n.acquires == s.acquires && n.releases == s.releases && n.drains == s.drains
    requires |n.m.workers| == |s.m.workers|
    requires forall w: nat :: w < |s.m.workers| ==> Live(n.m, w) == Live(s.m, w) && n.m.workers[w].session == s.m.workers[w].session
    ensures Tracks(n, ledger)
  {
    forall g, y: nat
      ensures Holds(n, g, y) == Holds(s, g, y)
    {
      assert forall w: nat :: w < |s.m.workers| ==> SessionOf(n, w) == SessionOf(s, w);
    }
    Unmoved(s, n, ledger);
  }

  lemma AcquireTracks(s: Sys, ledger: seq<Holder>, t: nat, a: Acquire)
    requires Tracks(s, ledger)
    requires forall x: nat :: a.Owns(x) <==> t in s.acquires && s.acquires[t].Owns(x)
    ensures Tracks(s.(acquires := s.acquires[t := a]), ledger)
  {
    Unmoved(s, s.(acquires := s.acquires[t := a]), ledger);
  }

  lemma BeginTracks(s: Sys, ledger: seq<Holder>, t: nat, key: Id, linked: Id)
    requires Tracks(s, ledger)
    ensures Tracks(DoBegin(s, t, key, linked), ledger)
  {
    if t !in s.acquires && BeginError(s.m, key, linked) == NoError {
      AcquireTracks(s, ledger, t, Begun(key, linked));
      var s1 := s.(acquires := s.acquires[t := Begun(key, linked)]);
      RegistryOnly(s1, DoBegin(s, t, key, linked), ledger);
    }
  }

  lemma GetSessionTracks(s: Sys, ledger: seq<Holder>, t: nat)
    requires Inv(s) && Tracks(s, ledger) && t in s.acquires && s.acquires[t].Begun?
    ensures Tracks(DoGetSession(s, t), ledger + [ByAcquire(t)])
  {
    var n := DoGetSession(s, t);
    var x := |s.closes|;
    forall g, y: nat
      ensures Holds(n, g, y) <==> if y == x then g == ByAcquire(t) else Holds(s, g, y)
    {
      SessionsInRange(s, g, y);
    }
  }

  /** Sessions with a holder, and sessions of workers, were handed out. */
  lemma SessionsInRange(s: Sys, g: Holder, y: nat)
    requires Inv(s)
    ensures Holds(s, g, y) ==> y < |s.closes|
    ensures forall w :: 0 <= w < |s.m.workers| ==> SessionOf(s, w) < |s.closes|
  {
  }

  lemma CommitTracks(s: Sys, ledger: seq<Holder>, t: nat)
    requires Inv(s) && Tracks(s, ledger) && t in s.acquires && s.acquires[t].Holding?
    requires CommitError(s.m, s.acquires[t].key, s.acquires[t].linked) == NoError
    ensures Tracks(DoCommit(s, t), Moved(ledger, s.acquires[t].session, ByRegistry(|s.m.workers|)))
  {
    var n := DoCommit(s, t);
    var x := s.acquires[t].session;
    var w := |s.m.workers|;
    assert Holds(s, ByAcquire(t), x);
    assert forall v: nat :: v < w ==> SessionOf(n, v) == SessionOf(s, v) && Live(n.m, v) == Live(s.m, v);
    assert forall r :: r in s.releases ==> s.releases[r].worker < w;
    assert s.drains == map[];
    Passed(s, n, ledger, x, ByAcquire(t), ByRegistry(w));
  }

  lemma CloseProvisionalTracks(s: Sys, ledger: seq<Holder>, t: nat)
    requires Tracks(s, ledger) && t in s.acquires && s.acquires[t].Doomed?
    ensures Tracks(DoCloseProvisional(s, t), Moved(ledger, s.acquires[t].session, Gone))
  {
    var x := s.acquires[t].session;
    assert Holds(s, ByAcquire(t), x);
    Passed(s, DoCloseProvisional(s, t), ledger, x, ByAcquire(t), Gone);
  }

  lemma EndTracks(s: Sys, ledger: seq<Holder>, t: nat)
    requires Tracks(s, ledger)
    ensures Tracks(DoEndAcquire(s, t), ledger)
  {
    if t in s.acquires && s.acquires[t].Finishing? {
      Unmoved(s, DoEndAcquire(s, t), ledger);
    }
  }

  lemma ReleaseTracks(s: Sys, ledger: seq<Holder>, r: nat, w: nat, record: bool)
    requires Coherent(s.m) && Tracks(s, ledger) && w < |s.m.workers| && Live(s.m, w) && r !in s.releases
    ensures Tracks(StartRelease(s, r, w, record), Moved(ledger, SessionOf(s, w), ByRelease(r)))
  {
    var n := StartRelease(s, r, w, record);
    assert Holds(s, ByRegistry(w), SessionOf(s, w));
    assert !Live(n.m, w) && forall v :: v != w ==> Live(n.m, v) == Live(s.m, v) by {
      RemoveKeepsCoherent(s.m, w);
    }
    Passed(s, n, ledger, SessionOf(s, w), ByRegistry(w), ByRelease(r));
  }

  lemma TargetIsLive(m: Registry, thread: Id, generation: nat)
    requires Coherent(m) && ReleaseTarget(m, thread, generation).Some?
    ensures
      var w := ReleaseTarget(m, thread, generation).value;
      w < |m.workers| && Live(m, w) && generation == Generation(w)
  {
  }

  lemma BeginReleaseTracks(s: Sys, ledger: seq<Holder>, r: nat, thread: Id, generation: nat)
    requires Inv(s) && Tracks(s, ledger)
    ensures Tracks(DoBeginRelease(s, r, thread, generation), Follow(s, ledger, BeginRelease(r, thread, generation)))
  {
    var target := ReleaseTarget(s.m, thread, generation);
    if r !in s.releases && target.Some? {
      TargetIsLive(s.m, thread, generation);
      ReleaseTracks(s, ledger, r, target.value, true);
    }
  }

  lemma RouterReleaseTracks(s: Sys, ledger: seq<Holder>, r: nat, w: nat)
    requires Inv(s) && Tracks(s, ledger) && CarefulStep(s, RouterRelease(r, w))
    ensures Tracks(DoRouterRelease(s, r, w), Follow(s, ledger, RouterRelease(r, w)))
  {
    if r !in s.releases && w < |s.m.workers| {
      var thread := s.m.workers[w].thread;
      if thread == NONE {
        ReleaseTracks(s, ledger, r, w, false);
      } else if ReleaseTarget(s.m, thread, Generation(w)).Some? {
        TargetIsLive(s.m, thread, Generation(w));
        ReleaseTracks(s, ledger, r, w, true);
      }
    }
  }

  lemma CloseReleasedTracks(s: Sys, ledger: seq<Holder>, r: nat, result: CloseResult)
    requires Inv(s) && Tracks(s, ledger) && r in s.releases && s.releases[r].Closing?
    ensures Tracks(DoCloseReleased(s, r, result), Moved(ledger, SessionOf(s, s.releases[r].worker), Gone))
  {
    var x := SessionOf(s, s.releases[r].worker);
    assert Removed(s.m, s.releases[r].worker);
    assert Holds(s, ByRelease(r), x);
    Passed(s, DoCloseReleased(s, r, result), ledger, x, ByRelease(r), Gone);
  }

  lemma RecordTracks(s: Sys, ledger: seq<Holder>, r: nat)
    requires Tracks(s, ledger)
    ensures Tracks(DoRecord(s, r), ledger)
  {
    if r in s.releases && s.releases[r].Recording? && s.releases[r].worker < |s.m.workers| {
      Unmoved(s, DoRecord(s, r), ledger);
    }
  }

  lemma TakeAllTracks(s: Sys, ledger: seq<Holder>, d: nat)
    requires Inv(s) && Tracks(s, ledger) && d in s.drains && s.drains[d].Waiting? && s.m.waiting == 0
    ensures Tracks(DoTakeAll(s, d), seq(|ledger|, x requires 0 <= x < |ledger| => Taken(ledger[x], d)))
  {
    var n := DoTakeAll(s, d);
    forall g, y: nat
      ensures Holds(n, g, y) <==> exists h :: Holds(s, h, y) && Taken(h, d) == g
    {
      TakenHolder(s, d, g, y);
    }
    var next := seq(|ledger|, x requires 0 <= x < |ledger| => Taken(ledger[x], d));
    forall g, y: nat
      ensures Holds(n, g, y) <==> y < |next| && next[y] == g && g != Gone
    {
      if y < |ledger| && ledger[y] != Gone {
        assert Holds(s, ledger[y], y);
      }
    }
  }

  lemma TakenHolder(s: Sys, d: nat, g: Holder, y: nat)
    requires Inv(s) && d in s.drains && s.drains[d].Waiting? && s.m.waiting == 0
    ensures Holds(DoTakeAll(s, d), g, y) <==> exists h :: Holds(s, h, y) && Taken(h, d) == g
  {
    var n := DoTakeAll(s, d);
    if Holds(n, g, y) {
      if g.ByDrain? && g.d == d {
        assert Holds(s, ByRegistry(g.worker), y) && Taken(ByRegistry(g.worker), d) == g;
      } else {
        assert Holds(s, g, y) && Taken(g, d) == g;
      }
    }
  }

  lemma CloseTakenTracks(s: Sys, ledger: seq<Holder>, d: nat, w: nat)
    requires Inv(s) && Tracks(s, ledger) && d in s.drains && s.drains[d].Draining? && w in s.drains[d].rest
    ensures Tracks(DoCloseTaken(s, d, w), Moved(ledger, SessionOf(s, w), Gone))
  {
    assert DrainOk(s.m, s.drains[d]) && Removed(s.m, w);
    assert Holds(s, ByDrain(d, w), SessionOf(s, w));
    Passed(s, DoCloseTaken(s, d, w), ledger, SessionOf(s, w), ByDrain(d, w), Gone);
  }

  predicate AcquireOp(op: Op) {
    op.BeginAcquire? || op.NoSession? || op.GetSession? || op.StartFails? || op.CommitAcquire? || op.CloseProvisional? || op.EndAcquire?
  }

  lemma AcquireOpTracks(s: Sys, ledger: seq<Holder>, op: Op)
    requires Inv(s) && Tracks(s, ledger) && AcquireOp(op)
    ensures Tracks(Next(s, op), Follow(s, ledger, op))
  {
    hide Inv;
    hide Tracks;
    if Next(s, op) != s {
      match op
      case BeginAcquire(t, key, linked) => BeginTracks(s, ledger, t, key, linked);
      case NoSession(t) => AcquireTracks(s, ledger, t, Finishing(s.acquires[t].key, s.acquires[t].linked));
      case GetSession(t) => GetSessionTracks(s, ledger, t);
      case StartFails(t) => AcquireTracks(s, ledger, t, Doom(s.acquires[t]));
      case CommitAcquire(t) =>
        if CommitError(s.m, s.acquires[t].key, s.acquires[t].linked) == NoError {
          CommitTracks(s, ledger, t);
        } else {
          AcquireTracks(s, ledger, t, Doom(s.acquires[t]));
        }
      case CloseProvisional(t) => CloseProvisionalTracks(s, ledger, t);
      case EndAcquire(t) => EndTracks(s, ledger, t);
    }
  }

  lemma BindTracks(s: Sys, ledger: seq<Holder>, w: nat, thread: Id)
    requires Tracks(s, ledger)
    ensures Tracks(DoBind(s, w, thread), ledger)
  {
    RegistryOnly(s, DoBind(s, w, thread), ledger);
  }

  lemma ForgetTracks(s: Sys, ledger: seq<Holder>, thread: Id, generation: nat)
    requires Tracks(s, ledger)
    ensures Tracks(Next(s, ForgetRelease(thread, generation)), ledger)
  {
    RegistryOnly(s, Next(s, ForgetRelease(thread, generation)), ledger);
  }

  lemma DrainTracks(s: Sys, ledger: seq<Holder>, op: Op)
    requires Inv(s) && Tracks(s, ledger) && (op.BeginCloseAll? || op.EndCloseAll?)
    ensures Tracks(Next(s, op), ledger)
  {
    Unmoved(s, Next(s, op), ledger);
  }

  lemma NextTracks(s: Sys, ledger: seq<Holder>, op: Op)
    requires Inv(s) && Tracks(s, ledger) && CarefulStep(s, op)
    ensures Tracks(Next(s, op), Follow(s, ledger, op))
  {
    hide Inv;
    hide Tracks;
    if AcquireOp(op) {
      AcquireOpTracks(s, ledger, op);
    } else if Next(s, op) != s {
      match op
      case BindThread(w, thread) => BindTracks(s, ledger, w, thread);
      case BeginRelease(r, thread, generation) => BeginReleaseTracks(s, ledger, r, thread, generation);
      case RouterRelease(r, w) => RouterReleaseTracks(s, ledger, r, w);
      case CloseReleased(r, result) => CloseReleasedTracks(s, ledger, r, result);
      case RecordReleased(r) => RecordTracks(s, ledger, r);
      case ForgetRelease(thread, generation) => ForgetTracks(s, ledger, thread, generation);
      case BeginCloseAll(_) => DrainTracks(s, ledger, op);
      case TakeAll(d) => TakeAllTracks(s, ledger, d);
      case CloseTaken(d, w) => CloseTakenTracks(s, ledger, d, w);
      case EndCloseAll(_) => DrainTracks(s, ledger, op);
    }
  }

  /** Some ledger explains who holds every session. */
  ghost predicate Conserved(s: Sys) {
    exists ledger :: Tracks(s, ledger)
  }

  lemma {:induction false} RunConserves(s: Sys, ops: seq<Op>)
    requires Inv(s) && Conserved(s) && Careful(s, ops)
    ensures Inv(Run(s, ops)) && Conserved(Run(s, ops))
    decreases |ops|
  {
    if ops != [] {
      var ledger :| Tracks(s, ledger);
      NextTracks(s, ledger, ops[0]);
      NextKeepsInv(s, ops[0]);
      RunConserves(Next(s, ops[0]), ops[1..]);
    }
  }

  lemma StartHolds()
    ensures Inv(START) && Conserved(START)
  {
    assert Tracks(START, []);
  }

  // ---- Main results ----

  /** In every interleaving the three indexes describe one worker set, reservations are
      disjoint from live workers, the wait group counts the busy keys, and a confirmed
      release never names a live thread nor a worker whose close was not confirmed. */
  lemma RegistryAlwaysValid(ops: seq<Op>)
    ensures
      var s := Run(START, ops);
      Valid(s.m, s.exited)
  {
    StartHolds();
    RunKeepsInv(START, ops);
  }

  /** The duplicate re-checks of a commit never fire: a commit is refused only by a shutdown. */
  lemma CommitRefusedOnlyByShutdown(ops: seq<Op>, t: nat)
    requires t in Run(START, ops).acquires && Run(START, ops).acquires[t].Holding?
    ensures
      var s := Run(START, ops);
      (CommitError(s.m, s.acquires[t].key, s.acquires[t].linked) == if s.m.closed then ShuttingDown else NoError)
  {
    StartHolds();
    RunKeepsInv(START, ops);
  }

  /** Every session handed out has exactly one holder while it is open and none once it
      was closed; it is closed at most once. */
  lemma SessionsAreConserved(ops: seq<Op>, x: nat)
    requires Careful(START, ops) && x < |Run(START, ops).closes|
    ensures
      var s := Run(START, ops);
      && s.closes[x] <= 1
      && (s.closes[x] == 0 <==> exists h :: Holds(s, h, x))
      && (forall g, h :: Holds(s, g, x) && Holds(s, h, x) ==> g == h)
  {
    StartHolds();
    RunConserves(START, ops);
    var s := Run(START, ops);
    var ledger :| Tracks(s, ledger);
    if ledger[x] != Gone {
      assert Holds(s, ledger[x], x);
    }
  }

  /** No close of this shutdown or of a release is still to come. */
  ghost predicate Quiet(s: Sys) {
    && s.drained
    && (forall r :: r in s.releases ==> !s.releases[r].Closing?)
    && (forall d :: d in s.drains && s.drains[d].Draining? ==> s.drains[d].rest == {})
  }

  /** After a shutdown and the releases in flight returned, every session ever handed
      out was closed exactly once. */
  lemma ShutdownClosesEverything(ops: seq<Op>, x: nat)
    requires Careful(START, ops) && Quiet(Run(START, ops)) && x < |Run(START, ops).closes|
    ensures Run(START, ops).closes[x] == 1
  {
    SessionsAreConserved(ops, x);
    StartHolds();
    RunConserves(START, ops);
    var s := Run(START, ops);
    if h :| Holds(s, h, x) {
      assert false;
    }
  }

  ghost predicate Empty(s: Sys) {
    s.drained && s.m.byKey == map[] && s.m.byThread == map[] && s.m.byIdentity == map[] && s.acquires == map[]
  }

  /** Nothing is registered, and no session is handed out, ever again. */
  lemma {:induction false} NothingAfterShutdown(s: Sys, more: seq<Op>)
    requires Inv(s) && s.drained
    ensures Empty(Run(s, more)) && |Run(s, more).closes| == |s.closes|
    decreases |more|
  {
    if more != [] {
      NextKeepsInv(s, more[0]);
      DrainedStays(s, more[0]);
      NothingAfterShutdown(Next(s, more[0]), more[1..]);
    }
  }

  lemma DrainedStays(s: Sys, op: Op)
    requires Inv(s) && s.drained
    ensures Next(s, op).drained && |Next(s, op).closes| == |s.closes|
  {
  }

  // ---- The unbound release ----

  /** Any schedule of the other steps: acquires, releases, exits and shutdown. */
  predicate NoRouterRelease(ops: seq<Op>) {
    forall i :: 0 <= i < |ops| ==> !ops[i].RouterRelease?
  }

  ghost predicate ClosedTwice(s: Sys) {
    exists x :: 0 <= x < |s.closes| && s.closes[x] > 1
  }

  lemma {:induction false} NoRouterReleaseIsCareful(s: Sys, ops: seq<Op>)
    requires NoRouterRelease(ops)
    ensures Careful(s, ops)
    decreases |ops|
  {
    if ops != [] {
      assert !ops[0].RouterRelease?;
      assert forall i :: 0 <= i < |ops[1..]| ==> ops[1..][i] == ops[i + 1];
      NoRouterReleaseIsCareful(Next(s, ops[0]), ops[1..]);
    }
  }

  /** The unbound release of the router is safe exactly when its worker is still
      registered: otherwise some schedule closes a session twice. */
  lemma UnboundReleaseSafeExactlyWhenRegistered(s: Sys, r: nat, w: nat)
    requires Inv(s) && Conserved(s)
    requires r !in s.releases && w < |s.m.workers| && s.m.workers[w].thread == NONE
    ensures (forall ops :: NoRouterRelease(ops) ==> !ClosedTwice(Run(Next(s, RouterRelease(r, w)), ops))) <==> Live(s.m, w)
  {
    var n := Next(s, RouterRelease(r, w));
    if Live(s.m, w) {
      forall ops | NoRouterRelease(ops)
        ensures !ClosedTwice(Run(n, ops))
      {
        var ledger :| Tracks(s, ledger);
        NextTracks(s, ledger, RouterRelease(r, w));
        NextKeepsInv(s, RouterRelease(r, w));
        NoRouterReleaseIsCareful(n, ops);
        RunConserves(n, ops);
        var later :| Tracks(Run(n, ops), later);
      }
    } else {
      var ops := SecondClose(s, r, w);
      assert NoRouterRelease(ops) && ClosedTwice(Run(n, ops));
    }
  }

  lemma TwoSteps(n: Sys, a: Op, b: Op)
    ensures Run(n, [a]) == Next(n, a)
    ensures Run(n, [a, b]) == Next(Next(n, a), b)
  {
    assert [a, b][1..] == [b];
    assert Run(Next(n, a), [b]) == Run(Next(Next(n, a), b), []);
    assert Run(n, [a]) == Run(Next(n, a), []);
  }

  /** The session of a worker that is no longer registered is closed, or held by a release or a shutdown. */
  lemma DeadWorkerHolder(s: Sys, ledger: seq<Holder>, w: nat)
    requires Inv(s) && Tracks(s, ledger) && w < |s.m.workers| && !Live(s.m, w)
    ensures
      var x := SessionOf(s, w);
      && x < |ledger|
      && (ledger[x] == Gone || ledger[x].ByRelease? || ledger[x].ByDrain?)
      && (ledger[x] != Gone ==> Holds(s, ledger[x], x))
      && s.closes[x] == (if ledger[x] == Gone then 1 else 0)
  {
    var x := SessionOf(s, w);
    var h := ledger[x];
    if h.ByAcquire? || h.ByRegistry? {
      assert !Holds(s, h, x);
    }
  }

  lemma SecondClose(s: Sys, r: nat, w: nat) returns (ops: seq<Op>)
    requires Inv(s) && Conserved(s)
    requires r !in s.releases && w < |s.m.workers| && s.m.workers[w].thread == NONE && !Live(s.m, w)
    ensures NoRouterRelease(ops) && ClosedTwice(Run(Next(s, RouterRelease(r, w)), ops))
  {
    var n := Next(s, RouterRelease(r, w));
    var x := SessionOf(s, w);
    var ledger: seq<Holder> :| Tracks(s, ledger);
    DeadWorkerHolder(s, ledger, w);
    hide Inv;
    hide Tracks;
    var first := CloseReleased(r, CloseFailed);
    assert Next(n, first).closes == s.closes[x := s.closes[x] + 1];
    var second := if ledger[x].ByRelease? then CloseReleased(ledger[x].r, CloseFailed)
                  else if ledger[x].ByDrain? then CloseTaken(ledger[x].d, ledger[x].worker)
                  else EndCloseAll(0);
    ops := [first, second];
    TwoSteps(n, first, second);
    assert Next(Next(n, first), second).closes[x] == 2;
  }

  /** One unbound worker is registered and a shutdown has begun. */
  const ACQUIRED: Sys :=
    Sys(Registry([Worker(1, NONE, 0)], true, 0, map[1 := 0], map[], map[1 := 0], map[], {}, {}),
        map[], map[], map[0 := Waiting], [0], {}, false)

  lemma AcquiredUnbound()
    ensures Run(START, [BeginAcquire(0, 1, NONE), GetSession(0), CommitAcquire(0), BeginCloseAll(0)]) == ACQUIRED
  {
    var s1 := Next(START, BeginAcquire(0, 1, NONE));
    var s2 := Next(s1, GetSession(0));
    assert s2 == START.(m := EMPTY.(busyKeys := {1}, waiting := 1), acquires := map[0 := Holding(1, NONE, 0)], closes := [0]);
    var s3 := Next(s2, CommitAcquire(0));
    assert s3.m.byKey == map[1 := 0];
    FourSteps(START, [BeginAcquire(0, 1, NONE), GetSession(0), CommitAcquire(0), BeginCloseAll(0)]);
  }

  /** Such a run exists: a shutdown takes a worker that its owner then releases unbound. */
  lemma ReleaseAfterShutdownClosesTwice()
    ensures
      var ops := [BeginAcquire(0, 1, NONE), GetSession(0), CommitAcquire(0), BeginCloseAll(0), TakeAll(0), CloseTaken(0, 0),
                  RouterRelease(0, 0), CloseReleased(0, Closed)];
      ClosedTwice(Run(START, ops))
  {
    var a := [BeginAcquire(0, 1, NONE), GetSession(0), CommitAcquire(0), BeginCloseAll(0)];
    var b := [TakeAll(0), CloseTaken(0, 0), RouterRelease(0, 0), CloseReleased(0, Closed)];
    AcquiredUnbound();
    var s5 := Next(ACQUIRED, TakeAll(0));
    assert s5.drains[0] == Draining({0}) by {
      assert LiveWorkers(ACQUIRED.m) == {0};
    }
    var s6 := Next(s5, CloseTaken(0, 0));
    var s8 := Next(Next(s6, RouterRelease(0, 0)), CloseReleased(0, Closed));
    assert s8.closes[0] == 2;
    FourSteps(ACQUIRED, b);
    RunSplits(START, a, b);
    assert a + b == [BeginAcquire(0, 1, NONE), GetSession(0), CommitAcquire(0), BeginCloseAll(0), TakeAll(0), CloseTaken(0, 0),
                     RouterRelease(0, 0), CloseReleased(0, Closed)];
  }

  lemma FourSteps(s: Sys, ops: seq<Op>)
    requires |ops| == 4
    ensures Run(s, ops) == Next(Next(Next(Next(s, ops[0]), ops[1]), ops[2]), ops[3])
  {
    hide Next;
    assert ops == ops[..2] + ops[2..];
    RunSplits(s, ops[..2], ops[2..]);
    assert ops[..2] == [ops[0], ops[1]] && ops[2..] == [ops[2], ops[3]];
    TwoSteps(s, ops[0], ops[1]);
    TwoSteps(Run(s, ops[..2]), ops[2], ops[3]);
  }

  lemma {:induction false} RunSplits(s: Sys, first: seq<Op>, rest: seq<Op>)
    ensures Run(s, first + rest) == Run(Run(s, first), rest)
    decreases |first|
  {
    hide Next;
    if first == [] {
      assert first + rest == rest;
    } else {
      assert (first + rest)[1..] == first[1..] + rest;
      RunSplits(Next(s, first[0]), first[1..], rest);
    }
  }
}
