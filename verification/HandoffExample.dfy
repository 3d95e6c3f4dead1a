/** A run that shows that the at-most-once theorem speaks about restarted prompts: the
    daemon dies while it forks, the prompt waits again, and it is started once. */
module HandoffExample {
  import opened Ids
  import opened Handoff
  import P = PendingCommands
  import C = Continuations
  import L = LinkedThreads

  const KEY := Key(Chat(5, 0), 2, 3)

  function Row(status: P.Status): P.Command {
    P.Command(2, KEY, 1, Some(P.Sealed(1)), status)
  }

  /** Task t has claimed the prompt and its source thread. */
  function Claimed(t: nat, base: Sys): Sys {
    base.(commands := [Row(P.Claimed)], tasks := map[t := Task(Some(0), 1, 2, KEY, 1, {2}, false, Route)], claimers := map[0 := t])
  }

  /** The same task about to fork. */
  function Forking(t: nat, base: Sys): Sys {
    base.(commands := [Row(P.Claimed)], tasks := map[t := Task(Some(0), 1, 2, KEY, 1, {2}, true, Creating)], claimers := map[0 := t],
          conts := map[KEY := C.Row(1, NONE, C.Creating, C.NoFailure)], owners := map[KEY := t])
  }

  /** Nothing in flight, the prompt waits. */
  predicate Waiting(s: Sys) {
    && s.stage == UP && s.commands == [Row(P.Pending)] && s.tasks == map[] && s.owners == map[] && s.claimers == map[]
    && s.links == map[] && s.nextPrompt == 2 && s.starts == [] && s.spent == {}
    && (s.conts == map[] || s.conts == map[KEY := C.Row(1, NONE, C.Failed, C.Definite)])
  }

  lemma {:induction false} RunSplits(s: Sys, first: seq<Op>, rest: seq<Op>)
    ensures Run(s, first + rest) == Run(Run(s, first), rest)
    decreases |first|
  {
    hide Next;
    if first == [] {
      assert first + rest == rest;
    } else {
      assert (first + rest)[1..] == first[1..] + rest;
      RunSplits(Next(s, first[0]), first[1..], rest);
    }
  }

  lemma TwoSteps(s: Sys, a: Op, b: Op)
    ensures Run(s, [a, b]) == Next(Next(s, a), b)
  {
    hide Next;
    assert [a, b][1..] == [b];
    assert Run(Next(s, a), [b]) == Run(Next(Next(s, a), b), []);
  }

  lemma ClaimsAndRoutes(s: Sys, t: nat)
    requires Waiting(s)
    ensures
      var task := Task(Some(0), 1, 2, KEY, 1, {2}, false, Resume(true));
      Run(s, [DrainClaim(t, 2), RouteCommand(t)]) == Claimed(t, s).(tasks := map[t := task])
  {
    TwoSteps(s, DrainClaim(t, 2), RouteCommand(t));
    assert P.ThreadCandidate(s.commands, 2) == Some(0);
    assert Next(s, DrainClaim(t, 2)) == Claimed(t, s);
  }

  lemma LocksTheLink(s: Sys, t: nat)
    requires Waiting(s)
    ensures
      var task := Task(Some(0), 1, 2, KEY, 1, {2}, false, Resume(true));
      Run(Claimed(t, s).(tasks := map[t := task]), [ChoosePath(t, true), LockLink(t)]) ==
      Claimed(t, s).(tasks := map[t := task.(linkLock := true, pc := ReadLink)])
  {
    var task := Task(Some(0), 1, 2, KEY, 1, {2}, false, Resume(true));
    TwoSteps(Claimed(t, s).(tasks := map[t := task]), ChoosePath(t, true), LockLink(t));
    assert LinkFree(Claimed(t, s).(tasks := map[t := task.(pc := WantLink)]), KEY);
  }

  lemma ClaimsTheContinuation(s: Sys, t: nat)
    requires Waiting(s)
    ensures
      var task := Task(Some(0), 1, 2, KEY, 1, {2}, true, ReadLink);
      Run(Claimed(t, s).(tasks := map[t := task]), [LookUpLink(t, 9), ClaimContinuation(t)]) == Forking(t, s)
  {
    var task := Task(Some(0), 1, 2, KEY, 1, {2}, true, ReadLink);
    TwoSteps(Claimed(t, s).(tasks := map[t := task]), LookUpLink(t, 9), ClaimContinuation(t));
  }

  function ToFork(t: nat): seq<Op> {
    [DrainClaim(t, 2), RouteCommand(t)] + ([ChoosePath(t, true), LockLink(t)] + [LookUpLink(t, 9), ClaimContinuation(t)])
  }

  lemma ReachesTheFork(s: Sys, t: nat)
    requires Waiting(s)
    ensures Run(s, ToFork(t)) == Forking(t, s)
  {
    RunSplits(s, [DrainClaim(t, 2), RouteCommand(t)], [ChoosePath(t, true), LockLink(t)] + [LookUpLink(t, 9), ClaimContinuation(t)]);
    ClaimsAndRoutes(s, t);
    var task := Task(Some(0), 1, 2, KEY, 1, {2}, false, Resume(true));
    RunSplits(Claimed(t, s).(tasks := map[t := task]), [ChoosePath(t, true), LockLink(t)], [LookUpLink(t, 9), ClaimContinuation(t)]);
    LocksTheLink(s, t);
    ClaimsTheContinuation(s, t);
  }

  lemma OneStep(s: Sys, a: Op)
    ensures Run(s, [a]) == Next(s, a)
  {
  }

  function ForkAnswered(t: nat, s: Sys): Sys {
    Forking(t, s).(tasks := map[t := Task(Some(0), 1, 2, KEY, 1, {2}, true, Forked(9))], forks := s.forks + [Attempt(KEY)])
  }

  lemma Forks(t: nat, s: Sys)
    requires Waiting(s)
    ensures Run(Forking(t, s), [ForkThread(t, ForkedTo(9))]) == ForkAnswered(t, s)
  {
  }

  // ---- The first attempt dies ----

  const RESTART := [Crash, RecoverContinuations] + ([AdoptDone, RecoverLinks] + [RecoverCommands, Repair(KEY.chat)])

  function Requeued(s: Sys): Sys {
    s.(conts := map[KEY := C.Row(1, NONE, C.Failed, C.Ambiguous)], forks := s.forks + [Attempt(KEY)], stage := 1)
  }

  function Repaired(s: Sys): Sys {
    s.(conts := map[KEY := C.Row(1, NONE, C.Failed, C.Definite)], forks := s.forks + [Attempt(KEY)] + [Rearmed(KEY.chat)])
  }

  lemma CrashRequeues(s: Sys)
    requires Waiting(s)
    ensures Run(ForkAnswered(0, s), [Crash, RecoverContinuations]) == Requeued(s)
  {
  }

  lemma LinksRecover(s: Sys)
    requires Waiting(s)
    ensures Run(Requeued(s), [AdoptDone, RecoverLinks]) == Requeued(s).(stage := 3)
  {
  }

  lemma CommandsRecover(s: Sys)
    requires Waiting(s)
    ensures Run(Requeued(s).(stage := 3), [RecoverCommands, Repair(KEY.chat)]) == Repaired(s)
  {
    TwoSteps(Requeued(s).(stage := 3), RecoverCommands, Repair(KEY.chat));
    assert P.RecoverClaimed([Row(P.Pending)]) == [Row(P.Pending)];
    assert C.Rearm(Requeued(s).conts, KEY.chat) == Repaired(s).conts;
  }

  /** A crash during the fork call loses nothing: after the restart and a repair the
      prompt waits again. */
  lemma CrashWhileForking(s: Sys)
    requires Waiting(s)
    ensures Run(ForkAnswered(0, s), RESTART) == Repaired(s) && Waiting(Repaired(s))
  {
    CrashRequeues(s);
    LinksRecover(s);
    CommandsRecover(s);
    hide Run;
    RunSplits(ForkAnswered(0, s), [Crash, RecoverContinuations], [AdoptDone, RecoverLinks] + [RecoverCommands, Repair(KEY.chat)]);
    RunSplits(Requeued(s), [AdoptDone, RecoverLinks], [RecoverCommands, Repair(KEY.chat)]);
  }

  // ---- The second attempt starts the prompt ----

  function Activated(s: Sys): Sys {
    s.(commands := [Row(P.Claimed).(thread := 9)], claimers := map[0 := 1], forks := s.forks + [Attempt(KEY)],
       conts := map[KEY := C.Row(1, 9, C.Active, C.NoFailure)],
       links := map[9 := L.Row(KEY.chat, 1, 2, 3, false, L.Running, NONE, 1)],
       tasks := map[1 := Task(Some(0), 1, 2, KEY, 1, {2}, true, LinkedStart(9, 1))])
  }

  lemma Activates(s: Sys)
    requires Waiting(s)
    ensures Run(ForkAnswered(1, s), [ActivateLinked(1, 1)]) == Activated(s)
  {
    OneStep(ForkAnswered(1, s), ActivateLinked(1, 1));
    assert P.Rehome([Row(P.Claimed)], KEY, 9) == [Row(P.Claimed).(thread := 9)];
  }

  lemma Starts(s: Sys)
    requires Waiting(s)
    ensures Run(Activated(s), [StartTurn(1, Accepted(7))]).starts == [1]
    ensures Run(Activated(s), [StartTurn(1, Accepted(7))]).forks == s.forks + [Attempt(KEY)]
  {
  }

  function Attempted(t: nat, rest: seq<Op>): seq<Op> {
    ToFork(t) + ([ForkThread(t, ForkedTo(9))] + rest)
  }

  lemma RunAttempt(s: Sys, t: nat, rest: seq<Op>)
    requires Waiting(s)
    ensures Run(s, Attempted(t, rest)) == Run(ForkAnswered(t, s), rest)
  {
    ReachesTheFork(s, t);
    Forks(t, s);
    hide Run;
    RunSplits(s, ToFork(t), [ForkThread(t, ForkedTo(9))] + rest);
    RunSplits(Forking(t, s), [ForkThread(t, ForkedTo(9))], rest);
  }

  lemma Submits()
    ensures Waiting(Run(INIT, [SubmitQueued(2, KEY, 1)])) && Run(INIT, [SubmitQueued(2, KEY, 1)]).forks == []
  {
  }

  /** Such a run exists from the empty system: one prompt, two fork attempts separated
      by a repair, one start. */
  lemma RestartedPromptStartsOnce() returns (ops: seq<Op>)
    ensures Run(INIT, ops).starts == [1]
    ensures Run(INIT, ops).forks == [Attempt(KEY), Rearmed(KEY.chat), Attempt(KEY)]
  {
    Submits();
    hide Run;
    var first := [SubmitQueued(2, KEY, 1)];
    var queued := Run(INIT, first);
    RunAttempt(queued, 0, RESTART);
    CrashWhileForking(queued);
    var again := Repaired(queued);
    var last := [ActivateLinked(1, 1)] + [StartTurn(1, Accepted(7))];
    RunAttempt(again, 1, last);
    RunSplits(ForkAnswered(1, again), [ActivateLinked(1, 1)], [StartTurn(1, Accepted(7))]);
    Activates(again);
    Starts(again);
    ops := first + (Attempted(0, RESTART) + Attempted(1, last));
    RunSplits(INIT, first, Attempted(0, RESTART) + Attempted(1, last));
    RunSplits(queued, Attempted(0, RESTART), Attempted(1, last));
    assert again.forks == [Attempt(KEY), Rearmed(KEY.chat)];
  }
}
