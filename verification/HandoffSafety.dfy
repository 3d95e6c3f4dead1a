/** At-most-once prompts and no silent re-fork, over every run of the start protocol. */
module HandoffSafety {
  import opened Ids
  import opened Handoff
  import opened HandoffInvariant
  import P = PendingCommands
  import C = Continuations
  import L = LinkedThreads

  // ---- Every operation keeps the invariant ----

  lemma SubmitKeeps(s: Sys, thread: Id, key: Key, project: Id)
    requires Inv(s) && (key.thread == thread || key.thread == NONE)
    ensures Inv(Submit(s, thread, key, project))
  {
    MorePrompts(s);
    AppendRow(s.(nextPrompt := s.nextPrompt + 1), thread, key, project, s.nextPrompt);
  }

  lemma TakeKeeps(s: Sys, t: nat, task: Task, i: nat)
    requires Inv(s) && s.stage == UP && i < |s.commands| && s.commands[i].status.Pending?
    requires t in s.tasks ==> s.tasks[t].cmd.None? && s.tasks[t].pc.WantClaim?
    requires task.cmd == Some(i) && task.key == s.commands[i].source && task.prompt == PromptOf(s.commands[i])
    requires task.pc.Route? || task.pc.WantThread?
    requires task.key.Complete() ==> Settled(s.conts, s.links, task.key) || task.key.thread in task.locks
    requires PcOk(task)
    requires LocksOk(s.tasks[t := task])
    ensures Inv(TakeCommand(s, t, task, i))
  {
    ClaimRow(s, i);
    var s1 := s.(commands := P.Claim(s.commands, Some(i)));
    PutTask(s1, t, task, s1.claimers[i := t]);
  }

  lemma LocksWithNew(tasks: Tasks, t: nat, task: Task)
    requires LocksOk(tasks) && !task.linkLock
    requires forall u, x :: u in tasks && u != t && x in task.locks ==> x !in tasks[u].locks
    ensures LocksOk(tasks[t := task])
  {
  }

  lemma DrainClaimKeeps(s: Sys, t: nat, thread: Id)
    requires Inv(s)
    ensures Inv(DoDrainClaim(s, t, thread))
  {
    var candidate := P.ThreadCandidate(s.commands, thread);
    if DoDrainClaim(s, t, thread) != s {
      var c := s.commands[candidate.value];
      var task := Task(candidate, PromptOf(c), thread, c.source, c.project, {thread}, false, Route);
      assert Away(c) ==> Settled(s.conts, s.links, c.source);
      LocksWithNew(s.tasks, t, task);
      TakeKeeps(s, t, task, candidate.value);
    }
  }

  lemma BacklogOpenKeeps(s: Sys, t: nat, thread: Id, key: Key, project: Id)
    requires Inv(s)
    ensures Inv(DoBacklogOpen(s, t, thread, key, project))
  {
    if s.stage == UP && t !in s.tasks && ThreadFree(s, thread) && key.thread == thread {
      SubmitKeeps(s, thread, key, project);
      var s1 := Submit(s, thread, key, project);
      var task := Task(None, NONE, thread, key, project, {thread}, false, WantClaim);
      LocksWithNew(s1.tasks, t, task);
      PutTask(s1, t, task, s1.claimers);
    }
  }

  lemma BacklogClaimKeeps(s: Sys, t: nat)
    requires Inv(s)
    ensures Inv(DoBacklogClaim(s, t))
  {
    if At(s, t) && s.tasks[t].pc.WantClaim? {
      var task := s.tasks[t];
      assert PcOk(task) && AnchorOk(s.conts, s.links, s.owners, t, task) && CmdOk(s.commands, s.claimers, s.spent, t, task);
      var candidate := P.SourceCandidate(s.commands, task.key);
      if candidate.None? {
        DropIdle(s, t);
      } else if task.cmd.None? {
        var c := s.commands[candidate.value];
        var next := if c.thread == task.thread then Route else WantThread;
        var task' := task.(cmd := candidate, prompt := PromptOf(c), thread := c.thread, project := c.project, pc := next);
        assert LocksOk(s.tasks[t := task']);
        TakeKeeps(s, t, task', candidate.value);
      }
    }
  }

  /** A task without a command ends. */
  lemma DropIdle(s: Sys, t: nat)
    requires Inv(s) && At(s, t) && s.tasks[t].cmd.None? && !CreatingPc(s.tasks[t].pc)
    ensures Inv(s.(tasks := s.tasks - {t}))
  {
    DroppedTask(s.conts, s.links, s.owners, s.tasks, s.forks, s.stage, t);
    HolderAfterDrop(s.commands, s.spent, s.tasks, s.starts, s.nextPrompt, t);
    assert CmdsOk(s.commands, s.claimers, s.spent, s.tasks - {t});
  }

  lemma HolderAfterDrop(rows: P.Table, spent: set<nat>, tasks: Tasks, starts: seq<Id>, nextPrompt: nat, t: nat)
    requires OneHolder(rows, spent, tasks, starts) && StartsOk(tasks, starts, nextPrompt)
    ensures OneHolder(rows, spent, tasks - {t}, starts) && StartsOk(tasks - {t}, starts, nextPrompt)
  {
  }

  lemma DroppedTask(conts: C.Table, links: L.Table, owners: map<Key, nat>, tasks: Tasks, forks: seq<ForkEvent>, stage: nat, t: nat)
    requires CreatingOk(conts, links, owners, tasks, stage) && ForksOk(forks, conts, owners, tasks, stage)
    requires t in tasks && !CreatingPc(tasks[t].pc)
    ensures CreatingOk(conts, links, owners, tasks - {t}, stage)
    ensures ForksOk(forks, conts, owners, tasks - {t}, stage)
  {
    forall k | OwnerOk(owners, tasks, k)
      ensures OwnerOk(owners, tasks - {t}, k)
    {
    }
    forall k | Tried(forks, k)
      ensures TriedOk(conts, owners, tasks - {t}, stage, k)
    {
      assert TriedOk(conts, owners, tasks, stage, k);
      assert IsCreating(conts, k) && stage != 0 ==> OwnerOk(owners, tasks, k);
    }
  }

  lemma LockThread(s: Sys, t: nat, pc: Pc)
    requires Inv(s) && At(s, t) && ThreadFree(s, s.tasks[t].thread)
    ensures LocksOk(s.tasks[t := s.tasks[t].(locks := s.tasks[t].locks + {s.tasks[t].thread}, pc := pc)])
  {
  }

  lemma BacklogLockKeeps(s: Sys, t: nat)
    requires Inv(s)
    ensures Inv(DoBacklogLock(s, t))
  {
    hide Inv;
    if At(s, t) && s.tasks[t].pc.WantThread? && ThreadFree(s, s.tasks[t].thread) {
      var task := s.tasks[t];
      TaskFacts(s, t);
      LockThread(s, t, Route);
      Move(s, t, task.(locks := task.locks + {task.thread}, pc := Route));
    }
  }

  lemma DirectOpenKeeps(s: Sys, t: nat, thread: Id, chat: Chat, turn: Id, project: Id, mayLink: bool)
    requires Inv(s)
    ensures Inv(DoDirectOpen(s, t, thread, chat, turn, project, mayLink))
  {
    if s.stage == UP && t !in s.tasks && ThreadFree(s, thread) {
      MorePrompts(s);
      var s1 := s.(nextPrompt := s.nextPrompt + 1);
      if thread in s.links && s.links[thread].chat == chat {
        var key := Key(chat, s.links[thread].source, s.links[thread].anchor);
        assert Settled(s.conts, s.links, key);
        OpenDirect(s1, t, Task(None, s.nextPrompt, thread, key, project, {thread}, false, Canonical(thread, s.links[thread].state)));
      } else {
        OpenDirect(s1, t, Task(None, s.nextPrompt, thread, Key(chat, thread, turn), project, {thread}, false, Resume(mayLink)));
      }
    }
  }

  lemma OpenDirect(s: Sys, t: nat, task: Task)
    requires Inv(s) && s.stage == UP && t !in s.tasks && ThreadFree(s, task.thread)
    requires task.cmd.None? && !task.linkLock && task.locks == {task.thread} && Unheld(s, task.prompt)
    requires (task.pc.Canonical? && Settled(s.conts, s.links, task.key)) || (task.pc.Resume? && task.key.thread == task.thread)
    ensures Inv(s.(tasks := s.tasks[t := task]))
  {
    LocksWithNew(s.tasks, t, task);
    PutTask(s, t, task, s.claimers);
  }

  /** Before its start a task may always settle its command. */
  lemma SettleMove(s: Sys, t: nat, action: Action)
    requires Inv(s) && At(s, t) && BeforeStart(s.tasks[t].pc) && !CreatingPc(s.tasks[t].pc)
    requires action.Fail? || action.Release? || action.Complete?
    ensures Inv(Goto(s, t, Settle(action)))
  {
    TaskFacts(s, t);
    MoveSameLocks(s, t, Settle(action));
  }

  /** From one step before the start to another that is not part of creating a fork. */
  lemma PlainMove(s: Sys, t: nat, pc: Pc)
    requires Inv(s) && At(s, t) && BeforeStart(s.tasks[t].pc) && !CreatingPc(s.tasks[t].pc)
    requires BeforeStart(pc) && !CreatingPc(pc) && !pc.ReadLink? && !pc.NoLink? && !pc.Route? && !pc.Legacy?
    requires OnSource(pc) ==> s.tasks[t].key.thread == s.tasks[t].thread && s.tasks[t].thread in s.tasks[t].locks
    requires OnTarget(pc) ==> Settled(s.conts, s.links, s.tasks[t].key)
    ensures Inv(Goto(s, t, pc))
  {
    TaskFacts(s, t);
    MoveSameLocks(s, t, pc);
  }

  predicate RoutesToLink(s: Sys, task: Task) {
    && task.key.thread != NONE && task.key.turn != NONE && task.key.thread != task.thread
    && LinkedTo(s, task.thread, task.key) && s.links[task.thread].project == task.project
  }

  lemma RouteLinkedKeeps(s: Sys, t: nat)
    requires Inv(s) && At(s, t) && s.tasks[t].pc.Route? && RoutesToLink(s, s.tasks[t])
    ensures Inv(DoRouteCommand(s, t))
  {
    match s.links[s.tasks[t].thread].state
    case Running => SettleMove(s, t, Release);
    case ReleasePending => SettleMove(s, t, Release);
    case Ready => PlainMove(s, t, Canonical(s.tasks[t].thread, L.Ready));
    case Failed => SettleMove(s, t, Fail);
  }

  lemma RouteCommandKeeps(s: Sys, t: nat)
    requires Inv(s)
    ensures Inv(DoRouteCommand(s, t))
  {
    hide Inv;
    if At(s, t) && s.tasks[t].pc.Route? {
      if RoutesToLink(s, s.tasks[t]) {
        RouteLinkedKeeps(s, t);
      } else if s.tasks[t].key.thread == s.tasks[t].thread && s.tasks[t].key.turn != NONE {
        TaskFacts(s, t);
        PlainMove(s, t, Resume(true));
      } else {
        PlainMove(s, t, OnThread(None));
      }
    }
  }

  lemma GiveUpKeeps(s: Sys, t: nat, action: Action)
    requires Inv(s)
    ensures Inv(DoGiveUp(s, t, action))
  {
    if DoGiveUp(s, t, action) != s {
      SettleMove(s, t, action);
    }
  }

  lemma ChoosePathKeeps(s: Sys, t: nat, pcOrigin: bool)
    requires Inv(s)
    ensures Inv(DoChoosePath(s, t, pcOrigin))
  {
    if At(s, t) && s.tasks[t].pc.Resume? {
      TaskFacts(s, t);
      if s.tasks[t].pc.mayLink && s.tasks[t].key.turn != NONE && pcOrigin {
        PlainMove(s, t, WantLink);
      } else {
        PlainMove(s, t, OnThread(Some(s.tasks[t].pc.mayLink)));
      }
    }
  }

  lemma ConflictKeeps(s: Sys, t: nat)
    requires Inv(s)
    ensures Inv(DoConflict(s, t))
  {
    if At(s, t) && s.tasks[t].pc.OnThread? && s.tasks[t].pc.policy.Some? {
      if s.tasks[t].thread in s.links || !s.tasks[t].pc.policy.value {
        SettleMove(s, t, Release);
      } else {
        TaskFacts(s, t);
        PlainMove(s, t, WantLink);
      }
    }
  }

  lemma RejectChildKeeps(s: Sys, t: nat)
    requires Inv(s)
    ensures Inv(DoRejectChild(s, t))
  {
    if At(s, t) && s.tasks[t].pc.Forked? {
      TaskFacts(s, t);
      MoveSameLocks(s, t, ForkFailed(C.Ambiguous));
    }
  }

  lemma LinkNotReadyKeeps(s: Sys, t: nat)
    requires Inv(s)
    ensures Inv(DoLinkNotReady(s, t))
  {
    if DoLinkNotReady(s, t) != s {
      SettleMove(s, t, Release);
    }
  }

  lemma LookUpLinkKeeps(s: Sys, t: nat, linked: Id)
    requires Inv(s)
    ensures Inv(DoLookUpLink(s, t, linked))
  {
    if At(s, t) && s.tasks[t].pc.ReadLink? {
      if LinkedTo(s, linked, s.tasks[t].key) {
        PlainMove(s, t, Canonical(linked, s.links[linked].state));
      } else if !L.HasLink(s.links, s.tasks[t].key.chat, s.tasks[t].key.thread) {
        TaskFacts(s, t);
        MoveSameLocks(s, t, NoLink);
      }
    }
  }

  /** The start was accepted or stayed unknown: the prompt is logged and spent. */
  lemma StartedMove(s: Sys, t: nat, pc: Pc)
    requires Inv(s) && At(s, t) && BeforeStart(s.tasks[t].pc) && Inv(Goto(s, t, pc))
    requires !BeforeStart(pc) && pc != Settle(Release)
    ensures Inv(Goto(Spend(s, t).(starts := s.starts + [s.tasks[t].prompt]), t, pc))
  {
    HandOn(s, t, pc);
    LogStart(Spend(Goto(s, t, pc), t), s.tasks[t].prompt);
  }

  lemma LinkedMove(s: Sys, t: nat, pc: Pc)
    requires Inv(s) && At(s, t) && s.tasks[t].pc.LinkedStart? && (pc.Marking? || pc.Failing?)
    ensures Inv(Goto(s, t, pc))
  {
    TaskFacts(s, t);
    MoveSameLocks(s, t, pc);
  }

  lemma StartOnThreadKeeps(s: Sys, t: nat, outcome: TurnOutcome)
    requires Inv(s) && At(s, t) && s.tasks[t].pc.OnThread?
    ensures Inv(DoStartTurn(s, t, outcome))
  {
    var pc := Settle(if outcome.Accepted? then Complete else Fail);
    SettleMove(s, t, pc.action);
    StartedMove(s, t, pc);
  }

  lemma StartLinkedKeeps(s: Sys, t: nat, outcome: TurnOutcome)
    requires Inv(s) && At(s, t) && s.tasks[t].pc.LinkedStart?
    ensures Inv(DoStartTurn(s, t, outcome))
  {
    var was := s.tasks[t].pc;
    var pc := if outcome.Accepted? then Marking(was.linked, was.generation, outcome.turn) else Failing(was.linked, was.generation);
    LinkedMove(s, t, pc);
    StartedMove(s, t, pc);
  }

  lemma StartTurnKeeps(s: Sys, t: nat, outcome: TurnOutcome)
    requires Inv(s)
    ensures Inv(DoStartTurn(s, t, outcome))
  {
    if At(s, t) && s.tasks[t].pc.OnThread? {
      StartOnThreadKeeps(s, t, outcome);
    } else if At(s, t) && s.tasks[t].pc.LinkedStart? {
      StartLinkedKeeps(s, t, outcome);
    }
  }

  /** After a task moved past its start, its prompt is free to be logged or copied once. */
  lemma HandOn(s: Sys, t: nat, pc: Pc)
    requires Inv(s) && At(s, t) && BeforeStart(s.tasks[t].pc) && !BeforeStart(pc) && pc != Settle(Release)
    requires Inv(Goto(s, t, pc))
    ensures Inv(Spend(Goto(s, t, pc), t)) && Unheld(Spend(Goto(s, t, pc), t), s.tasks[t].prompt)
  {
    TaskFacts(s, t);
    var s1 := Goto(s, t, pc);
    if s.tasks[t].cmd.Some? {
      SpendRow(s1, t);
      HandOnRow(s, t, pc);
    } else {
      assert DirectMayStart(s.tasks, t);
      assert forall u :: DirectMayStart(s1.tasks, u) ==> DirectMayStart(s.tasks, u) && u != t && s1.tasks[u] == s.tasks[u];
    }
  }

  lemma HandOnRow(s: Sys, t: nat, pc: Pc)
    requires OneHolder(s.commands, s.spent, s.tasks, s.starts) && RowsOk(s.commands, s.spent, s.nextPrompt)
    requires t in s.tasks && CmdOk(s.commands, s.claimers, s.spent, t, s.tasks[t])
    requires BeforeStart(s.tasks[t].pc) && !BeforeStart(pc) && s.tasks[t].cmd.Some?
    ensures Unheld(Spend(Goto(s, t, pc), t), s.tasks[t].prompt)
  {
  }

  lemma MarkStartedKeeps(s: Sys, t: nat)
    requires Inv(s)
    ensures Inv(DoMarkStarted(s, t))
  {
    hide Inv;
    if At(s, t) && s.tasks[t].pc.Marking? {
      var pc := s.tasks[t].pc;
      var s1 := s.(links := L.MarkTurn(s.links, pc.linked, pc.generation, pc.turn));
      Relink(s, s1.links);
      TaskFacts(s1, t);
      MoveSameLocks(s1, t, Settle(if L.CanMark(s.links, pc.linked, pc.generation, pc.turn) then Complete else Leave));
    }
  }

  lemma FailLinkedKeeps(s: Sys, t: nat)
    requires Inv(s)
    ensures Inv(DoFailLinked(s, t))
  {
    if At(s, t) && s.tasks[t].pc.Failing? {
      var s1 := s.(links := L.Fail(s.links, s.tasks[t].pc.linked, s.tasks[t].pc.generation));
      Relink(s, s1.links);
      TaskFacts(s1, t);
      MoveSameLocks(s1, t, Settle(Fail));
    }
  }

  lemma ClaimWorkerKeeps(s: Sys, t: nat, generation: nat)
    requires Inv(s)
    ensures Inv(DoClaimWorker(s, t, generation))
  {
    hide Inv;
    if At(s, t) && s.tasks[t].pc.Canonical? && s.tasks[t].pc.seen.Ready? {
      var l := s.tasks[t].pc.linked;
      if L.CanClaim(s.links, l, generation) {
        var s1 := s.(links := L.Claim(s.links, l, generation));
        Relink(s, s1.links);
        TaskFacts(s1, t);
        PlainMove(s1, t, LinkedStart(l, generation));
      } else {
        SettleMove(s, t, Release);
      }
    }
  }

  lemma LockLinkKeeps(s: Sys, t: nat)
    requires Inv(s)
    ensures Inv(DoLockLink(s, t))
  {
    if At(s, t) && s.tasks[t].pc.WantLink? && LinkFree(s, s.tasks[t].key) {
      TaskFacts(s, t);
      var task := s.tasks[t].(linkLock := true, pc := ReadLink);
      assert LocksOk(s.tasks[t := task]);
      Move(s, t, task);
    }
  }

  lemma NotTried(s: Sys, t: nat)
    requires Inv(s) && At(s, t) && s.tasks[t].pc.Creating?
    ensures !Tried(s.forks, s.tasks[t].key)
  {
  }

  lemma ForkMove(s: Sys, t: nat, pc: Pc)
    requires Inv(s) && At(s, t) && s.tasks[t].pc.Creating?
    requires pc.Forked? || pc == ForkFailed(C.Definite) || pc == ForkFailed(C.Ambiguous)
    ensures Inv(Goto(s, t, pc))
  {
    hide Inv;
    TaskFacts(s, t);
    MoveSameLocks(s, t, pc);
  }

  lemma TriedFork(s: Sys, t: nat, pc: Pc)
    requires Inv(s) && At(s, t) && s.tasks[t].pc.Creating? && Inv(Goto(s, t, pc)) && CreatingPc(pc) && !pc.Creating?
    ensures Inv(Goto(s.(forks := s.forks + [Attempt(s.tasks[t].key)]), t, pc))
  {
    NotTried(s, t);
    LogAttempt(Goto(s, t, pc), t);
  }

  lemma AnsweredFork(s: Sys, t: nat, pc: Pc)
    requires Inv(s) && At(s, t) && s.tasks[t].pc.Creating?
    requires pc.Forked? || pc == ForkFailed(C.Definite) || pc == ForkFailed(C.Ambiguous)
    ensures Inv(Goto(s.(forks := s.forks + [Attempt(s.tasks[t].key)]), t, pc))
  {
    ForkMove(s, t, pc);
    TriedFork(s, t, pc);
  }

  lemma ForkThreadKeeps(s: Sys, t: nat, answer: ForkOutcome)
    requires Inv(s)
    ensures Inv(DoForkThread(s, t, answer))
  {
    if At(s, t) && s.tasks[t].pc.Creating? {
      match answer
      case ForkedTo(child) => AnsweredFork(s, t, Forked(child));
      case ForkError(code) => AnsweredFork(s, t, ForkFailed(ForkFailureKind(code)));
      case NoWorker => ForkMove(s, t, ForkFailed(C.Ambiguous));
    }
  }

  lemma RehomeQueueKeeps(s: Sys, t: nat)
    requires Inv(s)
    ensures Inv(DoRehomeQueue(s, t))
  {
    if At(s, t) && s.tasks[t].pc.Legacy? {
      TaskFacts(s, t);
      var child := s.tasks[t].pc.child;
      MoveSameLocks(s, t, Rehomed(child));
      RehomeRows(Goto(s, t, Rehomed(child)), s.tasks[t].key, child);
    }
  }

  lemma CopySettled(s: Sys, t: nat)
    requires Inv(s) && At(s, t) && OnTarget(s.tasks[t].pc)
    ensures Settled(s.conts, s.links, s.tasks[t].key)
  {
    assert AnchorOk(s.conts, s.links, s.owners, t, s.tasks[t]);
  }

  lemma CopiedMove(s: Sys, t: nat, action: Action, target: Id)
    requires Inv(s) && At(s, t) && BeforeStart(s.tasks[t].pc) && OnTarget(s.tasks[t].pc) && (action.Complete? || action.Fail?)
    ensures
      var task := s.tasks[t];
      Inv(Goto(Spend(s, t).(commands := P.Enqueue(s.commands, target, task.key, task.project, task.prompt)), t, Settle(action)))
  {
    var task := s.tasks[t];
    CopySettled(s, t);
    hide Inv, Settled, P.Enqueue, OnTarget;
    SettleMove(s, t, action);
    HandOn(s, t, Settle(action));
    AppendRow(Spend(Goto(s, t, Settle(action)), t), target, task.key, task.project, task.prompt);
  }

  lemma CopyBehindKeeps(s: Sys, t: nat, turnKnown: bool)
    requires Inv(s)
    ensures Inv(DoCopyBehind(s, t, turnKnown))
  {
    hide Inv, P.Enqueue;
    if At(s, t) && (s.tasks[t].pc.Rehomed? || (s.tasks[t].pc.Canonical? && s.tasks[t].pc.seen.Running?)) {
      var task := s.tasks[t];
      var target := if task.pc.Rehomed? then task.pc.child else task.pc.linked;
      if P.Storable(target, task.project, task.prompt) {
        CopiedMove(s, t, if turnKnown then Complete else Fail, target);
      } else {
        SettleMove(s, t, if task.pc.Rehomed? then Release else Fail);
      }
    }
  }

  lemma ObserverKeeps(s: Sys, link: L.Op)
    requires Inv(s)
    ensures Inv(Next(s, Observer(link)))
  {
    hide Inv;
    if s.stage == UP && ObserverStep(link) {
      Relink(s, L.Step(s.links, link));
    }
  }

  /** Nothing runs during recovery, so moving on to the next recovery step is safe. */
  lemma AdvanceStage(s: Sys)
    requires Inv(s) && 1 <= s.stage < 3
    ensures Inv(s.(stage := s.stage + 1))
  {
  }

  lemma RecoverLinksKeeps(s: Sys)
    requires Inv(s)
    ensures Inv(Next(s, RecoverLinks))
  {
    hide Inv;
    if s.stage == 2 {
      Relink(s, L.Recover(s.links));
      AdvanceStage(s.(links := L.Recover(s.links)));
    }
  }

  // ---- Creating, activating, finishing ----

  lemma PcMove(tasks: Tasks, t: nat, pc: Pc)
    requires LocksOk(tasks) && PcsOk(tasks) && t in tasks && PcOk(tasks[t].(pc := pc))
    ensures LocksOk(tasks[t := tasks[t].(pc := pc)]) && PcsOk(tasks[t := tasks[t].(pc := pc)])
  {
  }

  /** A move of one task together with changes of the continuation and link tables
      that settle no key less. */
  lemma Recombine(s: Sys, t: nat, pc: Pc, conts: C.Table, links: L.Table, owners: map<Key, nat>, forks: seq<ForkEvent>)
    requires Inv(s) && At(s, t) && PcOk(s.tasks[t].(pc := pc))
    requires CmdOk(s.commands, s.claimers, s.spent, t, s.tasks[t].(pc := pc))
    requires BeforeStart(pc) ==> BeforeStart(s.tasks[t].pc)
    requires forall k :: Settled(s.conts, s.links, k) ==> Settled(conts, links, k)
    requires AnchorsOk(conts, links, owners, s.tasks[t := s.tasks[t].(pc := pc)])
    requires CreatingOk(conts, links, owners, s.tasks[t := s.tasks[t].(pc := pc)], s.stage)
    requires ForksOk(forks, conts, owners, s.tasks[t := s.tasks[t].(pc := pc)], s.stage)
    ensures Inv(Goto(s.(conts := conts, links := links, owners := owners, forks := forks), t, pc))
  {
    PcMove(s.tasks, t, pc);
    CmdsAfterMove(s.commands, s.claimers, s.spent, s.tasks, t, s.tasks[t].(pc := pc));
    HolderAfter(s.commands, s.spent, s.tasks, s.starts, s.nextPrompt, t, s.tasks[t].(pc := pc));
    SettledRows(s.commands, s.conts, s.links, conts, links, s.spent, s.claimers);
  }

  lemma SettledRows(rows: P.Table, conts: C.Table, links: L.Table, conts': C.Table, links': L.Table, spent: set<nat>, claimers: map<nat, nat>)
    requires HomedOk(rows, conts, links) && SpentOk(rows, conts, links, spent, claimers, UP)
    requires forall k :: Settled(conts, links, k) ==> Settled(conts', links', k)
    ensures HomedOk(rows, conts', links') && SpentOk(rows, conts', links', spent, claimers, UP)
  {
  }

  lemma CreatingAfterClaim(s: Sys, t: nat)
    requires Inv(s) && At(s, t) && s.tasks[t].pc.NoLink? && C.Claimable(s.conts, s.tasks[t].key, s.tasks[t].project)
    ensures
      var key := s.tasks[t].key;
      CreatingOk(C.Claim(s.conts, key, s.tasks[t].project), s.links, s.owners[key := t], s.tasks[t := s.tasks[t].(pc := Creating)], s.stage)
  {
    TaskFacts(s, t);
    var key := s.tasks[t].key;
    var conts := C.Claim(s.conts, key, s.tasks[t].project);
    var tasks := s.tasks[t := s.tasks[t].(pc := Creating)];
    C.StepKeepsValid(s.conts, C.ClaimOp(key, s.tasks[t].project));
    forall k | IsCreating(conts, k)
      ensures OwnerOk(s.owners[key := t], tasks, k)
    {
      if k != key {
        assert IsCreating(s.conts, k) && OwnerOk(s.owners, s.tasks, k);
      }
    }
  }

  lemma AnchorsAfterClaim(s: Sys, t: nat)
    requires Inv(s) && At(s, t) && s.tasks[t].pc.NoLink? && C.Claimable(s.conts, s.tasks[t].key, s.tasks[t].project)
    ensures
      var key := s.tasks[t].key;
      AnchorsOk(C.Claim(s.conts, key, s.tasks[t].project), s.links, s.owners[key := t], s.tasks[t := s.tasks[t].(pc := Creating)])
  {
    TaskFacts(s, t);
    var key := s.tasks[t].key;
    var conts := C.Claim(s.conts, key, s.tasks[t].project);
    assert forall k :: Settled(conts, s.links, k) == Settled(s.conts, s.links, k);
    forall u | u in s.tasks && u != t
      ensures AnchorOk(conts, s.links, s.owners[key := t], u, s.tasks[u])
    {
      assert AnchorOk(s.conts, s.links, s.owners, u, s.tasks[u]);
    }
  }

  lemma ForksAfterClaim(s: Sys, t: nat)
    requires Inv(s) && At(s, t) && s.tasks[t].pc.NoLink? && C.Claimable(s.conts, s.tasks[t].key, s.tasks[t].project)
    ensures
      var key := s.tasks[t].key;
      ForksOk(s.forks, C.Claim(s.conts, key, s.tasks[t].project), s.owners[key := t], s.tasks[t := s.tasks[t].(pc := Creating)], s.stage)
  {
    var key := s.tasks[t].key;
    var conts := C.Claim(s.conts, key, s.tasks[t].project);
    forall k | Tried(s.forks, k)
      ensures TriedOk(conts, s.owners[key := t], s.tasks[t := s.tasks[t].(pc := Creating)], s.stage, k)
    {
      assert TriedOk(s.conts, s.owners, s.tasks, s.stage, k);
      assert k != key;
      assert IsCreating(s.conts, k) && s.stage != 0 ==> OwnerOk(s.owners, s.tasks, k);
    }
  }

  lemma ClaimedMove(s: Sys, t: nat)
    requires Inv(s) && At(s, t) && s.tasks[t].pc.NoLink? && C.Claimable(s.conts, s.tasks[t].key, s.tasks[t].project)
    ensures
      var key := s.tasks[t].key;
      Inv(Goto(s.(conts := C.Claim(s.conts, key, s.tasks[t].project), owners := s.owners[key := t]), t, Creating))
  {
    var key := s.tasks[t].key;
    var conts := C.Claim(s.conts, key, s.tasks[t].project);
    TaskFacts(s, t);
    CreatingAfterClaim(s, t);
    AnchorsAfterClaim(s, t);
    ForksAfterClaim(s, t);
    assert forall k :: Settled(conts, s.links, k) == Settled(s.conts, s.links, k);
    Recombine(s, t, Creating, conts, s.links, s.owners[key := t], s.forks);
  }

  lemma ClaimContinuationKeeps(s: Sys, t: nat)
    requires Inv(s)
    ensures Inv(DoClaimContinuation(s, t))
  {
    if At(s, t) && s.tasks[t].pc.NoLink? {
      var task := s.tasks[t];
      if C.Claimable(s.conts, task.key, task.project) {
        ClaimedMove(s, t);
      } else if task.key in s.conts && s.conts[task.key].status.Active? && s.conts[task.key].project == task.project {
        TaskFacts(s, t);
        MoveSameLocks(s, t, Legacy(s.conts[task.key].fork));
      } else {
        SettleMove(s, t, Release);
      }
    }
  }

  lemma FailedAnchors(s: Sys, t: nat)
    requires Inv(s) && At(s, t) && s.tasks[t].pc.ForkFailed?
    ensures
      var key, kind := s.tasks[t].key, s.tasks[t].pc.kind;
      AnchorsOk(C.Fail(s.conts, key, kind), s.links, s.owners - {key}, s.tasks[t := s.tasks[t].(pc := Settle(Release))])
  {
    TaskFacts(s, t);
    var key, kind := s.tasks[t].key, s.tasks[t].pc.kind;
    var conts := C.Fail(s.conts, key, kind);
    assert forall k :: Settled(conts, s.links, k) == Settled(s.conts, s.links, k);
    forall u | u in s.tasks && u != t
      ensures AnchorOk(conts, s.links, s.owners - {key}, u, s.tasks[u])
    {
      assert AnchorOk(s.conts, s.links, s.owners, u, s.tasks[u]);
    }
  }

  lemma FailedCreating(s: Sys, t: nat)
    requires Inv(s) && At(s, t) && s.tasks[t].pc.ForkFailed?
    ensures
      var key, kind := s.tasks[t].key, s.tasks[t].pc.kind;
      var tasks := s.tasks[t := s.tasks[t].(pc := Settle(Release))];
      CreatingOk(C.Fail(s.conts, key, kind), s.links, s.owners - {key}, tasks, s.stage)
  {
    TaskFacts(s, t);
    var key, kind := s.tasks[t].key, s.tasks[t].pc.kind;
    var conts := C.Fail(s.conts, key, kind);
    var tasks := s.tasks[t := s.tasks[t].(pc := Settle(Release))];
    C.StepKeepsValid(s.conts, C.FailOp(key, kind));
    forall k | IsCreating(conts, k)
      ensures OwnerOk(s.owners - {key}, tasks, k)
    {
      assert IsCreating(s.conts, k) && OwnerOk(s.owners, s.tasks, k);
    }
  }

  lemma FailedForks(s: Sys, t: nat)
    requires Inv(s) && At(s, t) && s.tasks[t].pc.ForkFailed?
    ensures
      var key, kind := s.tasks[t].key, s.tasks[t].pc.kind;
      ForksOk(if kind.Definite? then s.forks + [DefiniteFailure(key)] else s.forks,
              C.Fail(s.conts, key, kind), s.owners - {key}, s.tasks[t := s.tasks[t].(pc := Settle(Release))], s.stage)
  {
    TaskFacts(s, t);
    var key, kind := s.tasks[t].key, s.tasks[t].pc.kind;
    var forks := if kind.Definite? then s.forks + [DefiniteFailure(key)] else s.forks;
    Push(s.forks, DefiniteFailure(key));
    forall k | Tried(forks, k)
      ensures TriedOk(C.Fail(s.conts, key, kind), s.owners - {key}, s.tasks[t := s.tasks[t].(pc := Settle(Release))], s.stage, k)
    {
      assert TriedOk(s.conts, s.owners, s.tasks, s.stage, k);
    }
  }

  lemma RecordForkFailureKeeps(s: Sys, t: nat)
    requires Inv(s)
    ensures Inv(DoRecordForkFailure(s, t))
  {
    if At(s, t) && s.tasks[t].pc.ForkFailed? {
      var key, kind := s.tasks[t].key, s.tasks[t].pc.kind;
      TaskFacts(s, t);
      FailedAnchors(s, t);
      FailedCreating(s, t);
      FailedForks(s, t);
      assert forall k :: Settled(C.Fail(s.conts, key, kind), s.links, k) == Settled(s.conts, s.links, k);
      Recombine(s, t, Settle(Release), C.Fail(s.conts, key, kind), s.links, s.owners - {key},
                if kind.Definite? then s.forks + [DefiniteFailure(key)] else s.forks);
    }
  }

  // Activation: a new linked row and an active continuation appear together.

  ghost predicate Activates(s: Sys, t: nat, generation: nat) {
    && At(s, t) && (s.tasks[t].pc.Forked? || s.tasks[t].pc.Legacy?)
    && C.CanActivate(s.conts, s.tasks[t].key, s.tasks[t].project, s.tasks[t].pc.child)
    && L.CanInsert(s.links, s.tasks[t].pc.child, s.tasks[t].key.chat, s.tasks[t].key.thread)
    && generation <= L.MAX_GENERATION
  }

  function NewLink(task: Task, generation: nat): L.Row {
    L.Row(task.key.chat, task.project, task.key.thread, task.key.turn, false, L.Running, NONE, generation)
  }

  lemma SettledGrows(conts: C.Table, links: L.Table, key: Key, project: Id, child: Id, row: L.Row)
    requires C.CanActivate(conts, key, project, child) && L.CanInsert(links, child, row.chat, row.source) && row.generation <= L.MAX_GENERATION
    ensures forall k :: Settled(conts, links, k) ==> Settled(C.Activate(conts, key, project, child), L.Insert(links, child, row), k)
    ensures forall chat, source ::
      L.HasLink(L.Insert(links, child, row), chat, source) <==> L.HasLink(links, chat, source) || (chat == row.chat && source == row.source)
  {
    var next := L.Insert(links, child, row);
    assert child in next && next[child] == row;
    assert forall l :: l in links ==> l in next && next[l] == links[l];
  }

  /** No other task is between reading the linked row and its activation. */
  lemma AloneOnSource(s: Sys, t: nat, u: nat)
    requires Inv(s) && At(s, t) && (s.tasks[t].pc.Forked? || s.tasks[t].pc.Legacy?)
    requires u in s.tasks && (s.tasks[u].pc.NoLink? || CreatingPc(s.tasks[u].pc)) && SameSource(s.tasks[u].key, s.tasks[t].key)
    ensures u == t
  {
  }

  lemma ActivatedAnchors(s: Sys, t: nat, generation: nat)
    requires Inv(s) && Activates(s, t, generation)
    ensures
      var task := s.tasks[t];
      AnchorsOk(C.Activate(s.conts, task.key, task.project, task.pc.child), L.Insert(s.links, task.pc.child, NewLink(task, generation)),
                s.owners - {task.key}, s.tasks[t := task.(pc := LinkedStart(task.pc.child, generation))])
  {
    TaskFacts(s, t);
    var task := s.tasks[t];
    var conts := C.Activate(s.conts, task.key, task.project, task.pc.child);
    var links := L.Insert(s.links, task.pc.child, NewLink(task, generation));
    SettledGrows(s.conts, s.links, task.key, task.project, task.pc.child, NewLink(task, generation));
    forall u | u in s.tasks && u != t
      ensures AnchorOk(conts, links, s.owners - {task.key}, u, s.tasks[u])
    {
      assert AnchorOk(s.conts, s.links, s.owners, u, s.tasks[u]);
      if (s.tasks[u].pc.NoLink? || CreatingPc(s.tasks[u].pc)) && SameSource(s.tasks[u].key, task.key) {
        AloneOnSource(s, t, u);
      }
    }
  }

  lemma ActivatedCreating(s: Sys, t: nat, generation: nat)
    requires Inv(s) && Activates(s, t, generation)
    ensures
      var task := s.tasks[t];
      CreatingOk(C.Activate(s.conts, task.key, task.project, task.pc.child), L.Insert(s.links, task.pc.child, NewLink(task, generation)),
                 s.owners - {task.key}, s.tasks[t := task.(pc := LinkedStart(task.pc.child, generation))], s.stage)
  {
    TaskFacts(s, t);
    var task := s.tasks[t];
    var conts := C.Activate(s.conts, task.key, task.project, task.pc.child);
    C.StepKeepsValid(s.conts, C.ActivateOp(task.key, task.project, task.pc.child));
    SettledGrows(s.conts, s.links, task.key, task.project, task.pc.child, NewLink(task, generation));
    forall k | IsCreating(conts, k)
      ensures OwnerOk(s.owners - {task.key}, s.tasks[t := task.(pc := LinkedStart(task.pc.child, generation))], k)
      ensures !SameSource(k, task.key)
    {
      assert k != task.key && IsCreating(s.conts, k) && OwnerOk(s.owners, s.tasks, k);
    }
  }

  lemma ActivatedForks(s: Sys, t: nat, generation: nat)
    requires Inv(s) && Activates(s, t, generation)
    ensures
      var task := s.tasks[t];
      ForksOk(s.forks, C.Activate(s.conts, task.key, task.project, task.pc.child),
              s.owners - {task.key}, s.tasks[t := task.(pc := LinkedStart(task.pc.child, generation))], s.stage)
  {
  }

  lemma ActivatedMove(s: Sys, t: nat, generation: nat)
    requires Inv(s) && Activates(s, t, generation)
    ensures
      var task := s.tasks[t];
      Inv(Goto(s.(conts := C.Activate(s.conts, task.key, task.project, task.pc.child),
                  links := L.Insert(s.links, task.pc.child, NewLink(task, generation)),
                  owners := s.owners - {task.key}), t, LinkedStart(task.pc.child, generation)))
  {
    TaskFacts(s, t);
    var task := s.tasks[t];
    ActivatedAnchors(s, t, generation);
    ActivatedCreating(s, t, generation);
    ActivatedForks(s, t, generation);
    SettledGrows(s.conts, s.links, task.key, task.project, task.pc.child, NewLink(task, generation));
    Recombine(s, t, LinkedStart(task.pc.child, generation), C.Activate(s.conts, task.key, task.project, task.pc.child),
              L.Insert(s.links, task.pc.child, NewLink(task, generation)), s.owners - {task.key}, s.forks);
  }

  lemma ActivateLinkedKeeps(s: Sys, t: nat, generation: nat)
    requires Inv(s)
    ensures Inv(DoActivateLinked(s, t, generation))
  {
    hide Inv;
    if At(s, t) && (s.tasks[t].pc.Forked? || s.tasks[t].pc.Legacy?) {
      var task := s.tasks[t];
      if Activates(s, t, generation) {
        ActivatedMove(s, t, generation);
        var s1 := Goto(s.(conts := C.Activate(s.conts, task.key, task.project, task.pc.child),
                          links := L.Insert(s.links, task.pc.child, NewLink(task, generation)),
                          owners := s.owners - {task.key}), t, LinkedStart(task.pc.child, generation));
        RehomeRows(s1, task.key, task.pc.child);
      } else if task.pc.Forked? {
        TaskFacts(s, t);
        MoveSameLocks(s, t, ForkFailed(C.Ambiguous));
      } else {
        SettleMove(s, t, Release);
      }
    }
  }

  /** One claimed row is finalized, released or left as it is. */
  ghost predicate EndsRow(rows: P.Table, next: P.Table, i: nat) {
    && i < |rows| == |next|
    && (forall j :: 0 <= j < |rows| && j != i ==> next[j] == rows[j])
    && ((next[i].Finished() && next[i].payload.None?) || (next[i].Live() && next[i] == rows[i].(status := next[i].status)))
  }

  lemma HolderAfterEnd(rows: P.Table, next: P.Table, spent: set<nat>, tasks: Tasks, starts: seq<Id>, i: nat)
    requires OneHolder(rows, spent, tasks, starts)
    requires EndsRow(rows, next, i) && rows[i].Live()
    ensures OneHolder(next, spent, tasks, starts)
  {
  }

  lemma CmdsAfterEnd(rows: P.Table, next: P.Table, claimers: map<nat, nat>, spent: set<nat>, tasks: Tasks, t: nat, i: nat, nextPrompt: nat)
    requires CmdsOk(rows, claimers, spent, tasks) && RowsOk(rows, spent, nextPrompt) && EndsRow(rows, next, i)
    requires t in tasks && tasks[t].cmd == Some(i)
    requires next[i].status.Pending? ==> i !in spent
    ensures CmdsOk(next, claimers - {i}, spent, tasks - {t}) && RowsOk(next, spent, nextPrompt)
  {
  }

  lemma FinishRow(s: Sys, t: nat, next: P.Table)
    requires Inv(s) && At(s, t) && s.tasks[t].pc.Settle? && s.tasks[t].cmd.Some?
    requires EndsRow(s.commands, next, s.tasks[t].cmd.value)
    requires next[s.tasks[t].cmd.value].status.Pending? ==> s.tasks[t].cmd.value !in s.spent
    requires next[s.tasks[t].cmd.value].status.Claimed? ==> s.tasks[t].pc == Settle(Leave)
    ensures Inv(s.(tasks := s.tasks - {t}, claimers := s.claimers - {s.tasks[t].cmd.value}, commands := next))
  {
    TaskFacts(s, t);
    var i := s.tasks[t].cmd.value;
    DroppedTask(s.conts, s.links, s.owners, s.tasks, s.forks, s.stage, t);
    HolderAfterEnd(s.commands, next, s.spent, s.tasks, s.starts, i);
    HolderAfterDrop(next, s.spent, s.tasks, s.starts, s.nextPrompt, t);
    CmdsAfterEnd(s.commands, next, s.claimers, s.spent, s.tasks, t, i, s.nextPrompt);
    SpentAfterEnd(s.commands, next, s.conts, s.links, s.spent, s.claimers, i);
    HomedAfterEnd(s.commands, next, s.conts, s.links, i);
  }

  lemma SpentAfterEnd(rows: P.Table, next: P.Table, conts: C.Table, links: L.Table, spent: set<nat>, claimers: map<nat, nat>, i: nat)
    requires SpentOk(rows, conts, links, spent, claimers, UP) && EndsRow(rows, next, i)
    requires next[i].status.Claimed? ==> next[i] == rows[i] && Settled(conts, links, rows[i].source)
    ensures SpentOk(next, conts, links, spent, claimers - {i}, UP)
  {
  }

  lemma HomedAfterEnd(rows: P.Table, next: P.Table, conts: C.Table, links: L.Table, i: nat)
    requires HomedOk(rows, conts, links) && EndsRow(rows, next, i) && rows[i].Live()
    ensures HomedOk(next, conts, links)
  {
  }

  lemma EndedRow(rows: P.Table, i: nat)
    requires i < |rows| && rows[i].status.Claimed?
    ensures EndsRow(rows, P.Finalize(rows, i, P.Completed), i) && P.Finalize(rows, i, P.Completed)[i].Finished()
    ensures EndsRow(rows, P.Finalize(rows, i, P.Failed), i) && P.Finalize(rows, i, P.Failed)[i].Finished()
    ensures EndsRow(rows, P.Release(rows, i), i) && P.Release(rows, i)[i].status.Pending?
    ensures EndsRow(rows, rows, i)
  {
  }

  lemma FinishKeeps(s: Sys, t: nat)
    requires Inv(s)
    ensures Inv(DoFinish(s, t))
  {
    if At(s, t) && s.tasks[t].pc.Settle? {
      TaskFacts(s, t);
      if s.tasks[t].cmd.None? {
        DropIdle(s, t);
      } else {
        var i := s.tasks[t].cmd.value;
        EndedRow(s.commands, i);
        match s.tasks[t].pc.action
        case Complete => FinishRow(s, t, P.Finalize(s.commands, i, P.Completed));
        case Fail => FinishRow(s, t, P.Finalize(s.commands, i, P.Failed));
        case Release => FinishRow(s, t, P.Release(s.commands, i));
        case Leave => FinishRow(s, t, s.commands);
      }
    }
  }

  // ---- Repair, crash and recovery ----

  lemma RepairKeeps(s: Sys, chat: Chat)
    requires Inv(s)
    ensures Inv(Next(s, Repair(chat)))
  {
    if s.stage == UP {
      RepairWhileUp(s, chat);
    }
  }

  lemma RepairWhileUp(s: Sys, chat: Chat)
    requires Inv(s) && s.stage == UP
    ensures Inv(s.(conts := C.Rearm(s.conts, chat), forks := s.forks + [Rearmed(chat)]))
  {
    var conts := C.Rearm(s.conts, chat);
    C.StepKeepsValid(s.conts, C.RearmOp(chat));
    RepairedForks(s.forks, s.conts, s.owners, s.tasks, s.stage, chat);
    RepairedAnchors(s.conts, s.links, s.owners, s.tasks, chat);
    assert forall k :: IsCreating(conts, k) == IsCreating(s.conts, k);
    SettledRows(s.commands, s.conts, s.links, conts, s.links, s.spent, s.claimers);
  }

  lemma RepairedForks(forks: seq<ForkEvent>, conts: C.Table, owners: map<Key, nat>, tasks: Tasks, stage: nat, chat: Chat)
    requires ForksOk(forks, conts, owners, tasks, stage)
    ensures ForksOk(forks + [Rearmed(chat)], C.Rearm(conts, chat), owners, tasks, stage)
  {
    Push(forks, Rearmed(chat));
    assert forall k: Key :: k.chat != chat && TriedOk(conts, owners, tasks, stage, k) ==> TriedOk(C.Rearm(conts, chat), owners, tasks, stage, k);
  }

  lemma RepairedAnchors(conts: C.Table, links: L.Table, owners: map<Key, nat>, tasks: Tasks, chat: Chat)
    requires AnchorsOk(conts, links, owners, tasks)
    ensures AnchorsOk(C.Rearm(conts, chat), links, owners, tasks)
    ensures forall k :: Settled(C.Rearm(conts, chat), links, k) == Settled(conts, links, k)
  {
  }

  /** The heart of the at-most-once argument: when a prompt was handed on, no
      continuation of its source is in the making. */
  lemma HandedOnIsNotCreating(s: Sys, i: nat)
    requires Inv(s) && HandedOn(s.commands, s.spent, i)
    ensures !IsCreating(s.conts, s.commands[i].source)
  {
    if s.stage == UP && i in s.claimers {
      TaskFacts(s, s.claimers[i]);
    }
  }

  lemma CrashKeeps(s: Sys)
    requires Inv(s)
    ensures Inv(DoCrash(s))
  {
    forall i | HandedOn(s.commands, s.spent, i)
      ensures !IsCreating(s.conts, s.commands[i].source)
    {
      HandedOnIsNotCreating(s, i);
    }
    var n := DoCrash(s);
    assert SpentOk(n.commands, n.conts, n.links, n.spent, n.claimers, n.stage);
    assert forall k :: TriedOk(s.conts, s.owners, s.tasks, s.stage, k) ==> TriedOk(s.conts, map[], map[], 0, k);
  }

  lemma ReturnedRows(rows: P.Table, creating: set<Key>, spent: set<nat>, nextPrompt: nat)
    requires RowsOk(rows, spent, nextPrompt)
    requires forall i :: HandedOn(rows, spent, i) ==> rows[i].source !in creating
    requires forall k :: k in creating ==> k.Complete()
    ensures RowsOk(P.ReturnClaimed(rows, creating), spent, nextPrompt)
  {
  }

  lemma ReturnedHomes(rows: P.Table, creating: set<Key>, conts: C.Table, conts': C.Table, links: L.Table)
    requires HomedOk(rows, conts, links)
    requires forall k :: Settled(conts, links, k) ==> Settled(conts', links, k)
    ensures HomedOk(P.ReturnClaimed(rows, creating), conts', links)
  {
  }

  lemma RecoverContinuationsKeeps(s: Sys)
    requires Inv(s)
    ensures Inv(DoRecoverContinuations(s))
  {
    if s.stage == 0 {
      var rows := P.ReturnClaimed(s.commands, C.CreatingKeys(s.conts));
      var conts := C.Recover(s.conts);
      C.StepKeepsValid(s.conts, C.RecoverOp);
      HolderAfterRows(s.commands, rows, s.spent, s.tasks, s.starts);
      assert forall k :: Settled(conts, s.links, k) == Settled(s.conts, s.links, k);
      ReturnedHomes(s.commands, C.CreatingKeys(s.conts), s.conts, conts, s.links);
      ReturnedRows(s.commands, C.CreatingKeys(s.conts), s.spent, s.nextPrompt);
      assert forall k :: TriedOk(s.conts, s.owners, s.tasks, 0, k) ==> TriedOk(conts, s.owners, s.tasks, 1, k);
    }
  }

  lemma AdoptKeeps(s: Sys, key: Key)
    requires Inv(s)
    ensures Inv(DoAdopt(s, key))
  {
    var links := DoAdopt(s, key).links;
    assert forall l :: l in s.links ==> l in links && links[l] == s.links[l];
    assert forall k :: Settled(s.conts, s.links, k) ==> Settled(s.conts, links, k);
    if links != s.links {
      assert forall k :: !IsCreating(s.conts, k) by {
        assert forall k :: IsCreating(s.conts, k) ==> OwnerOk(s.owners, s.tasks, k);
      }
    }
  }

  lemma RecoverCommandsKeeps(s: Sys)
    requires Inv(s)
    ensures Inv(Next(s, RecoverCommands))
  {
    if s.stage == 3 {
      RecoverCommandsAtThree(s);
    }
  }

  lemma RecoverCommandsAtThree(s: Sys)
    requires Inv(s) && s.stage == 3
    ensures Inv(s.(commands := P.RecoverClaimed(s.commands), stage := UP))
  {
    var rows := P.RecoverClaimed(s.commands);
    assert forall j :: MayStart(rows, s.spent, j) ==> MayStart(s.commands, s.spent, j) && rows[j] == s.commands[j];
    assert OneHolder(rows, s.spent, s.tasks, s.starts);
    assert forall j :: !HandedOn(rows, s.spent, j);
    assert forall j :: 0 <= j < |rows| && Away(rows[j]) ==> Away(s.commands[j]) && rows[j] == s.commands[j];
    assert forall k :: IsCreating(s.conts, k) ==> OwnerOk(s.owners, s.tasks, k);
    assert forall k :: TriedOk(s.conts, s.owners, s.tasks, 3, k) ==> TriedOk(s.conts, s.owners, s.tasks, UP, k);
  }

  // ---- Every run ----

  lemma AdoptDoneKeeps(s: Sys)
    requires Inv(s)
    ensures Inv(Next(s, AdoptDone))
  {
    hide Inv;
    if s.stage == 1 {
      AdvanceStage(s);
    }
  }

  predicate QueueOp(op: Op) {
    op.SubmitQueued? || op.DrainClaim? || op.BacklogOpen? || op.BacklogClaim? || op.BacklogLock?
  }

  lemma QueueOpKeeps(s: Sys, op: Op)
    requires Inv(s) && QueueOp(op)
    ensures Inv(Next(s, op))
  {
    hide Inv;
    match op
    case SubmitQueued(thread, key, project) =>
      if s.stage == UP && (key.thread == thread || key.thread == NONE) {
        SubmitKeeps(s, thread, key, project);
      }
    case DrainClaim(t, thread) => DrainClaimKeeps(s, t, thread);
    case BacklogOpen(t, thread, key, project) => BacklogOpenKeeps(s, t, thread, key, project);
    case BacklogClaim(t) => BacklogClaimKeeps(s, t);
    case BacklogLock(t) => BacklogLockKeeps(s, t);
  }

  predicate PathOp(op: Op) {
    op.DirectOpen? || op.RouteCommand? || op.GiveUp? || op.ChoosePath? || op.Conflict?
  }

  lemma PathOpKeeps(s: Sys, op: Op)
    requires Inv(s) && PathOp(op)
    ensures Inv(Next(s, op))
  {
    hide Inv;
    match op
    case DirectOpen(t, thread, chat, turn, project, mayLink) => DirectOpenKeeps(s, t, thread, chat, turn, project, mayLink);
    case RouteCommand(t) => RouteCommandKeeps(s, t);
    case GiveUp(t, action) => GiveUpKeeps(s, t, action);
    case ChoosePath(t, pcOrigin) => ChoosePathKeeps(s, t, pcOrigin);
    case Conflict(t) => ConflictKeeps(s, t);
  }

  predicate StartOp(op: Op) {
    op.StartTurn? || op.MarkStarted? || op.FailLinked? || op.Finish?
  }

  lemma StartOpKeeps(s: Sys, op: Op)
    requires Inv(s) && StartOp(op)
    ensures Inv(Next(s, op))
  {
    hide Inv;
    match op
    case StartTurn(t, outcome) => StartTurnKeeps(s, t, outcome);
    case MarkStarted(t) => MarkStartedKeeps(s, t);
    case FailLinked(t) => FailLinkedKeeps(s, t);
    case Finish(t) => FinishKeeps(s, t);
  }

  predicate ForkOp(op: Op) {
    op.LockLink? || op.LookUpLink? || op.ClaimContinuation? || op.ForkThread?
  }

  lemma ForkOpKeeps(s: Sys, op: Op)
    requires Inv(s) && ForkOp(op)
    ensures Inv(Next(s, op))
  {
    hide Inv;
    match op
    case LockLink(t) => LockLinkKeeps(s, t);
    case LookUpLink(t, linked) => LookUpLinkKeeps(s, t, linked);
    case ClaimContinuation(t) => ClaimContinuationKeeps(s, t);
    case ForkThread(t, answer) => ForkThreadKeeps(s, t, answer);
  }

  predicate ChildOp(op: Op) {
    op.RejectChild? || op.RecordForkFailure? || op.ActivateLinked? || op.RehomeQueue?
  }

  lemma ChildOpKeeps(s: Sys, op: Op)
    requires Inv(s) && ChildOp(op)
    ensures Inv(Next(s, op))
  {
    hide Inv;
    match op
    case RejectChild(t) => RejectChildKeeps(s, t);
    case RecordForkFailure(t) => RecordForkFailureKeeps(s, t);
    case ActivateLinked(t, generation) => ActivateLinkedKeeps(s, t, generation);
    case RehomeQueue(t) => RehomeQueueKeeps(s, t);
  }

  predicate LinkOp(op: Op) {
    op.CopyBehind? || op.LinkNotReady? || op.ClaimWorker? || op.Observer?
  }

  lemma LinkOpKeeps(s: Sys, op: Op)
    requires Inv(s) && LinkOp(op)
    ensures Inv(Next(s, op))
  {
    hide Inv;
    match op
    case CopyBehind(t, turnKnown) => CopyBehindKeeps(s, t, turnKnown);
    case LinkNotReady(t) => LinkNotReadyKeeps(s, t);
    case ClaimWorker(t, generation) => ClaimWorkerKeeps(s, t, generation);
    case Observer(link) => ObserverKeeps(s, link);
  }

  predicate RecoveryOp(op: Op) {
    op.Repair? || op.Crash? || op.RecoverContinuations? || op.Adopt?
  }

  lemma RecoveryOpKeeps(s: Sys, op: Op)
    requires Inv(s) && RecoveryOp(op)
    ensures Inv(Next(s, op))
  {
    hide Inv;
    match op
    case Repair(chat) => RepairKeeps(s, chat);
    case Crash => CrashKeeps(s);
    case RecoverContinuations => RecoverContinuationsKeeps(s);
    case Adopt(key) => AdoptKeeps(s, key);
  }

  predicate BootOp(op: Op) {
    op.AdoptDone? || op.RecoverLinks? || op.RecoverCommands?
  }

  lemma BootOpKeeps(s: Sys, op: Op)
    requires Inv(s) && BootOp(op)
    ensures Inv(Next(s, op))
  {
    hide Inv;
    match op
    case AdoptDone => AdoptDoneKeeps(s);
    case RecoverLinks => RecoverLinksKeeps(s);
    case RecoverCommands => RecoverCommandsKeeps(s);
  }

  lemma NextKeeps(s: Sys, op: Op)
    requires Inv(s)
    ensures Inv(Next(s, op))
  {
    hide Inv;
    if QueueOp(op) {
      QueueOpKeeps(s, op);
    } else if PathOp(op) {
      PathOpKeeps(s, op);
    } else if StartOp(op) {
      StartOpKeeps(s, op);
    } else if ForkOp(op) {
      ForkOpKeeps(s, op);
    } else if ChildOp(op) {
      ChildOpKeeps(s, op);
    } else if LinkOp(op) {
      LinkOpKeeps(s, op);
    } else if RecoveryOp(op) {
      RecoveryOpKeeps(s, op);
    } else {
      BootOpKeeps(s, op);
    }
  }

  lemma {:induction false} RunKeeps(s: Sys, ops: seq<Op>)
    requires Inv(s)
    ensures Inv(Run(s, ops))
    decreases |ops|
  {
    if ops != [] {
      NextKeeps(s, ops[0]);
      RunKeeps(Next(s, ops[0]), ops[1..]);
    }
  }

  lemma InitHolds()
    ensures Inv(INIT)
  {
  }

  /** At most once: over every run, with crashes and recoveries anywhere, no prompt has
      two turn starts that were accepted or left unknown, and no command that carries
      a started prompt is ever pending again. */
  lemma PromptsStartAtMostOnce(ops: seq<Op>)
    ensures
      var s := Run(INIT, ops);
      && (forall i, j :: 0 <= i < j < |s.starts| ==> s.starts[i] != s.starts[j])
      && (forall i :: 0 <= i < |s.commands| && s.commands[i].status.Pending? ==> PromptOf(s.commands[i]) !in s.starts)
  {
    InitHolds();
    RunKeeps(INIT, ops);
    var s := Run(INIT, ops);
    assert forall i :: 0 <= i < |s.commands| && s.commands[i].status.Pending? ==> MayStart(s.commands, s.spent, i);
  }

  /** No silent re-fork: between two fork calls for one key there is a definite failure
      of that key or an explicit repair of its chat. */
  lemma ForksAreSpaced(ops: seq<Op>, i: nat, j: nat)
    requires i < j < |Run(INIT, ops).forks|
    requires Run(INIT, ops).forks[i].Attempt? && Run(INIT, ops).forks[j] == Run(INIT, ops).forks[i]
    ensures exists m :: i < m < j && Reopens(Run(INIT, ops).forks[m], Run(INIT, ops).forks[i].key)
  {
    InitHolds();
    RunKeeps(INIT, ops);
  }

  lemma ActivationKeepsActive(s: Sys, t: nat, generation: nat, key: Key)
    requires C.Valid(s.conts) && key in s.conts && s.conts[key].status.Active?
    ensures key in DoActivateLinked(s, t, generation).conts && DoActivateLinked(s, t, generation).conts[key] == s.conts[key]
  {
  }

  lemma FailureKeepsActive(s: Sys, t: nat, key: Key)
    requires key in s.conts && s.conts[key].status.Active?
    ensures key in DoRecordForkFailure(s, t).conts && DoRecordForkFailure(s, t).conts[key] == s.conts[key]
  {
  }

  lemma ClaimKeepsActive(s: Sys, t: nat, key: Key)
    requires C.Valid(s.conts) && key in s.conts && s.conts[key].status.Active?
    ensures key in DoClaimContinuation(s, t).conts && DoClaimContinuation(s, t).conts[key] == s.conts[key]
  {
  }

  predicate ContinuationOp(op: Op) {
    op.ActivateLinked? || op.RecordForkFailure? || op.ClaimContinuation? || op.Repair? || op.RecoverContinuations?
  }

  lemma QueueLeavesContinuations(s: Sys, op: Op)
    requires QueueOp(op)
    ensures Next(s, op).conts == s.conts
  {
  }

  lemma PathLeavesContinuations(s: Sys, op: Op)
    requires PathOp(op)
    ensures Next(s, op).conts == s.conts
  {
  }

  lemma StartLeavesContinuations(s: Sys, op: Op)
    requires StartOp(op)
    ensures Next(s, op).conts == s.conts
  {
  }

  lemma LinkLeavesContinuations(s: Sys, op: Op)
    requires LinkOp(op)
    ensures Next(s, op).conts == s.conts
  {
  }

  lemma OthersLeaveContinuations(s: Sys, op: Op)
    requires !ContinuationOp(op)
    requires !QueueOp(op) && !PathOp(op) && !StartOp(op) && !LinkOp(op)
    ensures Next(s, op).conts == s.conts
  {
  }

  lemma NextKeepsActive(s: Sys, op: Op, key: Key)
    requires C.Valid(s.conts) && key in s.conts && s.conts[key].status.Active?
    ensures key in Next(s, op).conts && Next(s, op).conts[key] == s.conts[key]
  {
    if QueueOp(op) {
      QueueLeavesContinuations(s, op);
    } else if PathOp(op) {
      PathLeavesContinuations(s, op);
    } else if StartOp(op) {
      StartLeavesContinuations(s, op);
    } else if LinkOp(op) {
      LinkLeavesContinuations(s, op);
    } else if ContinuationOp(op) {
      ContinuationOpKeepsActive(s, op, key);
    } else {
      OthersLeaveContinuations(s, op);
    }
  }

  lemma ContinuationOpKeepsActive(s: Sys, op: Op, key: Key)
    requires ContinuationOp(op)
    requires C.Valid(s.conts) && key in s.conts && s.conts[key].status.Active?
    ensures key in Next(s, op).conts && Next(s, op).conts[key] == s.conts[key]
  {
    match op
    case ActivateLinked(t, generation) => ActivationKeepsActive(s, t, generation, key);
    case RecordForkFailure(t) => FailureKeepsActive(s, t, key);
    case ClaimContinuation(t) => ClaimKeepsActive(s, t, key);
    case Repair(chat) => RepairKeepsActive(s, chat, key);
    case RecoverContinuations => RecoveryKeepsActive(s, key);
  }

  lemma RepairKeepsActive(s: Sys, chat: Chat, key: Key)
    requires key in s.conts && s.conts[key].status.Active?
    ensures key in Next(s, Repair(chat)).conts && Next(s, Repair(chat)).conts[key] == s.conts[key]
  {
  }

  lemma RecoveryKeepsActive(s: Sys, key: Key)
    requires key in s.conts && s.conts[key].status.Active?
    ensures key in Next(s, RecoverContinuations).conts && Next(s, RecoverContinuations).conts[key] == s.conts[key]
  {
  }

  /** An active continuation keeps its child in every later state. */
  lemma {:induction false} ActiveStaysActive(s: Sys, ops: seq<Op>, key: Key)
    requires Inv(s) && key in s.conts && s.conts[key].status.Active?
    ensures key in Run(s, ops).conts && Run(s, ops).conts[key] == s.conts[key]
    decreases |ops|
  {
    if ops != [] {
      NextKeeps(s, ops[0]);
      NextKeepsActive(s, ops[0], key);
      ActiveStaysActive(Next(s, ops[0]), ops[1..], key);
    }
  }
}
