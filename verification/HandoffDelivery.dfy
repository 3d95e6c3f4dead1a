/** Tasks complete only commands whose prompt they handed on. */
module HandoffDelivery {
  import opened Ids
  import opened Handoff
  import P = PendingCommands

  predicate HandedOn(pc: Pc) {
    pc.Marking? || pc == Settle(Complete) || pc == Settle(Leave)
  }

  /** Tasks complete a command only after its prompt was handed on. */
  ghost predicate TaskOk(spent: set<nat>, task: Task) {
    HandedOn(task.pc) && task.cmd.Some? ==> task.cmd.value in spent
  }

  ghost predicate TasksOk(spent: set<nat>, tasks: map<nat, Task>) {
    forall t :: t in tasks ==> TaskOk(spent, tasks[t])
  }

  ghost predicate RowsOk(rows: P.Table, spent: set<nat>) {
    forall i :: 0 <= i < |rows| && rows[i].status.Completed? ==> i in spent
  }

  ghost predicate Delivered(s: Sys) {
    RowsOk(s.commands, s.spent) && TasksOk(s.spent, s.tasks)
  }

  lemma GotoKeeps(s: Sys, t: nat, pc: Pc)
    requires Delivered(s) && t in s.tasks && (HandedOn(pc) ==> HandedOn(s.tasks[t].pc))
    ensures Delivered(Goto(s, t, pc))
  {
    assert TaskOk(s.spent, s.tasks[t].(pc := pc));
  }

  predicate QueueOp(op: Op) {
    op.SubmitQueued? || op.DrainClaim? || op.BacklogOpen? || op.BacklogClaim? || op.BacklogLock? || op.DirectOpen?
  }

  lemma QueueKeeps(s: Sys, op: Op)
    requires Delivered(s) && QueueOp(op)
    ensures Delivered(Next(s, op))
  {
  }

  lemma Routed(s: Sys, t: nat) returns (pc: Pc)
    requires At(s, t) && s.tasks[t].pc.Route?
    ensures DoRouteCommand(s, t) == Goto(s, t, pc) && !HandedOn(pc)
  {
    pc := DoRouteCommand(s, t).tasks[t].pc;
  }

  lemma RouteKeeps(s: Sys, t: nat)
    requires Delivered(s)
    ensures Delivered(DoRouteCommand(s, t))
  {
    if At(s, t) && s.tasks[t].pc.Route? {
      var pc := Routed(s, t);
      hide DoRouteCommand, Delivered;
      GotoKeeps(s, t, pc);
    }
  }

  lemma GiveUpKeeps(s: Sys, t: nat, action: Action)
    requires Delivered(s)
    ensures Delivered(DoGiveUp(s, t, action))
  {
  }

  lemma PathKeeps(s: Sys, op: Op)
    requires Delivered(s) && (op.ChoosePath? || op.Conflict?)
    ensures Delivered(Next(s, op))
  {
  }

  lemma SettleKeeps(s: Sys, op: Op)
    requires Delivered(s) && (op.LinkNotReady? || op.RejectChild?)
    ensures Delivered(Next(s, op))
  {
  }

  /** After its prompt was handed on, a task may go anywhere. */
  lemma SpendKeeps(s: Sys, t: nat, pc: Pc, starts: seq<Id>)
    requires Delivered(s) && t in s.tasks
    ensures Delivered(Goto(Spend(s, t).(starts := starts), t, pc))
  {
  }

  lemma StartKeeps(s: Sys, t: nat, outcome: TurnOutcome)
    requires Delivered(s)
    ensures Delivered(DoStartTurn(s, t, outcome))
  {
    if At(s, t) && (s.tasks[t].pc.OnThread? || s.tasks[t].pc.LinkedStart?) {
      var pc := s.tasks[t].pc;
      var starts := s.starts + [s.tasks[t].prompt];
      match outcome
      case Accepted(turn) =>
        SpendKeeps(s, t, if pc.OnThread? then Settle(Complete) else Marking(pc.linked, pc.generation, turn), starts);
      case Unknown =>
        SpendKeeps(s, t, if pc.OnThread? then Settle(Fail) else Failing(pc.linked, pc.generation), starts);
      case Refused =>
        GotoKeeps(s, t, if pc.OnThread? then Settle(Fail) else Failing(pc.linked, pc.generation));
    }
  }

  lemma MarkKeeps(s: Sys, op: Op)
    requires Delivered(s) && (op.MarkStarted? || op.FailLinked?)
    ensures Delivered(Next(s, op))
  {
  }

  lemma LinkKeeps(s: Sys, op: Op)
    requires Delivered(s) && (op.LockLink? || op.LookUpLink? || op.ClaimWorker?)
    ensures Delivered(Next(s, op))
  {
  }

  lemma ClaimKeeps(s: Sys, t: nat)
    requires Delivered(s)
    ensures Delivered(DoClaimContinuation(s, t))
  {
  }

  lemma RecordFailureKeeps(s: Sys, t: nat)
    requires Delivered(s)
    ensures Delivered(DoRecordForkFailure(s, t))
  {
  }

  lemma ForkKeeps(s: Sys, op: Op)
    requires Delivered(s) && op.ForkThread?
    ensures Delivered(Next(s, op))
  {
  }

  lemma ActivateKeeps(s: Sys, t: nat, generation: nat)
    requires Delivered(s)
    ensures Delivered(DoActivateLinked(s, t, generation))
  {
  }

  lemma RehomeKeeps(s: Sys, t: nat)
    requires Delivered(s)
    ensures Delivered(DoRehomeQueue(s, t))
  {
  }

  lemma CopyKeeps(s: Sys, t: nat, turnKnown: bool)
    requires Delivered(s)
    ensures Delivered(DoCopyBehind(s, t, turnKnown))
  {
  }

  lemma FinishedRows(rows: P.Table, spent: set<nat>, i: nat)
    requires RowsOk(rows, spent)
    ensures i in spent ==> RowsOk(P.Finalize(rows, i, P.Completed), spent)
    ensures RowsOk(P.Finalize(rows, i, P.Failed), spent) && RowsOk(P.Release(rows, i), spent)
  {
  }

  lemma FinishKeeps(s: Sys, t: nat)
    requires Delivered(s)
    ensures Delivered(DoFinish(s, t))
  {
    if At(s, t) && s.tasks[t].pc.Settle? {
      assert TaskOk(s.spent, s.tasks[t]);
      if s.tasks[t].cmd.Some? {
        FinishedRows(s.commands, s.spent, s.tasks[t].cmd.value);
      }
      assert TasksOk(s.spent, s.tasks - {t});
      hide RowsOk, TasksOk, TaskOk;
    }
  }

  lemma RecoveryKeeps(s: Sys, op: Op)
    requires Delivered(s) && (op.Crash? || op.RecoverContinuations? || op.RecoverCommands?)
    ensures Delivered(Next(s, op))
  {
  }

  predicate RowsOnly(op: Op) {
    op.Observer? || op.Repair? || op.Adopt? || op.AdoptDone? || op.RecoverLinks?
  }

  lemma OtherKeeps(s: Sys, op: Op)
    requires Delivered(s) && RowsOnly(op)
    ensures Delivered(Next(s, op))
  {
  }

  lemma NextKeeps(s: Sys, op: Op)
    requires Delivered(s)
    ensures Delivered(Next(s, op))
  {
    hide Delivered;
    if QueueOp(op) {
      QueueKeeps(s, op);
    } else if RowsOnly(op) {
      OtherKeeps(s, op);
    } else {
      hide QueueOp, RowsOnly;
      match op
      case RouteCommand(t) => RouteKeeps(s, t);
      case GiveUp(t, action) => GiveUpKeeps(s, t, action);
      case StartTurn(t, outcome) => StartKeeps(s, t, outcome);
      case MarkStarted(_) => MarkKeeps(s, op);
      case FailLinked(_) => MarkKeeps(s, op);
      case LockLink(_) => LinkKeeps(s, op);
      case LookUpLink(_, _) => LinkKeeps(s, op);
      case ClaimWorker(_, _) => LinkKeeps(s, op);
      case ClaimContinuation(t) => ClaimKeeps(s, t);
      case RecordForkFailure(t) => RecordFailureKeeps(s, t);
      case ForkThread(_, _) => ForkKeeps(s, op);
      case ActivateLinked(t, generation) => ActivateKeeps(s, t, generation);
      case RehomeQueue(t) => RehomeKeeps(s, t);
      case CopyBehind(t, turnKnown) => CopyKeeps(s, t, turnKnown);
      case Finish(t) => FinishKeeps(s, t);
      case _ => RemainingKeep(s, op);
    }
  }

  lemma RemainingKeep(s: Sys, op: Op)
    requires Delivered(s)
    requires op.ChoosePath? || op.Conflict? || op.LinkNotReady? || op.RejectChild? || op.Crash? || op.RecoverContinuations? || op.RecoverCommands?
    ensures Delivered(Next(s, op))
  {
    hide Delivered, Next;
    if op.Crash? || op.RecoverContinuations? || op.RecoverCommands? {
      RecoveryKeeps(s, op);
    } else if op.LinkNotReady? || op.RejectChild? {
      SettleKeeps(s, op);
    } else {
      PathKeeps(s, op);
    }
  }

  lemma {:induction false} RunKeeps(s: Sys, ops: seq<Op>)
    requires Delivered(s)
    ensures Delivered(Run(s, ops))
    decreases |ops|
  {
    if ops != [] {
      NextKeeps(s, ops[0]);
      RunKeeps(Next(s, ops[0]), ops[1..]);
    }
  }

  lemma CompletedIsSpent(ops: seq<Op>, i: nat)
    requires i < |Run(INIT, ops).commands| && Run(INIT, ops).commands[i].status.Completed?
    ensures i in Run(INIT, ops).spent
  {
    RunKeeps(INIT, ops);
  }
}
