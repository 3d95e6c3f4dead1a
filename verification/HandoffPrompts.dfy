/** Where the prompt of every command went. A finished row has erased its prompt, so the
    prompts are logged beside the table as they are queued. */
module HandoffPrompts {
  import opened Ids
  import opened Handoff
  import opened HandoffInvariant
  import P = PendingCommands
  import D = HandoffDelivery
  import S = HandoffSafety

  /** The prompts of the rows that a step appended. */
  function Added(rows: P.Table, next: P.Table): seq<Id> {
    if |next| > |rows| then [PromptOf(next[|rows|])] else []
  }

  /** The prompt each row of `Run(s, ops)` was queued with, when `log` has those of s. */
  function Queued(s: Sys, log: seq<Id>, ops: seq<Op>): seq<Id>
    decreases |ops|
  {
    if ops == [] then log
    else
      var next := Next(s, ops[0]);
      Queued(next, log + Added(s.commands, next.commands), ops[1..])
  }

  ghost predicate QueuedAgain(log: seq<Id>, i: nat)
    requires i < |log|
  {
    exists j :: i < j < |log| && log[j] == log[i]
  }

  /** A stored prompt is the one its row was queued with, and a prompt was handed on only
      to a turn start or to a later row. */
  ghost predicate Accounted(s: Sys, log: seq<Id>) {
    && |log| == |s.commands|
    && (forall i :: 0 <= i < |log| && s.commands[i].payload.Some? ==> PromptOf(s.commands[i]) == log[i])
    && (forall i :: i in s.spent ==> i < |log| && (log[i] in s.starts || QueuedAgain(log, i)))
  }

  // ---- One step ----

  /** Rows stay, with their prompt or without one, and at most one is appended. */
  ghost predicate RowsFollow(rows: P.Table, next: P.Table) {
    && |rows| <= |next| <= |rows| + 1
    && forall i :: 0 <= i < |rows| && next[i].payload.Some? ==> next[i].payload == rows[i].payload
  }

  /** Why row i is spent now: its prompt was started or appended again. */
  ghost predicate Why(s: Sys, n: Sys, i: nat) {
    && i < |s.commands| && s.commands[i].payload.Some?
    && (PromptOf(s.commands[i]) in n.starts || Added(s.commands, n.commands) == [PromptOf(s.commands[i])])
  }

  ghost predicate Follows(s: Sys, n: Sys) {
    && RowsFollow(s.commands, n.commands)
    && s.starts <= n.starts
    && forall i :: i in n.spent && i !in s.spent ==> Why(s, n, i)
  }

  lemma StepAccounts(s: Sys, n: Sys, log: seq<Id>)
    requires Accounted(s, log) && Follows(s, n)
    ensures Accounted(n, log + Added(s.commands, n.commands))
  {
    var next := log + Added(s.commands, n.commands);
    forall i | i in n.spent
      ensures i < |next| && (next[i] in n.starts || QueuedAgain(next, i))
    {
      if i in s.spent {
        if QueuedAgain(log, i) {
          var j :| i < j < |log| && log[j] == log[i];
          assert next[j] == next[i];
        }
      } else if next[i] !in n.starts {
        assert Why(s, n, i);
        assert next[|log|] == next[i];
      }
    }
  }

  /** Steps that queue nothing and hand nothing on. */
  predicate Quiet(op: Op) {
    op.RouteCommand? || op.GiveUp? || op.ChoosePath? || op.Conflict? || op.LockLink? || op.LookUpLink? || op.LinkNotReady?
  }

  lemma QuietFollows(s: Sys, op: Op)
    requires Quiet(op)
    ensures Follows(s, Next(s, op))
  {
  }

  predicate OtherTables(op: Op) {
    op.MarkStarted? || op.FailLinked? || op.ClaimWorker? || op.DirectOpen? || op.BacklogLock? || op.Observer? || op.Repair? || op.Crash? || op.Adopt?
    || op.AdoptDone? || op.RecoverLinks?
  }

  predicate Forks(op: Op) {
    op.ClaimContinuation? || op.ForkThread? || op.RejectChild? || op.RecordForkFailure?
  }

  lemma ForksFollow(s: Sys, op: Op)
    requires Forks(op)
    ensures Follows(s, Next(s, op))
  {
  }

  lemma OtherTablesFollow(s: Sys, op: Op)
    requires OtherTables(op)
    ensures Follows(s, Next(s, op))
  {
  }

  predicate Queues(op: Op) {
    op.SubmitQueued? || op.DrainClaim? || op.BacklogOpen? || op.BacklogClaim?
  }

  lemma QueueFollows(s: Sys, op: Op)
    requires Queues(op)
    ensures Follows(s, Next(s, op))
  {
  }

  predicate Moves(op: Op) {
    op.ActivateLinked? || op.RehomeQueue? || op.RecoverContinuations? || op.RecoverCommands?
  }

  lemma MoveFollows(s: Sys, op: Op)
    requires Moves(op)
    ensures Follows(s, Next(s, op))
  {
  }

  lemma FinishFollows(s: Sys, t: nat)
    ensures Follows(s, DoFinish(s, t))
  {
  }

  /** The prompt of a task that may still start it is stored in its row. */
  ghost predicate Stored(s: Sys, task: Task) {
    task.cmd.Some? && BeforeStart(task.pc) ==>
      task.cmd.value < |s.commands| && s.commands[task.cmd.value].payload.Some? && PromptOf(s.commands[task.cmd.value]) == task.prompt
  }

  lemma PromptIsStored(s: Sys, t: nat)
    requires Inv(s) && t in s.tasks
    ensures Stored(s, s.tasks[t])
  {
    assert CmdOk(s.commands, s.claimers, s.spent, t, s.tasks[t]);
  }

  lemma StartFollows(s: Sys, t: nat, outcome: TurnOutcome)
    requires t in s.tasks ==> Stored(s, s.tasks[t])
    ensures Follows(s, DoStartTurn(s, t, outcome))
  {
    if At(s, t) && (s.tasks[t].pc.OnThread? || s.tasks[t].pc.LinkedStart?) {
      assert BeforeStart(s.tasks[t].pc);
      var n := DoStartTurn(s, t, outcome);
      assert n.commands == s.commands;
      assert outcome.Refused? ==> n.starts == s.starts && n.spent == s.spent;
      if !outcome.Refused? {
        assert n.starts == s.starts + [s.tasks[t].prompt] && n.spent == Spend(s, t).spent;
        assert s.tasks[t].prompt in n.starts;
      }
      hide DoStartTurn, BeforeStart;
    }
  }

  lemma CopyFollows(s: Sys, t: nat, turnKnown: bool)
    requires t in s.tasks ==> Stored(s, s.tasks[t])
    ensures Follows(s, DoCopyBehind(s, t, turnKnown))
  {
  }

  lemma NextFollows(s: Sys, op: Op)
    requires Inv(s)
    ensures Follows(s, Next(s, op))
  {
    hide Inv, Follows, Stored;
    if Quiet(op) {
      QuietFollows(s, op);
    } else if OtherTables(op) {
      OtherTablesFollow(s, op);
    } else if Queues(op) {
      QueueFollows(s, op);
    } else if Moves(op) {
      MoveFollows(s, op);
    } else if Forks(op) {
      ForksFollow(s, op);
    } else if op.Finish? {
      FinishFollows(s, op.t);
    } else {
      if op.t in s.tasks {
        PromptIsStored(s, op.t);
      }
      if op.StartTurn? {
        StartFollows(s, op.t, op.outcome);
      } else {
        CopyFollows(s, op.t, op.turnKnown);
      }
    }
  }

  // ---- Runs ----

  lemma {:induction false} RunAccounts(s: Sys, log: seq<Id>, ops: seq<Op>)
    requires Inv(s) && Accounted(s, log)
    ensures Inv(Run(s, ops)) && Accounted(Run(s, ops), Queued(s, log, ops))
    decreases |ops|
  {
    hide Inv, Accounted, Follows, Next;
    if ops != [] {
      var next := Next(s, ops[0]);
      NextFollows(s, ops[0]);
      StepAccounts(s, next, log);
      S.NextKeeps(s, ops[0]);
      RunAccounts(next, log + Added(s.commands, next.commands), ops[1..]);
    }
  }

  /** Completing a command says something: its prompt is among the turn starts, accepted
      or unknown, or a later command was queued with the same prompt. */
  lemma CompletedMeansHandedOn(ops: seq<Op>, i: nat)
    requires i < |Run(INIT, ops).commands| && Run(INIT, ops).commands[i].status.Completed?
    ensures
      var log := Queued(INIT, [], ops);
      |log| == |Run(INIT, ops).commands| && (log[i] in Run(INIT, ops).starts || QueuedAgain(log, i))
  {
    S.InitHolds();
    RunAccounts(INIT, [], ops);
    D.CompletedIsSpent(ops, i);
  }

  /** The row still has this prompt, or failed with it. */
  ghost predicate HoldsOrFailed(c: P.Command, prompt: Id) {
    c.status.Failed? || (c.Live() && PromptOf(c) == prompt)
  }

  /** No prompt is lost. In every reachable state the prompt of every command ever queued
      was started, or the last row that was queued with it still holds it, or failed with
      it. So the chain of copies behind a completed command never ends in a completed one
      without a start. */
  lemma NoPromptIsLost(ops: seq<Op>, i: nat)
    requires i < |Run(INIT, ops).commands|
    ensures
      var rows, log := Run(INIT, ops).commands, Queued(INIT, [], ops);
      |log| == |rows| &&
      (log[i] in Run(INIT, ops).starts ||
       exists j :: i <= j < |log| && log[j] == log[i] && !QueuedAgain(log, j) && HoldsOrFailed(rows[j], log[i]))
  {
    S.InitHolds();
    RunAccounts(INIT, [], ops);
    D.RunKeeps(INIT, ops);
    hide Run, Queued;
    LastRow(Run(INIT, ops), Queued(INIT, [], ops), i);
  }

  /** Follows the rows with this prompt to the last one. */
  lemma {:induction false} LastRow(s: Sys, log: seq<Id>, i: nat)
    requires i < |log| && Inv(s) && Accounted(s, log) && D.Delivered(s)
    ensures
      log[i] in s.starts ||
      exists j :: i <= j < |log| && log[j] == log[i] && !QueuedAgain(log, j) && HoldsOrFailed(s.commands[j], log[i])
    decreases |log| - i
  {
    if QueuedAgain(log, i) {
      var j :| i < j < |log| && log[j] == log[i];
      LastRow(s, log, j);
    } else if log[i] !in s.starts {
      assert !s.commands[i].status.Completed?;
      assert RowsOk(s.commands, s.spent, s.nextPrompt);
      assert HoldsOrFailed(s.commands[i], log[i]);
    }
  }
}
