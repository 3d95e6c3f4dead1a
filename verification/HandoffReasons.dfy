/** Why a command ends: the events that can fail one, and those that can complete one. */
module HandoffReasons {
  import opened Ids
  import opened Handoff
  import P = PendingCommands
  import C = Continuations
  import L = LinkedThreads
  import O = HandoffOutcomes

  /** This step of task t means that its command fails. */
  predicate Fails(s: Sys, op: Op, t: nat) {
    && At(s, t)
    && var task := s.tasks[t];
       match op
       case GiveUp(u, action) => u == t && action.Fail?
       case StartTurn(u, outcome) => u == t && !outcome.Accepted? && (task.pc.OnThread? || task.pc.LinkedStart?)
       case RouteCommand(u) => u == t && task.pc.Route? && O.OnItsLink(s, task) && s.links[task.thread].state.Failed?
       case CopyBehind(u, turnKnown) =>
         u == t && ((task.pc.Rehomed? && P.Storable(task.pc.child, task.project, task.prompt) && !turnKnown) ||
                    (task.pc.Canonical? && task.pc.seen.Running? && !(P.Storable(task.pc.linked, task.project, task.prompt) && turnKnown)))
       case _ => false
  }

  /** This step of task t means that its command is done. */
  predicate Completes(s: Sys, op: Op, t: nat) {
    && At(s, t)
    && var task := s.tasks[t];
       match op
       case StartTurn(u, outcome) => u == t && outcome.Accepted? && task.pc.OnThread?
       case MarkStarted(u) => u == t && task.pc.Marking? && L.CanMark(s.links, task.pc.linked, task.pc.generation, task.pc.turn)
       case CopyBehind(u, turnKnown) =>
         u == t && turnKnown &&
         ((task.pc.Rehomed? && P.Storable(task.pc.child, task.project, task.prompt)) ||
          (task.pc.Canonical? && task.pc.seen.Running? && P.Storable(task.pc.linked, task.project, task.prompt)))
       case _ => false
  }

  /** The step is a reason for command i to fail. */
  ghost predicate FailsCommand(s: Sys, op: Op, i: nat) {
    (exists t :: Fails(s, op, t) && s.tasks[t].cmd == Some(i)) ||
    (op.RecoverCommands? && s.stage == 3 && i < |s.commands| && s.commands[i].status.Claimed?)
  }

  ghost predicate CompletesCommand(s: Sys, op: Op, i: nat) {
    exists t :: Completes(s, op, t) && s.tasks[t].cmd == Some(i)
  }

  // ---- The reasons seen so far ----

  datatype Seen = Seen(failing: iset<nat>, done: iset<nat>)

  ghost function See(s: Sys, seen: Seen, op: Op): Seen {
    Seen(seen.failing + (iset i: nat | FailsCommand(s, op, i)), seen.done + (iset i: nat | CompletesCommand(s, op, i)))
  }

  ghost function Log(s: Sys, seen: Seen, ops: seq<Op>): Seen
    decreases |ops|
  {
    if ops == [] then seen else Log(Next(s, ops[0]), See(s, seen, ops[0]), ops[1..])
  }

  ghost predicate TaskSeen(seen: Seen, task: Task) {
    task.cmd.Some? ==>
      && (task.pc == Settle(Fail) || task.pc.Failing? ==> task.cmd.value in seen.failing)
      && (task.pc == Settle(Complete) ==> task.cmd.value in seen.done)
  }

  ghost predicate RowSeen(seen: Seen, c: P.Command, i: nat) {
    (c.status.Failed? ==> i in seen.failing) && (c.status.Completed? ==> i in seen.done)
  }

  ghost predicate AllSeen(s: Sys, seen: Seen) {
    && (forall t :: t in s.tasks ==> TaskSeen(seen, s.tasks[t]))
    && (forall i :: 0 <= i < |s.commands| ==> RowSeen(seen, s.commands[i], i))
  }

  // ---- One step ----

  /** Every row keeps its end, every new row and task has none, and every other task
      keeps its place. */
  predicate Plain(s: Sys, n: Sys, t: nat) {
    && |s.commands| <= |n.commands|
    && (forall i :: 0 <= i < |n.commands| && n.commands[i].Finished() ==> i < |s.commands| && n.commands[i].status == s.commands[i].status)
    && (forall u :: u in n.tasks && u != t ==> u in s.tasks && n.tasks[u] == s.tasks[u])
  }

  lemma PlainKeeps(s: Sys, n: Sys, seen: Seen, later: Seen, t: nat)
    requires AllSeen(s, seen) && Plain(s, n, t)
    requires seen.failing <= later.failing && seen.done <= later.done
    requires t in n.tasks ==> TaskSeen(later, n.tasks[t])
    ensures AllSeen(n, later)
  {
    forall i | 0 <= i < |n.commands|
      ensures RowSeen(later, n.commands[i], i)
    {
      if n.commands[i].Finished() {
        assert RowSeen(seen, s.commands[i], i);
      }
    }
    forall u | u in n.tasks
      ensures TaskSeen(later, n.tasks[u])
    {
      if u != t {
        assert TaskSeen(seen, s.tasks[u]);
      }
    }
  }

  /** Task t stays where it is, or goes to a failure or an end only for a reason. */
  ghost predicate Excused(s: Sys, op: Op, t: nat, n: Sys) {
    t in n.tasks ==>
      || (t in s.tasks && n.tasks[t] == s.tasks[t])
      || (&& (n.tasks[t].pc == Settle(Fail) || n.tasks[t].pc.Failing? ==> Fails(s, op, t) && t in s.tasks && s.tasks[t].cmd == n.tasks[t].cmd)
          && (n.tasks[t].pc == Settle(Complete) ==> Completes(s, op, t) && t in s.tasks && s.tasks[t].cmd == n.tasks[t].cmd))
  }

  lemma ExcusedKeeps(s: Sys, op: Op, t: nat, seen: Seen)
    requires AllSeen(s, seen) && Steps(s, op, t)
    ensures AllSeen(Next(s, op), See(s, seen, op))
  {
    var n, later := Next(s, op), See(s, seen, op);
    if t in n.tasks {
      assert TaskSeen(later, n.tasks[t]) by {
        if t in s.tasks && n.tasks[t] == s.tasks[t] {
          assert TaskSeen(seen, s.tasks[t]);
        } else if n.tasks[t].cmd.Some? {
          var i := n.tasks[t].cmd.value;
          if n.tasks[t].pc == Settle(Fail) || n.tasks[t].pc.Failing? {
            assert FailsCommand(s, op, i);
          }
          if n.tasks[t].pc == Settle(Complete) {
            assert CompletesCommand(s, op, i);
          }
        }
      }
    }
    hide Next, Plain, AllSeen, TaskSeen;
    PlainKeeps(s, n, seen, later, t);
  }

  /** Only task t moves, and with a reason. */
  ghost predicate Steps(s: Sys, op: Op, t: nat) {
    Plain(s, Next(s, op), t) && Excused(s, op, t, Next(s, op))
  }

  lemma Unchanged(s: Sys, seen: Seen, later: Seen)
    requires AllSeen(s, seen) && seen.failing <= later.failing && seen.done <= later.done
    ensures AllSeen(s, later)
  {
    forall i | 0 <= i < |s.commands|
      ensures RowSeen(later, s.commands[i], i)
    {
      assert RowSeen(seen, s.commands[i], i);
    }
    forall u | u in s.tasks
      ensures TaskSeen(later, s.tasks[u])
    {
      assert TaskSeen(seen, s.tasks[u]);
    }
  }

  /** A task that goes to `pc` is excused. */
  predicate MayGo(s: Sys, op: Op, t: nat, pc: Pc) {
    && (pc == Settle(Fail) || pc.Failing? ==> Fails(s, op, t))
    && (pc == Settle(Complete) ==> Completes(s, op, t))
  }

  lemma GotoSteps(s: Sys, op: Op, t: nat, s1: Sys, pc: Pc)
    requires t in s.tasks && s1.tasks == s.tasks && s1.commands == s.commands && Next(s, op) == Goto(s1, t, pc) && MayGo(s, op, t, pc)
    ensures Steps(s, op, t)
  {
    hide Next, Fails, Completes;
  }

  lemma NoStep(s: Sys, op: Op, t: nat)
    requires Next(s, op) == s
    ensures Steps(s, op, t)
  {
    hide Next, Fails, Completes;
  }

  predicate Claims(op: Op) {
    op.DrainClaim? || op.BacklogOpen? || op.BacklogClaim? || op.BacklogLock? || op.DirectOpen? || op.LockLink?
  }

  lemma DrainClaimSteps(s: Sys, t: nat, thread: Id)
    ensures Steps(s, DrainClaim(t, thread), t)
  {
    hide ThreadFree, P.ThreadCandidate, Fails, Completes;
  }

  lemma BacklogClaimSteps(s: Sys, t: nat)
    ensures Steps(s, BacklogClaim(t), t)
  {
    hide P.SourceCandidate, Fails, Completes;
  }

  lemma BacklogOpenSteps(s: Sys, op: Op)
    requires op.BacklogOpen?
    ensures Steps(s, op, op.t)
  {
    hide ThreadFree, Fails, Completes;
  }

  lemma DirectOpenSteps(s: Sys, op: Op)
    requires op.DirectOpen?
    ensures Steps(s, op, op.t)
  {
    hide ThreadFree, Fails, Completes;
  }

  lemma LockSteps(s: Sys, op: Op)
    requires op.BacklogLock? || op.LockLink?
    ensures Steps(s, op, op.t)
  {
    hide ThreadFree, LinkFree, Fails, Completes;
  }

  lemma ClaimsStep(s: Sys, op: Op)
    requires Claims(op)
    ensures Steps(s, op, op.t)
  {
    hide Steps, Next;
    match op
    case DrainClaim(t, thread) => DrainClaimSteps(s, t, thread);
    case BacklogClaim(t) => BacklogClaimSteps(s, t);
    case BacklogOpen(_, _, _, _) => BacklogOpenSteps(s, op);
    case DirectOpen(_, _, _, _, _, _) => DirectOpenSteps(s, op);
    case BacklogLock(_) => LockSteps(s, op);
    case LockLink(_) => LockSteps(s, op);
  }

  predicate Paths(op: Op) {
    op.ChoosePath? || op.Conflict? || op.LookUpLink? || op.LinkNotReady? || op.GiveUp? || op.RejectChild? || op.RouteCommand?
  }

  /** The step sends the task to `pc` and changes nothing else. */
  lemma PlainGoto(s: Sys, op: Op, t: nat, pc: Pc)
    requires t in s.tasks && Next(s, op) == Goto(s, t, pc) && MayGo(s, op, t, pc)
    ensures Steps(s, op, t)
  {
    hide Next, MayGo, Steps;
    GotoSteps(s, op, t, s, pc);
  }

  lemma RouteSteps(s: Sys, t: nat)
    ensures Steps(s, RouteCommand(t), t)
  {
    var op := RouteCommand(t);
    if At(s, t) && s.tasks[t].pc.Route? {
      var task := s.tasks[t];
      var pc :=
        if O.OnItsLink(s, task) then
          match s.links[task.thread].state
          case Running => Settle(Release)
          case ReleasePending => Settle(Release)
          case Ready => Canonical(task.thread, L.Ready)
          case Failed => Settle(Fail)
        else if task.key.thread == task.thread && task.key.turn != NONE then Resume(true)
        else OnThread(None);
      assert Next(s, op) == Goto(s, t, pc) && MayGo(s, op, t, pc);
      hide *;
      PlainGoto(s, op, t, pc);
    } else {
      NoStep(s, op, t);
    }
  }

  lemma LookUpSteps(s: Sys, t: nat, linked: Id)
    ensures Steps(s, LookUpLink(t, linked), t)
  {
    var op := LookUpLink(t, linked);
    hide Steps, L.HasLink;
    if At(s, t) && s.tasks[t].pc.ReadLink? {
      if LinkedTo(s, linked, s.tasks[t].key) {
        PlainGoto(s, op, t, Canonical(linked, s.links[linked].state));
      } else if L.HasLink(s.links, s.tasks[t].key.chat, s.tasks[t].key.thread) {
        NoStep(s, op, t);
      } else {
        PlainGoto(s, op, t, NoLink);
      }
    } else {
      NoStep(s, op, t);
    }
  }

  lemma GiveUpSteps(s: Sys, t: nat, action: Action)
    ensures Steps(s, GiveUp(t, action), t)
  {
    hide Steps, BeforeStart, CreatingPc;
    if At(s, t) && BeforeStart(s.tasks[t].pc) && !s.tasks[t].pc.LinkedStart? && !CreatingPc(s.tasks[t].pc) && (action.Fail? || action.Release?) {
      PlainGoto(s, GiveUp(t, action), t, Settle(action));
    } else {
      NoStep(s, GiveUp(t, action), t);
    }
  }

  lemma ChooseSteps(s: Sys, t: nat, pcOrigin: bool)
    ensures Steps(s, ChoosePath(t, pcOrigin), t)
  {
    hide Steps;
    if At(s, t) && s.tasks[t].pc.Resume? {
      var mayLink := s.tasks[t].pc.mayLink;
      PlainGoto(s, ChoosePath(t, pcOrigin), t, if mayLink && s.tasks[t].key.turn != NONE && pcOrigin then WantLink else OnThread(Some(mayLink)));
    } else {
      NoStep(s, ChoosePath(t, pcOrigin), t);
    }
  }

  lemma ConflictSteps(s: Sys, t: nat)
    ensures Steps(s, Conflict(t), t)
  {
    hide Steps;
    if At(s, t) && s.tasks[t].pc.OnThread? && s.tasks[t].pc.policy.Some? {
      PlainGoto(s, Conflict(t), t, if s.tasks[t].thread in s.links || !s.tasks[t].pc.policy.value then Settle(Release) else WantLink);
    } else {
      NoStep(s, Conflict(t), t);
    }
  }

  lemma NotReadySteps(s: Sys, op: Op)
    requires op.LinkNotReady? || op.RejectChild?
    ensures Steps(s, op, op.t)
  {
    hide Steps;
    if At(s, op.t) && op.RejectChild? && s.tasks[op.t].pc.Forked? {
      PlainGoto(s, op, op.t, ForkFailed(C.Ambiguous));
    } else if At(s, op.t) && op.LinkNotReady? && s.tasks[op.t].pc.Canonical? && !s.tasks[op.t].pc.seen.Running? && !s.tasks[op.t].pc.seen.Ready? {
      PlainGoto(s, op, op.t, Settle(Release));
    } else {
      NoStep(s, op, op.t);
    }
  }

  lemma PathsStep(s: Sys, op: Op)
    requires Paths(op)
    ensures Steps(s, op, op.t)
  {
    hide Next, Steps;
    match op
    case RouteCommand(t) => RouteSteps(s, t);
    case LookUpLink(t, linked) => LookUpSteps(s, t, linked);
    case GiveUp(t, action) => GiveUpSteps(s, t, action);
    case ChoosePath(t, pcOrigin) => ChooseSteps(s, t, pcOrigin);
    case Conflict(t) => ConflictSteps(s, t);
    case LinkNotReady(_) => NotReadySteps(s, op);
    case RejectChild(_) => NotReadySteps(s, op);
  }

  lemma StartSteps(s: Sys, t: nat, outcome: TurnOutcome)
    ensures Steps(s, StartTurn(t, outcome), t)
  {
    if At(s, t) && (s.tasks[t].pc.OnThread? || s.tasks[t].pc.LinkedStart?) {
      var was := s.tasks[t].pc;
      var s1 := if outcome.Refused? then s else Spend(s, t).(starts := s.starts + [s.tasks[t].prompt]);
      var pc := match outcome
        case Accepted(turn) => if was.OnThread? then Settle(Complete) else Marking(was.linked, was.generation, turn)
        case _ => if was.OnThread? then Settle(Fail) else Failing(was.linked, was.generation);
      assert Next(s, StartTurn(t, outcome)) == Goto(s1, t, pc);
      hide Next, Steps;
      GotoSteps(s, StartTurn(t, outcome), t, s1, pc);
    } else {
      NoStep(s, StartTurn(t, outcome), t);
    }
  }

  lemma MarkSteps(s: Sys, t: nat)
    ensures Steps(s, MarkStarted(t), t)
  {
  }

  predicate Forks(op: Op) {
    op.ClaimContinuation? || op.ForkThread? || op.RecordForkFailure? || op.ClaimWorker?
  }

  lemma ClaimContinuationSteps(s: Sys, t: nat)
    ensures Steps(s, ClaimContinuation(t), t)
  {
    hide C.Claimable, C.Claim, Steps;
    var op := ClaimContinuation(t);
    if At(s, t) && s.tasks[t].pc.NoLink? {
      var task := s.tasks[t];
      if C.Claimable(s.conts, task.key, task.project) {
        GotoSteps(s, op, t, s.(conts := C.Claim(s.conts, task.key, task.project), owners := s.owners[task.key := t]), Creating);
      } else if task.key in s.conts && s.conts[task.key].status.Active? && s.conts[task.key].project == task.project {
        GotoSteps(s, op, t, s, Legacy(s.conts[task.key].fork));
      } else {
        GotoSteps(s, op, t, s, Settle(Release));
      }
    } else {
      NoStep(s, op, t);
    }
  }

  lemma ForkThreadSteps(s: Sys, t: nat, answer: ForkOutcome)
    ensures Steps(s, ForkThread(t, answer), t)
  {
    hide Steps, ForkFailureKind;
    var op := ForkThread(t, answer);
    if At(s, t) && s.tasks[t].pc.Creating? {
      var tried := s.(forks := s.forks + [Attempt(s.tasks[t].key)]);
      match answer
      case ForkedTo(child) => GotoSteps(s, op, t, tried, Forked(child));
      case ForkError(code) => GotoSteps(s, op, t, tried, ForkFailed(ForkFailureKind(code)));
      case NoWorker => GotoSteps(s, op, t, s, ForkFailed(C.Ambiguous));
    } else {
      NoStep(s, op, t);
    }
  }

  lemma RecordSteps(s: Sys, t: nat)
    ensures Steps(s, RecordForkFailure(t), t)
  {
    hide Steps, C.Fail;
    var op := RecordForkFailure(t);
    if At(s, t) && s.tasks[t].pc.ForkFailed? {
      var n := Next(s, op);
      GotoSteps(s, op, t, s.(conts := n.conts, owners := n.owners, forks := n.forks), Settle(Release));
    } else {
      NoStep(s, op, t);
    }
  }

  lemma ClaimWorkerSteps(s: Sys, t: nat, g: nat)
    ensures Steps(s, ClaimWorker(t, g), t)
  {
    hide Steps, L.CanClaim, L.Claim;
    var op := ClaimWorker(t, g);
    if At(s, t) && s.tasks[t].pc.Canonical? && s.tasks[t].pc.seen.Ready? {
      var l := s.tasks[t].pc.linked;
      if L.CanClaim(s.links, l, g) {
        GotoSteps(s, op, t, s.(links := L.Claim(s.links, l, g)), LinkedStart(l, g));
      } else {
        GotoSteps(s, op, t, s, Settle(Release));
      }
    } else {
      NoStep(s, op, t);
    }
  }

  lemma ForksStep(s: Sys, op: Op)
    requires Forks(op)
    ensures Steps(s, op, op.t)
  {
    hide Next, Steps;
    match op
    case ClaimContinuation(t) => ClaimContinuationSteps(s, t);
    case ForkThread(t, answer) => ForkThreadSteps(s, t, answer);
    case RecordForkFailure(t) => RecordSteps(s, t);
    case ClaimWorker(t, g) => ClaimWorkerSteps(s, t, g);
  }

  predicate Moves(op: Op) {
    op.ActivateLinked? || op.RehomeQueue?
  }

  /** The rows of the source go to another thread. */
  lemma RehomeSteps(s: Sys, op: Op, t: nat, key: Key, child: Id)
    requires t in s.tasks && t in Next(s, op).tasks
    requires Next(s, op).commands == P.Rehome(s.commands, key, child) && Next(s, op).tasks == Goto(s, t, Next(s, op).tasks[t].pc).tasks
    requires MayGo(s, op, t, Next(s, op).tasks[t].pc)
    ensures Steps(s, op, t)
  {
    hide Next, Fails, Completes;
  }

  lemma RehomeQueueSteps(s: Sys, t: nat)
    ensures Steps(s, RehomeQueue(t), t)
  {
    if At(s, t) && s.tasks[t].pc.Legacy? {
      assert Next(s, RehomeQueue(t)).tasks[t].pc.Rehomed?;
      hide Steps, P.Rehome, Fails, Completes;
      RehomeSteps(s, RehomeQueue(t), t, s.tasks[t].key, s.tasks[t].pc.child);
    } else {
      NoStep(s, RehomeQueue(t), t);
    }
  }

  lemma ActivateSteps(s: Sys, t: nat, g: nat)
    ensures Steps(s, ActivateLinked(t, g), t)
  {
    hide C.CanActivate, L.CanInsert, Fails, Completes, P.Rehome, Steps, C.Activate, L.Insert;
    if At(s, t) && (s.tasks[t].pc.Forked? || s.tasks[t].pc.Legacy?) {
      var n, op := Next(s, ActivateLinked(t, g)), ActivateLinked(t, g);
      if n.tasks[t].pc.LinkedStart? {
        RehomeSteps(s, op, t, s.tasks[t].key, s.tasks[t].pc.child);
      } else {
        GotoSteps(s, op, t, s, n.tasks[t].pc);
      }
    } else {
      NoStep(s, ActivateLinked(t, g), t);
    }
  }

  lemma MovesStep(s: Sys, op: Op)
    requires Moves(op)
    ensures Steps(s, op, op.t)
  {
    hide Next, Steps;
    if op.RehomeQueue? {
      RehomeQueueSteps(s, op.t);
    } else {
      ActivateSteps(s, op.t, op.generation);
    }
  }

  lemma AppendSteps(s: Sys, op: Op, t: nat, row: P.Command, pc: Pc)
    requires t in s.tasks && row.status.Pending? && Next(s, op) == Goto(Spend(s, t).(commands := s.commands + [row]), t, pc) && MayGo(s, op, t, pc)
    ensures Steps(s, op, t)
  {
    hide Next, Fails, Completes;
  }

  lemma CopySteps(s: Sys, t: nat, turnKnown: bool)
    ensures Steps(s, CopyBehind(t, turnKnown), t)
  {
    var op := CopyBehind(t, turnKnown);
    if At(s, t) && (s.tasks[t].pc.Rehomed? || (s.tasks[t].pc.Canonical? && s.tasks[t].pc.seen.Running?)) {
      var task := s.tasks[t];
      var target := if task.pc.Rehomed? then task.pc.child else task.pc.linked;
      if P.Storable(target, task.project, task.prompt) {
        var pc := Settle(if turnKnown then Complete else Fail);
        assert MayGo(s, op, t, pc);
        var rows := P.Enqueue(s.commands, target, task.key, task.project, task.prompt);
        assert Next(s, op) == Goto(Spend(s, t).(commands := rows), t, pc);
        hide Next, Steps, MayGo;
        AppendSteps(s, op, t, P.Command(target, task.key, task.project, Some(P.Sealed(task.prompt)), P.Pending), pc);
      } else {
        var pc := Settle(if task.pc.Rehomed? then Release else Fail);
        assert MayGo(s, op, t, pc) && Next(s, op) == Goto(s, t, pc);
        hide Next, Steps, MayGo;
        GotoSteps(s, op, t, s, pc);
      }
    } else {
      NoStep(s, op, t);
    }
  }

  /** Recording the failure of a row changes neither commands nor the reason. */
  lemma FailLinkedKeeps(s: Sys, t: nat, seen: Seen)
    requires AllSeen(s, seen)
    ensures AllSeen(Next(s, FailLinked(t)), seen)
  {
    if At(s, t) && s.tasks[t].pc.Failing? {
      assert TaskSeen(seen, s.tasks[t]);
    }
  }

  /** Finalizing or releasing the row of a task gives it the end that was seen. */
  lemma RowEnds(seen: Seen, rows: P.Table, id: nat, action: Action)
    requires forall i :: 0 <= i < |rows| ==> RowSeen(seen, rows[i], i)
    requires (action.Fail? ==> id in seen.failing) && (action.Complete? ==> id in seen.done)
    ensures
      var next := match action
        case Complete => P.Finalize(rows, id, P.Completed)
        case Fail => P.Finalize(rows, id, P.Failed)
        case Release => P.Release(rows, id)
        case Leave => rows;
      forall i :: 0 <= i < |next| ==> RowSeen(seen, next[i], i)
  {
  }

  lemma FinishKeeps(s: Sys, t: nat, seen: Seen)
    requires AllSeen(s, seen)
    ensures AllSeen(Next(s, Finish(t)), seen)
  {
    if At(s, t) && s.tasks[t].pc.Settle? {
      assert TaskSeen(seen, s.tasks[t]);
      var n := Next(s, Finish(t));
      assert n.tasks == s.tasks - {t};
      if s.tasks[t].cmd.Some? {
        RowEnds(seen, s.commands, s.tasks[t].cmd.value, s.tasks[t].pc.action);
      }
      hide P.Finalize, P.Release, RowSeen, TaskSeen;
    }
  }

  predicate Background(op: Op) {
    op.SubmitQueued? || op.Observer? || op.Repair? || op.Crash? || op.RecoverContinuations? || op.Adopt? || op.AdoptDone? || op.RecoverLinks?
  }

  /** No row ends and no task moves. */
  predicate Calm(s: Sys, n: Sys) {
    && |s.commands| <= |n.commands|
    && (forall i :: 0 <= i < |n.commands| && n.commands[i].Finished() ==> i < |s.commands| && n.commands[i].status == s.commands[i].status)
    && (forall u :: u in n.tasks ==> u in s.tasks && n.tasks[u] == s.tasks[u])
  }

  lemma TablesAreCalm(s: Sys, op: Op)
    requires op.Observer? || op.Repair? || op.Crash? || op.Adopt?
    ensures Calm(s, Next(s, op))
  {
    assert Next(s, op).commands == s.commands;
    hide L.Step, C.Rearm, L.Insert;
  }

  lemma BackgroundIsCalm(s: Sys, op: Op)
    requires Background(op)
    ensures Calm(s, Next(s, op))
  {
    if op.Observer? || op.Repair? || op.Crash? || op.Adopt? {
      TablesAreCalm(s, op);
    }
  }

  lemma CalmKeeps(s: Sys, n: Sys, seen: Seen)
    requires AllSeen(s, seen) && Calm(s, n)
    ensures AllSeen(n, seen)
  {
    forall i | 0 <= i < |n.commands|
      ensures RowSeen(seen, n.commands[i], i)
    {
      if n.commands[i].Finished() {
        assert RowSeen(seen, s.commands[i], i);
      }
    }
  }

  lemma BackgroundKeeps(s: Sys, op: Op, seen: Seen)
    requires AllSeen(s, seen) && Background(op)
    ensures AllSeen(Next(s, op), seen)
  {
    BackgroundIsCalm(s, op);
    hide *;
    CalmKeeps(s, Next(s, op), seen);
  }

  lemma RecoverKeeps(s: Sys, seen: Seen)
    requires AllSeen(s, seen)
    ensures AllSeen(Next(s, RecoverCommands), See(s, seen, RecoverCommands))
  {
    var n, later := Next(s, RecoverCommands), See(s, seen, RecoverCommands);
    if s.stage == 3 {
      forall i | 0 <= i < |n.commands|
        ensures RowSeen(later, n.commands[i], i)
      {
        assert RowSeen(seen, s.commands[i], i);
        if s.commands[i].status.Claimed? {
          assert FailsCommand(s, RecoverCommands, i);
        }
      }
      assert forall u :: u in n.tasks ==> TaskSeen(seen, s.tasks[u]);
    } else {
      Unchanged(s, seen, later);
    }
  }

  lemma Forgets(s: Sys, n: Sys, seen: Seen, op: Op)
    requires AllSeen(n, seen)
    ensures AllSeen(n, See(s, seen, op))
  {
    Unchanged(n, seen, See(s, seen, op));
  }

  lemma TaskStepKeeps(s: Sys, op: Op, seen: Seen)
    requires AllSeen(s, seen) && (Claims(op) || Paths(op) || Forks(op) || Moves(op))
    ensures AllSeen(Next(s, op), See(s, seen, op))
  {
    hide Next, Steps, AllSeen;
    if Claims(op) {
      ClaimsStep(s, op);
    } else if Paths(op) {
      PathsStep(s, op);

    } else if Forks(op) {
      ForksStep(s, op);
    } else {
      MovesStep(s, op);
    }
    ExcusedKeeps(s, op, op.t, seen);
  }

  lemma NextKeeps(s: Sys, op: Op, seen: Seen)
    requires AllSeen(s, seen)
    ensures AllSeen(Next(s, op), See(s, seen, op))
  {
    hide Next, Steps, AllSeen, See;
    if Claims(op) || Paths(op) || Forks(op) || Moves(op) {
      TaskStepKeeps(s, op, seen);
    } else if Background(op) {
      BackgroundKeeps(s, op, seen);
      Forgets(s, Next(s, op), seen, op);
    } else {
      match op
      case StartTurn(t, outcome) => StartSteps(s, t, outcome); ExcusedKeeps(s, op, t, seen);
      case MarkStarted(t) => MarkSteps(s, t); ExcusedKeeps(s, op, t, seen);
      case CopyBehind(t, turnKnown) => CopySteps(s, t, turnKnown); ExcusedKeeps(s, op, t, seen);
      case FailLinked(t) => FailLinkedKeeps(s, t, seen); Forgets(s, Next(s, op), seen, op);
      case Finish(t) => FinishKeeps(s, t, seen); Forgets(s, Next(s, op), seen, op);
      case RecoverCommands => RecoverKeeps(s, seen);
    }
  }

  // ---- Runs ----

  lemma {:induction false} RunKeeps(s: Sys, seen: Seen, ops: seq<Op>)
    requires AllSeen(s, seen)
    ensures AllSeen(Run(s, ops), Log(s, seen, ops))
    decreases |ops|
  {
    hide Next, AllSeen, See;
    if ops != [] {
      NextKeeps(s, ops[0], seen);
      RunKeeps(Next(s, ops[0]), See(s, seen, ops[0]), ops[1..]);
    }
  }

  ghost predicate FailedAt(s: Sys, ops: seq<Op>, k: nat, i: nat) {
    k < |ops| && FailsCommand(Run(s, ops[..k]), ops[k], i)
  }

  ghost predicate CompletedAt(s: Sys, ops: seq<Op>, k: nat, i: nat) {
    k < |ops| && CompletesCommand(Run(s, ops[..k]), ops[k], i)
  }

  lemma {:induction false} LogHasReasons(s: Sys, seen: Seen, ops: seq<Op>, i: nat)
    ensures i in Log(s, seen, ops).failing ==> i in seen.failing || exists k :: FailedAt(s, ops, k, i)
    ensures i in Log(s, seen, ops).done ==> i in seen.done || exists k :: CompletedAt(s, ops, k, i)
    decreases |ops|
  {
    hide Next, FailsCommand, CompletesCommand;
    if ops != [] {
      var next := Next(s, ops[0]);
      LogHasReasons(next, See(s, seen, ops[0]), ops[1..], i);
      assert Run(s, ops[..0]) == s;
      assert FailsCommand(s, ops[0], i) ==> FailedAt(s, ops, 0, i);
      assert CompletesCommand(s, ops[0], i) ==> CompletedAt(s, ops, 0, i);
      if k: nat :| FailedAt(next, ops[1..], k, i) {
        LaterRun(s, ops, k);
        assert FailedAt(s, ops, k + 1, i);
      }
      if k: nat :| CompletedAt(next, ops[1..], k, i) {
        LaterRun(s, ops, k);
        assert CompletedAt(s, ops, k + 1, i);
      }
    }
  }

  lemma LaterRun(s: Sys, ops: seq<Op>, k: nat)
    requires k + 1 < |ops|
    ensures Run(s, ops[..k + 1]) == Run(Next(s, ops[0]), ops[1..][..k]) && ops[k + 1] == ops[1..][k]
  {
    hide Next;
    assert ops[..k + 1][1..] == ops[1..][..k];
  }

  // ---- Main results ----

  /** Over every run a command fails only for a reason: its turn start was refused or left
      unknown, its task gave up with a failure, its link had failed, its copy could not be
      queued or had no known turn, or a startup found it claimed. */
  lemma FailedOnlyForAReason(ops: seq<Op>, i: nat)
    requires i < |Run(INIT, ops).commands| && Run(INIT, ops).commands[i].status.Failed?
    ensures exists k :: FailedAt(INIT, ops, k, i)
  {
    RunKeeps(INIT, Seen(iset{}, iset{}), ops);
    assert RowSeen(Log(INIT, Seen(iset{}, iset{}), ops), Run(INIT, ops).commands[i], i);
    LogHasReasons(INIT, Seen(iset{}, iset{}), ops, i);
  }

  /** Over every run a command is completed only when its turn start was accepted, and on a
      linked row also recorded, or when a copy was queued behind a known turn. */
  lemma CompletedOnlyForAReason(ops: seq<Op>, i: nat)
    requires i < |Run(INIT, ops).commands| && Run(INIT, ops).commands[i].status.Completed?
    ensures exists k :: CompletedAt(INIT, ops, k, i)
  {
    RunKeeps(INIT, Seen(iset{}, iset{}), ops);
    assert RowSeen(Log(INIT, Seen(iset{}, iset{}), ops), Run(INIT, ops).commands[i], i);
    LogHasReasons(INIT, Seen(iset{}, iset{}), ops, i);
  }
}
