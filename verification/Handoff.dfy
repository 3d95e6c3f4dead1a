/** The start protocol of the router: draining the queue, forking a source turn, and
    starting turns on an App Server that may accept, refuse or not answer, with
    crashes and startup recovery anywhere in between.

    Each operation is one atomic storage transaction or one App Server call of one
    task; any number of tasks interleave. Choices that depend on the App Server, on
    the worker manager or on stored thread metadata are parameters of the operations. */
module Handoff {
  import opened Ids
  import P = PendingCommands
  import C = Continuations
  import L = LinkedThreads

  datatype Action = Complete | Fail | Release | Leave

  /** Where a task is between two atomic steps. */
  datatype Pc =
    | WantClaim                                   // new prompt queued behind a backlog, about to claim the oldest
    | WantThread                                  // claimed by source, about to lock the thread of the command
    | Route                                       // startQueuedCommand
    | Resume(mayLink: bool)                       // startResumedOrLinkedTurnWithPolicy
    | OnThread(policy: Option<bool>)              // startExistingThreadOnWorker, called directly or by Resume
    | WantLink                                    // startLinkedTurn, about to lock the linked row
    | ReadLink                                    // lock held, about to read the linked row
    | NoLink                                      // createCanonicalLinkedTurn, about to claim the continuation
    | Creating                                    // continuation claimed here, about to fork
    | Forked(child: Id)                           // fork answered, about to activate
    | ForkFailed(kind: C.Failure)                 // about to record the failed continuation
    | Canonical(linked: Id, seen: L.State)        // startCanonicalLinkedTurn with the row as it was read
    | Legacy(child: Id)                           // activateLegacyContinuationOnWorker
    | Rehomed(child: Id)                          // the same, queue already rehomed to the active child
    | LinkedStart(linked: Id, generation: nat)    // linked row owned, about to start the turn
    | Marking(linked: Id, generation: nat, turn: Id)
    | Failing(linked: Id, generation: nat)
    | Settle(action: Action)                      // about to finalize the claimed command

  /** `cmd` is the claimed command, or None when a message is started directly. */
  datatype Task = Task(cmd: Option<nat>, prompt: Id, thread: Id, key: Key, project: Id, locks: set<Id>, linkLock: bool, pc: Pc)

  datatype ForkEvent = Attempt(key: Key) | DefiniteFailure(key: Key) | Rearmed(chat: Chat)

  /** `spent` are the commands whose prompt was handed on: a turn start was accepted
      or left unknown, or a copy was queued. `starts` logs those turn starts, `forks`
      the fork calls. `owners` and `claimers` name the task behind a creating
      continuation and behind a claimed command. */
  datatype Sys = Sys(
    commands: P.Table, conts: C.Table, links: L.Table,
    tasks: map<nat, Task>, owners: map<Key, nat>, claimers: map<nat, nat>,
    stage: nat, nextPrompt: nat, spent: set<nat>, starts: seq<Id>, forks: seq<ForkEvent>)

  const UP: nat := 4
  const INIT := Sys([], map[], map[], map[], map[], map[], UP, 1, {}, [], [])

  datatype TurnOutcome = Accepted(turn: Id) | Unknown | Refused
  /** An error carries the JSON-RPC code when the App Server answered with one. */
  datatype ForkOutcome = ForkedTo(child: Id) | ForkError(code: Option<int>) | NoWorker

  datatype Op =
    | SubmitQueued(thread: Id, key: Key, project: Id)
    | DrainClaim(t: nat, thread: Id)
    | BacklogOpen(t: nat, thread: Id, key: Key, project: Id)
    | BacklogClaim(t: nat)
    | BacklogLock(t: nat)
    | DirectOpen(t: nat, thread: Id, chat: Chat, turn: Id, project: Id, mayLink: bool)
    | RouteCommand(t: nat)
    | GiveUp(t: nat, action: Action)
    | ChoosePath(t: nat, pcOrigin: bool)
    | Conflict(t: nat)
    | StartTurn(t: nat, outcome: TurnOutcome)
    | MarkStarted(t: nat)
    | FailLinked(t: nat)
    | LockLink(t: nat)
    | LookUpLink(t: nat, linked: Id)
    | ClaimContinuation(t: nat)
    | ForkThread(t: nat, answer: ForkOutcome)
    | RejectChild(t: nat)
    | RecordForkFailure(t: nat)
    | ActivateLinked(t: nat, generation: nat)
    | RehomeQueue(t: nat)
    | CopyBehind(t: nat, turnKnown: bool)
    | LinkNotReady(t: nat)
    | ClaimWorker(t: nat, generation: nat)
    | Finish(t: nat)
    | Observer(link: L.Op)
    | Repair(chat: Chat)
    | Crash
    | RecoverContinuations
    | Adopt(key: Key)
    | AdoptDone
    | RecoverLinks
    | RecoverCommands

  // ---- Guards ----

  predicate At(s: Sys, t: nat) {
    s.stage == UP && t in s.tasks
  }

  predicate ThreadFree(s: Sys, thread: Id) {
    forall t :: t in s.tasks ==> thread !in s.tasks[t].locks
  }

  predicate LinkFree(s: Sys, key: Key) {
    forall t :: t in s.tasks && s.tasks[t].linkLock ==> s.tasks[t].key.chat != key.chat || s.tasks[t].key.thread != key.thread
  }

  predicate LinkedTo(s: Sys, l: Id, key: Key) {
    l in s.links && s.links[l].chat == key.chat && s.links[l].source == key.thread
  }

  /** The task may still start the turn of its prompt. */
  predicate BeforeStart(pc: Pc) {
    !(pc.WantClaim? || pc.Marking? || pc.Failing? || pc.Settle?)
  }

  predicate CreatingPc(pc: Pc) {
    pc.Creating? || pc.Forked? || pc.ForkFailed?
  }

  // ---- Steps ----

  function Goto(s: Sys, t: nat, pc: Pc): Sys
    requires t in s.tasks
  {
    s.(tasks := s.tasks[t := s.tasks[t].(pc := pc)])
  }

  function Spend(s: Sys, t: nat): Sys
    requires t in s.tasks
  {
    if s.tasks[t].cmd.Some? then s.(spent := s.spent + {s.tasks[t].cmd.value}) else s
  }

  /** Claims a row for task t; the task owns its thread from then on. */
  function TakeCommand(s: Sys, t: nat, task: Task, i: nat): Sys
    requires i < |s.commands|
  {
    s.(commands := P.Claim(s.commands, Some(i)),
       tasks := s.tasks[t := task],
       claimers := s.claimers[i := t])
  }

  function PromptOf(c: P.Command): Id {
    if c.payload.Some? then c.payload.value.plain else NONE
  }

  function Submit(s: Sys, thread: Id, key: Key, project: Id): Sys {
    s.(commands := P.Enqueue(s.commands, thread, key, project, s.nextPrompt), nextPrompt := s.nextPrompt + 1)
  }

  function DoDrainClaim(s: Sys, t: nat, thread: Id): Sys {
    var candidate := P.ThreadCandidate(s.commands, thread);
    if s.stage != UP || t in s.tasks || !ThreadFree(s, thread) || candidate.None? then s
    else
      var c := s.commands[candidate.value];
      TakeCommand(s, t, Task(candidate, PromptOf(c), thread, c.source, c.project, {thread}, false, Route), candidate.value)
  }

  /** enqueueBehindSourceBacklogAndStartOldest: the new prompt is queued first. */
  function DoBacklogOpen(s: Sys, t: nat, thread: Id, key: Key, project: Id): Sys {
    if s.stage != UP || t in s.tasks || !ThreadFree(s, thread) || key.thread != thread then s
    else
      var s1 := Submit(s, thread, key, project);
      s1.(tasks := s1.tasks[t := Task(None, NONE, thread, key, project, {thread}, false, WantClaim)])
  }

  function DoBacklogClaim(s: Sys, t: nat): Sys {
    if !At(s, t) || !s.tasks[t].pc.WantClaim? then s
    else
      var task := s.tasks[t];
      var candidate := P.SourceCandidate(s.commands, task.key);
      if candidate.None? then s.(tasks := s.tasks - {t})
      else
        var c := s.commands[candidate.value];
        var next := if c.thread == task.thread then Route else WantThread;
        TakeCommand(s, t, task.(cmd := candidate, prompt := PromptOf(c), thread := c.thread, project := c.project, pc := next), candidate.value)
  }

  function DoBacklogLock(s: Sys, t: nat): Sys {
    if !At(s, t) || !s.tasks[t].pc.WantThread? || !ThreadFree(s, s.tasks[t].thread) then s
    else s.(tasks := s.tasks[t := s.tasks[t].(locks := s.tasks[t].locks + {s.tasks[t].thread}, pc := Route)])
  }

  /** submitThread starts a message itself: on the canonical linked row when the
      thread is linked for this chat, otherwise on the thread. */
  function DoDirectOpen(s: Sys, t: nat, thread: Id, chat: Chat, turn: Id, project: Id, mayLink: bool): (next: Sys)
    ensures next.conts == s.conts
  {
    if s.stage != UP || t in s.tasks || !ThreadFree(s, thread) then s
    else
      var linked := thread in s.links && s.links[thread].chat == chat;
      var key := if linked then Key(chat, s.links[thread].source, s.links[thread].anchor) else Key(chat, thread, turn);
      var pc := if linked then Canonical(thread, s.links[thread].state) else Resume(mayLink);
      s.(tasks := s.tasks[t := Task(None, s.nextPrompt, thread, key, project, {thread}, false, pc)], nextPrompt := s.nextPrompt + 1)
  }

  function DoRouteCommand(s: Sys, t: nat): (next: Sys)
    ensures next.conts == s.conts
  {
    if !At(s, t) || !s.tasks[t].pc.Route? then s
    else
      var task := s.tasks[t];
      var full := task.key.thread != NONE && task.key.turn != NONE;
      if full && task.key.thread != task.thread && LinkedTo(s, task.thread, task.key) && s.links[task.thread].project == task.project then
        match s.links[task.thread].state
        case Running => Goto(s, t, Settle(Release))
        case ReleasePending => Goto(s, t, Settle(Release))
        case Ready => Goto(s, t, Canonical(task.thread, L.Ready))
        case Failed => Goto(s, t, Settle(Fail))
      else if task.key.thread == task.thread && task.key.turn != NONE then Goto(s, t, Resume(true))
      else Goto(s, t, OnThread(None))
  }

  /** Every early return before the turn start: the command is failed, or released when
      the error says that nothing was started remotely. A task that owns a creating
      continuation has to record its failure first. */
  function DoGiveUp(s: Sys, t: nat, action: Action): Sys {
    if !At(s, t) || !BeforeStart(s.tasks[t].pc) || s.tasks[t].pc.LinkedStart? || CreatingPc(s.tasks[t].pc) then s
    else if action.Fail? || action.Release? then Goto(s, t, Settle(action))
    else s
  }

  function DoChoosePath(s: Sys, t: nat, pcOrigin: bool): Sys {
    if !At(s, t) || !s.tasks[t].pc.Resume? then s
    else if s.tasks[t].pc.mayLink && s.tasks[t].key.turn != NONE && pcOrigin then Goto(s, t, WantLink)
    else Goto(s, t, OnThread(Some(s.tasks[t].pc.mayLink)))
  }

  /** The resume or the turn start was refused because another writer owns the thread. */
  function DoConflict(s: Sys, t: nat): Sys {
    if !At(s, t) || !s.tasks[t].pc.OnThread? || s.tasks[t].pc.policy.None? then s
    else if s.tasks[t].thread in s.links || !s.tasks[t].pc.policy.value then Goto(s, t, Settle(Release))
    else Goto(s, t, WantLink)
  }

  function DoStartTurn(s: Sys, t: nat, outcome: TurnOutcome): (next: Sys)
    ensures next.conts == s.conts
  {
    if !At(s, t) || !(s.tasks[t].pc.OnThread? || s.tasks[t].pc.LinkedStart?) then s
    else
      var pc := s.tasks[t].pc;
      var started := Spend(s, t).(starts := s.starts + [s.tasks[t].prompt]);
      match outcome
      case Accepted(turn) =>
        if pc.OnThread? then Goto(started, t, Settle(Complete)) else Goto(started, t, Marking(pc.linked, pc.generation, turn))
      case Unknown =>
        if pc.OnThread? then Goto(started, t, Settle(Fail)) else Goto(started, t, Failing(pc.linked, pc.generation))
      case Refused =>
        if pc.OnThread? then Goto(s, t, Settle(Fail)) else Goto(s, t, Failing(pc.linked, pc.generation))
  }

  /** When the marker is not written the caller returns at once and the command stays claimed. */
  function DoMarkStarted(s: Sys, t: nat): (next: Sys)
    ensures next.conts == s.conts
  {
    if !At(s, t) || !s.tasks[t].pc.Marking? then s
    else
      var pc := s.tasks[t].pc;
      var marked := L.CanMark(s.links, pc.linked, pc.generation, pc.turn);
      Goto(s.(links := L.MarkTurn(s.links, pc.linked, pc.generation, pc.turn)), t, Settle(if marked then Complete else Leave))
  }

  function DoFailLinked(s: Sys, t: nat): (next: Sys)
    ensures next.conts == s.conts
  {
    if !At(s, t) || !s.tasks[t].pc.Failing? then s
    else
      var pc := s.tasks[t].pc;
      Goto(s.(links := L.Fail(s.links, pc.linked, pc.generation)), t, Settle(Fail))
  }

  function DoLockLink(s: Sys, t: nat): Sys {
    if !At(s, t) || !s.tasks[t].pc.WantLink? || !LinkFree(s, s.tasks[t].key) then s
    else s.(tasks := s.tasks[t := s.tasks[t].(linkLock := true, pc := ReadLink)])
  }

  function DoLookUpLink(s: Sys, t: nat, linked: Id): Sys {
    if !At(s, t) || !s.tasks[t].pc.ReadLink? then s
    else if LinkedTo(s, linked, s.tasks[t].key) then Goto(s, t, Canonical(linked, s.links[linked].state))
    else if L.HasLink(s.links, s.tasks[t].key.chat, s.tasks[t].key.thread) then s
    else Goto(s, t, NoLink)
  }

  function DoClaimContinuation(s: Sys, t: nat): Sys {
    if !At(s, t) || !s.tasks[t].pc.NoLink? then s
    else
      var task := s.tasks[t];
      if C.Claimable(s.conts, task.key, task.project) then
        Goto(s.(conts := C.Claim(s.conts, task.key, task.project), owners := s.owners[task.key := t]), t, Creating)
      else if task.key in s.conts && s.conts[task.key].status.Active? && s.conts[task.key].project == task.project then
        Goto(s, t, Legacy(s.conts[task.key].fork))
      else Goto(s, t, Settle(Release))
  }

  /** minimalContinuationForkFailureKind: only an error that says that the request was
      not understood (section 5.1 of the JSON-RPC 2.0 Specification) is definite. */
  function ForkFailureKind(code: Option<int>): (kind: C.Failure)
    ensures kind.Definite? <==> code.Some? && code.value in {-32700, -32600, -32601, -32602}
    ensures kind.Ambiguous? <==> code.None? || code.value !in {-32700, -32600, -32601, -32602}
  {
    if code == Some(-32700) || code == Some(-32600) || code == Some(-32601) || code == Some(-32602) then C.Definite else C.Ambiguous
  }

  function DoForkThread(s: Sys, t: nat, answer: ForkOutcome): Sys {
    if !At(s, t) || !s.tasks[t].pc.Creating? then s
    else
      var tried := s.(forks := s.forks + [Attempt(s.tasks[t].key)]);
      match answer
      case ForkedTo(child) => Goto(tried, t, Forked(child))
      case ForkError(code) => Goto(tried, t, ForkFailed(ForkFailureKind(code)))
      case NoWorker => Goto(s, t, ForkFailed(C.Ambiguous))
  }

  /** The child is unusable or its worker could not be bound to it. */
  function DoRejectChild(s: Sys, t: nat): Sys {
    if !At(s, t) || !s.tasks[t].pc.Forked? then s else Goto(s, t, ForkFailed(C.Ambiguous))
  }

  function DoRecordForkFailure(s: Sys, t: nat): Sys {
    if !At(s, t) || !s.tasks[t].pc.ForkFailed? then s
    else
      var key, kind := s.tasks[t].key, s.tasks[t].pc.kind;
      var s1 := s.(conts := C.Fail(s.conts, key, kind), owners := s.owners - {key},
                   forks := if kind.Definite? then s.forks + [DefiniteFailure(key)] else s.forks);
      Goto(s1, t, Settle(Release))
  }

  /** ActivateMinimalLinkedThread is one transaction over three tables. */
  function DoActivateLinked(s: Sys, t: nat, generation: nat): Sys {
    if !At(s, t) || !(s.tasks[t].pc.Forked? || s.tasks[t].pc.Legacy?) then s
    else
      var task := s.tasks[t];
      var child, key := task.pc.child, task.key;
      if C.CanActivate(s.conts, key, task.project, child) && L.CanInsert(s.links, child, key.chat, key.thread) && generation <= L.MAX_GENERATION then
        var row := L.Row(key.chat, task.project, key.thread, key.turn, false, L.Running, NONE, generation);
        Goto(s.(conts := C.Activate(s.conts, key, task.project, child),
                commands := P.Rehome(s.commands, key, child),
                links := L.Insert(s.links, child, row),
                owners := s.owners - {key}), t, LinkedStart(child, generation))
      else if task.pc.Forked? then Goto(s, t, ForkFailed(C.Ambiguous))
      else Goto(s, t, Settle(Release))
  }

  function DoRehomeQueue(s: Sys, t: nat): Sys {
    if !At(s, t) || !s.tasks[t].pc.Legacy? then s
    else
      var child := s.tasks[t].pc.child;
      Goto(s.(commands := P.Rehome(s.commands, s.tasks[t].key, child)), t, Rehomed(child))
  }

  /** The target is busy: the prompt is queued again as a new command of the target.
      A refused insert is a start error on the canonical row and a pre-start error on a
      legacy continuation. */
  function DoCopyBehind(s: Sys, t: nat, turnKnown: bool): Sys {
    if !At(s, t) || !(s.tasks[t].pc.Rehomed? || (s.tasks[t].pc.Canonical? && s.tasks[t].pc.seen.Running?)) then s
    else
      var task := s.tasks[t];
      var target := if task.pc.Rehomed? then task.pc.child else task.pc.linked;
      if !P.Storable(target, task.project, task.prompt) then Goto(s, t, Settle(if task.pc.Rehomed? then Release else Fail))
      else
        var s1 := Spend(s, t).(commands := P.Enqueue(s.commands, target, task.key, task.project, task.prompt));
        Goto(s1, t, Settle(if turnKnown then Complete else Fail))
  }

  function DoLinkNotReady(s: Sys, t: nat): Sys {
    if !At(s, t) || !s.tasks[t].pc.Canonical? || s.tasks[t].pc.seen.Running? || s.tasks[t].pc.seen.Ready? then s
    else Goto(s, t, Settle(Release))
  }

  function DoClaimWorker(s: Sys, t: nat, generation: nat): Sys {
    if !At(s, t) || !s.tasks[t].pc.Canonical? || !s.tasks[t].pc.seen.Ready? then s
    else
      var l := s.tasks[t].pc.linked;
      if L.CanClaim(s.links, l, generation) then Goto(s.(links := L.Claim(s.links, l, generation)), t, LinkedStart(l, generation))
      else Goto(s, t, Settle(Release))
  }

  function DoFinish(s: Sys, t: nat): (next: Sys)
    ensures next.conts == s.conts
  {
    if !At(s, t) || !s.tasks[t].pc.Settle? then s
    else
      var cmd := s.tasks[t].cmd;
      var s1 := s.(tasks := s.tasks - {t});
      if cmd.None? then s1
      else
        var s2 := s1.(claimers := s.claimers - {cmd.value});
        match s.tasks[t].pc.action
        case Complete => s2.(commands := P.Finalize(s.commands, cmd.value, P.Completed))
        case Fail => s2.(commands := P.Finalize(s.commands, cmd.value, P.Failed))
        case Release => s2.(commands := P.Release(s.commands, cmd.value))
        case Leave => s2
  }

  predicate ObserverStep(op: L.Op) {
    op.MarkTitleOp? || op.BeginOp? || op.FinishOp? || op.FinishAndClearOp? || op.FailOp?
  }

  /** A crash forgets the tasks; the daemon serves again only after the recovery steps. */
  function DoCrash(s: Sys): Sys {
    s.(tasks := map[], owners := map[], claimers := map[], stage := 0)
  }

  function DoRecoverContinuations(s: Sys): Sys {
    if s.stage != 0 then s
    else s.(commands := P.ReturnClaimed(s.commands, C.CreatingKeys(s.conts)), conts := C.Recover(s.conts), stage := 1)
  }

  function DoAdopt(s: Sys, key: Key): Sys {
    if s.stage == 1 && key in s.conts && s.conts[key].status.Active? then
      s.(links := L.Insert(s.links, s.conts[key].fork, L.Row(key.chat, s.conts[key].project, key.thread, key.turn, false, L.Ready, NONE, 0)))
    else s
  }

  function Next(s: Sys, op: Op): Sys {
    match op
    case SubmitQueued(thread, key, project) =>
      if s.stage == UP && (key.thread == thread || key.thread == NONE) then Submit(s, thread, key, project) else s
    case DrainClaim(t, thread) => DoDrainClaim(s, t, thread)
    case BacklogOpen(t, thread, key, project) => DoBacklogOpen(s, t, thread, key, project)
    case BacklogClaim(t) => DoBacklogClaim(s, t)
    case BacklogLock(t) => DoBacklogLock(s, t)
    case DirectOpen(t, thread, chat, turn, project, mayLink) => DoDirectOpen(s, t, thread, chat, turn, project, mayLink)
    case RouteCommand(t) => DoRouteCommand(s, t)
    case GiveUp(t, action) => DoGiveUp(s, t, action)
    case ChoosePath(t, pcOrigin) => DoChoosePath(s, t, pcOrigin)
    case Conflict(t) => DoConflict(s, t)
    case StartTurn(t, outcome) => DoStartTurn(s, t, outcome)
    case MarkStarted(t) => DoMarkStarted(s, t)
    case FailLinked(t) => DoFailLinked(s, t)
    case LockLink(t) => DoLockLink(s, t)
    case LookUpLink(t, linked) => DoLookUpLink(s, t, linked)
    case ClaimContinuation(t) => DoClaimContinuation(s, t)
    case ForkThread(t, answer) => DoForkThread(s, t, answer)
    case RejectChild(t) => DoRejectChild(s, t)
    case RecordForkFailure(t) => DoRecordForkFailure(s, t)
    case ActivateLinked(t, generation) => DoActivateLinked(s, t, generation)
    case RehomeQueue(t) => DoRehomeQueue(s, t)
    case CopyBehind(t, turnKnown) => DoCopyBehind(s, t, turnKnown)
    case LinkNotReady(t) => DoLinkNotReady(s, t)
    case ClaimWorker(t, generation) => DoClaimWorker(s, t, generation)
    case Finish(t) => DoFinish(s, t)
    case Observer(link) => if s.stage == UP && ObserverStep(link) then s.(links := L.Step(s.links, link)) else s
    case Repair(chat) =>
      if s.stage == UP then s.(conts := C.Rearm(s.conts, chat), forks := s.forks + [Rearmed(chat)]) else s
    case Crash => DoCrash(s)
    case RecoverContinuations => DoRecoverContinuations(s)
    case Adopt(key) => DoAdopt(s, key)
    case AdoptDone => if s.stage == 1 then s.(stage := 2) else s
    case RecoverLinks => if s.stage == 2 then s.(links := L.Recover(s.links), stage := 3) else s
    case RecoverCommands => if s.stage == 3 then s.(commands := P.RecoverClaimed(s.commands), stage := UP) else s
  }

  function Run(s: Sys, ops: seq<Op>): Sys
    decreases |ops|
  {
    if ops == [] then s else Run(Next(s, ops[0]), ops[1..])
  }
}
