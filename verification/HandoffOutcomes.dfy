/** How the start of a queued command ends: what becomes of its row after each way a turn
    start can go, and that a waiting prompt can be started. */
module HandoffOutcomes {
  import opened Ids
  import opened Handoff
  import opened HandoffInvariant
  import P = PendingCommands
  import C = Continuations
  import L = LinkedThreads
  import S = HandoffSafety

  lemma {:induction false} RunSplits(s: Sys, first: seq<Op>, rest: seq<Op>)
    ensures Run(s, first + rest) == Run(Run(s, first), rest)
    decreases |first|
  {
    hide Next;
    if first == [] {
      assert first + rest == rest;
    } else {
      assert (first + rest)[1..] == first[1..] + rest;
      RunSplits(Next(s, first[0]), first[1..], rest);
    }
  }

  lemma RunOne(s: Sys, a: Op)
    ensures Run(s, [a]) == Next(s, a)
  {
    hide Next;
    assert Run(s, [a]) == Run(Next(s, a), []);
  }

  lemma RunTwo(s: Sys, a: Op, b: Op)
    ensures Run(s, [a, b]) == Next(Next(s, a), b)
  {
    hide Next;
    RunOne(Next(s, a), b);
    assert [a, b][1..] == [b];
  }

  lemma RunThree(s: Sys, a: Op, b: Op, c: Op)
    ensures Run(s, [a, b, c]) == Next(Next(Next(s, a), b), c)
  {
    hide Next;
    RunTwo(Next(s, a), b, c);
    assert [a, b, c][1..] == [b, c];
  }

  lemma RunFour(s: Sys, a: Op, b: Op, c: Op, d: Op)
    ensures Run(s, [a, b, c, d]) == Next(Next(Next(Next(s, a), b), c), d)
  {
    hide Next;
    RunThree(Next(s, a), b, c, d);
    assert [a, b, c, d][1..] == [b, c, d];
  }

  lemma Reachable(ops: seq<Op>)
    ensures Inv(Run(INIT, ops))
  {
    S.InitHolds();
    S.RunKeeps(INIT, ops);
  }

  // ---- The end of a command ----

  /** Task t works on the claimed command i, which still stores the prompt of the task. */
  ghost predicate WorksOn(s: Sys, t: nat, i: nat) {
    && s.stage == UP && t in s.tasks && s.tasks[t].cmd == Some(i)
    && i < |s.commands| && s.commands[i].status.Claimed?
  }

  lemma TasksWork(s: Sys, t: nat)
    requires Inv(s) && t in s.tasks && s.tasks[t].cmd.Some?
    ensures WorksOn(s, t, s.tasks[t].cmd.value)
    ensures BeforeStart(s.tasks[t].pc) ==>
      PromptOf(s.commands[s.tasks[t].cmd.value]) == s.tasks[t].prompt && s.commands[s.tasks[t].cmd.value].payload.Some?
  {
    assert CmdOk(s.commands, s.claimers, s.spent, t, s.tasks[t]);
  }

  predicate Ended(c: P.Command, next: P.Command, action: Action) {
    next ==
    match action
    case Complete => c.(status := P.Completed, payload := None)
    case Fail => c.(status := P.Failed, payload := None)
    case Release => c.(status := P.Pending)
    case Leave => c
  }

  lemma FinishEnds(s: Sys, t: nat, i: nat, action: Action)
    requires WorksOn(s, t, i) && s.tasks[t].pc == Settle(action)
    ensures
      var n := Next(s, Finish(t));
      && t !in n.tasks && |n.commands| == |s.commands| && Ended(s.commands[i], n.commands[i], action)
      && n.starts == s.starts && n.links == s.links && n.conts == s.conts
  {
  }

  /** The step leaves the rows alone and sends the task to its end. */
  predicate Settles(s: Sys, n: Sys, t: nat, action: Action) {
    && n.stage == s.stage && n.commands == s.commands
    && t in s.tasks && t in n.tasks && n.tasks[t] == s.tasks[t].(pc := Settle(action))
  }

  lemma SettledEnds(s: Sys, op: Op, t: nat, i: nat, action: Action)
    requires WorksOn(s, t, i) && Settles(s, Next(s, op), t, action)
    ensures
      var n := Run(s, [op, Finish(t)]);
      t !in n.tasks && |n.commands| == |s.commands| && Ended(s.commands[i], n.commands[i], action)
  {
    RunTwo(s, op, Finish(t));
    hide Next, Run;
    FinishEnds(Next(s, op), t, i, action);
  }

  // ---- Routing a claimed command ----

  /** The thread of the command is a link of its source, chat and project. */
  predicate OnItsLink(s: Sys, task: Task) {
    && task.key.thread != NONE && task.key.turn != NONE && task.key.thread != task.thread
    && LinkedTo(s, task.thread, task.key) && s.links[task.thread].project == task.project
  }

  lemma BusyLinkSettles(s: Sys, t: nat)
    requires At(s, t) && s.tasks[t].pc.Route? && OnItsLink(s, s.tasks[t])
    ensures
      var state := s.links[s.tasks[t].thread].state;
      && (state.Running? || state.ReleasePending? ==> Settles(s, Next(s, RouteCommand(t)), t, Release))
      && (state.Failed? ==> Settles(s, Next(s, RouteCommand(t)), t, Fail))
      && (state.Ready? ==> Next(s, RouteCommand(t)) == Goto(s, t, Canonical(s.tasks[t].thread, L.Ready)))
  {
  }

  /** In every reachable state: a command whose link is running or waits for its release
      goes back to waiting with its prompt, and one whose link has failed fails. */
  lemma BusyLinkWaits(ops: seq<Op>, t: nat)
    requires
      var s := Run(INIT, ops);
      At(s, t) && s.tasks[t].pc.Route? && s.tasks[t].cmd.Some? && OnItsLink(s, s.tasks[t])
    ensures
      var s := Run(INIT, ops);
      var i, state := s.tasks[t].cmd.value, s.links[s.tasks[t].thread].state;
      var n := Run(s, [RouteCommand(t), Finish(t)]);
      && i < |s.commands| == |n.commands|
      && (state.Running? || state.ReleasePending? ==> n.commands[i] == s.commands[i].(status := P.Pending) && n.commands[i].payload.Some?)
      && (state.Failed? ==> n.commands[i] == s.commands[i].(status := P.Failed, payload := None))
  {
    var s := Run(INIT, ops);
    Reachable(ops);
    TasksWork(s, t);
    BusyLinkSettles(s, t);
    var i, state := s.tasks[t].cmd.value, s.links[s.tasks[t].thread].state;
    assert BeforeStart(s.tasks[t].pc) && i < |s.commands| && s.commands[i].payload.Some?;
    hide *;
    if state.Running? || state.ReleasePending? {
      SettledEnds(s, RouteCommand(t), t, i, Release);
      EndedMeans(s.commands[i], Run(s, [RouteCommand(t), Finish(t)]).commands[i], Release);
    } else if state.Failed? {
      SettledEnds(s, RouteCommand(t), t, i, Fail);
      EndedMeans(s.commands[i], Run(s, [RouteCommand(t), Finish(t)]).commands[i], Fail);
    } else {
      RouteFinishKeepsLength(s, t);
    }
  }

  lemma EndedMeans(c: P.Command, next: P.Command, action: Action)
    requires Ended(c, next, action)
    ensures action.Release? ==> next == c.(status := P.Pending)
    ensures action.Fail? ==> next == c.(status := P.Failed, payload := None)
    ensures action.Complete? ==> next == c.(status := P.Completed, payload := None)
    ensures action.Leave? ==> next == c
  {
  }

  lemma RouteFinishKeepsLength(s: Sys, t: nat)
    ensures |Run(s, [RouteCommand(t), Finish(t)]).commands| == |s.commands|
  {
    RunTwo(s, RouteCommand(t), Finish(t));
    RouteKeepsRows(s, t);
    hide *;
    FinishKeepsLength(Next(s, RouteCommand(t)), t);
  }

  lemma RouteKeepsRows(s: Sys, t: nat)
    ensures Next(s, RouteCommand(t)).commands == s.commands
  {
    hide LinkedTo;
  }

  lemma FinishKeepsLength(s: Sys, t: nat)
    ensures |Next(s, Finish(t)).commands| == |s.commands|
  {
  }

  /** The turn start of the task was accepted: the prompt is the last of the starts. */
  lemma StartIsLogged(s: Sys, t: nat, turn: Id)
    requires At(s, t) && (s.tasks[t].pc.OnThread? || s.tasks[t].pc.LinkedStart?)
    ensures Next(s, StartTurn(t, Accepted(turn))).starts == s.starts + [s.tasks[t].prompt]
  {
  }

  /** With a ready link whose generations are not used up, some continuation starts it. */
  lemma ReadyLinkStarts(s: Sys, t: nat, turn: Id) returns (more: seq<Op>)
    requires At(s, t) && s.tasks[t].pc.Route? && OnItsLink(s, s.tasks[t])
    requires s.links[s.tasks[t].thread].state.Ready? && s.links[s.tasks[t].thread].generation < L.MAX_GENERATION
    ensures Run(s, more).starts == s.starts + [s.tasks[t].prompt]
  {
    var l := s.tasks[t].thread;
    var g := s.links[l].generation + 1;
    BusyLinkSettles(s, t);
    var routed := Next(s, RouteCommand(t));
    assert L.CanClaim(routed.links, l, g) && At(routed, t) && routed.tasks[t] == s.tasks[t].(pc := Canonical(l, L.Ready)) && routed.starts == s.starts;
    hide *;
    ClaimedStarts(routed, t, g, turn);
    more := [RouteCommand(t), ClaimWorker(t, g), StartTurn(t, Accepted(turn))];
    RunThree(s, RouteCommand(t), ClaimWorker(t, g), StartTurn(t, Accepted(turn)));
  }

  /** A command that is not routed to its link starts on its own thread. */
  lemma OtherRouteStarts(s: Sys, t: nat, turn: Id) returns (more: seq<Op>)
    requires At(s, t) && s.tasks[t].pc.Route? && !OnItsLink(s, s.tasks[t])
    ensures Run(s, more).starts == s.starts + [s.tasks[t].prompt]
    ensures
      var resumes := s.tasks[t].key.thread == s.tasks[t].thread && s.tasks[t].key.turn != NONE;
      Next(s, RouteCommand(t)) == Goto(s, t, if resumes then Resume(true) else OnThread(None))
  {
    var routed := Next(s, RouteCommand(t));
    var resumes := s.tasks[t].key.thread == s.tasks[t].thread && s.tasks[t].key.turn != NONE;
    assert routed == Goto(s, t, if resumes then Resume(true) else OnThread(None));
    if resumes {
      var chosen := Next(routed, ChoosePath(t, false));
      assert chosen == Goto(s, t, OnThread(Some(true)));
      hide Next, Run;
      StartIsLogged(chosen, t, turn);
      more := [RouteCommand(t), ChoosePath(t, false), StartTurn(t, Accepted(turn))];
      RunThree(s, RouteCommand(t), ChoosePath(t, false), StartTurn(t, Accepted(turn)));
    } else {
      hide Next, Run;
      StartIsLogged(routed, t, turn);
      more := [RouteCommand(t), StartTurn(t, Accepted(turn))];
      RunTwo(s, RouteCommand(t), StartTurn(t, Accepted(turn)));
    }
  }

  /** The only reasons for which a routed command has no way to start now. */
  predicate Blocked(s: Sys, task: Task) {
    OnItsLink(s, task) && (!s.links[task.thread].state.Ready? || s.links[task.thread].generation >= L.MAX_GENERATION)
  }

  /** Every thread that is free and has a waiting but no claimed command can have its
      oldest waiting prompt started next, in every reachable state in which the daemon
      serves, unless the link of that command is busy, failed or out of generations. */
  lemma OldestPromptCanStart(ops: seq<Op>, t: nat, thread: Id, i: nat, turn: Id) returns (more: seq<Op>)
    requires
      var s := Run(INIT, ops);
      && s.stage == UP && t !in s.tasks && ThreadFree(s, thread)
      && i < |s.commands| && s.commands[i].thread == thread && s.commands[i].status.Pending?
      && (forall j :: 0 <= j < |s.commands| && s.commands[j].thread == thread ==> !s.commands[j].status.Claimed? && (s.commands[j].status.Pending? ==> i <= j))
    ensures
      var s := Run(INIT, ops);
      var c := s.commands[i];
      var task := Task(Some(i), PromptOf(c), thread, c.source, c.project, {thread}, false, Route);
      && Next(s, DrainClaim(t, thread)).tasks == s.tasks[t := task]
      && (!Blocked(s, task) ==> Run(s, [DrainClaim(t, thread)] + more).starts == s.starts + [PromptOf(c)])
  {
    var s := Run(INIT, ops);
    var c := s.commands[i];
    var task := Task(Some(i), PromptOf(c), thread, c.source, c.project, {thread}, false, Route);
    assert P.ThreadCandidate(s.commands, thread) == Some(i);
    var claimed := Next(s, DrainClaim(t, thread));
    assert claimed.tasks == s.tasks[t := task] && claimed.links == s.links && claimed.starts == s.starts && claimed.stage == UP;
    assert OnItsLink(claimed, task) == OnItsLink(s, task);
    hide Next, Run, P.ThreadCandidate, ThreadFree;
    more := [];
    if !Blocked(s, task) {
      if OnItsLink(s, task) {
        more := ReadyLinkStarts(claimed, t, turn);
      } else {
        more := OtherRouteStarts(claimed, t, turn);
      }
      RunOne(s, DrainClaim(t, thread));
      RunSplits(s, [DrainClaim(t, thread)], more);
    }
  }

  /** The claim itself is refused exactly when the thread is locked, has a claimed command
      or has nothing waiting. */
  lemma DrainClaimsExactly(s: Sys, t: nat, thread: Id)
    requires s.stage == UP && t !in s.tasks
    ensures t in Next(s, DrainClaim(t, thread)).tasks <==>
      && (forall u :: u in s.tasks ==> thread !in s.tasks[u].locks)
      && (forall j :: 0 <= j < |s.commands| && s.commands[j].thread == thread ==> !s.commands[j].status.Claimed?)
      && (exists j :: 0 <= j < |s.commands| && s.commands[j].thread == thread && s.commands[j].status.Pending?)
  {
  }

  /** A message to a free thread can be started at once, with a prompt of its own. */
  lemma DirectMessageStarts(s: Sys, t: nat, thread: Id, chat: Chat, turn: Id, project: Id, mayLink: bool) returns (more: seq<Op>)
    requires s.stage == UP && t !in s.tasks && ThreadFree(s, thread)
    requires !(thread in s.links && s.links[thread].chat == chat)
    ensures Run(s, [DirectOpen(t, thread, chat, turn, project, mayLink)] + more).starts == s.starts + [s.nextPrompt]
    ensures Next(s, DirectOpen(t, thread, chat, turn, project, mayLink)).commands == s.commands
  {
    var posted := Next(s, DirectOpen(t, thread, chat, turn, project, mayLink));
    assert At(posted, t) && posted.tasks[t].pc == Resume(mayLink) && posted.tasks[t].prompt == s.nextPrompt && posted.starts == s.starts;
    var chosen := Next(posted, ChoosePath(t, false));
    assert chosen == Goto(posted, t, OnThread(Some(mayLink)));
    hide Next, Run, ThreadFree;
    StartIsLogged(chosen, t, 1);
    more := [ChoosePath(t, false), StartTurn(t, Accepted(1))];
    RunTwo(posted, ChoosePath(t, false), StartTurn(t, Accepted(1)));
    RunOne(s, DirectOpen(t, thread, chat, turn, project, mayLink));
    RunSplits(s, [DirectOpen(t, thread, chat, turn, project, mayLink)], more);
  }

  /** A queued message is the last command of its thread and carries a new prompt. */
  lemma SubmittedWaits(s: Sys, thread: Id, key: Key, project: Id)
    requires s.stage == UP && (key.thread == thread || key.thread == NONE) && P.Storable(thread, project, s.nextPrompt)
    ensures
      var n := Next(s, SubmitQueued(thread, key, project));
      && n.commands == s.commands + [P.Command(thread, key, project, Some(P.Sealed(s.nextPrompt)), P.Pending)]
      && n.nextPrompt == s.nextPrompt + 1 && n.tasks == s.tasks && n.starts == s.starts
  {
  }

  /** Behind a backlog the new message is queued first, and then the oldest waiting command
      of its source is claimed, unless one of them is claimed already. */
  lemma BacklogTakesOldest(s: Sys, t: nat, thread: Id, key: Key, project: Id, i: nat)
    requires s.stage == UP && t !in s.tasks && ThreadFree(s, thread) && key.thread == thread && P.Storable(thread, project, s.nextPrompt)
    requires
      var rows := s.commands + [P.Command(thread, key, project, Some(P.Sealed(s.nextPrompt)), P.Pending)];
      && i < |rows| && rows[i].source == key && rows[i].status.Pending?
      && forall j :: 0 <= j < i ==> !(rows[j].source == key && rows[j].status.Pending?)
    ensures
      var queued := Next(s, BacklogOpen(t, thread, key, project));
      var claimed := Next(queued, BacklogClaim(t));
      var busy := exists j :: 0 <= j < |s.commands| && s.commands[j].source == key && s.commands[j].status.Claimed?;
      && queued.commands == s.commands + [P.Command(thread, key, project, Some(P.Sealed(s.nextPrompt)), P.Pending)]
      && (busy ==> t !in claimed.tasks && claimed.commands == queued.commands)
      && (!busy ==>
            && t in claimed.tasks && claimed.tasks[t].cmd == Some(i) && claimed.tasks[t].prompt == PromptOf(queued.commands[i])
            && claimed.tasks[t].thread == queued.commands[i].thread
            && claimed.tasks[t].pc == (if queued.commands[i].thread == thread then Route else WantThread)
            && claimed.commands == queued.commands[i := queued.commands[i].(status := P.Claimed)])
  {
    var queued := Next(s, BacklogOpen(t, thread, key, project));
    var rows := s.commands + [P.Command(thread, key, project, Some(P.Sealed(s.nextPrompt)), P.Pending)];
    assert queued.commands == rows && At(queued, t) && queued.tasks[t] == Task(None, NONE, thread, key, project, {thread}, false, WantClaim);
    assert rows[..|s.commands|] == s.commands;
    SourceChoice(rows, |s.commands|, key, i);
    hide ThreadFree, P.SourceCandidate, Next;
    ClaimsCandidate(queued, t);
  }

  lemma SourceChoice(rows: P.Table, n: nat, key: Key, i: nat)
    requires n < |rows| && !rows[n].status.Claimed? && |rows| == n + 1
    requires i < |rows| && rows[i].source == key && rows[i].status.Pending?
    requires forall j :: 0 <= j < i ==> !(rows[j].source == key && rows[j].status.Pending?)
    ensures P.SourceCandidate(rows, key) ==
      if exists j :: 0 <= j < n && rows[..n][j].source == key && rows[..n][j].status.Claimed? then None else Some(i)
  {
    assert forall j :: 0 <= j < n ==> rows[..n][j] == rows[j];
  }

  lemma ClaimsCandidate(s: Sys, t: nat)
    requires At(s, t) && s.tasks[t].pc.WantClaim?
    ensures
      var candidate, n := P.SourceCandidate(s.commands, s.tasks[t].key), Next(s, BacklogClaim(t));
      && (candidate.None? ==> t !in n.tasks && n.commands == s.commands)
      && (candidate.Some? ==>
            var i := candidate.value;
            && i < |s.commands| && t in n.tasks && n.tasks[t].cmd == Some(i) && n.tasks[t].prompt == PromptOf(s.commands[i])
            && n.tasks[t].thread == s.commands[i].thread
            && n.tasks[t].pc == (if s.commands[i].thread == s.tasks[t].thread then Route else WantThread)
            && n.commands == s.commands[i := s.commands[i].(status := P.Claimed)])
  {
  }

  /** On the canonical row of a link the message is queued behind a running turn, started
      on a ready row, and refused otherwise. */
  lemma DirectMessageOnLink(s: Sys, t: nat, thread: Id, chat: Chat, turn: Id, project: Id, mayLink: bool)
    requires s.stage == UP && t !in s.tasks && ThreadFree(s, thread)
    requires thread in s.links && s.links[thread].chat == chat && thread != NONE && project != NONE && s.nextPrompt != NONE
    ensures
      var row := s.links[thread];
      var posted := Next(s, DirectOpen(t, thread, chat, turn, project, mayLink));
      && At(posted, t)
      && (row.state.Running? ==>
            Next(posted, CopyBehind(t, true)).commands ==
            s.commands + [P.Command(thread, Key(chat, row.source, row.anchor), project, Some(P.Sealed(s.nextPrompt)), P.Pending)])
      && (row.state.ReleasePending? || row.state.Failed? ==> Next(posted, LinkNotReady(t)).tasks[t].pc == Settle(Release))
      && (row.state.Ready? && row.generation < L.MAX_GENERATION ==>
            Next(Next(posted, ClaimWorker(t, row.generation + 1)), StartTurn(t, Accepted(1))).starts == s.starts + [s.nextPrompt])
  {
    var row := s.links[thread];
    var posted := Next(s, DirectOpen(t, thread, chat, turn, project, mayLink));
    assert At(posted, t) && posted.commands == s.commands && posted.links == s.links && posted.starts == s.starts;
    assert posted.tasks[t] == Task(None, s.nextPrompt, thread, Key(chat, row.source, row.anchor), project, {thread}, false, Canonical(thread, row.state));
    hide Next, ThreadFree;
    CanonicalSteps(posted, t, row.generation + 1);
  }

  /** What a task on the canonical row does next. */
  lemma CanonicalSteps(s: Sys, t: nat, g: nat)
    requires At(s, t) && s.tasks[t].pc.Canonical?
    ensures
      var task := s.tasks[t];
      var l := task.pc.linked;
      && (task.pc.seen.Running? && P.Storable(l, task.project, task.prompt) ==>
            Next(s, CopyBehind(t, true)).commands == s.commands + [P.Command(l, task.key, task.project, Some(P.Sealed(task.prompt)), P.Pending)])
      && (task.pc.seen.ReleasePending? || task.pc.seen.Failed? ==>
            t in Next(s, LinkNotReady(t)).tasks && Next(s, LinkNotReady(t)).tasks[t].pc == Settle(Release))
      && (task.pc.seen.Ready? && L.CanClaim(s.links, l, g) ==>
            Next(Next(s, ClaimWorker(t, g)), StartTurn(t, Accepted(1))).starts == s.starts + [task.prompt])
  {
    if s.tasks[t].pc.seen.Ready? && L.CanClaim(s.links, s.tasks[t].pc.linked, g) {
      ClaimedStarts(s, t, g, 1);
    }
  }

  lemma ClaimedStarts(s: Sys, t: nat, g: nat, turn: Id)
    requires At(s, t) && s.tasks[t].pc.Canonical? && s.tasks[t].pc.seen.Ready? && L.CanClaim(s.links, s.tasks[t].pc.linked, g)
    ensures Next(Next(s, ClaimWorker(t, g)), StartTurn(t, Accepted(turn))).starts == s.starts + [s.tasks[t].prompt]
  {
    var owned := Next(s, ClaimWorker(t, g));
    assert At(owned, t) && owned.tasks[t] == s.tasks[t].(pc := LinkedStart(s.tasks[t].pc.linked, g)) && owned.starts == s.starts;
    hide Next;
    StartIsLogged(owned, t, turn);
  }

  // ---- How a turn start ends its command ----

  lemma ThreadStartSettles(s: Sys, t: nat, outcome: TurnOutcome)
    requires At(s, t) && s.tasks[t].pc.OnThread?
    ensures Settles(s, Next(s, StartTurn(t, outcome)), t, if outcome.Accepted? then Complete else Fail)
  {
  }

  /** A start on the thread itself completes its command when it was accepted, and fails
      it when it was refused or not answered. */
  lemma ThreadStartEnds(ops: seq<Op>, t: nat, outcome: TurnOutcome)
    requires
      var s := Run(INIT, ops);
      At(s, t) && s.tasks[t].pc.OnThread? && s.tasks[t].cmd.Some?
    ensures
      var s := Run(INIT, ops);
      var i, n := s.tasks[t].cmd.value, Run(s, [StartTurn(t, outcome), Finish(t)]);
      && i < |s.commands| == |n.commands| && t !in n.tasks
      && n.commands[i] == s.commands[i].(status := if outcome.Accepted? then P.Completed else P.Failed, payload := None)
  {
    var s := Run(INIT, ops);
    Reachable(ops);
    TasksWork(s, t);
    ThreadStartSettles(s, t, outcome);
    var i, action := s.tasks[t].cmd.value, if outcome.Accepted? then Complete else Fail;
    assert i < |s.commands|;
    hide *;
    SettledEnds(s, StartTurn(t, outcome), t, i, action);
    EndedMeans(s.commands[i], Run(s, [StartTurn(t, outcome), Finish(t)]).commands[i], action);
  }

  lemma AcceptedSettles(s: Sys, t: nat, turn: Id)
    requires At(s, t) && s.tasks[t].pc.LinkedStart?
    ensures
      var l, g := s.tasks[t].pc.linked, s.tasks[t].pc.generation;
      var marked := Next(Next(s, StartTurn(t, Accepted(turn))), MarkStarted(t));
      && marked.links == L.MarkTurn(s.links, l, g, turn)
      && Settles(s, marked, t, if L.CanMark(s.links, l, g, turn) then Complete else Leave)
  {
    var l, g := s.tasks[t].pc.linked, s.tasks[t].pc.generation;
    var started := Next(s, StartTurn(t, Accepted(turn)));
    assert At(started, t) && started.tasks[t] == s.tasks[t].(pc := Marking(l, g, turn));
    assert started.stage == s.stage && started.commands == s.commands && started.links == s.links;
    hide DoStartTurn;
  }

  lemma UnansweredSettles(s: Sys, t: nat, outcome: TurnOutcome)
    requires At(s, t) && s.tasks[t].pc.LinkedStart? && !outcome.Accepted?
    ensures
      var l, g := s.tasks[t].pc.linked, s.tasks[t].pc.generation;
      var failed := Next(Next(s, StartTurn(t, outcome)), FailLinked(t));
      failed.links == L.Fail(s.links, l, g) && Settles(s, failed, t, Fail)
  {
    var l, g := s.tasks[t].pc.linked, s.tasks[t].pc.generation;
    var started := Next(s, StartTurn(t, outcome));
    assert At(started, t) && started.tasks[t] == s.tasks[t].(pc := Failing(l, g));
    assert started.stage == s.stage && started.commands == s.commands && started.links == s.links;
    hide DoStartTurn;
  }

  lemma SettledTwice(s: Sys, a: Op, b: Op, t: nat, i: nat, action: Action)
    requires WorksOn(s, t, i) && Settles(s, Next(Next(s, a), b), t, action)
    ensures
      var n := Run(s, [a, b, Finish(t)]);
      && t !in n.tasks && |n.commands| == |s.commands| && Ended(s.commands[i], n.commands[i], action)
      && n.links == Next(Next(s, a), b).links
  {
    RunThree(s, a, b, Finish(t));
    hide Next, Run;
    FinishEnds(Next(Next(s, a), b), t, i, action);
  }

  /** A start on a linked row completes its command when it was accepted and its turn was
      recorded on the row, leaves it claimed when it was accepted but not recorded, and
      fails command and row when it was refused or not answered. */
  lemma LinkedStartEnds(ops: seq<Op>, t: nat, outcome: TurnOutcome)
    requires
      var s := Run(INIT, ops);
      At(s, t) && s.tasks[t].pc.LinkedStart? && s.tasks[t].cmd.Some?
    ensures
      var s := Run(INIT, ops);
      var i, l, g := s.tasks[t].cmd.value, s.tasks[t].pc.linked, s.tasks[t].pc.generation;
      var n := Run(s, [StartTurn(t, outcome), if outcome.Accepted? then MarkStarted(t) else FailLinked(t), Finish(t)]);
      && i < |s.commands| == |n.commands| && t !in n.tasks
      && n.commands[i] ==
         (if !outcome.Accepted? then s.commands[i].(status := P.Failed, payload := None)
          else if L.CanMark(s.links, l, g, outcome.turn) then s.commands[i].(status := P.Completed, payload := None)
          else s.commands[i])
      && (outcome.Accepted? && L.CanMark(s.links, l, g, outcome.turn) ==> n.links == s.links[l := s.links[l].(turn := outcome.turn)])
      && (!outcome.Accepted? && L.Owns(s.links, l, g, L.Running) ==> n.links == s.links[l := s.links[l].(state := L.Failed, turn := NONE)])
  {
    var s := Run(INIT, ops);
    Reachable(ops);
    TasksWork(s, t);
    if outcome.Accepted? {
      AcceptedSettles(s, t, outcome.turn);
    } else {
      UnansweredSettles(s, t, outcome);
    }
    var i, l, g := s.tasks[t].cmd.value, s.tasks[t].pc.linked, s.tasks[t].pc.generation;
    assert i < |s.commands|;
    assert L.CanMark(s.links, l, g, if outcome.Accepted? then outcome.turn else NONE) ==> l in s.links;
    assert L.Owns(s.links, l, g, L.Running) ==> l in s.links;
    hide Inv, WorksOn, Settles, Next, Run, INIT;
    if outcome.Accepted? {
      var action := if L.CanMark(s.links, l, g, outcome.turn) then Complete else Leave;
      SettledTwice(s, StartTurn(t, outcome), MarkStarted(t), t, i, action);
      hide L.CanMark;
      EndedMeans(s.commands[i], Run(s, [StartTurn(t, outcome), MarkStarted(t), Finish(t)]).commands[i], action);
    } else {
      SettledTwice(s, StartTurn(t, outcome), FailLinked(t), t, i, Fail);
      EndedMeans(s.commands[i], Run(s, [StartTurn(t, outcome), FailLinked(t), Finish(t)]).commands[i], Fail);
    }
  }

  // ---- Nothing was started: the command waits again ----

  /** Steps that find that no turn can be started now. */
  predicate StartsNothing(s: Sys, op: Op, t: nat) {
    && At(s, t)
    && var task := s.tasks[t];
       match op
       case Conflict(u) => u == t && task.pc.OnThread? && task.pc.policy.Some? && (task.thread in s.links || !task.pc.policy.value)
       case LinkNotReady(u) => u == t && task.pc.Canonical? && (task.pc.seen.Failed? || task.pc.seen.ReleasePending?)
       case ClaimWorker(u, g) => u == t && task.pc.Canonical? && task.pc.seen.Ready? && !L.CanClaim(s.links, task.pc.linked, g)
       case ClaimContinuation(u) =>
         u == t && task.pc.NoLink? && !C.Claimable(s.conts, task.key, task.project) &&
         !(task.key in s.conts && s.conts[task.key].status.Active? && s.conts[task.key].project == task.project)
       case RecordForkFailure(u) => u == t && task.pc.ForkFailed?
       case GiveUp(u, action) => u == t && action.Release? && BeforeStart(task.pc) && !task.pc.LinkedStart? && !CreatingPc(task.pc)
       case _ => false
  }

  lemma StartsNothingSettles(s: Sys, op: Op, t: nat)
    requires StartsNothing(s, op, t)
    ensures Settles(s, Next(s, op), t, Release)
    ensures Next(s, op).links == s.links && Next(s, op).starts == s.starts
  {
  }

  lemma SamePrompt(c: P.Command, next: P.Command)
    requires c.payload == next.payload
    ensures PromptOf(c) == PromptOf(next)
  {
  }

  /** In every reachable state such a step gives the command back: it waits again, with
      its prompt, and no turn was started. */
  lemma NothingStartedWaits(ops: seq<Op>, op: Op, t: nat)
    requires StartsNothing(Run(INIT, ops), op, t) && Run(INIT, ops).tasks[t].cmd.Some?
    ensures
      var s := Run(INIT, ops);
      var i, n := s.tasks[t].cmd.value, Run(s, [op, Finish(t)]);
      && i < |s.commands| == |n.commands| && t !in n.tasks
      && n.commands[i] == s.commands[i].(status := P.Pending) && n.commands[i].payload.Some? && PromptOf(n.commands[i]) == s.tasks[t].prompt
  {
    var s := Run(INIT, ops);
    Reachable(ops);
    TasksWork(s, t);
    StartsNothingSettles(s, op, t);
    assert BeforeStart(s.tasks[t].pc);
    var i := s.tasks[t].cmd.value;
    assert i < |s.commands| && s.commands[i].payload.Some? && PromptOf(s.commands[i]) == s.tasks[t].prompt;
    hide *;
    SettledEnds(s, op, t, i, Release);
    var next := Run(s, [op, Finish(t)]).commands[i];
    EndedMeans(s.commands[i], next, Release);
    SamePrompt(s.commands[i], next);
  }

  /** A failed fork is recorded with its kind, so the key may be tried again exactly when
      the failure was definite. */
  lemma ForkFailureIsRecorded(ops: seq<Op>, t: nat, project: Id)
    requires At(Run(INIT, ops), t) && Run(INIT, ops).tasks[t].pc.ForkFailed? && project != NONE
    ensures
      var s := Run(INIT, ops);
      var key, kind, n := s.tasks[t].key, s.tasks[t].pc.kind, Next(s, RecordForkFailure(t));
      && key in n.conts && n.conts[key].status.Failed? && n.conts[key].failure == kind
      && (C.Claimable(n.conts, key, project) <==> kind.Definite?)
  {
    var s := Run(INIT, ops);
    Reachable(ops);
    assert AnchorOk(s.conts, s.links, s.owners, t, s.tasks[t]) && PcOk(s.tasks[t]);
    assert C.Valid(s.conts) && IsCreating(s.conts, s.tasks[t].key);
    assert s.tasks[t].key.Complete() && s.conts[s.tasks[t].key].fork == NONE;
    hide *;
    RecordsFailure(s, t, project);
  }

  lemma RecordsFailure(s: Sys, t: nat, project: Id)
    requires At(s, t) && s.tasks[t].pc.ForkFailed? && s.tasks[t].pc.kind != C.NoFailure && project != NONE
    requires IsCreating(s.conts, s.tasks[t].key) && s.tasks[t].key.Complete() && s.conts[s.tasks[t].key].fork == NONE
    ensures
      var key, kind, n := s.tasks[t].key, s.tasks[t].pc.kind, Next(s, RecordForkFailure(t));
      && key in n.conts && n.conts[key].status.Failed? && n.conts[key].failure == kind
      && (C.Claimable(n.conts, key, project) <==> kind.Definite?)
  {
  }

  /** The fork path: a task that may fork starts its prompt in the new child, which is then
      linked for the chat, and the other commands of its source wait there. */
  lemma ForkPathStarts(s: Sys, t: nat, child: Id, g: nat, turn: Id)
    requires At(s, t) && s.tasks[t].pc.NoLink? && C.Claimable(s.conts, s.tasks[t].key, s.tasks[t].project)
    requires child != NONE && child !in s.links && !L.HasLink(s.links, s.tasks[t].key.chat, s.tasks[t].key.thread)
    requires C.ForkFree(s.conts, s.tasks[t].key, child) && g <= L.MAX_GENERATION
    requires s.tasks[t].key in s.conts ==> s.conts[s.tasks[t].key].fork == NONE
    ensures
      var task := s.tasks[t];
      var n := Run(s, [ClaimContinuation(t), ForkThread(t, ForkedTo(child)), ActivateLinked(t, g), StartTurn(t, Accepted(turn))]);
      && n.starts == s.starts + [task.prompt]
      && n.forks == s.forks + [Attempt(task.key)]
      && n.links == s.links[child := L.Row(task.key.chat, task.project, task.key.thread, task.key.turn, false, L.Running, NONE, g)]
      && task.key in n.conts && n.conts[task.key].status.Active? && n.conts[task.key].fork == child
      && MovedTo(s.commands, n.commands, task.key, child)
  {
    var task := s.tasks[t];
    MayFork(s, t);
    var claimed := Next(s, ClaimContinuation(t));
    GetsChild(claimed, t, child);
    var forked := Next(claimed, ForkThread(t, ForkedTo(child)));
    assert C.CanActivate(forked.conts, task.key, task.project, child);
    Activates(forked, t, child, g);
    var active := Next(forked, ActivateLinked(t, g));
    hide *;
    RunFour(s, ClaimContinuation(t), ForkThread(t, ForkedTo(child)), ActivateLinked(t, g), StartTurn(t, Accepted(turn)));
    StartIsLogged(active, t, turn);
    StartLeavesTables(active, t, turn);
  }

  /** The unfinished commands of the source are now those of the child. */
  ghost predicate MovedTo(rows: P.Table, next: P.Table, key: Key, child: Id) {
    && |next| == |rows|
    && forall i :: 0 <= i < |rows| ==>
         next[i] == if rows[i].source == key && (rows[i].status.Pending? || rows[i].status.Claimed?) then rows[i].(thread := child) else rows[i]
  }

  lemma MayFork(s: Sys, t: nat)
    requires At(s, t) && s.tasks[t].pc.NoLink? && C.Claimable(s.conts, s.tasks[t].key, s.tasks[t].project)
    ensures
      Next(s, ClaimContinuation(t)) ==
      Goto(s.(conts := C.Claim(s.conts, s.tasks[t].key, s.tasks[t].project), owners := s.owners[s.tasks[t].key := t]), t, Creating)
  {
  }

  lemma GetsChild(s: Sys, t: nat, child: Id)
    requires At(s, t) && s.tasks[t].pc.Creating?
    ensures Next(s, ForkThread(t, ForkedTo(child))) == Goto(s.(forks := s.forks + [Attempt(s.tasks[t].key)]), t, Forked(child))
  {
  }

  /** An idle child, forked now or long ago, is linked and owned by the task in one step,
      and the waiting commands of its source move there. */
  lemma Activates(s: Sys, t: nat, child: Id, g: nat)
    requires At(s, t) && (s.tasks[t].pc == Forked(child) || s.tasks[t].pc == Legacy(child)) && C.CanActivate(s.conts, s.tasks[t].key, s.tasks[t].project, child)
    requires L.CanInsert(s.links, child, s.tasks[t].key.chat, s.tasks[t].key.thread) && g <= L.MAX_GENERATION
    ensures
      var task := s.tasks[t];
      var n := Next(s, ActivateLinked(t, g));
      && At(n, t) && n.tasks[t] == task.(pc := LinkedStart(child, g)) && n.starts == s.starts && n.forks == s.forks
      && n.links == s.links[child := L.Row(task.key.chat, task.project, task.key.thread, task.key.turn, false, L.Running, NONE, g)]
      && task.key in n.conts && n.conts[task.key].status.Active? && n.conts[task.key].fork == child
      && MovedTo(s.commands, n.commands, task.key, child)
  {
  }

  lemma StartLeavesTables(s: Sys, t: nat, turn: Id)
    ensures
      var n := Next(s, StartTurn(t, Accepted(turn)));
      n.links == s.links && n.conts == s.conts && n.commands == s.commands && n.forks == s.forks
  {
    if At(s, t) && (s.tasks[t].pc.OnThread? || s.tasks[t].pc.LinkedStart?) {
      var spent := Spend(s, t);
      assert spent.links == s.links && spent.conts == s.conts && spent.commands == s.commands && spent.forks == s.forks;
      hide Spend;
    }
  }

  /** The path from a resumed thread to its link or to the fork. */
  lemma LinkPath(s: Sys, t: nat, linked: Id)
    requires At(s, t) && s.tasks[t].pc == Resume(true) && s.tasks[t].key.turn != NONE && LinkFree(s, s.tasks[t].key)
    ensures
      var task := s.tasks[t];
      var n := Run(s, [ChoosePath(t, true), LockLink(t), LookUpLink(t, linked)]);
      && n.stage == s.stage && t in n.tasks && n.commands == s.commands && n.links == s.links && n.conts == s.conts
      && n.tasks[t] == task.(linkLock := true,
                             pc := if LinkedTo(s, linked, task.key) then Canonical(linked, s.links[linked].state)
                                   else if L.HasLink(s.links, task.key.chat, task.key.thread) then ReadLink
                                   else NoLink)
  {
    var chosen := Next(s, ChoosePath(t, true));
    assert chosen == Goto(s, t, WantLink) && At(chosen, t);
    assert LinkFree(chosen, s.tasks[t].key);
    Locks(chosen, t);
    var locked := Next(chosen, LockLink(t));
    LooksUp(locked, t, linked);
    RunThree(s, ChoosePath(t, true), LockLink(t), LookUpLink(t, linked));
    hide Next, Run, LinkFree, L.HasLink, LinkedTo;
  }

  lemma Locks(s: Sys, t: nat)
    requires At(s, t) && s.tasks[t].pc.WantLink? && LinkFree(s, s.tasks[t].key)
    ensures
      var n := Next(s, LockLink(t));
      && At(n, t) && n.commands == s.commands && n.links == s.links && n.conts == s.conts && n.stage == s.stage
      && n.tasks[t] == s.tasks[t].(linkLock := true, pc := ReadLink)
  {
  }

  lemma LooksUp(s: Sys, t: nat, linked: Id)
    requires At(s, t) && s.tasks[t].pc.ReadLink?
    ensures
      var task := s.tasks[t];
      var n := Next(s, LookUpLink(t, linked));
      && At(n, t) && n.commands == s.commands && n.links == s.links && n.conts == s.conts && n.stage == s.stage
      && n.tasks[t] == task.(pc := if LinkedTo(s, linked, task.key) then Canonical(linked, s.links[linked].state)
                                   else if L.HasLink(s.links, task.key.chat, task.key.thread) then ReadLink
                                   else NoLink)
  {
    hide L.HasLink;
  }

  /** A busy legacy child or linked row takes the prompt over: its command ends as done
      when the running turn is known, and a new last command of the target carries it. */
  lemma CopyEnds(ops: seq<Op>, t: nat, turnKnown: bool)
    requires
      var s := Run(INIT, ops);
      && At(s, t) && (s.tasks[t].pc.Rehomed? || (s.tasks[t].pc.Canonical? && s.tasks[t].pc.seen.Running?)) && s.tasks[t].cmd.Some?
      && P.Storable(if s.tasks[t].pc.Rehomed? then s.tasks[t].pc.child else s.tasks[t].pc.linked, s.tasks[t].project, s.tasks[t].prompt)
    ensures
      var s := Run(INIT, ops);
      var task := s.tasks[t];
      var i, target := task.cmd.value, if task.pc.Rehomed? then task.pc.child else task.pc.linked;
      var n := Run(s, [CopyBehind(t, turnKnown), Finish(t)]);
      && i < |s.commands| && |n.commands| == |s.commands| + 1
      && n.commands[i] == s.commands[i].(status := if turnKnown then P.Completed else P.Failed, payload := None)
      && n.commands[|s.commands|] == P.Command(target, task.key, task.project, Some(P.Sealed(task.prompt)), P.Pending)
      && n.starts == s.starts
  {
    var s := Run(INIT, ops);
    Reachable(ops);
    TasksWork(s, t);
    var i := s.tasks[t].cmd.value;
    RunTwo(s, CopyBehind(t, turnKnown), Finish(t));
    assert i < |s.commands|;
    hide *;
    Copies(s, t, i, turnKnown);
    var copied, action := Next(s, CopyBehind(t, turnKnown)), if turnKnown then Complete else Fail;
    FinishEnds(copied, t, i, action);
    EndedMeans(copied.commands[i], Next(copied, Finish(t)).commands[i], action);
    FinishKeepsOthers(copied, t, |s.commands|);
  }

  lemma Copies(s: Sys, t: nat, i: nat, turnKnown: bool)
    requires WorksOn(s, t, i) && (s.tasks[t].pc.Rehomed? || (s.tasks[t].pc.Canonical? && s.tasks[t].pc.seen.Running?))
    requires P.Storable(if s.tasks[t].pc.Rehomed? then s.tasks[t].pc.child else s.tasks[t].pc.linked, s.tasks[t].project, s.tasks[t].prompt)
    ensures
      var task := s.tasks[t];
      var target := if task.pc.Rehomed? then task.pc.child else task.pc.linked;
      var n := Next(s, CopyBehind(t, turnKnown));
      && n.commands == s.commands + [P.Command(target, task.key, task.project, Some(P.Sealed(task.prompt)), P.Pending)]
      && n.starts == s.starts && WorksOn(n, t, i) && n.tasks[t] == task.(pc := Settle(if turnKnown then Complete else Fail))
  {
  }

  lemma FinishKeepsOthers(s: Sys, t: nat, j: nat)
    requires t in s.tasks && j < |s.commands| && s.tasks[t].cmd != Some(j)
    ensures |Next(s, Finish(t)).commands| == |s.commands| && Next(s, Finish(t)).commands[j] == s.commands[j]
  {
  }

  // ---- Where the other steps lead ----

  /** Where a task goes when it finds its thread, link or continuation in a given state. */
  function Destination(s: Sys, op: Op, task: Task): Option<Pc> {
    match op
    case Conflict(_) =>
      if task.pc == OnThread(Some(true)) && task.thread !in s.links then Some(WantLink) else None
    case ClaimContinuation(_) =>
      if task.pc.NoLink? && task.key in s.conts && s.conts[task.key].status.Active? && s.conts[task.key].project == task.project
      then Some(Legacy(s.conts[task.key].fork)) else None
    case RejectChild(_) => if task.pc.Forked? then Some(ForkFailed(C.Ambiguous)) else None
    case ClaimWorker(_, g) =>
      if task.pc.Canonical? && task.pc.seen.Ready? && L.CanClaim(s.links, task.pc.linked, g) then Some(LinkedStart(task.pc.linked, g)) else None
    case _ => None
  }

  lemma GoesThere(s: Sys, op: Op, t: nat)
    requires At(s, t) && (op.Conflict? || op.ClaimContinuation? || op.RejectChild? || op.ClaimWorker?) && op.t == t
    requires Destination(s, op, s.tasks[t]).Some?
    ensures
      var n := Next(s, op);
      n.tasks == s.tasks[t := s.tasks[t].(pc := Destination(s, op, s.tasks[t]).value)] && n.commands == s.commands && n.starts == s.starts
  {
  }

  /** A prompt that was claimed for its source while it sits on another thread is routed as
      soon as that thread is free, and its task then holds both threads. */
  lemma BacklogLocksBoth(s: Sys, t: nat)
    requires At(s, t) && s.tasks[t].pc.WantThread?
    ensures
      var n := Next(s, BacklogLock(t));
      n.tasks == if ThreadFree(s, s.tasks[t].thread) then s.tasks[t := s.tasks[t].(locks := s.tasks[t].locks + {s.tasks[t].thread}, pc := Route)] else s.tasks
  {
  }

  /** Before a prompt is queued behind a busy child, the waiting commands of its source move
      to that child. */
  lemma QueueMovesFirst(s: Sys, t: nat)
    requires At(s, t) && s.tasks[t].pc.Legacy?
    ensures
      var n := Next(s, RehomeQueue(t));
      n.tasks == s.tasks[t := s.tasks[t].(pc := Rehomed(s.tasks[t].pc.child))] && MovedTo(s.commands, n.commands, s.tasks[t].key, s.tasks[t].pc.child)
  {
  }

  /** An error of the fork call closes the key, unless it is one of the four codes that say
      that the request was not understood. */
  lemma ForkErrorEnds(ops: seq<Op>, t: nat, code: Option<int>, project: Id)
    requires At(Run(INIT, ops), t) && Run(INIT, ops).tasks[t].pc.Creating? && project != NONE
    ensures
      var s := Run(INIT, ops);
      var n := Next(Next(s, ForkThread(t, ForkError(code))), RecordForkFailure(t));
      && (C.Claimable(n.conts, s.tasks[t].key, project) <==> code.Some? && code.value in {-32700, -32600, -32601, -32602})
      && t in n.tasks && n.tasks[t].pc == Settle(Release)
  {
    var s := Run(INIT, ops);
    Reachable(ops);
    assert AnchorOk(s.conts, s.links, s.owners, t, s.tasks[t]) && C.Valid(s.conts);
    assert IsCreating(s.conts, s.tasks[t].key) && s.tasks[t].key.Complete() && s.conts[s.tasks[t].key].fork == NONE;
    hide *;
    ForkErrs(s, t, code);
    var failed := Next(s, ForkThread(t, ForkError(code)));
    KindOfCode(code);
    RecordsFailure(failed, t, project);
    RecordSettles(failed, t);
  }

  lemma KindOfCode(code: Option<int>)
    ensures ForkFailureKind(code) != C.NoFailure
  {
  }

  lemma ForkErrs(s: Sys, t: nat, code: Option<int>)
    requires At(s, t) && s.tasks[t].pc.Creating?
    ensures
      var n := Next(s, ForkThread(t, ForkError(code)));
      At(n, t) && n.tasks[t] == s.tasks[t].(pc := ForkFailed(ForkFailureKind(code))) && n.conts == s.conts
    ensures IsCreating(Next(s, ForkThread(t, ForkError(code))).conts, s.tasks[t].key) == IsCreating(s.conts, s.tasks[t].key)
  {
  }

  lemma RecordSettles(s: Sys, t: nat)
    requires At(s, t) && s.tasks[t].pc.ForkFailed?
    ensures t in Next(s, RecordForkFailure(t)).tasks && Next(s, RecordForkFailure(t)).tasks[t].pc == Settle(Release)
  {
  }

  // ---- Startup ----

  /** During recovery an active continuation whose source has no link gets a ready one. */
  lemma AdoptLinks(s: Sys, key: Key)
    requires s.stage == 1 && key in s.conts && s.conts[key].status.Active?
    ensures
      var n, child := Next(s, Adopt(key)), s.conts[key].fork;
      n.links == if child != NONE && child !in s.links && !L.HasLink(s.links, key.chat, key.thread)
                 then s.links[child := L.Row(key.chat, s.conts[key].project, key.thread, key.turn, false, L.Ready, NONE, 0)] else s.links
  {
  }

  /** After a crash the recovery of the protocol leaves nothing in flight: commands of an
      interrupted fork wait again, other claimed commands failed, waiting and finished
      ones are as they were, interrupted forks failed ambiguously, and running links wait
      for their release. */
  lemma CrashRecovers(s: Sys)
    ensures
      var n := Run(s, [Crash, RecoverContinuations, AdoptDone] + [RecoverLinks, RecoverCommands]);
      && n.stage == UP && n.tasks == map[] && n.starts == s.starts && n.links.Keys == s.links.Keys && |n.commands| == |s.commands|
      && (forall i :: 0 <= i < |s.commands| ==>
            n.commands[i] ==
            if !s.commands[i].status.Claimed? then s.commands[i]
            else if IsCreating(s.conts, s.commands[i].source) then s.commands[i].(status := P.Pending)
            else s.commands[i].(status := P.Failed, payload := None))
      && (forall l :: l in s.links ==> n.links[l] == if s.links[l].state.Running? then s.links[l].(state := L.ReleasePending) else s.links[l])
      && (forall k :: k in s.conts ==>
            k in n.conts && n.conts[k] == if s.conts[k].status.Creating? then s.conts[k].(status := C.Failed, failure := C.Ambiguous) else s.conts[k])
  {
    FirstHalf(s);
    var half := Next(Next(Next(s, Crash), RecoverContinuations), AdoptDone);
    SecondHalf(half);
    RunThree(s, Crash, RecoverContinuations, AdoptDone);
    RunTwo(half, RecoverLinks, RecoverCommands);
    RunSplits(s, [Crash, RecoverContinuations, AdoptDone], [RecoverLinks, RecoverCommands]);
    hide Run, Next;
  }

  lemma FirstHalf(s: Sys)
    ensures
      var half := Next(Next(Next(s, Crash), RecoverContinuations), AdoptDone);
      && half.stage == 2 && half.tasks == map[] && half.starts == s.starts && half.links == s.links && |half.commands| == |s.commands|
      && (forall i :: 0 <= i < |s.commands| ==>
            half.commands[i] ==
            if s.commands[i].status.Claimed? && IsCreating(s.conts, s.commands[i].source) then s.commands[i].(status := P.Pending) else s.commands[i])
      && (forall k :: k in s.conts ==>
            k in half.conts && half.conts[k] == if s.conts[k].status.Creating? then s.conts[k].(status := C.Failed, failure := C.Ambiguous) else s.conts[k])
  {
    CrashedReturns(s);
    ReturnedRows(s.commands, s.conts);
    var returned := Next(Next(s, Crash), RecoverContinuations);
    assert Next(returned, AdoptDone) == returned.(stage := 2);
    hide Next, P.ReturnClaimed, C.CreatingKeys;
  }

  lemma CrashedReturns(s: Sys)
    ensures
      Next(Next(s, Crash), RecoverContinuations) ==
      s.(tasks := map[], owners := map[], claimers := map[], stage := 1,
         commands := P.ReturnClaimed(s.commands, C.CreatingKeys(s.conts)), conts := C.Recover(s.conts))
  {
  }

  lemma ReturnedRows(rows: P.Table, conts: C.Table)
    ensures forall i :: 0 <= i < |rows| ==>
      P.ReturnClaimed(rows, C.CreatingKeys(conts))[i] == if rows[i].status.Claimed? && IsCreating(conts, rows[i].source) then rows[i].(status := P.Pending) else rows[i]
  {
  }

  lemma SecondHalf(s: Sys)
    requires s.stage == 2
    ensures
      var n := Next(Next(s, RecoverLinks), RecoverCommands);
      && n.stage == UP && n.tasks == s.tasks && n.starts == s.starts && n.conts == s.conts && n.links.Keys == s.links.Keys && |n.commands| == |s.commands|
      && (forall i :: 0 <= i < |s.commands| ==>
            n.commands[i] == if s.commands[i].status.Claimed? then s.commands[i].(status := P.Failed, payload := None) else s.commands[i])
      && (forall l :: l in s.links ==> n.links[l] == if s.links[l].state.Running? then s.links[l].(state := L.ReleasePending) else s.links[l])
  {
  }
}
