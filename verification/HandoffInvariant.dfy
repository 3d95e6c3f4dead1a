/** The invariant of the start protocol, and the small state changes that keep it. */
module HandoffInvariant {
  import opened Ids
  import opened Handoff
  import P = PendingCommands
  import C = Continuations
  import L = LinkedThreads

  type Tasks = map<nat, Task>

  /** No continuation of this key can be creating any more: its source is linked for
      the chat, or its own continuation is active. Both are permanent. */
  ghost predicate Settled(conts: C.Table, links: L.Table, key: Key) {
    L.HasLink(links, key.chat, key.thread) || (key in conts && conts[key].status.Active?)
  }

  ghost predicate IsCreating(conts: C.Table, key: Key) {
    key in conts && conts[key].status.Creating?
  }

  /** The row may still lead to a turn start of its prompt. */
  ghost predicate MayStart(rows: P.Table, spent: set<nat>, i: int) {
    0 <= i < |rows| && rows[i].Live() && i !in spent
  }

  ghost predicate DirectMayStart(tasks: Tasks, t: nat) {
    t in tasks && tasks[t].cmd.None? && BeforeStart(tasks[t].pc)
  }

  ghost predicate RowsOk(rows: P.Table, spent: set<nat>, nextPrompt: nat) {
    && 0 < nextPrompt
    && P.PromptKeptWhileLive(rows)
    && (forall i :: 0 <= i < |rows| && rows[i].Live() ==> 0 < PromptOf(rows[i]) < nextPrompt)
    && (forall i :: i in spent ==> i < |rows| && !rows[i].status.Pending?)
  }

  ghost predicate StageOk(stage: nat, tasks: Tasks, claimers: map<nat, nat>) {
    stage <= UP && (stage < UP ==> tasks == map[] && claimers == map[])
  }

  predicate SameSource(a: Key, b: Key) {
    a.chat == b.chat && a.thread == b.thread
  }

  ghost predicate LocksOk(tasks: Tasks) {
    && (forall t, u, x :: t in tasks && u in tasks && x in tasks[t].locks && x in tasks[u].locks ==> t == u)
    && (forall t, u :: t in tasks && u in tasks && tasks[t].linkLock && tasks[u].linkLock && SameSource(tasks[t].key, tasks[u].key) ==> t == u)
  }

  /** The command of a task is claimed for it and unspent until the prompt is handed on. */
  ghost predicate CmdOk(rows: P.Table, claimers: map<nat, nat>, spent: set<nat>, t: nat, task: Task) {
    task.cmd.Some? ==>
      && task.cmd.value < |rows|
      && rows[task.cmd.value].status.Claimed?
      && rows[task.cmd.value].source == task.key
      && task.cmd.value in claimers && claimers[task.cmd.value] == t
      && (BeforeStart(task.pc) || task.pc == Settle(Release) ==> task.cmd.value !in spent)
      && (BeforeStart(task.pc) ==> PromptOf(rows[task.cmd.value]) == task.prompt)
  }

  ghost predicate CmdsOk(rows: P.Table, claimers: map<nat, nat>, spent: set<nat>, tasks: Tasks) {
    && (forall t :: t in tasks ==> CmdOk(rows, claimers, spent, t, tasks[t]))
    && (forall i :: i in claimers ==> claimers[i] in tasks && tasks[claimers[i]].cmd == Some(i))
  }

  /** These steps run on the thread that is also the source of the task. */
  predicate OnSource(pc: Pc) {
    pc == Resume(true) || pc == OnThread(Some(true)) || pc.WantLink? || pc.ReadLink? || pc.NoLink? || pc.WantClaim?
  }

  predicate OnTarget(pc: Pc) {
    pc.Canonical? || pc.Legacy? || pc.Rehomed? || pc.LinkedStart? || pc.Marking? || pc.Failing? || pc == Settle(Leave)
  }

  predicate PcOk(task: Task) {
    && (OnSource(task.pc) ==> task.key.thread == task.thread)
    && (OnSource(task.pc) || task.pc.Route? ==> task.thread in task.locks)
    && (task.pc.ReadLink? || task.pc.NoLink? || CreatingPc(task.pc) ==> task.linkLock)
    && (CreatingPc(task.pc) ==> task.key.thread in task.locks)
    && (task.pc.ForkFailed? ==> task.pc.kind != C.NoFailure)
    && (task.pc.WantClaim? ==> task.cmd.None?)
    && (task.pc.Legacy? ==> task.linkLock)
  }

  ghost predicate PcsOk(tasks: Tasks) {
    forall t :: t in tasks ==> PcOk(tasks[t])
  }

  /** What a task knows about its source. */
  ghost predicate AnchorOk(conts: C.Table, links: L.Table, owners: map<Key, nat>, t: nat, task: Task) {
    && (task.key.Complete() ==> Settled(conts, links, task.key) || task.key.thread in task.locks)
    && (task.pc.NoLink? || CreatingPc(task.pc) ==> !L.HasLink(links, task.key.chat, task.key.thread))
    && (CreatingPc(task.pc) ==> IsCreating(conts, task.key) && task.key in owners && owners[task.key] == t)
    && (OnTarget(task.pc) ==> Settled(conts, links, task.key))
  }

  ghost predicate AnchorsOk(conts: C.Table, links: L.Table, owners: map<Key, nat>, tasks: Tasks) {
    forall t :: t in tasks ==> AnchorOk(conts, links, owners, t, tasks[t])
  }

  ghost predicate OwnerOk(owners: map<Key, nat>, tasks: Tasks, key: Key) {
    key in owners && owners[key] in tasks && tasks[owners[key]].key == key && CreatingPc(tasks[owners[key]].pc)
  }

  ghost predicate CreatingOk(conts: C.Table, links: L.Table, owners: map<Key, nat>, tasks: Tasks, stage: nat) {
    && C.Valid(conts)
    && (forall k :: IsCreating(conts, k) ==> !L.HasLink(links, k.chat, k.thread))
    && (forall k :: IsCreating(conts, k) && stage != 0 ==> OwnerOk(owners, tasks, k))
  }

  predicate Away(c: P.Command) {
    c.Live() && c.source.Complete() && c.thread != c.source.thread
  }

  /** A queued command whose thread is not its source was moved or copied there. */
  ghost predicate HomedOk(rows: P.Table, conts: C.Table, links: L.Table) {
    forall i :: 0 <= i < |rows| && Away(rows[i]) ==> Settled(conts, links, rows[i].source)
  }

  predicate HandedOn(rows: P.Table, spent: set<nat>, i: int) {
    0 <= i < |rows| && i in spent && rows[i].status.Claimed? && rows[i].source.Complete()
  }

  /** A claimed command whose prompt was handed on cannot be returned by recovery. */
  ghost predicate SpentOk(rows: P.Table, conts: C.Table, links: L.Table, spent: set<nat>, claimers: map<nat, nat>, stage: nat) {
    && (forall i :: HandedOn(rows, spent, i) && stage == UP ==> Settled(conts, links, rows[i].source) || i in claimers)
    && (forall i :: HandedOn(rows, spent, i) && stage == 0 ==> !IsCreating(conts, rows[i].source))
  }

  /** Every prompt has at most one place from which it can still be started, and none
      once it was started. */
  ghost predicate OneHolder(rows: P.Table, spent: set<nat>, tasks: Tasks, starts: seq<Id>) {
    && (forall i, j :: MayStart(rows, spent, i) && MayStart(rows, spent, j) && i != j ==> PromptOf(rows[i]) != PromptOf(rows[j]))
    && (forall i :: MayStart(rows, spent, i) ==> PromptOf(rows[i]) !in starts)
    && (forall t :: DirectMayStart(tasks, t) ==> tasks[t].prompt !in starts)
    && (forall t, i :: DirectMayStart(tasks, t) && MayStart(rows, spent, i) ==> PromptOf(rows[i]) != tasks[t].prompt)
    && (forall t, u :: DirectMayStart(tasks, t) && DirectMayStart(tasks, u) && t != u ==> tasks[t].prompt != tasks[u].prompt)
  }

  ghost predicate StartsOk(tasks: Tasks, starts: seq<Id>, nextPrompt: nat) {
    && (forall t :: DirectMayStart(tasks, t) ==> 0 < tasks[t].prompt < nextPrompt)
    && (forall i, j :: 0 <= i < j < |starts| ==> starts[i] != starts[j])
    && (forall i :: 0 <= i < |starts| ==> starts[i] < nextPrompt)
  }

  predicate Reopens(e: ForkEvent, key: Key) {
    e == DefiniteFailure(key) || e == Rearmed(key.chat)
  }

  /** A fork was tried for the key and nothing reopened the key since. */
  predicate Tried(forks: seq<ForkEvent>, key: Key) {
    forks != [] &&
    (var e := forks[|forks| - 1];
     e == Attempt(key) || (!Reopens(e, key) && Tried(forks[..|forks| - 1], key)))
  }

  ghost predicate Spaced(forks: seq<ForkEvent>) {
    forall i, j :: 0 <= i < j < |forks| && forks[i].Attempt? && forks[j] == forks[i] ==>
      exists m :: i < m < j && Reopens(forks[m], forks[i].key)
  }

  ghost predicate TriedOk(conts: C.Table, owners: map<Key, nat>, tasks: Tasks, stage: nat, key: Key) {
    && key in conts
    && match conts[key].status
       case Active => true
       case Failed => conts[key].failure.Ambiguous?
       case Creating => stage == 0 || (key in owners && owners[key] in tasks && !tasks[owners[key]].pc.Creating?)
  }

  ghost predicate ForksOk(forks: seq<ForkEvent>, conts: C.Table, owners: map<Key, nat>, tasks: Tasks, stage: nat) {
    && (forall key :: Tried(forks, key) ==> TriedOk(conts, owners, tasks, stage, key))
    && Spaced(forks)
  }

  ghost predicate Inv(s: Sys) {
    && RowsOk(s.commands, s.spent, s.nextPrompt)
    && StageOk(s.stage, s.tasks, s.claimers)
    && LocksOk(s.tasks)
    && CmdsOk(s.commands, s.claimers, s.spent, s.tasks)
    && PcsOk(s.tasks)
    && AnchorsOk(s.conts, s.links, s.owners, s.tasks)
    && CreatingOk(s.conts, s.links, s.owners, s.tasks, s.stage)
    && HomedOk(s.commands, s.conts, s.links)
    && SpentOk(s.commands, s.conts, s.links, s.spent, s.claimers, s.stage)
    && OneHolder(s.commands, s.spent, s.tasks, s.starts)
    && StartsOk(s.tasks, s.starts, s.nextPrompt)
    && ForksOk(s.forks, s.conts, s.owners, s.tasks, s.stage)
  }

  lemma Push(forks: seq<ForkEvent>, e: ForkEvent)
    requires Spaced(forks)
    requires e.Attempt? ==> !Tried(forks, e.key)
    ensures Spaced(forks + [e])
    ensures forall key :: Tried(forks + [e], key) <==> e == Attempt(key) || (!Reopens(e, key) && Tried(forks, key))
  {
    var next := forks + [e];
    assert next[..|next| - 1] == forks;
    if e.Attempt? {
      forall i | 0 <= i < |forks| && forks[i] == e
        ensures exists m :: i < m < |forks| && Reopens(next[m], e.key)
      {
        NotTriedMeansReopened(forks, i);
        var m :| i < m < |forks| && Reopens(forks[m], forks[i].key);
        assert Reopens(next[m], e.key);
      }
    }
    forall i, j | 0 <= i < j < |next| && next[i].Attempt? && next[j] == next[i]
      ensures exists m :: i < m < j && Reopens(next[m], next[i].key)
    {
      if j < |forks| {
        var m :| i < m < j && Reopens(forks[m], forks[i].key);
        assert Reopens(next[m], next[i].key);
      }
    }
  }

  lemma {:induction false} NotTriedMeansReopened(forks: seq<ForkEvent>, i: nat)
    requires i < |forks| && forks[i].Attempt? && !Tried(forks, forks[i].key)
    ensures exists m :: i < m < |forks| && Reopens(forks[m], forks[i].key)
    decreases |forks|
  {
    var last := |forks| - 1;
    assert i < last;
    if Reopens(forks[last], forks[i].key) {
    } else {
      var front := forks[..last];
      NotTriedMeansReopened(front, i);
      var m :| i < m < |front| && Reopens(front[m], front[i].key);
      assert Reopens(forks[m], forks[i].key);
    }
  }

  // ---- Building blocks: small state changes that keep the invariant ----

  lemma CreatingAfter(conts: C.Table, links: L.Table, owners: map<Key, nat>, tasks: Tasks, stage: nat, t: nat, task: Task)
    requires CreatingOk(conts, links, owners, tasks, stage)
    requires t in tasks && CreatingPc(tasks[t].pc) ==> CreatingPc(task.pc) && task.key == tasks[t].key
    ensures CreatingOk(conts, links, owners, tasks[t := task], stage)
  {
  }

  lemma ForksAfter(forks: seq<ForkEvent>, conts: C.Table, owners: map<Key, nat>, tasks: Tasks, stage: nat, t: nat, task: Task)
    requires ForksOk(forks, conts, owners, tasks, stage)
    requires t in tasks && !tasks[t].pc.Creating? ==> !task.pc.Creating?
    ensures ForksOk(forks, conts, owners, tasks[t := task], stage)
  {
  }

  lemma HolderAfter(rows: P.Table, spent: set<nat>, tasks: Tasks, starts: seq<Id>, nextPrompt: nat, t: nat, task: Task)
    requires OneHolder(rows, spent, tasks, starts) && StartsOk(tasks, starts, nextPrompt)
    requires task.cmd.None? && BeforeStart(task.pc) && !(DirectMayStart(tasks, t) && tasks[t].prompt == task.prompt) ==>
      && 0 < task.prompt < nextPrompt
      && task.prompt !in starts
      && (forall i :: MayStart(rows, spent, i) ==> PromptOf(rows[i]) != task.prompt)
      && (forall u :: DirectMayStart(tasks, u) ==> tasks[u].prompt != task.prompt)
    ensures OneHolder(rows, spent, tasks[t := task], starts) && StartsOk(tasks[t := task], starts, nextPrompt)
  {
  }

  lemma CmdsAfterMove(rows: P.Table, claimers: map<nat, nat>, spent: set<nat>, tasks: Tasks, t: nat, task: Task)
    requires CmdsOk(rows, claimers, spent, tasks)
    requires t in tasks && tasks[t].cmd == task.cmd
    requires CmdOk(rows, claimers, spent, t, task)
    ensures CmdsOk(rows, claimers, spent, tasks[t := task])
  {
  }

  /** Replaces a task that keeps its command, key and prompt. */
  lemma Move(s: Sys, t: nat, task: Task)
    requires Inv(s) && At(s, t)
    requires var was := s.tasks[t]; task.cmd == was.cmd && task.key == was.key && task.prompt == was.prompt
    requires BeforeStart(task.pc) ==> BeforeStart(s.tasks[t].pc)
    requires CreatingPc(s.tasks[t].pc) ==> CreatingPc(task.pc)
    requires task.pc.Creating? ==> s.tasks[t].pc.Creating?
    requires CmdOk(s.commands, s.claimers, s.spent, t, task)
    requires AnchorOk(s.conts, s.links, s.owners, t, task)
    requires PcOk(task)
    requires LocksOk(s.tasks[t := task])
    ensures Inv(s.(tasks := s.tasks[t := task]))
  {
    CmdsAfterMove(s.commands, s.claimers, s.spent, s.tasks, t, task);
    HolderAfter(s.commands, s.spent, s.tasks, s.starts, s.nextPrompt, t, task);
    CreatingAfter(s.conts, s.links, s.owners, s.tasks, s.stage, t, task);
    ForksAfter(s.forks, s.conts, s.owners, s.tasks, s.stage, t, task);
  }

  ghost predicate Knows(s: Sys, t: nat, task: Task) {
    CmdOk(s.commands, s.claimers, s.spent, t, task) && AnchorOk(s.conts, s.links, s.owners, t, task) && PcOk(task)
  }

  /** What is known about the task that is about to move. */
  lemma TaskFacts(s: Sys, t: nat)
    requires Inv(s) && At(s, t)
    ensures Knows(s, t, s.tasks[t])
  {
  }

  lemma MoveSameLocks(s: Sys, t: nat, pc: Pc)
    requires Inv(s) && At(s, t)
    requires BeforeStart(pc) ==> BeforeStart(s.tasks[t].pc)
    requires CreatingPc(s.tasks[t].pc) ==> CreatingPc(pc)
    requires pc.Creating? ==> s.tasks[t].pc.Creating?
    requires Knows(s, t, s.tasks[t].(pc := pc))
    ensures Inv(Goto(s, t, pc))
  {
    assert LocksOk(s.tasks[t := s.tasks[t].(pc := pc)]);
    Move(s, t, s.tasks[t].(pc := pc));
  }

  lemma HolderAfterSpend(rows: P.Table, spent: set<nat>, tasks: Tasks, starts: seq<Id>, i: nat)
    requires OneHolder(rows, spent, tasks, starts)
    ensures OneHolder(rows, spent + {i}, tasks, starts)
  {
  }

  /** The prompt of a row was handed on. */
  lemma SpendRow(s: Sys, t: nat)
    requires Inv(s) && At(s, t) && s.tasks[t].cmd.Some?
    requires !BeforeStart(s.tasks[t].pc) && s.tasks[t].pc != Settle(Release)
    ensures Inv(Spend(s, t))
  {
    var i := s.tasks[t].cmd.value;
    TaskFacts(s, t);
    HolderAfterSpend(s.commands, s.spent, s.tasks, s.starts, i);
    SpentAfterSpend(s.commands, s.conts, s.links, s.spent, s.claimers, i);
    CmdsAfterSpend(s.commands, s.claimers, s.spent, s.tasks, t, i);
  }

  lemma SpentAfterSpend(rows: P.Table, conts: C.Table, links: L.Table, spent: set<nat>, claimers: map<nat, nat>, i: nat)
    requires SpentOk(rows, conts, links, spent, claimers, UP) && i in claimers
    ensures SpentOk(rows, conts, links, spent + {i}, claimers, UP)
  {
  }

  lemma CmdsAfterSpend(rows: P.Table, claimers: map<nat, nat>, spent: set<nat>, tasks: Tasks, t: nat, i: nat)
    requires CmdsOk(rows, claimers, spent, tasks) && t in tasks && tasks[t].cmd == Some(i)
    requires !BeforeStart(tasks[t].pc) && tasks[t].pc != Settle(Release)
    ensures CmdsOk(rows, claimers, spent + {i}, tasks)
  {
  }

  /** Nothing can start this prompt any more, and it was never started. */
  ghost predicate Unheld(s: Sys, prompt: Id) {
    && 0 < prompt < s.nextPrompt
    && prompt !in s.starts
    && (forall i :: MayStart(s.commands, s.spent, i) ==> PromptOf(s.commands[i]) != prompt)
    && (forall t :: DirectMayStart(s.tasks, t) ==> s.tasks[t].prompt != prompt)
  }

  lemma LogStart(s: Sys, prompt: Id)
    requires Inv(s) && Unheld(s, prompt)
    ensures Inv(s.(starts := s.starts + [prompt]))
  {
  }

  lemma MorePrompts(s: Sys)
    requires Inv(s)
    ensures Inv(s.(nextPrompt := s.nextPrompt + 1)) && Unheld(s.(nextPrompt := s.nextPrompt + 1), s.nextPrompt)
  {
  }

  lemma SpentAfterAppend(rows: P.Table, row: P.Command, conts: C.Table, links: L.Table, spent: set<nat>, claimers: map<nat, nat>, stage: nat)
    requires SpentOk(rows, conts, links, spent, claimers, stage) && HomedOk(rows, conts, links)
    requires row.status.Pending? && (Away(row) ==> Settled(conts, links, row.source))
    ensures SpentOk(rows + [row], conts, links, spent, claimers, stage) && HomedOk(rows + [row], conts, links)
  {
  }

  lemma CmdsAfterAppend(rows: P.Table, row: P.Command, claimers: map<nat, nat>, spent: set<nat>, tasks: Tasks)
    requires CmdsOk(rows, claimers, spent, tasks)
    ensures CmdsOk(rows + [row], claimers, spent, tasks)
  {
  }

  lemma AppendRow(s: Sys, thread: Id, key: Key, project: Id, prompt: Id)
    requires Inv(s) && Unheld(s, prompt)
    requires key.Complete() && thread != key.thread ==> Settled(s.conts, s.links, key)
    ensures Inv(s.(commands := P.Enqueue(s.commands, thread, key, project, prompt)))
  {
    var rows := P.Enqueue(s.commands, thread, key, project, prompt);
    if rows != s.commands {
      var row := P.Command(thread, key, project, Some(P.Sealed(prompt)), P.Pending);
      HolderAfterAppend(s, rows, prompt);
      SpentAfterAppend(s.commands, row, s.conts, s.links, s.spent, s.claimers, s.stage);
      CmdsAfterAppend(s.commands, row, s.claimers, s.spent, s.tasks);
    }
  }

  lemma HolderAfterAppend(s: Sys, rows: P.Table, prompt: Id)
    requires OneHolder(s.commands, s.spent, s.tasks, s.starts) && Unheld(s, prompt)
    requires |rows| == |s.commands| + 1 && rows[..|s.commands|] == s.commands && PromptOf(rows[|s.commands|]) == prompt
    ensures OneHolder(rows, s.spent, s.tasks, s.starts)
  {
  }

  /** Only columns outside chat and source of linked rows change. */
  ghost predicate SameLinks(a: L.Table, b: L.Table) {
    && a.Keys == b.Keys
    && (forall l :: l in a ==> a[l].chat == b[l].chat && a[l].source == b[l].source)
  }

  lemma Relink(s: Sys, links: L.Table)
    requires Inv(s) && SameLinks(s.links, links)
    ensures Inv(s.(links := links))
  {
  }

  /** Rows change, but no prompt and no source does. */
  ghost predicate SameRows(rows: P.Table, next: P.Table) {
    && |rows| == |next|
    && (forall i :: 0 <= i < |rows| ==>
          rows[i].Live() == next[i].Live() && rows[i].payload == next[i].payload && rows[i].source == next[i].source)
  }

  lemma HolderAfterRows(rows: P.Table, next: P.Table, spent: set<nat>, tasks: Tasks, starts: seq<Id>)
    requires OneHolder(rows, spent, tasks, starts) && SameRows(rows, next)
    ensures OneHolder(next, spent, tasks, starts)
  {
  }

  lemma CmdsAfterRows(rows: P.Table, next: P.Table, spent: set<nat>, tasks: Tasks, claimers: map<nat, nat>, nextPrompt: nat)
    requires CmdsOk(rows, claimers, spent, tasks) && RowsOk(rows, spent, nextPrompt) && SameRows(rows, next)
    requires forall i :: 0 <= i < |rows| && rows[i].status.Claimed? ==> next[i].status.Claimed?
    requires forall i :: i in spent ==> i < |next| && !next[i].status.Pending?
    ensures CmdsOk(next, claimers, spent, tasks) && RowsOk(next, spent, nextPrompt)
  {
  }

  /** A change of rows that hands no spent row over and homes no row without reason. */
  lemma RowsKeep(s: Sys, next: P.Table)
    requires Inv(s) && SameRows(s.commands, next)
    requires forall i :: 0 <= i < |next| && s.commands[i].status.Claimed? ==> next[i].status.Claimed?
    requires forall i :: i in s.spent ==> i < |next| && next[i].status == s.commands[i].status
    requires forall i :: 0 <= i < |next| && Away(next[i]) ==> Settled(s.conts, s.links, next[i].source)
    ensures Inv(s.(commands := next))
  {
    HolderAfterRows(s.commands, next, s.spent, s.tasks, s.starts);
    CmdsAfterRows(s.commands, next, s.spent, s.tasks, s.claimers, s.nextPrompt);
    assert forall j :: HandedOn(next, s.spent, j) == HandedOn(s.commands, s.spent, j);
  }

  lemma ClaimRow(s: Sys, i: nat)
    requires Inv(s) && i < |s.commands| && s.commands[i].status.Pending?
    ensures Inv(s.(commands := P.Claim(s.commands, Some(i)))) && i !in s.claimers && i !in s.spent
  {
    var rows := P.Claim(s.commands, Some(i));
    assert i in s.claimers ==> CmdOk(s.commands, s.claimers, s.spent, s.claimers[i], s.tasks[s.claimers[i]]);
    assert forall j :: 0 <= j < |rows| ==> Away(rows[j]) == Away(s.commands[j]);
    RowsKeep(s, rows);
  }

  lemma CmdsAfterClaim(rows: P.Table, claimers: map<nat, nat>, spent: set<nat>, tasks: Tasks, t: nat, task: Task, next: map<nat, nat>)
    requires CmdsOk(rows, claimers, spent, tasks)
    requires t in tasks ==> tasks[t].cmd.None?
    requires if task.cmd.Some? then task.cmd.value !in claimers && next == claimers[task.cmd.value := t] else next == claimers
    requires CmdOk(rows, next, spent, t, task)
    ensures CmdsOk(rows, next, spent, tasks[t := task])
  {
  }

  /** A new task, or a task that did not hold a prompt before. */
  lemma PutTask(s: Sys, t: nat, task: Task, claimers: map<nat, nat>)
    requires Inv(s) && s.stage == UP
    requires t in s.tasks ==> s.tasks[t].cmd.None? && s.tasks[t].pc.WantClaim?
    requires task.cmd.Some? ==> task.cmd.value !in s.claimers && claimers == s.claimers[task.cmd.value := t]
    requires task.cmd.None? ==> claimers == s.claimers && (BeforeStart(task.pc) ==> Unheld(s, task.prompt))
    requires !CreatingPc(task.pc)
    requires CmdOk(s.commands, claimers, s.spent, t, task)
    requires AnchorOk(s.conts, s.links, s.owners, t, task)
    requires PcOk(task)
    requires LocksOk(s.tasks[t := task])
    ensures Inv(s.(tasks := s.tasks[t := task], claimers := claimers))
  {
    HolderAfter(s.commands, s.spent, s.tasks, s.starts, s.nextPrompt, t, task);
    CreatingAfter(s.conts, s.links, s.owners, s.tasks, s.stage, t, task);
    ForksAfter(s.forks, s.conts, s.owners, s.tasks, s.stage, t, task);
    CmdsAfterClaim(s.commands, s.claimers, s.spent, s.tasks, t, task, claimers);
  }

  lemma RehomeRows(s: Sys, key: Key, child: Id)
    requires Inv(s) && Settled(s.conts, s.links, key)
    ensures Inv(s.(commands := P.Rehome(s.commands, key, child)))
  {
    var rows := P.Rehome(s.commands, key, child);
    assert forall i :: 0 <= i < |rows| && Away(rows[i]) ==> Away(s.commands[i]) || s.commands[i].source == key;
    RowsKeep(s, rows);
  }

  lemma LogAttempt(s: Sys, t: nat)
    requires Inv(s) && At(s, t) && CreatingPc(s.tasks[t].pc) && !s.tasks[t].pc.Creating? && !Tried(s.forks, s.tasks[t].key)
    ensures Inv(s.(forks := s.forks + [Attempt(s.tasks[t].key)]))
  {
    Push(s.forks, Attempt(s.tasks[t].key));
    assert AnchorOk(s.conts, s.links, s.owners, t, s.tasks[t]);
    assert ForksOk(s.forks + [Attempt(s.tasks[t].key)], s.conts, s.owners, s.tasks, s.stage);
  }
}
