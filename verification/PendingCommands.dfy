/** The durable queue of prompts that wait for a thread (table pending_commands). */
module PendingCommands {
  import opened Ids

  datatype Status = Pending | Claimed | Completed | Failed

  /** A prompt as the protector stored it. */
  datatype Sealed = Sealed(plain: Id)

  datatype Command = Command(thread: Id, source: Key, project: Id, payload: Option<Sealed>, status: Status) {
    predicate Live() {
      status.Pending? || status.Claimed?
    }

    predicate Finished() {
      status.Completed? || status.Failed?
    }
  }

  /** Row ids grow with every insert and rows are never deleted, so a table is a
      sequence and a row id is an index. */
  type Table = seq<Command>

  /** The least index from `from` on whose row satisfies `wanted`: ORDER BY id LIMIT 1. */
  function FirstFrom(rows: Table, wanted: Command -> bool, from: nat): (found: Option<nat>)
    requires from <= |rows|
    ensures found.Some? ==> from <= found.value < |rows| && wanted(rows[found.value])
    ensures found.Some? ==> forall i :: from <= i < found.value ==> !wanted(rows[i])
    ensures found.None? ==> forall i :: from <= i < |rows| ==> !wanted(rows[i])
    decreases |rows| - from
  {
    if from == |rows| then None
    else if wanted(rows[from]) then Some(from)
    else FirstFrom(rows, wanted, from + 1)
  }

  /** Anything else is refused with an error. */
  predicate Storable(thread: Id, project: Id, prompt: Id) {
    thread != NONE && project != NONE && prompt != NONE
  }

  function Enqueue(rows: Table, thread: Id, source: Key, project: Id, prompt: Id): Table {
    if Storable(thread, project, prompt) then rows + [Command(thread, source, project, Some(Sealed(prompt)), Pending)] else rows
  }

  /** The row ClaimPendingCommand would claim: the oldest pending one, unless the
      thread already has a claimed one. */
  function ThreadCandidate(rows: Table, thread: Id): Option<nat> {
    if FirstFrom(rows, (c: Command) => c.thread == thread && c.status.Claimed?, 0).Some? then None
    else FirstFrom(rows, (c: Command) => c.thread == thread && c.status.Pending?, 0)
  }

  function SourceCandidate(rows: Table, source: Key): Option<nat> {
    if FirstFrom(rows, (c: Command) => c.source == source && c.status.Claimed?, 0).Some? then None
    else FirstFrom(rows, (c: Command) => c.source == source && c.status.Pending?, 0)
  }

  function Claim(rows: Table, candidate: Option<nat>): (next: Table)
    requires candidate.Some? ==> candidate.value < |rows|
    ensures |next| == |rows|
  {
    if candidate.None? then rows
    else rows[candidate.value := rows[candidate.value].(status := Claimed)]
  }

  /** The guarded single-row updates: only a claimed row moves. */
  function Release(rows: Table, id: nat): (next: Table)
    ensures |next| == |rows|
  {
    if id < |rows| && rows[id].status.Claimed? then rows[id := rows[id].(status := Pending)] else rows
  }

  function Finalize(rows: Table, id: nat, status: Status): (next: Table)
    ensures |next| == |rows|
  {
    if id < |rows| && rows[id].status.Claimed? then rows[id := rows[id].(status := status, payload := None)] else rows
  }

  function FinalizeIfClaimed(c: Command): Command {
    if c.status.Claimed? then c.(status := Failed, payload := None) else c
  }

  /** RecoverClaimedPendingCommands. */
  function RecoverClaimed(rows: Table): (next: Table)
    ensures |next| == |rows|
  {
    seq(|rows|, i requires 0 <= i < |rows| => FinalizeIfClaimed(rows[i]))
  }

  /** RehomePendingCommandsForSource, also part of both activations. */
  function Rehome(rows: Table, source: Key, thread: Id): (next: Table)
    ensures |next| == |rows|
  {
    seq(|rows|, i requires 0 <= i < |rows| =>
      if rows[i].source == source && rows[i].Live() then rows[i].(thread := thread) else rows[i])
  }

  /** The first half of RecoverCreatingMinimalContinuations: claimed commands of an
      interrupted continuation go back to pending. */
  function ReturnClaimed(rows: Table, creating: set<Key>): (next: Table)
    ensures |next| == |rows|
  {
    seq(|rows|, i requires 0 <= i < |rows| =>
      if rows[i].status.Claimed? && rows[i].source in creating then rows[i].(status := Pending) else rows[i])
  }

  // ---- Runs of thread-keyed operations ----

  datatype QueueOp =
    | EnqueueOp(thread: Id, source: Key, project: Id, prompt: Id)
    | ClaimOp(thread: Id)
    | ReleaseOp(id: nat)
    | CompleteOp(id: nat)
    | FailOp(id: nat)
    | RecoverOp

  function Step(rows: Table, op: QueueOp): Table {
    match op
    case EnqueueOp(thread, source, project, prompt) => Enqueue(rows, thread, source, project, prompt)
    case ClaimOp(thread) => Claim(rows, ThreadCandidate(rows, thread))
    case ReleaseOp(id) => Release(rows, id)
    case CompleteOp(id) => Finalize(rows, id, Completed)
    case FailOp(id) => Finalize(rows, id, Failed)
    case RecoverOp => RecoverClaimed(rows)
  }

  function Run(rows: Table, ops: seq<QueueOp>): Table
    decreases |ops|
  {
    if ops == [] then rows else Run(Step(rows, ops[0]), ops[1..])
  }

  /** Once a row of a thread has left pending, every older row of that thread is finished. */
  ghost predicate Fifo(rows: Table) {
    forall i, j :: 0 <= i < j < |rows| && rows[i].thread == rows[j].thread && !rows[j].status.Pending? ==> rows[i].Finished()
  }

  ghost predicate PromptKeptWhileLive(rows: Table) {
    forall i :: 0 <= i < |rows| ==> (rows[i].payload.Some? <==> rows[i].Live())
  }

  /** A later table still holds every row of an earlier one, with its thread and,
      while it has any, its own prompt. */
  ghost predicate Extends(rows: Table, next: Table) {
    && |rows| <= |next|
    && forall i :: 0 <= i < |rows| ==>
        && next[i].thread == rows[i].thread
        && next[i].source == rows[i].source
        && (next[i].payload.Some? ==> next[i].payload == rows[i].payload)
        && (rows[i].Finished() ==> next[i] == rows[i])
  }

  lemma StepKeeps(rows: Table, op: QueueOp)
    requires Fifo(rows) && PromptKeptWhileLive(rows)
    ensures Fifo(Step(rows, op)) && PromptKeptWhileLive(Step(rows, op)) && Extends(rows, Step(rows, op))
  {
  }

  lemma {:induction false} RunKeeps(rows: Table, ops: seq<QueueOp>)
    requires Fifo(rows) && PromptKeptWhileLive(rows)
    ensures Fifo(Run(rows, ops)) && PromptKeptWhileLive(Run(rows, ops)) && Extends(rows, Run(rows, ops))
    decreases |ops|
  {
    if ops != [] {
      StepKeeps(rows, ops[0]);
      RunKeeps(Step(rows, ops[0]), ops[1..]);
    }
  }

  /** Over every run: at most one claimed command per thread, the finished commands
      of a thread are a prefix of its enqueue order, and a prompt is stored exactly
      while its command is pending or claimed. */
  lemma FifoOverEveryRun(ops: seq<QueueOp>)
    ensures
      var rows := Run([], ops);
      && (forall i, j ::
            0 <= i < j < |rows| && rows[i].thread == rows[j].thread ==> !(rows[i].status.Claimed? && rows[j].status.Claimed?))
      && (forall i, j :: 0 <= i < j < |rows| && rows[i].thread == rows[j].thread && rows[j].Finished() ==> rows[i].Finished())
      && (forall i :: 0 <= i < |rows| ==> (rows[i].payload.Some? <==> rows[i].Live()))
  {
    RunKeeps([], ops);
  }

  /** In a reachable table a thread claim succeeds exactly when nothing of the thread
      is claimed and something is pending, and then it takes the oldest unfinished
      command together with the prompt that was enqueued with it. */
  lemma ClaimTakesOldestUnfinished(before: seq<QueueOp>, thread: Id)
    ensures
      var rows := Run([], before);
      var got := ThreadCandidate(rows, thread);
      && (got.Some? <==>
            && (forall i :: 0 <= i < |rows| && rows[i].thread == thread ==> !rows[i].status.Claimed?)
            && (exists i :: 0 <= i < |rows| && rows[i].thread == thread && rows[i].status.Pending?))
      && (got.Some? ==>
            && rows[got.value].payload.Some?
            && (forall i :: 0 <= i < |rows| && rows[i].thread == thread && rows[i].Live() ==> got.value <= i))
  {
    RunKeeps([], before);
  }
}
