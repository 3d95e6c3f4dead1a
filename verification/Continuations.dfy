/** Continuation rows: one fork of a source turn per chat (table minimal_thread_continuations). */
module Continuations {
  import opened Ids

  datatype Status = Creating | Active | Failed
  datatype Failure = NoFailure | Definite | Ambiguous

  datatype Row = Row(project: Id, fork: Id, status: Status, failure: Failure)

  type Table = map<Key, Row>

  /** ClaimMinimalContinuation: `created` tells the caller that it may fork. */
  predicate Claimable(rows: Table, key: Key, project: Id) {
    && key.Complete()
    && project != NONE
    && (key !in rows || (rows[key].status.Failed? && rows[key].failure.Definite? && rows[key].fork == NONE))
  }

  function Claim(rows: Table, key: Key, project: Id): Table {
    if !Claimable(rows, key, project) then rows
    else if key in rows then rows[key := rows[key].(status := Creating, failure := NoFailure)]
    else rows[key := Row(project, NONE, Creating, NoFailure)]
  }

  /** The unique index on non-empty fork ids. */
  predicate ForkFree(rows: Table, key: Key, child: Id) {
    forall k :: k in rows && k != key ==> rows[k].fork != child
  }

  /** The provenance upsert of ActivateMinimalLinkedThread. */
  predicate CanActivate(rows: Table, key: Key, project: Id, child: Id) {
    && key.Complete()
    && project != NONE
    && child != NONE
    && ForkFree(rows, key, child)
    && (key in rows ==> !rows[key].status.Failed? && (rows[key].fork == NONE || rows[key].fork == child))
  }

  function Activate(rows: Table, key: Key, project: Id, child: Id): Table {
    if !CanActivate(rows, key, project, child) then rows
    else if key in rows then rows[key := rows[key].(fork := child, status := Active, failure := NoFailure)]
    else rows[key := Row(project, child, Active, NoFailure)]
  }

  /** FailMinimalContinuation; any other failure kind is refused. */
  function Fail(rows: Table, key: Key, kind: Failure): Table {
    if kind.NoFailure? || key !in rows || !rows[key].status.Creating? then rows
    else rows[key := rows[key].(status := Failed, failure := kind)]
  }

  function CreatingKeys(rows: Table): (keys: set<Key>)
    ensures forall k :: k in keys <==> k in rows && rows[k].status.Creating?
  {
    set k | k in rows && rows[k].status.Creating?
  }

  /** The second half of RecoverCreatingMinimalContinuations. */
  function Recover(rows: Table): Table {
    map k | k in rows :: if rows[k].status.Creating? then rows[k].(status := Failed, failure := Ambiguous) else rows[k]
  }

  /** RearmAmbiguousMinimalContinuations, the explicit /repair of a chat. */
  function Rearm(rows: Table, chat: Chat): Table {
    map k | k in rows ::
      if k.chat == chat && rows[k].status.Failed? && rows[k].failure.Ambiguous? then rows[k].(failure := Definite) else rows[k]
  }

  /** A fork id is stored exactly while the row is active, and is used by one row. */
  ghost predicate Valid(rows: Table) {
    && (forall k :: k in rows ==> k.Complete() && (rows[k].fork != NONE <==> rows[k].status.Active?))
    && (forall k :: k in rows ==> (rows[k].failure != NoFailure <==> rows[k].status.Failed?))
    && (forall k, l :: k in rows && l in rows && rows[k].fork != NONE && rows[k].fork == rows[l].fork ==> k == l)
  }

  datatype Op =
    | ClaimOp(key: Key, project: Id)
    | ActivateOp(key: Key, project: Id, child: Id)
    | FailOp(key: Key, kind: Failure)
    | RecoverOp
    | RearmOp(chat: Chat)

  function Step(rows: Table, op: Op): Table {
    match op
    case ClaimOp(key, project) => Claim(rows, key, project)
    case ActivateOp(key, project, child) => Activate(rows, key, project, child)
    case FailOp(key, kind) => Fail(rows, key, kind)
    case RecoverOp => Recover(rows)
    case RearmOp(chat) => Rearm(rows, chat)
  }

  function Run(rows: Table, ops: seq<Op>): Table
    decreases |ops|
  {
    if ops == [] then rows else Run(Step(rows, ops[0]), ops[1..])
  }

  lemma StepKeepsValid(rows: Table, op: Op)
    requires Valid(rows)
    ensures Valid(Step(rows, op))
  {
  }

  /** An active continuation stays active with the same child over every run, so it
      can never be claimed for another fork. */
  lemma {:induction false} ActiveIsAbsorbing(rows: Table, ops: seq<Op>, key: Key)
    requires Valid(rows) && key in rows && rows[key].status.Active?
    ensures Valid(Run(rows, ops))
    ensures key in Run(rows, ops) && Run(rows, ops)[key] == rows[key]
    ensures forall project :: !Claimable(Run(rows, ops), key, project)
    decreases |ops|
  {
    if ops != [] {
      StepKeepsValid(rows, ops[0]);
      ActiveIsAbsorbing(Step(rows, ops[0]), ops[1..], key);
    }
  }

  /** Whether a run contains one of the two events that may reopen a key. */
  predicate Reopens(op: Op, key: Key) {
    op == FailOp(key, Definite) || op == RearmOp(key.chat)
  }

  /** A key that cannot be claimed becomes claimable again only after a definite
      failure of that key or an explicit repair of its chat. */
  lemma {:induction false} ClosedUntilReopened(rows: Table, ops: seq<Op>, key: Key)
    requires Valid(rows) && key in rows && !(rows[key].status.Failed? && rows[key].failure.Definite?)
    requires forall i :: 0 <= i < |ops| ==> !Reopens(ops[i], key)
    ensures forall project :: !Claimable(Run(rows, ops), key, project)
    decreases |ops|
  {
    if ops != [] {
      StepKeepsValid(rows, ops[0]);
      assert !Reopens(ops[0], key);
      assert forall i :: 0 <= i < |ops[1..]| ==> ops[1..][i] == ops[i + 1];
      ClosedUntilReopened(Step(rows, ops[0]), ops[1..], key);
    }
  }
}
