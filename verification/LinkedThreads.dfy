/** Linked threads and the worker generation that fences them (table minimal_linked_threads). */
module LinkedThreads {
  import opened Ids

  datatype State = Ready | Running | ReleasePending | Failed

  datatype Row = Row(chat: Chat, project: Id, source: Id, anchor: Id, titleSet: bool, state: State, turn: Id, generation: nat)

  /** Keyed by linked thread id, which is unique; (chat, source) is the primary key. */
  type Table = map<Id, Row>

  const MAX_GENERATION: nat := 0x7fff_ffff_ffff_ffff

  predicate HasLink(rows: Table, chat: Chat, source: Id) {
    exists l :: l in rows && rows[l].chat == chat && rows[l].source == source
  }

  /** The insert of ActivateMinimalLinkedThread. */
  predicate CanInsert(rows: Table, linked: Id, chat: Chat, source: Id) {
    linked != NONE && linked !in rows && !HasLink(rows, chat, source)
  }

  function Insert(rows: Table, linked: Id, row: Row): Table {
    if CanInsert(rows, linked, row.chat, row.source) && row.generation <= MAX_GENERATION then rows[linked := row] else rows
  }

  predicate CanClaim(rows: Table, linked: Id, generation: nat) {
    && 0 < generation <= MAX_GENERATION
    && linked in rows
    && rows[linked].state.Ready?
    && rows[linked].generation < generation
  }

  function Claim(rows: Table, linked: Id, generation: nat): Table {
    if CanClaim(rows, linked, generation)
    then rows[linked := rows[linked].(state := Running, turn := NONE, generation := generation)]
    else rows
  }

  predicate Owns(rows: Table, linked: Id, generation: nat, state: State) {
    linked in rows && rows[linked].generation == generation && rows[linked].state == state
  }

  predicate CanMark(rows: Table, linked: Id, generation: nat, turn: Id) {
    turn != NONE && Owns(rows, linked, generation, Running) && rows[linked].turn == NONE
  }

  function MarkTurn(rows: Table, linked: Id, generation: nat, turn: Id): Table {
    if CanMark(rows, linked, generation, turn) then rows[linked := rows[linked].(turn := turn)] else rows
  }

  function MarkTitle(rows: Table, linked: Id, generation: nat): Table {
    if Owns(rows, linked, generation, Running) then rows[linked := rows[linked].(titleSet := true)] else rows
  }

  function BeginRelease(rows: Table, linked: Id, generation: nat, turn: Id): Table {
    if generation != 0 && turn != NONE && Owns(rows, linked, generation, Running) && rows[linked].turn == turn
    then rows[linked := rows[linked].(state := ReleasePending)]
    else rows
  }

  function FinishRelease(rows: Table, linked: Id, generation: nat): Table {
    if Owns(rows, linked, generation, ReleasePending)
    then rows[linked := rows[linked].(state := Ready, turn := NONE)]
    else rows
  }

  /** FinishMinimalLinkedReleaseWithReadyDelivery: the finish the daemon calls also
      resets the generation of the row. */
  predicate CanFinishAndClear(rows: Table, linked: Id, generation: nat, turn: Id) {
    turn != NONE && Owns(rows, linked, generation, ReleasePending) && rows[linked].turn == turn
  }

  function FinishAndClear(rows: Table, linked: Id, generation: nat, turn: Id): Table {
    if CanFinishAndClear(rows, linked, generation, turn)
    then rows[linked := rows[linked].(state := Ready, turn := NONE, generation := 0)]
    else rows
  }

  function Fail(rows: Table, linked: Id, generation: nat): Table {
    if Owns(rows, linked, generation, Running) || Owns(rows, linked, generation, ReleasePending)
    then rows[linked := rows[linked].(state := Failed, turn := NONE)]
    else rows
  }

  /** RecoverMinimalLinkedWorkers at startup. */
  function Recover(rows: Table): Table {
    map l | l in rows :: if rows[l].state.Running? then rows[l].(state := ReleasePending) else rows[l]
  }

  datatype Op =
    | ActivateOp(linked: Id, chat: Chat, project: Id, source: Id, anchor: Id, generation: nat)
    | AdoptOp(linked: Id, chat: Chat, project: Id, source: Id, anchor: Id)
    | ClaimOp(linked: Id, generation: nat)
    | MarkTurnOp(linked: Id, generation: nat, turn: Id)
    | MarkTitleOp(linked: Id, generation: nat)
    | BeginOp(linked: Id, generation: nat, turn: Id)
    | FinishOp(linked: Id, generation: nat)
    | FinishAndClearOp(linked: Id, generation: nat, turn: Id)
    | FailOp(linked: Id, generation: nat)
    | RecoverOp

  function Step(rows: Table, op: Op): Table {
    match op
    case ActivateOp(l, chat, project, source, anchor, g) => Insert(rows, l, Row(chat, project, source, anchor, false, Running, NONE, g))
    case AdoptOp(l, chat, project, source, anchor) => Insert(rows, l, Row(chat, project, source, anchor, false, Ready, NONE, 0))
    case ClaimOp(l, g) => Claim(rows, l, g)
    case MarkTurnOp(l, g, turn) => MarkTurn(rows, l, g, turn)
    case MarkTitleOp(l, g) => MarkTitle(rows, l, g)
    case BeginOp(l, g, turn) => BeginRelease(rows, l, g, turn)
    case FinishOp(l, g) => FinishRelease(rows, l, g)
    case FinishAndClearOp(l, g, turn) => FinishAndClear(rows, l, g, turn)
    case FailOp(l, g) => Fail(rows, l, g)
    case RecoverOp => Recover(rows)
  }

  /** The rows together with every turn ever recorded and every generation ever
      handed to a row by an activation or a claim. */
  datatype Mark = Mark(linked: Id, generation: nat, turn: Id)
  datatype History = History(rows: Table, marks: set<Mark>, used: set<(Id, nat)>)

  const START := History(map[], {}, {})

  predicate TakesOwnership(rows: Table, op: Op) {
    (op.ActivateOp? && Step(rows, op) != rows) || (op.ClaimOp? && CanClaim(rows, op.linked, op.generation))
  }

  function Next(h: History, op: Op): History {
    History(
      Step(h.rows, op),
      if op.MarkTurnOp? && CanMark(h.rows, op.linked, op.generation, op.turn) then h.marks + {Mark(op.linked, op.generation, op.turn)} else h.marks,
      if TakesOwnership(h.rows, op) then h.used + {(op.linked, op.generation)} else h.used)
  }

  function Run(h: History, ops: seq<Op>): History
    decreases |ops|
  {
    if ops == [] then h else Run(Next(h, ops[0]), ops[1..])
  }

  /** Every ownership taken during the run uses a generation that its row never had
      before, as the counter of one worker manager guarantees. */
  predicate FreshGenerations(h: History, ops: seq<Op>)
    decreases |ops|
  {
    ops == [] ||
    (&& (TakesOwnership(h.rows, ops[0]) ==> (ops[0].linked, ops[0].generation) !in h.used)
     && FreshGenerations(Next(h, ops[0]), ops[1..]))
  }

  ghost predicate OneTurnPerGeneration(marks: set<Mark>) {
    forall a, b :: a in marks && b in marks && a.linked == b.linked && a.generation == b.generation ==> a.turn == b.turn
  }

  /** A resting row has no turn, and (chat, source) is a key. */
  ghost predicate Valid(rows: Table) {
    && (forall l :: l in rows && (rows[l].state.Ready? || rows[l].state.Failed?) ==> rows[l].turn == NONE)
    && (forall l, k :: l in rows && k in rows && rows[l].chat == rows[k].chat && rows[l].source == rows[k].source ==> l == k)
  }

  ghost predicate Logged(h: History) {
    && (forall u :: u in h.used ==> u.0 in h.rows)
    && (forall m :: m in h.marks ==> (m.linked, m.generation) in h.used)
    && (forall l :: l in h.rows && h.rows[l].state.Running? ==> (l, h.rows[l].generation) in h.used)
  }

  ghost predicate Inv(h: History) {
    Valid(h.rows) && Logged(h)
  }

  predicate Unmarked(row: Row) {
    row.state.Running? && row.turn == NONE
  }

  ghost predicate Fenced(h: History) {
    && OneTurnPerGeneration(h.marks)
    && (forall l, m :: l in h.rows && m in h.marks && m.linked == l && m.generation == h.rows[l].generation ==> !Unmarked(h.rows[l]))
  }

  lemma StepKeepsValid(rows: Table, op: Op)
    requires Valid(rows)
    ensures Valid(Step(rows, op))
  {
  }

  lemma NextKeepsLogged(h: History, op: Op)
    requires Logged(h)
    ensures Logged(Next(h, op))
  {
  }

  lemma NextKeepsInv(h: History, op: Op)
    requires Inv(h)
    ensures Inv(Next(h, op))
  {
    StepKeepsValid(h.rows, op);
    NextKeepsLogged(h, op);
  }

  lemma NextKeepsFenced(h: History, op: Op)
    requires Inv(h) && Fenced(h)
    requires TakesOwnership(h.rows, op) ==> (op.linked, op.generation) !in h.used
    ensures Fenced(Next(h, op))
  {
  }

  lemma {:induction false} RunKeeps(h: History, ops: seq<Op>)
    requires Inv(h)
    ensures Inv(Run(h, ops))
    ensures Fenced(h) && FreshGenerations(h, ops) ==> Fenced(Run(h, ops))
    decreases |ops|
  {
    if ops != [] {
      NextKeepsInv(h, ops[0]);
      if Fenced(h) && FreshGenerations(h, ops) {
        NextKeepsFenced(h, ops[0]);
      }
      RunKeeps(Next(h, ops[0]), ops[1..]);
    }
  }

  /** At most one turn is ever recorded for a linked thread and a generation, in any
      run, restarts included, whose ownerships use fresh generations. */
  lemma OneTurnEver(ops: seq<Op>)
    requires FreshGenerations(START, ops)
    ensures OneTurnPerGeneration(Run(START, ops).marks)
  {
    RunKeeps(START, ops);
  }

  predicate NoClear(ops: seq<Op>) {
    forall i :: 0 <= i < |ops| ==> !ops[i].FinishAndClearOp?
  }

  ghost predicate GenerationBounds(h: History) {
    forall u :: u in h.used ==> u.0 in h.rows && u.1 <= h.rows[u.0].generation
  }

  lemma GenerationsStayBounds(h: History, op: Op)
    requires Logged(h) && GenerationBounds(h) && !op.FinishAndClearOp?
    ensures GenerationBounds(Next(h, op))
  {
  }

  /** Without the resetting finish the row itself enforces freshness: its generation
      bounds everything used before, and a claim must exceed it. */
  lemma {:induction false} GuardAloneGivesFreshness(h: History, ops: seq<Op>)
    requires Inv(h) && NoClear(ops)
    requires GenerationBounds(h)
    ensures FreshGenerations(h, ops)
    decreases |ops|
  {
    if ops != [] {
      NextKeepsInv(h, ops[0]);
      GenerationsStayBounds(h, ops[0]);
      GuardAloneGivesFreshness(Next(h, ops[0]), ops[1..]);
    }
  }

  lemma OneTurnEverWithoutClear(ops: seq<Op>)
    requires NoClear(ops)
    ensures OneTurnPerGeneration(Run(START, ops).marks)
  {
    GuardAloneGivesFreshness(START, ops);
    OneTurnEver(ops);
  }

  /** The generation of a row decreases in exactly one way: the resetting finish. A
      claim raises it strictly. */
  lemma GenerationMovesExactly(rows: Table, op: Op, l: Id)
    requires l in rows
    ensures l in Step(rows, op)
    ensures Step(rows, op)[l].generation < rows[l].generation
      <==> op.FinishAndClearOp? && op.linked == l && CanFinishAndClear(rows, l, op.generation, op.turn) && op.generation > 0
    ensures Step(rows, op)[l].generation > rows[l].generation
      <==> op.ClaimOp? && op.linked == l && CanClaim(rows, l, op.generation)
  {
  }

  /** The resetting finishes and the accepted claims of row l in a run. */
  function Clears(rows: Table, ops: seq<Op>, l: Id): nat
    decreases |ops|
  {
    if ops == [] then 0
    else
      var op := ops[0];
      (if op.FinishAndClearOp? && op.linked == l && CanFinishAndClear(rows, l, op.generation, op.turn) then 1 else 0)
      + Clears(Step(rows, op), ops[1..], l)
  }

  function Claims(rows: Table, ops: seq<Op>, l: Id): nat
    decreases |ops|
  {
    if ops == [] then 0
    else
      (if ops[0].ClaimOp? && ops[0].linked == l && CanClaim(rows, l, ops[0].generation) then 1 else 0)
      + Claims(Step(rows, ops[0]), ops[1..], l)
  }

  function RunRows(rows: Table, ops: seq<Op>): Table
    decreases |ops|
  {
    if ops == [] then rows else RunRows(Step(rows, ops[0]), ops[1..])
  }

  /** Over every run without a resetting finish of the row, its generation never
      decreases, rises by at least one with each accepted claim, and stays the same
      exactly when there is none. */
  lemma {:induction false} GenerationsRiseWithClaims(rows: Table, ops: seq<Op>, l: Id)
    requires l in rows && Clears(rows, ops, l) == 0
    ensures l in RunRows(rows, ops)
    ensures RunRows(rows, ops)[l].generation >= rows[l].generation + Claims(rows, ops, l)
    ensures RunRows(rows, ops)[l].generation == rows[l].generation <==> Claims(rows, ops, l) == 0
    decreases |ops|
  {
    if ops != [] {
      GenerationMovesExactly(rows, ops[0], l);
      GenerationsRiseWithClaims(Step(rows, ops[0]), ops[1..], l);
    }
  }

  /** Steps that carry a worker generation. */
  predicate CarriesGeneration(op: Op) {
    op.MarkTurnOp? || op.MarkTitleOp? || op.BeginOp? || op.FinishOp? || op.FinishAndClearOp? || op.FailOp?
  }

  predicate Stale(rows: Table, op: Op) {
    CarriesGeneration(op) && (op.linked !in rows || rows[op.linked].generation != op.generation)
  }

  /** However many late steps of other generations arrive, they change nothing. */
  lemma {:induction false} OtherGenerationsChangeNothing(rows: Table, ops: seq<Op>)
    requires forall i :: 0 <= i < |ops| ==> Stale(rows, ops[i])
    ensures RunRows(rows, ops) == rows
    decreases |ops|
  {
    if ops != [] {
      assert Stale(rows, ops[0]);
      assert forall i :: 0 <= i < |ops[1..]| ==> ops[1..][i] == ops[i + 1];
      OtherGenerationsChangeNothing(rows, ops[1..]);
    }
  }

  /** In every reachable table a ready or failed row has no active turn. */
  lemma RestingRowsHaveNoTurn(ops: seq<Op>, l: Id)
    ensures
      var rows := Run(START, ops).rows;
      l in rows && (rows[l].state.Ready? || rows[l].state.Failed?) ==> rows[l].turn == NONE
  {
    RunKeeps(START, ops);
  }

  /** A failed row is never owned again. */
  lemma {:induction false} FailedIsFinal(h: History, ops: seq<Op>, l: Id)
    requires l in h.rows && h.rows[l].state.Failed?
    ensures l in Run(h, ops).rows && Run(h, ops).rows[l] == h.rows[l]
    decreases |ops|
  {
    if ops != [] {
      FailedIsFinal(Next(h, ops[0]), ops[1..], l);
    }
  }

  /** Why the state of a row may change in one step, one line a change. */
  predicate Moves(op: Op, l: Id, before: Row, after: State) {
    match before.state
    case Ready => after.Running? && op.ClaimOp? && op.linked == l && before.generation < op.generation <= MAX_GENERATION
    case Running =>
      if after.ReleasePending? then
        op.RecoverOp? ||
        (op.BeginOp? && op.linked == l && op.generation == before.generation > 0 && op.turn == before.turn != NONE)
      else after.Failed? && op.FailOp? && op.linked == l && op.generation == before.generation
    case ReleasePending =>
      if after.Ready? then
        (op.FinishOp? && op.linked == l && op.generation == before.generation) ||
        (op.FinishAndClearOp? && op.linked == l && op.generation == before.generation && op.turn == before.turn != NONE)
      else after.Failed? && op.FailOp? && op.linked == l && op.generation == before.generation
    case Failed => false
  }

  /** A step moves a row to another state exactly for these reasons. */
  lemma StateMovesExactly(rows: Table, op: Op, l: Id, after: State)
    requires l in rows && after != rows[l].state
    ensures l in Step(rows, op)
    ensures Step(rows, op)[l].state == after <==> Moves(op, l, rows[l], after)
  {
  }

  /** What one step does to the turn and the generation of a row that keeps its place or
      moves: a claim takes a new generation and no turn, a mark sets the turn, an end of
      the ownership clears the turn, and only the resetting finish clears the generation. */
  lemma ColumnsMoveExactly(rows: Table, op: Op, l: Id)
    requires l in rows
    ensures
      var before, after := rows[l], Step(rows, op)[l];
      && l in Step(rows, op)
      && after.chat == before.chat && after.project == before.project && after.source == before.source && after.anchor == before.anchor
      && (after.turn ==
          if before.state.Running? && before.turn == NONE && op.MarkTurnOp? && op.linked == l && op.generation == before.generation then op.turn
          else if after.state != before.state && !after.state.ReleasePending? then NONE
          else before.turn)
      && (after.generation ==
          if before.state.Ready? && after.state.Running? then op.generation
          else if before.state.ReleasePending? && after.state.Ready? && op.FinishAndClearOp? then 0
          else before.generation)
      && (after.titleSet <==> before.titleSet || (before.state.Running? && op.MarkTitleOp? && op.linked == l && op.generation == before.generation))
  {
  }

  /** Nothing names the row except restarts. */
  predicate Elsewhere(ops: seq<Op>, l: Id) {
    forall i :: 0 <= i < |ops| ==> ops[i].RecoverOp? || ops[i].linked != l
  }

  /** However often the daemon restarts and whatever happens to other links, a row that
      had a turn when it was interrupted keeps all its columns and waits for its release. */
  lemma {:induction false} RestartKeepsTheTurn(rows: Table, ops: seq<Op>, l: Id)
    requires l in rows && Elsewhere(ops, l) && (rows[l].state.Running? || rows[l].state.ReleasePending?)
    ensures l in RunRows(rows, ops)
    ensures RunRows(rows, ops)[l] == rows[l] || RunRows(rows, ops)[l] == rows[l].(state := ReleasePending)
    ensures RecoverOp in ops ==> RunRows(rows, ops)[l] == rows[l].(state := ReleasePending)
    decreases |ops|
  {
    if ops != [] {
      assert ops[0].RecoverOp? || ops[0].linked != l;
      assert forall i :: 0 <= i < |ops[1..]| ==> ops[1..][i] == ops[i + 1];
      var next := Step(rows, ops[0]);
      assert l in next && (next[l] == rows[l] || next[l] == rows[l].(state := ReleasePending));
      assert ops[0].RecoverOp? ==> next[l] == rows[l].(state := ReleasePending);
      assert ops == [ops[0]] + ops[1..];
      RestartKeepsTheTurn(next, ops[1..], l);
    }
  }

  /** So the observer can finish that turn after any restarts: the finish step with its
      generation and turn makes the row ready, and keeps everything else. */
  lemma RestartedTurnFinishes(rows: Table, ops: seq<Op>, l: Id)
    requires l in rows && rows[l].state.Running? && rows[l].turn != NONE
    requires Elsewhere(ops, l) && RecoverOp in ops
    ensures
      var finished := RunRows(rows, ops + [FinishAndClearOp(l, rows[l].generation, rows[l].turn)]);
      l in finished && finished[l] == rows[l].(state := Ready, turn := NONE, generation := 0)
  {
    RestartKeepsTheTurn(rows, ops, l);
    RowsSplit(rows, ops, [FinishAndClearOp(l, rows[l].generation, rows[l].turn)]);
  }

  lemma {:induction false} RowsSplit(rows: Table, ops: seq<Op>, last: seq<Op>)
    requires |last| == 1
    ensures RunRows(rows, ops + last) == Step(RunRows(rows, ops), last[0])
    decreases |ops|
  {
    if ops == [] {
      assert ops + last == last && last[1..] == [];
      assert RunRows(Step(rows, last[0]), []) == Step(rows, last[0]);
    } else {
      assert (ops + last)[1..] == ops[1..] + last;
      RowsSplit(Step(rows, ops[0]), ops[1..], last);
    }
  }

  /** A link fails only by a fail step of its own generation while it is owned; restarts,
      claims and releases never fail one. */
  lemma {:induction false} FailsOnlyByItsOwner(rows: Table, ops: seq<Op>, l: Id)
    requires l in RunRows(rows, ops) && RunRows(rows, ops)[l].state.Failed?
    requires l in rows ==> !rows[l].state.Failed?
    ensures exists i ::
      && 0 <= i < |ops| && ops[i].FailOp? && ops[i].linked == l
      && (var before := RunRows(rows, ops[..i]);
          l in before && before[l].generation == ops[i].generation && (before[l].state.Running? || before[l].state.ReleasePending?))
    decreases |ops|
  {
    assert ops != [];
    var next := Step(rows, ops[0]);
    if l in next && next[l].state.Failed? {
      assert RunRows(rows, ops[..0]) == rows;
      assert l in rows;
      StateMovesExactly(rows, ops[0], l, Failed);
    } else {
      FailsOnlyByItsOwner(next, ops[1..], l);
      var i :| 0 <= i < |ops[1..]| && ops[1..][i].FailOp? && ops[1..][i].linked == l && (var before := RunRows(next, ops[1..][..i]);
        l in before && before[l].generation == ops[1..][i].generation && (before[l].state.Running? || before[l].state.ReleasePending?));
      assert ops[..i + 1][1..] == ops[1..][..i];
      assert RunRows(rows, ops[..i + 1]) == RunRows(next, ops[1..][..i]);
      assert ops[i + 1] == ops[1..][i];
    }
  }

  /** With the resetting finish the promise can fail: after a restart the counter
      starts again and generation 1 gets a second turn. */
  lemma ResettingFinishReusesGeneration()
    ensures
      var ops := [ActivateOp(1, Chat(5, 0), 3, 2, 4, 1), MarkTurnOp(1, 1, 7), BeginOp(1, 1, 7), FinishAndClearOp(1, 1, 7),
                  ClaimOp(1, 1), MarkTurnOp(1, 1, 8)];
      !OneTurnPerGeneration(Run(START, ops).marks)
  {
    var row := Row(Chat(5, 0), 3, 2, 4, false, Running, NONE, 1);
    var h1 := History(map[1 := row], {}, {(1, 1)});
    var h4 := History(map[1 := row.(state := Ready, generation := 0)], {Mark(1, 1, 7)}, {(1, 1)});
    var first := [ActivateOp(1, Chat(5, 0), 3, 2, 4, 1)];
    var turn := [MarkTurnOp(1, 1, 7), BeginOp(1, 1, 7), FinishAndClearOp(1, 1, 7)];
    var again := [ClaimOp(1, 1), MarkTurnOp(1, 1, 8)];
    assert Run(START, first) == h1;
    FirstTurn(h1, h4, row, turn);
    assert Mark(1, 1, 7) in Run(h4, again).marks && Mark(1, 1, 8) in Run(h4, again).marks;
    RunSplits(START, first, turn + again);
    RunSplits(h1, turn, again);
    assert first + (turn + again) == [ActivateOp(1, Chat(5, 0), 3, 2, 4, 1), MarkTurnOp(1, 1, 7), BeginOp(1, 1, 7),
                                      FinishAndClearOp(1, 1, 7), ClaimOp(1, 1), MarkTurnOp(1, 1, 8)];
  }

  lemma FirstTurn(h1: History, h4: History, row: Row, turn: seq<Op>)
    requires h1 == History(map[1 := row], {}, {(1, 1)}) && row.state.Running? && row.turn == NONE && row.generation == 1
    requires h4 == History(map[1 := row.(state := Ready, generation := 0)], {Mark(1, 1, 7)}, {(1, 1)})
    requires turn == [MarkTurnOp(1, 1, 7), BeginOp(1, 1, 7), FinishAndClearOp(1, 1, 7)]
    ensures Run(h1, turn) == h4
  {
    var h2 := Next(h1, turn[0]);
    var h3 := Next(h2, turn[1]);
    assert Next(h3, turn[2]) == h4;
    assert Run(h1, turn) == Run(h2, turn[1..]);
    assert turn[1..][1..] == [turn[2]];
    assert Run(h2, turn[1..]) == Run(h3, [turn[2]]) == Run(h4, []);
  }

  lemma {:induction false} RunSplits(h: History, first: seq<Op>, rest: seq<Op>)
    ensures Run(h, first + rest) == Run(Run(h, first), rest)
    decreases |first|
  {
    if first == [] {
      assert first + rest == rest;
    } else {
      assert (first + rest)[1..] == first[1..] + rest;
      RunSplits(Next(h, first[0]), first[1..], rest);
    }
  }
}
