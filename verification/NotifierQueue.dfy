/** What the queue of the notifier holds, told from the turns alone. */
module NotifierQueue {
  import opened Ids
  import opened Notifier

  /** How a turn ended for a reader: a cancelled turn counts as interrupted, and an
      interrupted one counts only with a final answer. */
  function Outcome(turn: Turn): Option<Status> {
    match turn.status
    case Completed => Some(Completed)
    case Failed => Some(Failed)
    case Interrupted => if turn.signal then Some(Interrupted) else None
    case Canceled => if turn.signal then Some(Interrupted) else None
    case Cancelled => if turn.signal then Some(Interrupted) else None
    case Unset => None
    case Other(_) => None
  }

  /** The turn has ended one way or the other. */
  predicate Over(turn: Turn) {
    !turn.status.Unset? && !turn.status.Other?
  }

  /** Turn i of `now` was not over at the read of `base`. */
  predicate NewSince(base: seq<Turn>, i: nat) {
    i >= |base| || !Over(base[i])
  }

  lemma OutcomeIsEvent(turn: Turn)
    ensures Reportable(turn) <==> Outcome(turn).Some?
    ensures Reportable(turn) ==> EventOf(turn) == Event(turn.id, Outcome(turn).value)
    ensures Terminal(turn) <==> Over(turn)
  {
  }

  lemma NewSinceIsUnfinished(base: seq<Turn>, i: nat)
    requires WellFormed(base)
    ensures NewSince(base, i) <==> i >= Unfinished(base)
  {
    if i < |base| {
      OutcomeIsEvent(base[i]);
    }
    if base != [] {
      OutcomeIsEvent(base[|base| - 1]);
    }
  }

  ghost predicate Owed(base: seq<Turn>, now: seq<Turn>, e: Event) {
    exists i :: 0 <= i < |now| && NewSince(base, i) && e.turn == now[i].id && Outcome(now[i]) == Some(e.status)
  }

  lemma {:induction false} SelectHas(turns: seq<Turn>, wanted: Turn -> bool, i: nat)
    requires i < |turns| && wanted(turns[i])
    ensures turns[i] in Select(turns, wanted)
    decreases |turns|
  {
    if i < |turns| - 1 {
      SelectHas(turns[..|turns| - 1], wanted, i);
    }
  }

  lemma NewIsOwed(base: seq<Turn>, now: seq<Turn>, e: Event)
    requires WellFormed(base) && |base| <= |now|
    ensures e in New(base, now) <==> Owed(base, now, e)
  {
    var from := Unfinished(base);
    var rest := now[from..];
    var chosen := Reports(rest);
    if e in Events(chosen) {
      var k :| 0 <= k < |chosen| && Events(chosen)[k] == e;
      assert chosen[k] in chosen;
      var j :| 0 <= j < |rest| && rest[j] == chosen[k];
      OutcomeIsEvent(rest[j]);
      NewSinceIsUnfinished(base, from + j);
      assert now[from + j] == rest[j];
    }
    if Owed(base, now, e) {
      var i :| 0 <= i < |now| && NewSince(base, i) && e.turn == now[i].id && Outcome(now[i]) == Some(e.status);
      OutcomeIsEvent(now[i]);
      NewSinceIsUnfinished(base, i);
      assert rest[i - from] == now[i];
      SelectHas(rest, Reportable, i - from);
      var k :| 0 <= k < |chosen| && chosen[k] == now[i];
      assert Events(chosen)[k] == e;
    }
  }

  /** After a baseline read of a thread with turns and any polls, the last of them
      completed, an event is in the queue exactly when some turn that was not over at the
      baseline ended like that: completed, failed, or interrupted with a final answer. */
  lemma QueueHoldsExactlyTheOutcomes(base: seq<Turn>, polls: seq<Poll>, e: Event)
    requires WellFormed(base) && base != [] && Chain(base, polls) && polls != [] && polls[|polls| - 1].stopped.None?
    ensures e in Run(State(Read(base), []), polls).queue <==> Owed(base, LastTurns(base, polls), e)
  {
    ExactlyOnceInOrder(base, polls);
    NewIsOwed(base, LastTurns(base, polls), e);
  }

  /** A thread seen for the first time, with no baseline at all: the first completed read
      reports its last turn if the thread changed after the activation and that turn
      ended, and from then on exactly what ends later is added. */
  lemma FirstSightReportsTheLast(first: Poll, polls: seq<Poll>)
    requires WellFormed(first.turns) && first.turns != [] && first.stopped.None? && Chain(first.turns, polls)
    requires polls == [] || polls[|polls| - 1].stopped.None?
    ensures
      var last, now := first.turns[|first.turns| - 1], LastTurns(first.turns, polls);
      && |first.turns| <= |now|
      && Run(State(Observation(false, NONE, Unset), []), [first] + polls).queue ==
         (if first.updated && Outcome(last).Some? then [Event(last.id, Outcome(last).value)] else []) + New(first.turns, now)
  {
    var last := first.turns[|first.turns| - 1];
    OutcomeIsEvent(last);
    var s := State(Observation(false, NONE, Unset), []);
    var early := if first.updated && Outcome(last).Some? then [Event(last.id, Outcome(last).value)] else [];
    var events := Events(Since(s.observation, first.turns, first.updated));
    assert events == early;
    assert early != [] ==> early[1..] == [];
    assert Enqueue([], early) == early by {
      if early != [] {
        assert Enqueue([], early) == Enqueue([] + [early[0]], early[1..]);
      }
    }
    assert Next(s, first) == State(Read(first.turns), early);
    assert early != [] ==> EventOf(last) == early[0] && Unfinished(first.turns) == |first.turns|;
    assert Early(early, first.turns);
    hide Next, Run, New, Early, Since;
    FirstStep(s, first, polls);
    QueueFollowsTheRead(early, first.turns, polls);
  }

  lemma FirstStep(s: State, first: Poll, polls: seq<Poll>)
    ensures Run(s, [first] + polls) == Run(Next(s, first), polls)
  {
    assert ([first] + polls)[1..] == polls;
  }
}
