/** Comparing a thread reading with the stored state, and compacting it into the next state. */
module Snapshots {
  import opened Ids

  datatype TurnStatus = NoStatus | Completed | Interrupted | Failed | Open(name: Id)

  /** The identity of the latest tool: its id, or its kind and caption without one. */
  datatype ToolKey = NoTool | ById(id: Id) | ByName(kind: Id, caption: Id)

  /** `None` is a time that the reading leaves open. */
  datatype Reading = Reading(
    threadStatus: Id, threadUpdated: int,
    turn: Id, turnStatus: TurnStatus, turnStarted: Option<int>, turnUpdated: Option<int>,
    approval: bool, reply: bool, plan: Option<Id>, progress: Id, final: Id,
    toolId: Id, toolKind: Id, toolCaption: Id, toolPrint: Id, toolStarted: Option<int>, toolUpdated: Option<int>)

  /** Fingerprints are injective; a completion is named by its turn and status. */
  datatype Completion = Completion(turn: Id, status: TurnStatus)

  datatype State = State(
    threadUpdated: int, threadStatus: Id, turn: Id, turnStatus: TurnStatus, progress: Id, final: Id,
    completion: Option<Completion>, approval: Id, reply: Option<Id>, polled: int, compact: Reading)

  datatype Event =
    | TurnStarted(turn: Id)
    | ToolActivity(mark: Id)
    | NeedsApproval(turn: Id)
    | NeedsReply(turn: Id, mark: Id)
    | FinalAnswer(mark: Id)
    | TurnEnded(completion: Completion)

  predicate Ends(r: Reading) {
    r.turn != NONE && (r.turnStatus.Completed? || r.turnStatus.Interrupted? || r.turnStatus.Failed?)
  }

  function Diff(previous: Option<State>, r: Reading): seq<Event> {
    if previous.None? then []
    else
      var p := previous.value;
      (if r.turn != NONE && p.turn != r.turn then [TurnStarted(r.turn)] else []) +
      (if r.progress != NONE && r.progress != p.progress then [ToolActivity(r.progress)] else []) +
      (if r.approval && p.approval != r.turn then [NeedsApproval(r.turn)] else []) +
      (if r.reply && p.threadStatus != r.threadStatus
       then [NeedsReply(r.turn, if r.plan.Some? && r.plan.value != NONE then r.plan.value else r.turn)] else []) +
      (if r.final != NONE && r.final != p.final then [FinalAnswer(r.final)] else []) +
      (if Ends(r) && p.completion != Some(Completion(r.turn, r.turnStatus)) then [TurnEnded(Completion(r.turn, r.turnStatus))] else [])
  }

  function KeyOf(r: Reading): ToolKey {
    if r.toolId != NONE then ById(r.toolId)
    else if r.toolKind == NONE && r.toolCaption == NONE then NoTool
    else ByName(r.toolKind, r.toolCaption)
  }

  predicate SameTool(a: Reading, b: Reading) {
    && KeyOf(a) != NoTool && KeyOf(a) == KeyOf(b)
    && (a.turn == NONE || b.turn == NONE || a.turn == b.turn)
  }

  function Or(a: Option<int>, b: Option<int>): Option<int> {
    if a.Some? then a else b
  }

  /** What the stored state says about a value that stays while `same` holds. */
  function Carry(previous: Option<State>, same: Reading -> bool, value: Reading -> Option<int>): Option<int> {
    if previous.Some? && same(previous.value.compact) then value(previous.value.compact) else None
  }

  function TimeTurn(previous: Option<State>, r: Reading, now: int): Reading {
    if r.turn == NONE then r
    else
      var kept := Carry(previous, (p: Reading) => p.turn == r.turn, (p: Reading) => p.turnStarted);
      r.(turnStarted := Or(r.turnStarted, Or(kept, Some(now))), turnUpdated := Or(r.turnUpdated, Some(now)))
  }

  function TimeTool(previous: Option<State>, r: Reading, now: int): Reading {
    if KeyOf(r) == NoTool then r
    else
      var started := Carry(previous, (p: Reading) => SameTool(p, r), (p: Reading) => p.toolStarted);
      var updated := Carry(previous, (p: Reading) => SameTool(p, r) && p.toolPrint == r.toolPrint, (p: Reading) => p.toolUpdated);
      r.(toolStarted := Or(r.toolStarted, Or(started, Some(now))), toolUpdated := Or(r.toolUpdated, Or(updated, Some(now))))
  }

  function Compact(previous: Option<State>, reading: Reading, now: int): State {
    var r := TimeTool(previous, TimeTurn(previous, reading, now), now);
    State(
      r.threadUpdated, r.threadStatus, r.turn, r.turnStatus, r.progress, r.final,
      if Ends(r) then Some(Completion(r.turn, r.turnStatus)) else if previous.Some? then previous.value.completion else None,
      if r.approval then r.turn else NONE,
      if r.reply && r.plan.Some? then r.plan else None,
      now, r)
  }

  /** The reading whose open times the timing steps fill in. */
  class Cell {
    var reading: Reading

    constructor (reading: Reading)
      ensures this.reading == reading
    {
      this.reading := reading;
    }

    method ApplyLatestTurnTiming(previous: Option<State>, now: int)
      modifies this
      ensures reading == TimeTurn(previous, old(reading), now)
    {
      if reading.turn == NONE { return; }
      var sameTurn := previous.Some? && previous.value.compact.turn == reading.turn;
      if reading.turnStarted.None? {
        if sameTurn && previous.value.compact.turnStarted.Some? {
          reading := reading.(turnStarted := previous.value.compact.turnStarted);
        } else {
          reading := reading.(turnStarted := Some(now));
        }
      }
      if reading.turnUpdated.None? {
        reading := reading.(turnUpdated := Some(now));
      }
    }

    method ApplyLatestToolTiming(previous: Option<State>, now: int)
      modifies this
      ensures reading == TimeTool(previous, old(reading), now)
    {
      if KeyOf(reading) == NoTool { return; }
      var sameTool := previous.Some? && SameTool(previous.value.compact, reading);
      if reading.toolStarted.None? {
        if sameTool && previous.value.compact.toolStarted.Some? {
          reading := reading.(toolStarted := previous.value.compact.toolStarted);
        } else {
          reading := reading.(toolStarted := Some(now));
        }
      }
      if reading.toolUpdated.None? {
        if sameTool && previous.value.compact.toolUpdated.Some? && previous.value.compact.toolPrint == reading.toolPrint {
          reading := reading.(toolUpdated := previous.value.compact.toolUpdated);
        } else {
          reading := reading.(toolUpdated := Some(now));
        }
      }
    }
  }

  method CompactSnapshot(previous: Option<State>, current: Reading, now: int) returns (out: State)
    ensures out == Compact(previous, current, now)
  {
    var cell := new Cell(current);
    cell.ApplyLatestTurnTiming(previous, now);
    cell.ApplyLatestToolTiming(previous, now);
    var r := cell.reading;
    out := State(r.threadUpdated, r.threadStatus, r.turn, r.turnStatus, r.progress, r.final, None, NONE, None, now, r);
    if previous.Some? {
      out := out.(completion := previous.value.completion);
    }
    if Ends(r) {
      out := out.(completion := Some(Completion(r.turn, r.turnStatus)));
    }
    if r.approval {
      out := out.(approval := r.turn);
    }
    if r.reply && r.plan.Some? {
      out := out.(reply := r.plan);
    }
  }

  // ---- Quiescence ----

  /** Comparing a reading with the state made from it reports nothing, whatever the
      state before was. */
  lemma Quiescent(previous: Option<State>, r: Reading, now: int)
    ensures Diff(Some(Compact(previous, r, now)), r) == []
  {
    var timed := TimeTool(previous, TimeTurn(previous, r, now), now);
    assert Ends(timed) == Ends(r) && timed.turn == r.turn;
  }

  // ---- Runs ----

  datatype Poll = Poll(reading: Reading, now: int)

  function Run(s: Option<State>, polls: seq<Poll>): Option<State>
    decreases |polls|
  {
    if polls == [] then s
    else
      var last := polls[|polls| - 1];
      Some(Compact(Run(s, polls[..|polls| - 1]), last.reading, last.now))
  }

  /** The last end of a turn among the readings of a run that began with `s`. */
  function LastEnd(s: Option<State>, polls: seq<Poll>): Option<Completion>
    decreases |polls|
  {
    if polls == [] then if s.Some? then s.value.completion else None
    else
      var r := polls[|polls| - 1].reading;
      if Ends(r) then Some(Completion(r.turn, r.turnStatus)) else LastEnd(s, polls[..|polls| - 1])
  }

  /** The reading shows nothing that the reading before it did not show. */
  predicate Repeats(before: Reading, r: Reading) {
    && (r.turn == NONE || r.turn == before.turn)
    && (r.progress == NONE || r.progress == before.progress)
    && (r.final == NONE || r.final == before.final)
    && (r.approval ==> r.turn == if before.approval then before.turn else NONE)
    && (r.reply ==> r.threadStatus == before.threadStatus)
  }

  lemma {:induction false} EndIsRemembered(s: Option<State>, polls: seq<Poll>)
    requires polls != []
    ensures Run(s, polls).Some? && Run(s, polls).value.completion == LastEnd(s, polls)
    decreases |polls|
  {
    var front := polls[..|polls| - 1];
    if front != [] {
      EndIsRemembered(s, front);
    }
  }

  /** Over every run, the next poll reports nothing if and only if its reading repeats the
      one just before it and, if a turn has ended in it, that end is the last one that any
      reading of the run showed. Starts, tools, requests and answers are forgotten after
      one poll without them; an end is remembered until another one. */
  lemma SilentExactlyWhenRepeated(s: Option<State>, polls: seq<Poll>, r: Reading)
    requires polls != []
    ensures
      Diff(Run(s, polls), r) == [] <==>
      Repeats(polls[|polls| - 1].reading, r) && (Ends(r) ==> LastEnd(s, polls) == Some(Completion(r.turn, r.turnStatus)))
  {
    EndIsRemembered(s, polls);
  }

  /** Why the next reading reports an event: what it shows, and that the reading before it
      did not show it, or that it is not the last end of the run. */
  predicate Due(e: Event, before: Reading, last: Option<Completion>, r: Reading) {
    match e
    case TurnStarted(turn) => turn == r.turn != NONE && before.turn != turn
    case ToolActivity(mark) => mark == r.progress != NONE && before.progress != mark
    case NeedsApproval(turn) => r.approval && turn == r.turn && turn != if before.approval then before.turn else NONE
    case NeedsReply(turn, mark) =>
      r.reply && turn == r.turn && before.threadStatus != r.threadStatus && mark == if r.plan.Some? && r.plan.value != NONE then r.plan.value else r.turn
    case FinalAnswer(mark) => mark == r.final != NONE && before.final != mark
    case TurnEnded(completion) => Ends(r) && completion == Completion(r.turn, r.turnStatus) && last != Some(completion)
  }

  function Rank(e: Event): nat {
    match e
    case TurnStarted(_) => 0
    case ToolActivity(_) => 1
    case NeedsApproval(_) => 2
    case NeedsReply(_, _) => 3
    case FinalAnswer(_) => 4
    case TurnEnded(_) => 5
  }

  lemma DiffHas(p: State, r: Reading, e: Event)
    ensures e in Diff(Some(p), r) <==>
      match e
      case TurnStarted(turn) => turn == r.turn != NONE && p.turn != turn
      case ToolActivity(mark) => mark == r.progress != NONE && p.progress != mark
      case NeedsApproval(turn) => r.approval && turn == r.turn && p.approval != turn
      case NeedsReply(turn, mark) =>
        r.reply && turn == r.turn && p.threadStatus != r.threadStatus && mark == if r.plan.Some? && r.plan.value != NONE then r.plan.value else r.turn
      case FinalAnswer(mark) => mark == r.final != NONE && p.final != mark
      case TurnEnded(completion) => Ends(r) && completion == Completion(r.turn, r.turnStatus) && p.completion != Some(completion)
  {
  }

  lemma CompactKeeps(previous: Option<State>, r: Reading, now: int)
    ensures
      var s := Compact(previous, r, now);
      s.turn == r.turn && s.progress == r.progress && s.final == r.final && s.threadStatus == r.threadStatus && s.approval == if r.approval then r.turn else NONE
  {
  }

  /** Over every run the next poll reports exactly the events that are due, each kind at
      most once and the kinds in a fixed order. */
  lemma ReportsExactlyWhatIsDue(s: Option<State>, polls: seq<Poll>, r: Reading, e: Event)
    requires polls != []
    ensures e in Diff(Run(s, polls), r) <==> Due(e, polls[|polls| - 1].reading, LastEnd(s, polls), r)
    ensures forall i, j :: 0 <= i < j < |Diff(Run(s, polls), r)| ==> Rank(Diff(Run(s, polls), r)[i]) < Rank(Diff(Run(s, polls), r)[j])
  {
    EndIsRemembered(s, polls);
    var front, last := polls[..|polls| - 1], polls[|polls| - 1];
    CompactKeeps(Run(s, front), last.reading, last.now);
    DiffHas(Run(s, polls).value, r, e);
    DiffRanks(Run(s, polls).value, r);
    hide Compact, Diff, Ends, Rank;
  }

  lemma DiffRanks(p: State, r: Reading)
    ensures forall i, j :: 0 <= i < j < |Diff(Some(p), r)| ==> Rank(Diff(Some(p), r)[i]) < Rank(Diff(Some(p), r)[j])
  {
  }

  /** The completions that a run reports, in order. */
  function Reported(s: Option<State>, polls: seq<Poll>): seq<Completion>
    decreases |polls|
  {
    if polls == [] then []
    else
      var front := polls[..|polls| - 1];
      Reported(s, front) + Endings(Diff(Run(s, front), polls[|polls| - 1].reading))
  }

  function Endings(events: seq<Event>): seq<Completion> {
    if events == [] then []
    else Endings(events[..|events| - 1]) + if events[|events| - 1].TurnEnded? then [events[|events| - 1].completion] else []
  }

  lemma DiffEndings(p: State, r: Reading)
    ensures
      Endings(Diff(Some(p), r)) ==
      if Ends(r) && p.completion != Some(Completion(r.turn, r.turnStatus)) then [Completion(r.turn, r.turnStatus)] else []
  {
    var events := Diff(Some(p), r);
    var last := Ends(r) && p.completion != Some(Completion(r.turn, r.turnStatus));
    var others := if last then events[..|events| - 1] else events;
    NoEndings(others);
  }

  lemma {:induction false} NoEndings(events: seq<Event>)
    requires forall i :: 0 <= i < |events| ==> !events[i].TurnEnded?
    ensures Endings(events) == []
    decreases |events|
  {
    if events != [] {
      NoEndings(events[..|events| - 1]);
    }
  }

  ghost predicate Alternating(reported: seq<Completion>) {
    forall i, j :: 0 <= i < j < |reported| && j == i + 1 ==> reported[i] != reported[j]
  }

  lemma Append(reported: seq<Completion>, c: Completion)
    requires Alternating(reported) && (reported != [] ==> reported[|reported| - 1] != c)
    ensures Alternating(reported + [c])
  {
  }

  lemma CompactedCompletion(previous: Option<State>, r: Reading, now: int)
    ensures
      Compact(previous, r, now).completion ==
      if Ends(r) then Some(Completion(r.turn, r.turnStatus)) else if previous.Some? then previous.value.completion else None
  {
  }

  /** The reports are alternating and the state remembers the last of them. */
  ghost predicate Remembers(s: Option<State>, reported: seq<Completion>) {
    && Alternating(reported)
    && (reported != [] ==> s.Some? && s.value.completion == Some(reported[|reported| - 1]))
  }

  lemma NextRemembers(s: Option<State>, reported: seq<Completion>, r: Reading, now: int)
    requires Remembers(s, reported)
    ensures Remembers(Some(Compact(s, r, now)), reported + Endings(Diff(s, r)))
  {
    CompactedCompletion(s, r, now);
    if s.Some? {
      DiffEndings(s.value, r);
    }
    hide Compact, Diff;
    var end := Completion(r.turn, r.turnStatus);
    if s.Some? && Ends(r) && s.value.completion != Some(end) {
      Append(reported, end);
    } else if s.Some? {
      assert reported + [] == reported;
    }
  }

  /** A run never reports the same completion twice in a row: between two reports of one
      turn and status another completion was reported. */
  lemma {:induction false} CompletionsAlternate(s: Option<State>, polls: seq<Poll>)
    ensures Alternating(Reported(s, polls)) && Remembers(Run(s, polls), Reported(s, polls))
    decreases |polls|
  {
    if polls != [] {
      var front, last := polls[..|polls| - 1], polls[|polls| - 1];
      CompletionsAlternate(s, front);
      hide Remembers, Alternating;
      NextRemembers(Run(s, front), Reported(s, front), last.reading, last.now);
      hide Compact, Diff, Endings;
      assert Remembers(Run(s, polls), Reported(s, polls));
    }
  }

  /** A time that the reading itself gives is kept, whatever the state before was. */
  lemma GivenTimesWin(previous: Option<State>, r: Reading, now: int)
    ensures
      var c := Compact(previous, r, now).compact;
      && (r.turnStarted.Some? ==> c.turnStarted == r.turnStarted) && (r.turnUpdated.Some? ==> c.turnUpdated == r.turnUpdated)
      && (r.toolStarted.Some? ==> c.toolStarted == r.toolStarted) && (r.toolUpdated.Some? ==> c.toolUpdated == r.toolUpdated)
      && (r.turn != NONE ==> c.turnStarted.Some? && (r.turnUpdated.None? ==> c.turnUpdated == Some(now)))
      && (r.turn == NONE ==> c.turnStarted == r.turnStarted && c.turnUpdated == r.turnUpdated)
  {
  }

  /** Every poll of the run reads the same turn and leaves its start open. */
  predicate OneTurn(polls: seq<Poll>, turn: Id) {
    turn != NONE && forall i :: 0 <= i < |polls| ==> polls[i].reading.turn == turn && polls[i].reading.turnStarted.None?
  }

  /** The start time of a turn stays at the time of its first poll. */
  lemma {:induction false} TurnStartStays(polls: seq<Poll>, turn: Id)
    requires OneTurn(polls, turn) && polls != []
    ensures Run(None, polls).Some? && Run(None, polls).value.compact.turn == turn
    ensures Run(None, polls).value.compact.turnStarted == Some(polls[0].now)
    decreases |polls|
  {
    if |polls| > 1 {
      TurnStartStays(polls[..|polls| - 1], turn);
    } else {
      assert polls[..0] == [];
    }
  }

  /** Every poll reads the same tool of the same turn and leaves its times open. */
  predicate OneTool(polls: seq<Poll>, turn: Id, key: ToolKey) {
    && key != NoTool
    && forall i :: 0 <= i < |polls| ==>
         polls[i].reading.turn == turn && KeyOf(polls[i].reading) == key && polls[i].reading.toolStarted.None? && polls[i].reading.toolUpdated.None?
  }

  /** The last poll at which the fingerprint of the tool changed, or the first poll. */
  function LastChange(polls: seq<Poll>): (i: nat)
    requires polls != []
    ensures i < |polls|
  {
    var last := |polls| - 1;
    if last == 0 || polls[last].reading.toolPrint != polls[last - 1].reading.toolPrint then last else LastChange(polls[..last])
  }

  lemma CompactedTool(previous: Option<State>, r: Reading, now: int)
    requires KeyOf(r) != NoTool && r.toolStarted.None? && r.toolUpdated.None?
    ensures
      var c := Compact(previous, r, now).compact;
      && c.turn == r.turn && KeyOf(c) == KeyOf(r) && c.toolPrint == r.toolPrint
      && (previous.None? ==> c.toolStarted == Some(now) && c.toolUpdated == Some(now))
      && (previous.Some? ==>
            var p := previous.value.compact;
            KeyOf(p) == KeyOf(r) && p.turn == r.turn && p.toolStarted.Some? && p.toolUpdated.Some? ==>
              && c.toolStarted == p.toolStarted
              && c.toolUpdated == if p.toolPrint == r.toolPrint then p.toolUpdated else Some(now))
  {
  }

  /** The update time of a tool moves only when its fingerprint changes, its start time never. */
  lemma {:induction false} ToolTimeMovesWithThePrint(polls: seq<Poll>, turn: Id, key: ToolKey)
    requires OneTool(polls, turn, key) && polls != []
    ensures
      var s := Run(None, polls);
      && s.Some?
      && s.value.compact.turn == turn && KeyOf(s.value.compact) == key
      && s.value.compact.toolPrint == polls[|polls| - 1].reading.toolPrint
      && s.value.compact.toolStarted == Some(polls[0].now)
      && s.value.compact.toolUpdated == Some(polls[LastChange(polls)].now)
    decreases |polls|
  {
    var last := |polls| - 1;
    var before := Run(None, polls[..last]);
    CompactedTool(before, polls[last].reading, polls[last].now);
    assert polls[..0] == [];
    hide Compact, SameTool;
    if last > 0 {
      ToolTimeMovesWithThePrint(polls[..last], turn, key);
    }
  }
}
