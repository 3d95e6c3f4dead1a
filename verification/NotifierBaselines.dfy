/** The notifier after a baseline without a read: what is reported right and what is not. */
module NotifierBaselines {
  import opened Ids
  import opened Notifier

  /** ObserveNotifierThread stores a thread without a baseline, and
      BaselineNotifierObservationsAtOrBefore baselines it without reading it. */
  const DISCOVERED := Observation(false, NONE, Unset)

  function Baseline(o: Observation): Observation {
    o.(baseline := true)
  }

  /** Such an observation looks like that of a read that saw no turn. */
  const UNREAD := Observation(true, NONE, Unset)

  lemma UnreadIsBoth()
    ensures Baseline(DISCOVERED) == UNREAD && Read([]) == UNREAD
  {
  }

  /** Then only the last turn is looked at. */
  lemma UnreadShowsTheLast(turns: seq<Turn>, updated: bool)
    requires turns != [] && turns[|turns| - 1].id != NONE
    ensures Since(UNREAD, turns, updated) == if Reportable(turns[|turns| - 1]) then [turns[|turns| - 1]] else []
  {
    var last := turns[|turns| - 1];
    assert turns[|turns| - 1..] == [] + [last];
    SelectNext([], last, Moved(UNREAD, updated));
  }

  /** No turn but the last ended since the baseline, and a baseline that is the last turn
      itself is not reportable. */
  ghost predicate RightAtOnce(base: seq<Turn>, h: seq<Turn>)
    requires h != [] && Unfinished(base) <= |h|
  {
    if Unfinished(base) < |h| then Reports(h[Unfinished(base)..|h| - 1]) == [] else !Reportable(h[|h| - 1])
  }

  lemma ReportsAppend(turns: seq<Turn>, last: Turn)
    ensures Reports(turns + [last]) == Reports(turns) + if Reportable(last) then [last] else []
  {
    SelectNext(turns, last, Reportable);
  }

  lemma ReportsNext(h: seq<Turn>, from: nat)
    requires from < |h|
    ensures Reports(h[from..]) == Reports(h[..|h| - 1][from..]) + if Reportable(h[|h| - 1]) then [h[|h| - 1]] else []
  {
    var front := h[..|h| - 1];
    assert h[from..] == front[from..] + [h[|h| - 1]];
    hide *;
    ReportsAppend(front[from..], h[|h| - 1]);
  }

  /** Exactly when the first read after an unread baseline is right: no turn but the last
      ended since, and when none was added the last one is not reportable. */
  lemma UnreadBaselineRightExactlyWhen(base: seq<Turn>, later: seq<Turn>, updated: bool)
    requires WellFormed(base) && WellFormed(later) && Extends(base, later) && later != []
    ensures Unfinished(base) <= |later|
    ensures Since(UNREAD, later, updated) == Reports(later[Unfinished(base)..]) <==> RightAtOnce(base, later)
  {
    var from, last := Unfinished(base), |later| - 1;
    assert from <= |later|;
    UnreadShowsTheLast(later, updated);
    assert Reports([]) == [];
    hide WellFormed, Extends, Unfinished, Since, Reports, Reportable;
    if from < |later| {
      ReportsNext(later, from);
      assert later[..last][from..] == later[from..last];
    } else {
      assert later[from..] == [];
    }
  }

  /** Two reportable turns that end before the first read: the first is never reported. */
  lemma UnreadBaselineCanMissATurn(first: Turn, second: Turn, updated: bool)
    requires Reportable(first) && Reportable(second) && first.id != NONE && second.id != NONE && first.id != second.id
    ensures WellFormed([first, second]) && Extends([], [first, second])
    ensures Since(UNREAD, [first, second], updated) == [second] && Reports([first, second]) == [first, second]
  {
    var later := [first, second];
    UnreadShowsTheLast(later, updated);
    assert Reports([]) == [];
    assert WellFormed(later) && Extends([], later);
    hide *;
    ReportsAppend([], first);
    ReportsAppend([first], second);
    assert [] + [first] == [first] && [first] + [second] == later;
  }

  /** A turn that ended before the baseline is reported when nothing was added since. */
  lemma UnreadBaselineCanReportAnOldTurn()
    ensures
      var base := [Turn(1, Completed, true)];
      WellFormed(base) && Unfinished(base) == |base| && Since(UNREAD, base, true) == base
  {
    UnreadShowsTheLast([Turn(1, Completed, true)], true);
  }

  // ---- Runs after an unread baseline ----

  /** The turns at the given positions, in order. */
  ghost function At(h: seq<Turn>, positions: set<nat>): seq<Turn> {
    if h == [] then []
    else At(h[..|h| - 1], positions) + if |h| - 1 in positions then [h[|h| - 1]] else []
  }

  /** A poll that enqueues the last turn it sees. */
  predicate Shows(poll: Poll) {
    poll.turns != [] && Reportable(poll.turns[|poll.turns| - 1]) && poll.stopped != Some(0)
  }

  function Shown(polls: seq<Poll>): set<nat> {
    set j | 0 <= j < |polls| && Shows(polls[j]) :: |polls[j].turns| - 1
  }

  ghost predicate Picked(queue: seq<Event>, h: seq<Turn>, positions: set<nat>) {
    && (forall i :: i in positions ==> i < |h| && Reportable(h[i]))
    && queue == Events(At(h, positions))
  }

  lemma {:induction false} AtLater(h: seq<Turn>, later: seq<Turn>, positions: set<nat>)
    requires |h| <= |later| && forall i :: i in positions ==> i < |h| && later[i] == h[i]
    ensures At(later, positions) == At(h, positions)
    decreases |later|
  {
    if |later| > |h| {
      AtLater(h, later[..|later| - 1], positions);
    } else if h != [] {
      AtFront(h, positions);
      AtFront(later, positions);
      AtLater(h[..|h| - 1], later[..|h| - 1], positions - {|h| - 1});
    }
  }

  /** Positions outside the text do not matter. */
  lemma AtFront(h: seq<Turn>, positions: set<nat>)
    requires h != []
    ensures At(h[..|h| - 1], positions) == At(h[..|h| - 1], positions - {|h| - 1})
  {
    AtInside(h[..|h| - 1], positions, positions - {|h| - 1});
  }

  lemma {:induction false} AtInside(h: seq<Turn>, a: set<nat>, b: set<nat>)
    requires forall i :: 0 <= i < |h| ==> (i in a <==> i in b)
    ensures At(h, a) == At(h, b)
    decreases |h|
  {
    if h != [] {
      AtInside(h[..|h| - 1], a, b);
    }
  }

  lemma {:induction false} PickedHas(h: seq<Turn>, positions: set<nat>, i: nat)
    requires i < |h| && i in positions
    ensures h[i] in At(h, positions)
    decreases |h|
  {
    if i < |h| - 1 {
      PickedHas(h[..|h| - 1], positions, i);
    }
  }

  lemma {:induction false} PickedFrom(h: seq<Turn>, positions: set<nat>)
    ensures forall t :: t in At(h, positions) ==> exists j: nat :: j < |h| && j in positions && t == h[j]
    decreases |h|
  {
    if h != [] {
      var front := h[..|h| - 1];
      PickedFrom(front, positions);
      forall t | t in At(front, positions)
        ensures exists j: nat :: j < |h| && j in positions && t == h[j]
      {
        var j: nat :| j < |front| && j in positions && t == front[j];
        assert h[j] == t;
      }
    }
  }

  lemma {:induction false} PickedDistinct(h: seq<Turn>, positions: set<nat>)
    requires DistinctIds(h)
    ensures DistinctIds(At(h, positions)) && Distinct(Events(At(h, positions)))
    decreases |h|
  {
    if h != [] {
      var front := h[..|h| - 1];
      PickedDistinct(front, positions);
      PickedFrom(front, positions);
      forall k | 0 <= k < |At(front, positions)|
        ensures At(front, positions)[k].id != h[|h| - 1].id
      {
        assert At(front, positions)[k] in At(front, positions);
      }
    }
  }

  lemma InPicked(h: seq<Turn>, positions: set<nat>, i: nat)
    requires DistinctIds(h) && i < |h|
    ensures EventOf(h[i]) in Events(At(h, positions)) <==> i in positions
  {
    var picked := At(h, positions);
    if i in positions {
      PickedHas(h, positions, i);
      var k :| 0 <= k < |picked| && picked[k] == h[i];
      assert Events(picked)[k] == EventOf(h[i]);
    }
    if EventOf(h[i]) in Events(picked) {
      var k :| 0 <= k < |picked| && Events(picked)[k] == EventOf(h[i]);
      assert picked[k] in picked;
      PickedFrom(h, positions);
    }
  }

  /** The turns from `from` on that have a reportable end. */
  function Ends(h: seq<Turn>, from: nat): set<nat> {
    set i | from <= i < |h| && Reportable(h[i])
  }

  lemma {:induction false} ReportsAt(h: seq<Turn>, from: nat)
    requires from <= |h|
    ensures Reports(h[from..]) == At(h, Ends(h, from))
    decreases |h|
  {
    if from == |h| {
      assert h[from..] == [];
      AtInside(h, Ends(h, from), {});
      AtNothing(h);
    } else {
      var last := |h| - 1;
      var front := h[..last];
      assert forall i :: 0 <= i < last ==> (i in Ends(h, from) <==> i in Ends(front, from));
      assert last in Ends(h, from) <==> Reportable(h[last]);
      hide Ends, Reportable, Reports;
      ReportsAt(front, from);
      AtInside(front, Ends(h, from), Ends(front, from));
      ReportsNext(h, from);
    }
  }

  lemma {:induction false} AtNothing(h: seq<Turn>)
    ensures At(h, {}) == []
    decreases |h|
  {
    if h != [] {
      AtNothing(h[..|h| - 1]);
    }
  }

  /** Picking exactly the reportable turns from `from` on is the only way to be right. */
  lemma PickedRightExactlyWhen(h: seq<Turn>, positions: set<nat>, from: nat)
    requires DistinctIds(h) && from <= |h| && forall i :: i in positions ==> i < |h| && Reportable(h[i])
    ensures Events(At(h, positions)) == Events(Reports(h[from..])) <==>
      positions == Ends(h, from)
  {
    var wanted := Ends(h, from);
    ReportsAt(h, from);
    if Events(At(h, positions)) == Events(At(h, wanted)) {
      forall i | 0 <= i < |h|
        ensures i in positions <==> i in wanted
      {
        InPicked(h, positions, i);
        InPicked(h, wanted, i);
      }
      assert forall i :: i in positions <==> i in wanted;
    }
  }

  function ShownBy(poll: Poll): set<nat> {
    if Shows(poll) then {|poll.turns| - 1} else {}
  }

  lemma ShownCons(first: Poll, rest: seq<Poll>)
    ensures Shown([first] + rest) == ShownBy(first) + Shown(rest)
  {
    var all := [first] + rest;
    assert forall j :: 0 <= j < |rest| ==> all[j + 1] == rest[j];
    forall i | i in Shown(rest)
      ensures i in Shown(all)
    {
      var j :| 0 <= j < |rest| && Shows(rest[j]) && i == |rest[j].turns| - 1;
      assert Shows(all[j + 1]);
    }
    if Shows(first) {
      assert Shows(all[0]);
    }
  }

  lemma UnreadEvents(poll: Poll, queue: seq<Event>)
    requires WellFormed(poll.turns)
    ensures
      Next(State(UNREAD, queue), poll).queue ==
      if Shows(poll) && EventOf(poll.turns[|poll.turns| - 1]) !in queue then queue + [EventOf(poll.turns[|poll.turns| - 1])] else queue
  {
    if poll.turns != [] {
      UnreadShowsTheLast(poll.turns, poll.updated);
    }
    var events := Events(Since(UNREAD, poll.turns, poll.updated));
    NextQueue(State(UNREAD, queue), poll, events);
    var taken := events[..Reached(poll, |events|)];
    assert taken == if Shows(poll) then [EventOf(poll.turns[|poll.turns| - 1])] else [];
    assert taken != [] ==> taken[1..] == [];
  }

  lemma AddLast(h: seq<Turn>, positions: set<nat>)
    requires h != [] && |h| - 1 !in positions
    ensures Events(At(h, positions + {|h| - 1})) == Events(At(h, positions)) + [EventOf(h[|h| - 1])]
  {
    var last := |h| - 1;
    AtInside(h[..last], positions + {last}, positions);
    assert At(h, positions) == At(h[..last], positions);
    assert At(h, positions + {last}) == At(h[..last], positions) + [h[last]];
    EventsConcat(At(h[..last], positions), [h[last]]);
    assert Events([h[last]]) == [EventOf(h[last])];
  }

  lemma PickedLater(queue: seq<Event>, h: seq<Turn>, later: seq<Turn>, positions: set<nat>)
    requires WellFormed(h) && Extends(h, later) && Picked(queue, h, positions)
    ensures Picked(queue, later, positions)
  {
    AtLater(h, later, positions);
  }

  /** One poll of an unread observation adds the last turn, unless it is there already. */
  lemma PickStep(queue: seq<Event>, h: seq<Turn>, positions: set<nat>, poll: Poll)
    requires WellFormed(h) && WellFormed(poll.turns) && Extends(h, poll.turns) && Picked(queue, h, positions)
    ensures Picked(Next(State(UNREAD, queue), poll).queue, poll.turns, positions + ShownBy(poll))
  {
    var later := poll.turns;
    PickedLater(queue, h, later, positions);
    UnreadEvents(poll, queue);
    assert DistinctIds(later);
    hide WellFormed, DistinctIds, Extends, Next, Reportable, At, Events;
    if Shows(poll) {
      var last := |later| - 1;
      InPicked(later, positions, last);
      if last in positions {
        assert positions + {last} == positions;
      } else {
        AddLast(later, positions);
      }
    } else {
      assert positions + {} == positions;
    }
  }

  /** A poll that records a read of turns. */
  predicate Reads(poll: Poll) {
    poll.stopped.None? && poll.turns != []
  }

  lemma StaysUnread(queue: seq<Event>, poll: Poll)
    requires !Reads(poll)
    ensures Next(State(UNREAD, queue), poll).observation == UNREAD
  {
  }

  lemma {:induction false} UnreadRun(queue: seq<Event>, h: seq<Turn>, positions: set<nat>, polls: seq<Poll>)
    requires WellFormed(h) && Chain(h, polls) && Picked(queue, h, positions)
    requires forall j :: 0 <= j < |polls| ==> !Reads(polls[j])
    ensures WellFormed(LastTurns(h, polls)) && Run(State(UNREAD, queue), polls).observation == UNREAD
    ensures Picked(Run(State(UNREAD, queue), polls).queue, LastTurns(h, polls), positions + Shown(polls))
    decreases |polls|
  {
    hide Picked, WellFormed, Extends, Next, Reads, Shows, ShownBy;
    if polls == [] {
      assert positions + Shown(polls) == positions;
    } else {
      var next := Next(State(UNREAD, queue), polls[0]);
      StaysUnread(queue, polls[0]);
      assert next == State(UNREAD, next.queue);
      assert forall j :: 0 <= j < |polls[1..]| ==> polls[1..][j] == polls[j + 1];
      PickStep(queue, h, positions, polls[0]);
      UnreadRun(next.queue, polls[0].turns, positions + ShownBy(polls[0]), polls[1..]);
      assert polls == [polls[0]] + polls[1..];
      ShownCons(polls[0], polls[1..]);
      assert positions + Shown(polls) == positions + ShownBy(polls[0]) + Shown(polls[1..]);
    }
  }

  lemma {:induction false} RunSplits(s: State, first: seq<Poll>, rest: seq<Poll>)
    ensures Run(s, first + rest) == Run(Run(s, first), rest)
    decreases |first|
  {
    hide Next;
    if first == [] {
      assert first + rest == rest;
    } else {
      assert (first + rest)[1..] == first[1..] + rest;
      RunSplits(Next(s, first[0]), first[1..], rest);
    }
  }

  lemma {:induction false} ChainSplits(h: seq<Turn>, first: seq<Poll>, rest: seq<Poll>)
    requires WellFormed(h) && Chain(h, first + rest)
    ensures Chain(h, first) && Chain(LastTurns(h, first), rest)
    ensures WellFormed(LastTurns(h, first)) && Extends(h, LastTurns(h, first))
    decreases |first|
  {
    if first == [] {
      assert first + rest == rest;
    } else {
      assert (first + rest)[1..] == first[1..] + rest;
      var next := first[0].turns;
      hide WellFormed;
      ChainSplits(next, first[1..], rest);
      ExtendsTransitive(h, next, LastTurns(next, first[1..]));
      assert LastTurns(h, first) == LastTurns(next, first[1..]);
    }
  }

  lemma PickedIsEarly(queue: seq<Event>, h: seq<Turn>, positions: set<nat>)
    requires WellFormed(h) && Picked(queue, h, positions)
    ensures Early(queue, h)
  {
    PickedFrom(h, positions);
    PickedDistinct(h, positions);
    var picked := At(h, positions);
    forall e | e in queue
      ensures exists i :: 0 <= i < Unfinished(h) && e == EventOf(h[i])
    {
      var k :| 0 <= k < |picked| && queue[k] == e;
      assert picked[k] in picked;
      var j: nat :| j < |h| && j in positions && picked[k] == h[j];
      assert Reportable(h[j]) && j < Unfinished(h);
    }
  }

  /** The first poll that records a read of turns is number k. */
  predicate FirstRead(polls: seq<Poll>, k: nat) {
    k < |polls| && Reads(polls[k]) && forall j :: 0 <= j < k ==> !Reads(polls[j])
  }

  /** Up to that poll, each turn that ended since the baseline was once the last turn of
      a poll that enqueued it, and no older turn was. */
  ghost predicate SawEachEnd(base: seq<Turn>, polls: seq<Poll>, k: nat)
    requires k < |polls|
  {
    var h := polls[k].turns;
    && (forall i: nat :: ShowedAt(polls, k, i) ==> i >= Unfinished(base))
    && (forall i :: Unfinished(base) <= i < |h| && Reportable(h[i]) ==> ShowedAt(polls, k, i))
  }

  /** Turn i was the last one of a poll up to number k that enqueued it. */
  ghost predicate ShowedAt(polls: seq<Poll>, k: nat, i: nat)
    requires k < |polls|
  {
    exists j :: 0 <= j <= k && Shows(polls[j]) && |polls[j].turns| == i + 1
  }

  lemma ShowedIsShown(polls: seq<Poll>, k: nat, i: nat)
    requires k < |polls|
    ensures ShowedAt(polls, k, i) <==> i in Shown(polls[..k]) + ShownBy(polls[k])
  {
    if ShowedAt(polls, k, i) {
      var j :| 0 <= j <= k && Shows(polls[j]) && |polls[j].turns| == i + 1;
      if j < k {
        assert polls[..k][j] == polls[j];
      }
    }
    if i in Shown(polls[..k]) {
      var j :| 0 <= j < k && Shows(polls[..k][j]) && i == |polls[..k][j].turns| - 1;
      assert polls[..k][j] == polls[j];
    }
  }

  lemma SawEachEndAsSets(base: seq<Turn>, polls: seq<Poll>, k: nat, shown: set<nat>)
    requires k < |polls| && shown == Shown(polls[..k]) + ShownBy(polls[k])
    requires forall i :: i in shown ==> i < |polls[k].turns| && Reportable(polls[k].turns[i])
    ensures SawEachEnd(base, polls, k) <==>
      shown == Ends(polls[k].turns, Unfinished(base))
  {
    forall i: nat
      ensures ShowedAt(polls, k, i) <==> i in shown
    {
      ShowedIsShown(polls, k, i);
    }
    hide ShowedAt, Shown, ShownBy, Shows;
    assert forall i: nat :: i in Ends(polls[k].turns, Unfinished(base)) <==> Unfinished(base) <= i < |polls[k].turns| && Reportable(polls[k].turns[i]);
  }

  /** The history up to the first recorded read, and what comes after it. */
  lemma Cut(base: seq<Turn>, polls: seq<Poll>, k: nat)
    requires WellFormed(base) && Chain(base, polls) && FirstRead(polls, k)
    ensures
      var before, rest, h := polls[..k], polls[k + 1..], polls[k].turns;
      && Chain(base, before) && Chain(h, rest) && LastTurns(h, rest) == LastTurns(base, polls)
      && WellFormed(LastTurns(base, before)) && WellFormed(h)
      && Extends(base, LastTurns(base, before)) && Extends(LastTurns(base, before), h) && Extends(base, h)
      && (rest == [] || rest[|rest| - 1] == polls[|polls| - 1])
      && Run(State(UNREAD, []), polls) == Run(Next(Run(State(UNREAD, []), before), polls[k]), rest)
  {
    var before, rest, h := polls[..k], polls[k + 1..], polls[k].turns;
    var from := [polls[k]] + rest;
    assert polls == before + from && from[0] == polls[k] && from[1..] == rest;
    hide WellFormed, Extends, Next;
    ChainSplits(base, before, from);
    RunSplits(State(UNREAD, []), before, from);
    ExtendsTransitive(base, LastTurns(base, before), h);
    assert rest != [] ==> rest[|rest| - 1] == polls[|polls| - 1];
  }

  /** At the first recorded read the queue holds what the polls so far showed. */
  lemma PickedAtTheRead(base: seq<Turn>, polls: seq<Poll>, k: nat)
    requires WellFormed(base) && Chain(base, polls) && FirstRead(polls, k)
    ensures
      var read := Next(Run(State(UNREAD, []), polls[..k]), polls[k]);
      var shown := Shown(polls[..k]) + ShownBy(polls[k]);
      && polls[k].turns != [] && read == State(Read(polls[k].turns), read.queue)
      && Picked(read.queue, polls[k].turns, shown)
      && forall i :: i in shown ==> i < |polls[k].turns| && Reportable(polls[k].turns[i])
  {
    var before, h := polls[..k], polls[k].turns;
    Cut(base, polls, k);
    var seen := LastTurns(base, before);
    AtNothing(base);
    assert Picked([], base, {});
    hide Picked, WellFormed, Extends;
    UnreadRun([], base, {}, before);
    assert {} + Shown(before) == Shown(before);
    PickStep(Run(State(UNREAD, []), before).queue, seen, Shown(before), polls[k]);
    PickedInside(Next(Run(State(UNREAD, []), before), polls[k]).queue, h, Shown(before) + ShownBy(polls[k]));
  }

  lemma PickedInside(queue: seq<Event>, h: seq<Turn>, positions: set<nat>)
    requires Picked(queue, h, positions)
    ensures forall i :: i in positions ==> i < |h| && Reportable(h[i])
  {
  }

  /** Exactly once after a baseline without a read (a thread that was only listed, or a
      read that saw no turn): after a completed poll the queue holds the events of
      exactly the turns that ended since the baseline, each once and in order, if and
      only if the polls up to the first recorded read saw each end as it came. */
  lemma UnreadBaselineExactlyOnceExactlyWhen(base: seq<Turn>, polls: seq<Poll>, k: nat)
    requires WellFormed(base) && Chain(base, polls) && FirstRead(polls, k) && polls[|polls| - 1].stopped.None?
    ensures |base| <= |LastTurns(base, polls)|
    ensures Run(State(UNREAD, []), polls).queue == New(base, LastTurns(base, polls)) <==> SawEachEnd(base, polls, k)
  {
    var rest, h := polls[k + 1..], polls[k].turns;
    var shown := Shown(polls[..k]) + ShownBy(polls[k]);
    var read := Next(Run(State(UNREAD, []), polls[..k]), polls[k]);
    Cut(base, polls, k);
    PickedAtTheRead(base, polls, k);
    hide *;
    PickedIsEarly(read.queue, h, shown);
    QueueFollowsTheRead(read.queue, h, rest);
    SawEachEndAsSets(base, polls, k, shown);
    AfterTheRead(base, h, rest, read.queue, shown);
  }

  /** From the first recorded read on nothing more can go wrong or be made good. */
  lemma AfterTheRead(base: seq<Turn>, h: seq<Turn>, rest: seq<Poll>, queue: seq<Event>, shown: set<nat>)
    requires WellFormed(base) && WellFormed(h) && Extends(base, h) && Chain(h, rest) && Picked(queue, h, shown)
    ensures |base| <= |h| <= |LastTurns(h, rest)|
    ensures queue + New(h, LastTurns(h, rest)) == New(base, LastTurns(h, rest)) <==>
      shown == Ends(h, Unfinished(base))
  {
    assert rest == rest + [];
    ChainSplits(h, rest, []);
    NewSplits(base, h, LastTurns(h, rest));
    PickedRightExactlyWhen(h, shown, Unfinished(base));
    NewUnfolds(base, h);
    Cancel(queue, New(base, h), New(h, LastTurns(h, rest)));
  }

  lemma Cancel(a: seq<Event>, b: seq<Event>, c: seq<Event>)
    ensures a + c == b + c <==> a == b
  {
    if a + c == b + c {
      assert |a| == |b|;
      assert a == (a + c)[..|a|] && b == (b + c)[..|b|];
    }
  }

  lemma {:induction false} NothingToReport(turns: seq<Turn>)
    ensures Reports(turns) == [] <==> forall i :: 0 <= i < |turns| ==> !Reportable(turns[i])
    decreases |turns|
  {
    if turns != [] {
      NothingToReport(turns[..|turns| - 1]);
    }
  }

  lemma OnlyTheReadShows(polls: seq<Poll>, k: nat, i: nat)
    requires k < |polls| && Reads(polls[k]) && forall j :: 0 <= j < k ==> !Shows(polls[j])
    ensures ShowedAt(polls, k, i) <==> Reportable(polls[k].turns[|polls[k].turns| - 1]) && i == |polls[k].turns| - 1
  {
    if Reportable(polls[k].turns[|polls[k].turns| - 1]) {
      assert Shows(polls[k]);
    }
  }

  ghost predicate OnlyLast(h: seq<Turn>, from: nat)
    requires h != []
  {
    (Reportable(h[|h| - 1]) ==> |h| > from) && forall i :: from <= i < |h| - 1 ==> !Reportable(h[i])
  }

  lemma SawOnlyLast(base: seq<Turn>, polls: seq<Poll>, k: nat)
    requires k < |polls| && Reads(polls[k])
    requires forall i: nat :: ShowedAt(polls, k, i) <==> Reportable(polls[k].turns[|polls[k].turns| - 1]) && i == |polls[k].turns| - 1
    ensures SawEachEnd(base, polls, k) <==> OnlyLast(polls[k].turns, Unfinished(base))
  {
    var h, from := polls[k].turns, Unfinished(base);
    hide Reportable, Unfinished, ShowedAt, Shows;
    assert ShowedAt(polls, k, |h| - 1) <==> Reportable(h[|h| - 1]);
    assert forall i: nat :: i < |h| - 1 ==> !ShowedAt(polls, k, i);
  }

  lemma RightMeansOnlyLast(base: seq<Turn>, h: seq<Turn>)
    requires h != [] && Unfinished(base) <= |h|
    ensures RightAtOnce(base, h) <==> OnlyLast(h, Unfinished(base))
  {
    var from, last := Unfinished(base), |h| - 1;
    hide Reportable, Unfinished, Reports;
    if from <= last {
      var middle := h[from..last];
      NothingToReport(middle);
      assert forall x :: 0 <= x < |middle| ==> middle[x] == h[from + x];
      assert forall i :: from <= i < last ==> h[i] == middle[i - from];
    }
  }

  lemma SawEachEndAtOnce(base: seq<Turn>, polls: seq<Poll>, k: nat)
    requires k < |polls| && Reads(polls[k]) && Unfinished(base) <= |polls[k].turns|
    requires forall j :: 0 <= j < k ==> !Shows(polls[j])
    ensures SawEachEnd(base, polls, k) <==> RightAtOnce(base, polls[k].turns)
  {
    assert polls[k].turns != [];
    hide *;
    forall i: nat
      ensures ShowedAt(polls, k, i) <==> Reportable(polls[k].turns[|polls[k].turns| - 1]) && i == |polls[k].turns| - 1
    {
      OnlyTheReadShows(polls, k, i);
    }
    SawOnlyLast(base, polls, k);
    RightMeansOnlyLast(base, polls[k].turns);
  }

  lemma ReadIsLater(base: seq<Turn>, polls: seq<Poll>, k: nat)
    requires WellFormed(base) && Chain(base, polls) && k < |polls|
    ensures WellFormed(polls[k].turns) && Extends(base, polls[k].turns)
  {
    assert polls == polls[..k + 1] + polls[k + 1..];
    ChainSplits(base, polls[..k + 1], polls[k + 1..]);
  }

  /** When no poll before the first recorded read enqueued anything, that read decides:
      the run is right if and only if the read itself was. */
  lemma FirstReadDecides(base: seq<Turn>, polls: seq<Poll>, k: nat)
    requires WellFormed(base) && Chain(base, polls) && FirstRead(polls, k) && polls[|polls| - 1].stopped.None?
    requires forall j :: 0 <= j < k ==> !Shows(polls[j])
    ensures |base| <= |LastTurns(base, polls)| && Unfinished(base) <= |polls[k].turns|
    ensures Run(State(UNREAD, []), polls).queue == New(base, LastTurns(base, polls)) <==>
      Since(UNREAD, polls[k].turns, polls[k].updated) == Reports(polls[k].turns[Unfinished(base)..])
  {
    UnreadBaselineExactlyOnceExactlyWhen(base, polls, k);
    ReadIsLater(base, polls, k);
    hide Run, New, SawEachEnd, Since, Reports, WellFormed, Chain;
    UnreadBaselineRightExactlyWhen(base, polls[k].turns, polls[k].updated);
    SawEachEndAtOnce(base, polls, k);
  }
}
