/** The notifier: which finished turns of a thread it reports on each read. */
module Notifier {
  import opened Ids

  datatype Status = Completed | Failed | Interrupted | Canceled | Cancelled | Unset | Other(name: Id)

  /** `signal` says that the turn carries a final answer. */
  datatype Turn = Turn(id: Id, status: Status, signal: bool)

  datatype Observation = Observation(baseline: bool, turn: Id, status: Status)

  function Canonical(status: Status): Status {
    if status.Canceled? || status.Cancelled? then Interrupted else status
  }

  predicate Terminal(turn: Turn) {
    var status := Canonical(turn.status);
    status.Completed? || status.Failed? || status.Interrupted?
  }

  /** notifierTerminalStatus: an interrupted turn counts only with a final answer. */
  predicate Reportable(turn: Turn) {
    Terminal(turn) && (Canonical(turn.status).Interrupted? ==> turn.signal)
  }

  /** notifierTerminalTransition; `updated` says that the thread changed after activation. */
  predicate Transition(previous: Observation, turn: Turn, updated: bool) {
    && turn.id != NONE && Reportable(turn)
    && (if !previous.baseline then updated else previous.turn != turn.id || Canonical(previous.status) != Canonical(turn.status))
  }

  function Select(turns: seq<Turn>, wanted: Turn -> bool): (chosen: seq<Turn>)
    ensures forall t :: t in chosen ==> t in turns && wanted(t)
  {
    if turns == [] then []
    else Select(turns[..|turns| - 1], wanted) + if wanted(turns[|turns| - 1]) then [turns[|turns| - 1]] else []
  }

  function Reports(turns: seq<Turn>): seq<Turn> {
    Select(turns, Reportable)
  }

  /** The scan starts at the turn of the previous read, or at the last turn when that
      one is unknown. */
  predicate StartsAt(previous: Id, turns: seq<Turn>, start: nat) {
    && start < |turns|
    && if previous != NONE && exists i :: 0 <= i < |turns| && turns[i].id == previous
       then turns[start].id == previous && forall i :: 0 <= i < start ==> turns[i].id != previous
       else start == |turns| - 1
  }

  method StartIndex(previous: Id, turns: seq<Turn>) returns (start: nat)
    requires turns != []
    ensures StartsAt(previous, turns, start)
  {
    if previous == NONE { return |turns| - 1; }
    for i := 0 to |turns|
      invariant forall j :: 0 <= j < i ==> turns[j].id != previous
    {
      if turns[i].id == previous { return i; }
    }
    start := |turns| - 1;
  }

  function Start(previous: Id, turns: seq<Turn>): (start: nat)
    requires turns != []
    ensures StartsAt(previous, turns, start)
  {
    if previous == NONE then |turns| - 1 else FirstWith(previous, turns, 0)
  }

  function FirstWith(previous: Id, turns: seq<Turn>, from: nat): (start: nat)
    requires from <= |turns| && turns != [] && forall i :: 0 <= i < from ==> turns[i].id != previous
    ensures start < |turns|
    ensures (exists i :: 0 <= i < |turns| && turns[i].id == previous) ==> turns[start].id == previous && forall i :: 0 <= i < start ==> turns[i].id != previous
    ensures !(exists i :: 0 <= i < |turns| && turns[i].id == previous) ==> start == |turns| - 1
    decreases |turns| - from
  {
    if from == |turns| then |turns| - 1
    else if turns[from].id == previous then from
    else FirstWith(previous, turns, from + 1)
  }

  /** The turns that ended since the previous read. */
  function Moved(previous: Observation, updated: bool): Turn -> bool {
    (t: Turn) => Transition(previous, t, updated)
  }

  function Since(previous: Observation, turns: seq<Turn>, updated: bool): seq<Turn> {
    if turns == [] then []
    else if !previous.baseline then
      if updated && Reportable(turns[|turns| - 1]) then [turns[|turns| - 1]] else []
    else Select(turns[Start(previous.turn, turns)..], Moved(previous, updated))
  }

  /** notifierTerminalSnapshotsSince. */
  method TerminalSnapshotsSince(previous: Observation, turns: seq<Turn>, updated: bool) returns (chosen: seq<Turn>)
    ensures chosen == Since(previous, turns, updated)
  {
    if turns == [] { return []; }
    if !previous.baseline {
      var latest := turns[|turns| - 1];
      if !updated { return []; }
      if !Reportable(latest) { return []; }
      return [latest];
    }
    var start := StartIndex(previous.turn, turns);
    StartIsUnique(previous.turn, turns, start);
    chosen := SelectMoved(previous, turns[start..], updated);
  }

  /** The loop over the turns from the start of the scan on. */
  method SelectMoved(previous: Observation, turns: seq<Turn>, updated: bool) returns (chosen: seq<Turn>)
    ensures chosen == Select(turns, Moved(previous, updated))
  {
    hide Select;
    SelectNone([], Moved(previous, updated));
    chosen := [];
    for i := 0 to |turns|
      invariant chosen == Select(turns[..i], Moved(previous, updated))
    {
      SelectNext(turns[..i], turns[i], Moved(previous, updated));
      assert turns[..i + 1] == turns[..i] + [turns[i]];
      var current := turns[i];
      if Reportable(current) {
        if Transition(previous, current, updated) {
          chosen := chosen + [current];
        }
      }
    }
    assert turns[..|turns|] == turns;
  }

  lemma SelectNext(turns: seq<Turn>, last: Turn, p: Turn -> bool)
    ensures Select(turns + [last], p) == Select(turns, p) + if p(last) then [last] else []
  {
  }

  lemma StartIsUnique(previous: Id, turns: seq<Turn>, start: nat)
    requires turns != [] && StartsAt(previous, turns, start)
    ensures start == Start(previous, turns)
  {
  }

  // ---- Append-only histories ----

  ghost predicate DistinctIds(turns: seq<Turn>) {
    forall i, j :: 0 <= i < j < |turns| ==> turns[i].id != turns[j].id
  }

  /** Turn ids are unique, and only the last turn may still run. */
  ghost predicate WellFormed(h: seq<Turn>) {
    && (forall i :: 0 <= i < |h| ==> h[i].id != NONE)
    && DistinctIds(h)
    && (forall i :: 0 <= i < |h| - 1 ==> Terminal(h[i]))
  }

  /** Later histories append turns and change only the one that still ran. */
  ghost predicate Extends(h: seq<Turn>, later: seq<Turn>) {
    && |h| <= |later|
    && (forall i :: 0 <= i < |h| ==> later[i].id == h[i].id && (Terminal(h[i]) ==> later[i] == h[i]))
  }

  /** What RecordNotifierRead stores after a read of h. */
  function Read(h: seq<Turn>): Observation {
    if h == [] then Observation(true, NONE, Unset)
    else Observation(true, h[|h| - 1].id, Canonical(h[|h| - 1].status))
  }

  /** The first turn whose end is still to be reported after a read of h. */
  function Unfinished(h: seq<Turn>): (from: nat)
    ensures from <= |h|
  {
    if h != [] && !Terminal(h[|h| - 1]) then |h| - 1 else |h|
  }

  lemma {:induction false} SelectAgrees(turns: seq<Turn>, p: Turn -> bool, q: Turn -> bool)
    requires forall t :: t in turns ==> p(t) == q(t)
    ensures Select(turns, p) == Select(turns, q)
    decreases |turns|
  {
    if turns != [] {
      SelectAgrees(turns[..|turns| - 1], p, q);
    }
  }

  lemma {:induction false} SelectConcat(a: seq<Turn>, b: seq<Turn>, p: Turn -> bool)
    ensures Select(a + b, p) == Select(a, p) + Select(b, p)
    decreases |b|
  {
    if b == [] {
      assert a + b == a;
    } else {
      assert (a + b)[..|a + b| - 1] == a + b[..|b| - 1];
      SelectConcat(a, b[..|b| - 1], p);
    }
  }

  lemma {:induction false} SelectNone(turns: seq<Turn>, p: Turn -> bool)
    requires forall t :: t in turns ==> !p(t)
    ensures Select(turns, p) == []
    decreases |turns|
  {
    if turns != [] {
      SelectNone(turns[..|turns| - 1], p);
    }
  }

  /** The scan resumes at the last turn of the previous read, and later turns are new. */
  lemma ResumesAtTheLastTurn(h: seq<Turn>, later: seq<Turn>)
    requires WellFormed(later) && Extends(h, later) && h != []
    ensures |h| <= |later| && Start(Read(h).turn, later) == |h| - 1
    ensures later[|h| - 1].id == Read(h).turn != NONE
    ensures forall t :: t in later[|h|..] ==> t.id != NONE && t.id != Read(h).turn
    ensures Terminal(h[|h| - 1]) ==> later[|h| - 1] == h[|h| - 1]
  {
  }

  /** One read after another reports exactly the turns that ended in between. */
  lemma SinceReportsTheNewEnds(h: seq<Turn>, later: seq<Turn>, updated: bool)
    requires WellFormed(later) && Extends(h, later) && h != []
    ensures Unfinished(h) <= |later| && Since(Read(h), later, updated) == Reports(later[Unfinished(h)..])
  {
    ResumesAtTheLastTurn(h, later);
    hide WellFormed, Extends, Start;
    var previous := Read(h);
    var moved := Moved(previous, updated);
    var first, rest := [later[|h| - 1]], later[|h|..];
    assert later[|h| - 1..] == first + rest;
    SelectConcat(first, rest, moved);
    SelectConcat(first, rest, Reportable);
    SelectAgrees(rest, moved, Reportable);
    if Terminal(h[|h| - 1]) {
      SelectNone(first, moved);
    } else {
      SelectAgrees(first, moved, Reportable);
    }
  }

  // ---- Runs of polls ----

  /** The terminal event key of one thread: turn and status. */
  datatype Event = Event(turn: Id, status: Status)

  function EventOf(turn: Turn): Event {
    Event(turn.id, Canonical(turn.status))
  }

  function Events(turns: seq<Turn>): (events: seq<Event>)
    ensures |events| == |turns| && forall i :: 0 <= i < |turns| ==> events[i] == EventOf(turns[i])
  {
    seq(|turns|, i requires 0 <= i < |turns| => EventOf(turns[i]))
  }

  ghost predicate Distinct(events: seq<Event>) {
    forall i, j :: 0 <= i < j < |events| ==> events[i] != events[j]
  }

  /** EnqueueTerminalEvent ignores a key it has seen. */
  function Enqueue(queue: seq<Event>, events: seq<Event>): seq<Event>
    decreases |events|
  {
    if events == [] then queue
    else Enqueue(if events[0] in queue then queue else queue + [events[0]], events[1..])
  }

  /** A poll reads `turns`; it may stop before it recorded the read, after `stopped`
      events were enqueued (a crash, a storage error, or no delivery target). */
  datatype Poll = Poll(turns: seq<Turn>, updated: bool, stopped: Option<nat>)

  datatype State = State(observation: Observation, queue: seq<Event>)

  function First(events: seq<Event>, n: nat): seq<Event> {
    if n <= |events| then events[..n] else events
  }

  function Next(s: State, poll: Poll): State {
    var events := Events(Since(s.observation, poll.turns, poll.updated));
    match poll.stopped
    case Some(n) => s.(queue := Enqueue(s.queue, First(events, n)))
    case None => State(Read(poll.turns), Enqueue(s.queue, events))
  }

  function Run(s: State, polls: seq<Poll>): State
    decreases |polls|
  {
    if polls == [] then s else Run(Next(s, polls[0]), polls[1..])
  }

  /** Every poll reads a later version of the thread than the one before. */
  ghost predicate Chain(h: seq<Turn>, polls: seq<Poll>)
    decreases |polls|
  {
    polls == [] || (WellFormed(polls[0].turns) && Extends(h, polls[0].turns) && Chain(polls[0].turns, polls[1..]))
  }

  function LastTurns(h: seq<Turn>, polls: seq<Poll>): seq<Turn> {
    if polls == [] then h else polls[|polls| - 1].turns
  }

  /** Events of turns that had ended at the read of `base`. */
  ghost predicate Early(events: seq<Event>, base: seq<Turn>) {
    Distinct(events) && forall e :: e in events ==> exists i :: 0 <= i < Unfinished(base) && e == EventOf(base[i])
  }

  /** Behind `early`, everything that ended since the read of `base` is enqueued, up to
      the recorded read of `seen` and a prefix of what the current turns add. */
  ghost predicate Caught(s: State, early: seq<Event>, base: seq<Turn>, seen: seq<Turn>, now: seq<Turn>) {
    && WellFormed(base) && WellFormed(seen) && WellFormed(now)
    && base != [] && Extends(base, seen) && Extends(seen, now)
    && Early(early, base)
    && s.observation == Read(seen)
    && (exists n: nat :: n <= |New(seen, now)| && s.queue == early + New(base, seen) + New(seen, now)[..n])
  }

  /** The events of turns of `now` that had not ended at the read of `seen`. */
  function New(seen: seq<Turn>, now: seq<Turn>): seq<Event>
    requires |seen| <= |now|
  {
    Events(Reports(now[Unfinished(seen)..]))
  }

  lemma EventsConcat(a: seq<Turn>, b: seq<Turn>)
    ensures Events(a + b) == Events(a) + Events(b)
  {
  }

  /** Turns that had ended at a read are the same later, and the rest had not ended. */
  lemma EndedTurnsStay(base: seq<Turn>, seen: seq<Turn>, now: seq<Turn>)
    requires WellFormed(base) && WellFormed(seen) && Extends(base, seen) && Extends(seen, now)
    ensures |base| <= |seen| <= |now| && Unfinished(base) <= Unfinished(seen)
    ensures now[Unfinished(base)..Unfinished(seen)] == seen[Unfinished(base)..Unfinished(seen)]
    ensures Reports(seen[Unfinished(seen)..]) == []
  {
    SelectNone(seen[Unfinished(seen)..], Reportable);
  }

  lemma NewFrom(turns: seq<Turn>, a: nat, b: nat)
    requires a <= b <= |turns|
    ensures Events(Reports(turns[a..])) == Events(Reports(turns[a..b])) + Events(Reports(turns[b..]))
  {
    assert turns[a..] == turns[a..b] + turns[b..];
    SelectConcat(turns[a..b], turns[b..], Reportable);
    EventsConcat(Reports(turns[a..b]), Reports(turns[b..]));
  }

  lemma SplitEvents(now: seq<Turn>, seen: seq<Turn>, a: nat, b: nat)
    requires a <= b <= |seen| <= |now| && now[a..b] == seen[a..b] && Reports(seen[b..]) == []
    ensures Events(Reports(now[a..])) == Events(Reports(seen[a..])) + Events(Reports(now[b..]))
  {
    hide Reports;
    NewFrom(now, a, b);
    NewFrom(seen, a, b);
  }

  /** What is new since the baseline splits at any read in between. */
  lemma NewSplits(base: seq<Turn>, seen: seq<Turn>, now: seq<Turn>)
    requires WellFormed(base) && WellFormed(seen) && Extends(base, seen) && Extends(seen, now)
    ensures |base| <= |seen| <= |now| && New(base, now) == New(base, seen) + New(seen, now)
  {
    hide WellFormed, Extends, Unfinished, Reports, Events;
    EndedTurnsStay(base, seen, now);
    SplitEvents(now, seen, Unfinished(base), Unfinished(seen));
  }

  lemma ExtendsTransitive(a: seq<Turn>, b: seq<Turn>, c: seq<Turn>)
    requires Extends(a, b) && Extends(b, c)
    ensures Extends(a, c)
  {
  }

  lemma {:induction false} SelectedDistinct(turns: seq<Turn>, p: Turn -> bool)
    requires DistinctIds(turns)
    ensures DistinctIds(Select(turns, p))
    decreases |turns|
  {
    if turns != [] {
      var last := |turns| - 1;
      var front := Select(turns[..last], p);
      SelectedDistinct(turns[..last], p);
      forall i | 0 <= i < |front|
        ensures front[i].id != turns[last].id
      {
        assert front[i] in front;
        var k :| 0 <= k < last && turns[..last][k] == front[i];
      }
    }
  }

  lemma NewDistinct(base: seq<Turn>, now: seq<Turn>)
    requires WellFormed(now) && |base| <= |now|
    ensures Distinct(New(base, now))
  {
    var turns := now[Unfinished(base)..];
    SelectedDistinct(turns, Reportable);
    assert DistinctIds(Reports(turns));
  }

  /** Early events are not among the new ones. */
  lemma EarlyIsApart(early: seq<Event>, base: seq<Turn>, now: seq<Turn>)
    requires Early(early, base) && WellFormed(now) && Extends(base, now)
    ensures Distinct(early + New(base, now))
  {
    NewDistinct(base, now);
    var turns := now[Unfinished(base)..];
    forall i, j | 0 <= i < |early| && 0 <= j < |New(base, now)|
      ensures early[i] != New(base, now)[j]
    {
      assert early[i] in early;
      var a :| 0 <= a < Unfinished(base) && early[i] == EventOf(base[a]);
      assert Reports(turns)[j] in Reports(turns);
      var b :| 0 <= b < |turns| && turns[b] == Reports(turns)[j];
      assert now[a].id == base[a].id && turns[b] == now[Unfinished(base) + b];
    }
  }

  /** Enqueueing again what is a prefix of distinct events only extends the prefix. */
  lemma {:induction false} EnqueueExtends(all: seq<Event>, have: nat, from: nat, to: nat)
    requires from <= have <= |all| && from <= to <= |all|
    requires Distinct(all)
    ensures Enqueue(all[..have], all[from..to]) == all[..if have <= to then to else have]
    decreases |all| - from
  {
    if from < to {
      assert all[from..to][1..] == all[from + 1..to];
      if from < have {
        assert all[..have][from] == all[from];
        EnqueueExtends(all, have, from + 1, to);
      } else {
        assert all[from] !in all[..have];
        assert all[..have] + [all[from]] == all[..have + 1];
        EnqueueExtends(all, have + 1, from + 1, to);
      }
    }
  }

  /** The events a poll enqueues: all new ones, or as many as it got to. */
  function Reached(poll: Poll, count: nat): (k: nat)
    ensures k <= count
  {
    if poll.stopped.Some? && poll.stopped.value < count then poll.stopped.value else count
  }

  lemma EnqueueNew(a: seq<Event>, b: seq<Event>, n: nat, k: nat)
    requires Distinct(a + b) && n <= |b| && k <= |b|
    ensures Enqueue(a + b[..n], b[..k]) == a + b[..if n <= k then k else n]
  {
    EnqueueExtends(a + b, |a| + n, |a|, |a| + k);
    assert (a + b)[..|a| + n] == a + b[..n];
    assert (a + b)[..|a| + k] == a + b[..k];
    assert (a + b)[|a|..|a| + k] == b[..k];
  }

  lemma NextQueue(s: State, poll: Poll, added: seq<Event>)
    requires added == Events(Since(s.observation, poll.turns, poll.updated))
    ensures Next(s, poll).queue == Enqueue(s.queue, added[..Reached(poll, |added|)])
  {
    hide Enqueue, Since, Events;
    assert added[..|added|] == added;
  }

  lemma QueueGrows(s: State, poll: Poll, done: seq<Event>, before: seq<Event>, added: seq<Event>, n: nat) returns (have: nat)
    requires added == Events(Since(s.observation, poll.turns, poll.updated)) && Distinct(done + added)
    requires n <= |before| && before <= added && s.queue == done + before[..n]
    ensures have <= |added| && Next(s, poll).queue == done + added[..have]
    ensures poll.stopped.None? ==> have == |added|
  {
    hide Since, Events, Distinct, Enqueue;
    assert before[..n] == added[..n];
    EnqueueNew(done, added, n, Reached(poll, |added|));
    NextQueue(s, poll, added);
    have := if n <= Reached(poll, |added|) then Reached(poll, |added|) else n;
  }

  lemma Regroup(a: seq<Event>, b: seq<Event>, c: seq<Event>, d: seq<Event>)
    requires d == b + c
    ensures a + b + c == a + d
  {
  }

  lemma QueueAfter(s: State, early: seq<Event>, base: seq<Turn>, seen: seq<Turn>, now: seq<Turn>, poll: Poll, n: nat) returns (have: nat)
    requires Extends(seen, now) && WellFormed(base) && base != [] && WellFormed(seen) && Extends(base, seen) && Early(early, base)
    requires WellFormed(poll.turns) && Extends(now, poll.turns) && WellFormed(now)
    requires s.observation == Read(seen) && n <= |New(seen, now)| && s.queue == early + New(base, seen) + New(seen, now)[..n]
    ensures |seen| <= |poll.turns| && have <= |New(seen, poll.turns)|
    ensures Next(s, poll).queue == early + New(base, seen) + New(seen, poll.turns)[..have]
    ensures poll.stopped.None? ==> have == |New(seen, poll.turns)|
  {
    assert seen != [];
    hide *;
    var later := poll.turns;
    ExtendsTransitive(seen, now, later);
    ExtendsTransitive(base, seen, later);
    SinceReportsTheNewEnds(seen, later, poll.updated);
    NewSplits(base, seen, later);
    NewSplits(seen, now, later);
    EarlyIsApart(early, base, later);
    NewUnfolds(seen, later);
    var done := early + New(base, seen);
    Regroup(early, New(base, seen), New(seen, later), New(base, later));
    have := QueueGrows(s, poll, done, New(seen, now), New(seen, later), n);
  }

  lemma NewUnfolds(seen: seq<Turn>, now: seq<Turn>)
    requires |seen| <= |now|
    ensures New(seen, now) == Events(Reports(now[Unfinished(seen)..]))
  {
  }

  /** A completed poll records its read. */
  lemma Recorded(s: State, early: seq<Event>, base: seq<Turn>, seen: seq<Turn>, later: seq<Turn>)
    requires WellFormed(base) && WellFormed(seen) && WellFormed(later) && base != [] && Extends(base, seen) && Extends(seen, later)
    requires Early(early, base) && s.observation == Read(later)
    requires |base| <= |seen| <= |later| && s.queue == early + New(base, seen) + New(seen, later)
    ensures Caught(s, early, base, later, later)
  {
    NewAfterRead(later);
    NewSplits(base, seen, later);
    ExtendsTransitive(base, seen, later);
    assert Extends(later, later);
    hide WellFormed, Extends, New, Early, Read;
    Regroup(early, New(base, seen), New(seen, later), New(base, later));
    assert s.queue == early + New(base, later) + New(later, later)[..0];
  }

  lemma NextCatches(s: State, early: seq<Event>, base: seq<Turn>, seen: seq<Turn>, now: seq<Turn>, poll: Poll)
    requires Caught(s, early, base, seen, now) && WellFormed(poll.turns) && Extends(now, poll.turns)
    ensures Caught(Next(s, poll), early, base, if poll.stopped.None? then poll.turns else seen, poll.turns)
  {
    var later := poll.turns;
    var n: nat :| n <= |New(seen, now)| && s.queue == early + New(base, seen) + New(seen, now)[..n];
    var have := QueueAfter(s, early, base, seen, now, poll, n);
    ExtendsTransitive(seen, now, later);
    hide WellFormed, Extends, Since, Enqueue, New, Early, Events;
    if poll.stopped.None? {
      assert New(seen, later)[..have] == New(seen, later);
      Recorded(Next(s, poll), early, base, seen, later);
    }
  }

  lemma NewAfterRead(h: seq<Turn>)
    requires WellFormed(h)
    ensures New(h, h) == []
  {
    SelectNone(h[Unfinished(h)..], Reportable);
  }

  lemma {:induction false} RunCatches(s: State, early: seq<Event>, base: seq<Turn>, seen: seq<Turn>, now: seq<Turn>, polls: seq<Poll>)
    returns (last: seq<Turn>)
    requires Caught(s, early, base, seen, now) && Chain(now, polls)
    ensures Caught(Run(s, polls), early, base, last, LastTurns(now, polls))
    ensures polls == [] ==> last == seen
    ensures polls != [] && polls[|polls| - 1].stopped.None? ==> last == LastTurns(now, polls)
    decreases |polls|
  {
    hide Caught, Next, WellFormed, Extends;
    if polls == [] {
      last := seen;
    } else {
      NextCatches(s, early, base, seen, now, polls[0]);
      var seen' := if polls[0].stopped.None? then polls[0].turns else seen;
      last := RunCatches(Next(s, polls[0]), early, base, seen', polls[0].turns, polls[1..]);
    }
  }

  lemma AllCaught(s: State, early: seq<Event>, base: seq<Turn>, seen: seq<Turn>, now: seq<Turn>)
    requires Caught(s, early, base, seen, now)
    ensures |base| <= |now| && s.queue <= early + New(base, now) && Distinct(s.queue)
    ensures seen == now ==> s.queue == early + New(base, now)
  {
    ExtendsTransitive(base, seen, now);
    NewSplits(base, seen, now);
    EarlyIsApart(early, base, now);
    if seen == now {
      NewAfterRead(now);
    }
    hide WellFormed, Extends, New, Early;
    assert s.queue == (early + New(base, now))[..|s.queue|];
  }

  /** From a read of `base` on, the queue grows by exactly what ends afterwards. */
  lemma QueueFollowsTheRead(early: seq<Event>, base: seq<Turn>, polls: seq<Poll>)
    requires WellFormed(base) && base != [] && Chain(base, polls) && Early(early, base)
    ensures
      var now := LastTurns(base, polls);
      var queue := Run(State(Read(base), early), polls).queue;
      && |base| <= |now|
      && queue <= early + New(base, now)
      && Distinct(queue)
      && (polls == [] || polls[|polls| - 1].stopped.None? ==> queue == early + New(base, now))
  {
    NewAfterRead(base);
    assert Extends(base, base);
    hide WellFormed, Extends, New, Distinct, Run, Read, Early;
    assert Caught(State(Read(base), early), early, base, base, base) by {
      assert early + New(base, base) + New(base, base)[..0] == early;
    }
    var last := RunCatches(State(Read(base), early), early, base, base, base, polls);
    AllCaught(Run(State(Read(base), early), polls), early, base, last, LastTurns(base, polls));
  }

  /** Exactly once and in order: after a baseline read of a thread with turns, however
      many turns arrive between polls and wherever polls are cut short, the queue is a
      prefix of the events of all turns that ended since the baseline, each once and in
      order, and all of them after a completed poll. */
  lemma ExactlyOnceInOrder(base: seq<Turn>, polls: seq<Poll>)
    requires WellFormed(base) && base != [] && Chain(base, polls)
    ensures
      var now := LastTurns(base, polls);
      var queue := Run(State(Read(base), []), polls).queue;
      && |base| <= |now|
      && queue <= New(base, now)
      && Distinct(queue)
      && (polls != [] && polls[|polls| - 1].stopped.None? ==> queue == New(base, now))
  {
    assert Early([], base);
    hide New, Distinct, Run, Read;
    QueueFollowsTheRead([], base, polls);
    assert [] + New(base, LastTurns(base, polls)) == New(base, LastTurns(base, polls));
  }
}
