/** The grace period for interrupted turns that were started from Telegram. */
module TerminalGate {
  import opened Ids

  datatype Turn = Turn(thread: Id, turn: Id) {
    predicate Named() {
      thread != NONE && turn != NONE
    }
  }

  datatype Signal = Nothing | Partial | Final

  /** `active` says that the thread or its latest turn still looks active. */
  datatype Snapshot = Snapshot(turn: Turn, interrupted: bool, waiting: bool, active: bool, signal: Signal)

  datatype Action = Accept | Defer | Recover
  datatype Reason =
    | MissingIds | NotDeferrable | SnapshotRecovered | ExplicitInterrupt | NotTelegramOrigin | GraceExpired
    | EmptyInterrupted | PartialInterrupted | FinalInterrupted

  datatype GateState = GateState(firstSeen: Option<int>, expires: Option<int>, seen: nat)

  /** The stored text: nothing, a state, or the older format that held one time. */
  datatype Stored = Absent | Saved(state: GateState) | Legacy(time: Option<int>)

  datatype Decision = Decision(action: Action, reason: Reason, firstSeen: Option<int>, expires: Option<int>, nextPoll: Option<int>)

  const MINIMUM_GRACE := 90_000
  const DEFAULT_POLL := 5_000

  function Grace(poll: int): (grace: int)
    ensures grace >= MINIMUM_GRACE && grace >= 12 * poll && (grace == MINIMUM_GRACE || grace == 12 * poll)
  {
    if MINIMUM_GRACE < 12 * poll then 12 * poll else MINIMUM_GRACE
  }

  function HotPoll(poll: int): int {
    if poll > 0 then poll else DEFAULT_POLL
  }

  /** A recovered turn is polled soon again while it may still move. */
  function RecoveredPoll(s: Snapshot, now: int, poll: int): Option<int> {
    if s.active || s.waiting then Some(now + HotPoll(poll)) else None
  }

  predicate Deferrable(s: Snapshot) {
    s.interrupted && s.turn.Named() && !s.waiting
  }

  function DeferReason(s: Snapshot): Reason {
    match s.signal
    case Nothing => EmptyInterrupted
    case Final => FinalInterrupted
    case Partial => PartialInterrupted
  }

  /** loadTelegramOriginEmptyInterruptedDefer. */
  function Load(stored: Stored, now: int, grace: int): Option<GateState> {
    match stored
    case Absent => None
    case Saved(state) => Some(state)
    case Legacy(time) =>
      var first := if time.Some? then time.value else now;
      Some(GateState(Some(first), Some(first + grace), 0))
  }

  /** The state an observation at `now` works with: times that are missing are filled in. */
  function Opened(existing: Option<GateState>, now: int, grace: int): (state: GateState)
    ensures state.firstSeen.Some? && state.expires.Some?
  {
    var state := if existing.Some? then existing.value else GateState(Some(now), Some(now + grace), 0);
    var first := if state.firstSeen.Some? then state.firstSeen.value else now;
    var expires := if state.expires.Some? then state.expires.value else first + grace;
    GateState(Some(first), Some(expires), state.seen + 1)
  }

  /** The gate: what is stored under the defer key and the explicit-interrupt key of a
      turn, and which turns were started from Telegram. Keys are the pair of ids. */
  datatype Store = Store(deferred: map<Turn, GateState>, legacy: map<Turn, Option<int>>, explicit: set<Turn>, origins: set<Turn>)

  function StoredFor(s: Store, turn: Turn): Stored {
    if turn in s.deferred then Saved(s.deferred[turn]) else if turn in s.legacy then Legacy(s.legacy[turn]) else Absent
  }

  function ClearDefer(s: Store, turn: Turn): Store {
    s.(deferred := s.deferred - {turn}, legacy := s.legacy - {turn})
  }

  function SaveDefer(s: Store, turn: Turn, state: GateState): Store {
    s.(deferred := s.deferred[turn := state], legacy := s.legacy - {turn})
  }

  class Gate {
    var store: Store
    const poll: int

    constructor (poll: int, store: Store)
      ensures this.poll == poll && this.store == store
    {
      this.poll := poll;
      this.store := store;
    }

    /** decideTelegramOriginEmptyInterruptedTerminal. */
    method Decide(s: Snapshot, now: int) returns (decision: Decision)
      modifies this
      ensures decision == Judge(old(store), s, now, poll)
      ensures store == After(old(store), s, now, poll)
    {
      var turn := s.turn;
      if !turn.Named() { return Decision(Accept, MissingIds, None, None, None); }
      var explicit := turn in store.explicit;
      var existing := Load(StoredFor(store, turn), now, Grace(poll));
      if !Deferrable(s) {
        if existing.Some? {
          store := ClearDefer(store, turn);
          return Decision(Recover, SnapshotRecovered, existing.value.firstSeen, existing.value.expires, RecoveredPoll(s, now, poll));
        }
        return Decision(Accept, NotDeferrable, None, None, None);
      }
      if explicit {
        store := ClearDefer(store, turn);
        return Decision(Accept, ExplicitInterrupt, None, None, None);
      }
      if turn !in store.origins { return Decision(Accept, NotTelegramOrigin, None, None, None); }
      var state := if existing.Some? then existing.value else GateState(Some(now), Some(now + Grace(poll)), 0);
      state := state.(seen := state.seen + 1);
      if state.firstSeen.None? {
        state := state.(firstSeen := Some(now));
      }
      if state.expires.None? {
        state := state.(expires := Some(state.firstSeen.value + Grace(poll)));
      }
      store := SaveDefer(store, turn, state);
      if now >= state.expires.value { return Decision(Accept, GraceExpired, state.firstSeen, state.expires, None); }
      decision := Decision(Defer, DeferReason(s), state.firstSeen, state.expires, Some(now + HotPoll(poll)));
    }

    method MarkExplicitInterrupt(turn: Turn)
      modifies this
      ensures store == if turn.Named() then old(store).(explicit := old(store).explicit + {turn}) else old(store)
    {
      if turn.Named() {
        store := store.(explicit := store.explicit + {turn});
      }
    }

    /** clearTelegramOriginTerminalGate. */
    method Clear(turn: Turn)
      modifies this
      ensures store == if turn.Named() then ClearDefer(old(store), turn).(explicit := old(store).explicit - {turn}) else old(store)
    {
      if turn.Named() {
        store := ClearDefer(store, turn).(explicit := store.explicit - {turn});
      }
    }
  }

  function Judge(store: Store, s: Snapshot, now: int, poll: int): Decision {
    var existing := Load(StoredFor(store, s.turn), now, Grace(poll));
    if !s.turn.Named() then Decision(Accept, MissingIds, None, None, None)
    else if !Deferrable(s) then
      if existing.Some? then Decision(Recover, SnapshotRecovered, existing.value.firstSeen, existing.value.expires, RecoveredPoll(s, now, poll))
      else Decision(Accept, NotDeferrable, None, None, None)
    else if s.turn in store.explicit then Decision(Accept, ExplicitInterrupt, None, None, None)
    else if s.turn !in store.origins then Decision(Accept, NotTelegramOrigin, None, None, None)
    else
      var state := Opened(existing, now, Grace(poll));
      if now < state.expires.value then Decision(Defer, DeferReason(s), state.firstSeen, state.expires, Some(now + HotPoll(poll)))
      else Decision(Accept, GraceExpired, state.firstSeen, state.expires, None)
  }

  function After(store: Store, s: Snapshot, now: int, poll: int): Store {
    var existing := Load(StoredFor(store, s.turn), now, Grace(poll));
    if !s.turn.Named() then store
    else if !Deferrable(s) then (if existing.Some? then ClearDefer(store, s.turn) else store)
    else if s.turn in store.explicit then ClearDefer(store, s.turn)
    else if s.turn !in store.origins then store
    else SaveDefer(store, s.turn, Opened(existing, now, Grace(poll)))
  }

  // ---- Runs ----

  datatype Event =
    | Observe(s: Snapshot, now: int)
    | Explicit(turn: Turn)
    | Cleared(turn: Turn)
    | Origin(turn: Turn)

  function Next(store: Store, e: Event, poll: int): Store {
    match e
    case Observe(s, now) => After(store, s, now, poll)
    case Explicit(turn) => if turn.Named() then store.(explicit := store.explicit + {turn}) else store
    case Cleared(turn) => if turn.Named() then ClearDefer(store, turn).(explicit := store.explicit - {turn}) else store
    case Origin(turn) => store.(origins := store.origins + {turn})
  }

  /** The decisions about one turn in a run in which other turns come and go. */
  function Decisions(store: Store, events: seq<Event>, turn: Turn, poll: int): seq<Decision>
    decreases |events|
  {
    if events == [] then []
    else
      var e := events[0];
      (if e.Observe? && e.s.turn == turn then [Judge(store, e.s, e.now, poll)] else []) + Decisions(Next(store, e, poll), events[1..], turn, poll)
  }

  function Times(events: seq<Event>, turn: Turn): seq<int>
    decreases |events|
  {
    if events == [] then []
    else (if events[0].Observe? && events[0].s.turn == turn then [events[0].now] else []) + Times(events[1..], turn)
  }

  /** Nothing marks or clears the turn, and every observation of it is a deferrable interruption. */
  predicate OnlyInterrupted(e: Event, turn: Turn) {
    match e
    case Observe(s, _) => s.turn == turn ==> Deferrable(s)
    case Explicit(t) => t != turn
    case Cleared(t) => t != turn
    case Origin(_) => true
  }

  predicate Undisturbed(events: seq<Event>, turn: Turn) {
    forall i :: 0 <= i < |events| ==> OnlyInterrupted(events[i], turn)
  }

  predicate Ascending(times: seq<int>) {
    forall i, j :: 0 <= i < j < |times| ==> times[i] <= times[j]
  }

  /** The turn is gated and its deadline is already stored. */
  predicate Running(store: Store, turn: Turn, deadline: int) {
    turn.Named() && turn in store.origins && turn !in store.explicit && turn in store.deferred &&
    store.deferred[turn].firstSeen.Some? && store.deferred[turn].expires == Some(deadline)
  }

  lemma RunningStays(store: Store, e: Event, turn: Turn, deadline: int, poll: int)
    requires Running(store, turn, deadline) && OnlyInterrupted(e, turn)
    ensures Running(Next(store, e, poll), turn, deadline)
  {
  }

  /** Once a deadline is stored, it decides every observation and never moves. */
  lemma {:induction false} DeadlineDecides(store: Store, events: seq<Event>, turn: Turn, deadline: int, poll: int)
    requires Running(store, turn, deadline) && Undisturbed(events, turn)
    ensures
      var ds, ts := Decisions(store, events, turn, poll), Times(events, turn);
      && |ds| == |ts|
      && forall i :: 0 <= i < |ds| ==> ds[i].expires == Some(deadline) && ds[i].action == if ts[i] < deadline then Defer else Accept
    decreases |events|
  {
    if events != [] {
      assert OnlyInterrupted(events[0], turn);
      assert forall i :: 0 <= i < |events[1..]| ==> events[1..][i] == events[i + 1];
      RunningStays(store, events[0], turn, deadline, poll);
      DeadlineDecides(Next(store, events[0], poll), events[1..], turn, deadline, poll);
    }
  }

  /** A turn of Telegram origin that is neither stored nor marked. */
  predicate Unseen(store: Store, turn: Turn) {
    turn.Named() && turn in store.origins && turn !in store.explicit && turn !in store.deferred && turn !in store.legacy
  }

  /** The grace period: the first observation defers and fixes the deadline at its time
      plus the grace, and the turn is deferred exactly while the deadline is ahead. */
  lemma {:induction false} DeferredExactlyWithinGrace(store: Store, events: seq<Event>, turn: Turn, poll: int)
    requires Unseen(store, turn) && Undisturbed(events, turn)
    ensures
      var ds, ts := Decisions(store, events, turn, poll), Times(events, turn);
      && |ds| == |ts|
      && forall i :: 0 <= i < |ds| ==>
           && ds[i].expires == Some(ts[0] + Grace(poll))
           && (ds[i].action == if ts[i] < ts[0] + Grace(poll) then Defer else Accept)
    decreases |events|
  {
    if events != [] {
      var e := events[0];
      assert OnlyInterrupted(e, turn);
      assert forall i :: 0 <= i < |events[1..]| ==> events[1..][i] == events[i + 1];
      var next := Next(store, e, poll);
      if e.Observe? && e.s.turn == turn {
        assert Running(next, turn, e.now + Grace(poll));
        DeadlineDecides(next, events[1..], turn, e.now + Grace(poll), poll);
      } else {
        DeferredExactlyWithinGrace(next, events[1..], turn, poll);
      }
    }
  }

  /** At non-decreasing times the decisions are deferrals followed by acceptances. */
  lemma DeferralsThenAcceptances(store: Store, events: seq<Event>, turn: Turn, poll: int, i: nat, j: nat)
    requires Unseen(store, turn) && Undisturbed(events, turn) && Ascending(Times(events, turn))
    requires i < j < |Decisions(store, events, turn, poll)|
    ensures
      var ds := Decisions(store, events, turn, poll);
      && ds[0].action.Defer?
      && (ds[j].action.Defer? ==> ds[i].action.Defer?)
      && (ds[i].action.Accept? ==> ds[j].action.Accept?)
  {
    DeferredExactlyWithinGrace(store, events, turn, poll);
  }

  /** After an explicit interrupt, and until the turn is cleared, no observation of it is
      ever deferred. */
  lemma {:induction false} ExplicitNeverDefers(store: Store, events: seq<Event>, turn: Turn, poll: int)
    requires turn in store.explicit && forall i :: 0 <= i < |events| ==> events[i] != Cleared(turn)
    ensures forall d :: d in Decisions(store, events, turn, poll) ==> !d.action.Defer?
    decreases |events|
  {
    if events != [] {
      assert events[0] != Cleared(turn);
      assert forall i :: 0 <= i < |events[1..]| ==> events[1..][i] == events[i + 1];
      ExplicitNeverDefers(Next(store, events[0], poll), events[1..], turn, poll);
    }
  }

  // ---- One turn on its own ----

  /** What matters about one turn: when it was first seen interrupted, its deadline, and
      whether it was stopped explicitly or started from Telegram. */
  datatype Memory = Memory(held: Option<(int, int)>, stopped: bool, telegram: bool)

  const FORGOTTEN := Memory(None, false, false)

  function Recall(m: Memory, e: Event, turn: Turn, poll: int): Memory {
    match e
    case Observe(s, now) =>
      if s.turn != turn then m
      else if !s.interrupted || s.waiting || m.stopped then m.(held := None)
      else if !m.telegram || m.held.Some? then m
      else m.(held := Some((now, now + Grace(poll))))
    case Explicit(t) => if t == turn then m.(stopped := true) else m
    case Cleared(t) => if t == turn then m.(held := None, stopped := false) else m
    case Origin(t) => if t == turn then m.(telegram := true) else m
  }

  /** The verdict on an observation of the turn. */
  function Verdict(m: Memory, s: Snapshot, now: int, poll: int): Decision {
    var first := if m.held.Some? then Some(m.held.value.0) else None;
    var deadline := if m.held.Some? then Some(m.held.value.1) else None;
    if !s.interrupted || s.waiting then
      if m.held.Some? then Decision(Recover, SnapshotRecovered, first, deadline, RecoveredPoll(s, now, poll)) else Decision(Accept, NotDeferrable, None, None, None)
    else if m.stopped then Decision(Accept, ExplicitInterrupt, None, None, None)
    else if !m.telegram then Decision(Accept, NotTelegramOrigin, None, None, None)
    else
      var seen := if m.held.Some? then m.held.value else (now, now + Grace(poll));
      if now < seen.1 then Decision(Defer, DeferReason(s), Some(seen.0), Some(seen.1), Some(now + HotPoll(poll)))
      else Decision(Accept, GraceExpired, Some(seen.0), Some(seen.1), None)
  }

  function Verdicts(m: Memory, events: seq<Event>, turn: Turn, poll: int): seq<Decision>
    decreases |events|
  {
    if events == [] then []
    else
      var e := events[0];
      (if e.Observe? && e.s.turn == turn then [Verdict(m, e.s, e.now, poll)] else []) + Verdicts(Recall(m, e, turn, poll), events[1..], turn, poll)
  }

  /** What the shared store says about this turn is its memory. */
  predicate Remembers(store: Store, m: Memory, turn: Turn) {
    && turn !in store.legacy
    && (m.stopped <==> turn in store.explicit)
    && (m.telegram <==> turn in store.origins)
    && (m.held.Some? <==> turn in store.deferred)
    && (m.held.Some? ==> store.deferred[turn].firstSeen == Some(m.held.value.0) && store.deferred[turn].expires == Some(m.held.value.1))
  }

  lemma NextRemembers(store: Store, m: Memory, e: Event, turn: Turn, poll: int)
    requires Remembers(store, m, turn) && turn.Named()
    ensures Remembers(Next(store, e, poll), Recall(m, e, turn, poll), turn)
    ensures e.Observe? && e.s.turn == turn ==> Judge(store, e.s, e.now, poll) == Verdict(m, e.s, e.now, poll)
  {
    hide Grace, HotPoll;
  }

  /** Every run decides about a turn as if it were alone: from its own observations, stops
      and origin, and the deadline of its first interrupted observation. */
  lemma {:induction false} TurnsAreDecidedAlone(store: Store, m: Memory, events: seq<Event>, turn: Turn, poll: int)
    requires Remembers(store, m, turn) && turn.Named()
    ensures Decisions(store, events, turn, poll) == Verdicts(m, events, turn, poll)
    decreases |events|
  {
    if events != [] {
      NextRemembers(store, m, events[0], turn, poll);
      hide Remembers, Next, Recall, Judge, Verdict;
      TurnsAreDecidedAlone(Next(store, events[0], poll), Recall(m, events[0], turn, poll), events[1..], turn, poll);
    }
  }

  /** A turn that was not started from Telegram is never deferred and leaves nothing to
      recover: every observation of it is accepted. */
  lemma {:induction false} OthersAreAccepted(events: seq<Event>, turn: Turn, poll: int, m: Memory)
    requires m.held.None? && !m.telegram && forall i :: 0 <= i < |events| ==> events[i] != Origin(turn)
    ensures forall d :: d in Verdicts(m, events, turn, poll) ==> d.action.Accept?
    decreases |events|
  {
    if events != [] {
      assert events[0] != Origin(turn);
      assert forall i :: 0 <= i < |events[1..]| ==> events[1..][i] == events[i + 1];
      OthersAreAccepted(events[1..], turn, poll, Recall(m, events[0], turn, poll));
    }
  }
}
