/** Worker generations across restarts: they are drawn from a counter that lives in
    memory, while the rows that record them are durable. */
module GenerationCounters {
  import opened Ids
  import L = LinkedThreads

  /** `held` are the generations of workers that have not taken a row yet. A restart
      forgets the workers and starts the counter again. */
  datatype World = World(h: L.History, counter: nat, held: set<nat>)

  const BOOT := World(L.START, 0, {})

  datatype Event = Draw | Touch(op: L.Op) | Restart

  predicate Owning(op: L.Op) {
    op.ActivateOp? || op.ClaimOp?
  }

  /** Every acquired worker draws a generation and takes at most one row with it. The
      finish without reset is never called by the daemon. */
  function Next(w: World, e: Event): World {
    match e
    case Draw => w.(counter := w.counter + 1, held := w.held + {w.counter + 1})
    case Restart => World(L.Next(w.h, L.RecoverOp), 0, {})
    case Touch(op) =>
      if op.FinishOp? || (Owning(op) && op.generation !in w.held) then w
      else w.(h := L.Next(w.h, op), held := if Owning(op) then w.held - {op.generation} else w.held)
  }

  function Run(w: World, events: seq<Event>): World
    decreases |events|
  {
    if events == [] then w else Run(Next(w, events[0]), events[1..])
  }

  predicate OneProcess(events: seq<Event>) {
    forall i :: 0 <= i < |events| ==> !events[i].Restart?
  }

  /** A worker of this process can still take a row with generation g. */
  predicate Ahead(w: World, g: nat) {
    (g > w.counter || g in w.held) && g <= L.MAX_GENERATION
  }

  /** A turn of l was recorded after `before`, under a generation that has another turn. */
  ghost predicate SecondTurn(before: set<L.Mark>, after: set<L.Mark>, l: Id) {
    exists m, n :: m in after - before && n in after && m.linked == n.linked == l && m.generation == n.generation && m.turn != n.turn
  }

  ghost predicate NoMarkAhead(w: World, l: Id) {
    forall m :: m in w.h.marks && m.linked == l ==> !Ahead(w, m.generation)
  }

  // ---- What holds in every world ----

  /** Generations in use are positive, and a ready row has none. */
  ghost predicate Valid(w: World) {
    && L.Inv(w.h)
    && (forall g :: g in w.held ==> 0 < g <= w.counter)
    && (forall l :: l in w.h.rows && w.h.rows[l].state.Ready? ==> w.h.rows[l].generation == 0)
  }

  lemma NextKeepsValid(w: World, e: Event)
    requires Valid(w)
    ensures Valid(Next(w, e))
  {
    if e.Touch? {
      L.NextKeepsInv(w.h, e.op);
    } else if e.Restart? {
      L.NextKeepsInv(w.h, L.RecoverOp);
    }
    hide L.Inv;
  }

  lemma {:induction false} RunKeepsValid(w: World, events: seq<Event>)
    requires Valid(w)
    ensures Valid(Run(w, events))
    decreases |events|
  {
    if events != [] {
      NextKeepsValid(w, events[0]);
      RunKeepsValid(Next(w, events[0]), events[1..]);
    }
  }

  // ---- Within one process ----

  /** Nothing that l recorded or runs under can be drawn again, and no turn was recorded
      twice since `before`. */
  ghost predicate Calm(before: set<L.Mark>, w: World, l: Id) {
    && NoMarkAhead(w, l)
    && (l in w.h.rows && w.h.rows[l].state.Running? ==> !Ahead(w, w.h.rows[l].generation))
    && (l in w.h.rows && L.Unmarked(w.h.rows[l]) ==>
          forall m :: m in w.h.marks && m.linked == l ==> m.generation != w.h.rows[l].generation)
    && !SecondTurn(before, w.h.marks, l)
  }

  lemma DrawStaysCalm(before: set<L.Mark>, w: World, l: Id)
    requires Calm(before, w, l) && Valid(w)
    ensures Calm(before, Next(w, Draw), l)
  {
    assert forall g :: Ahead(Next(w, Draw), g) == Ahead(w, g);
  }

  lemma OwningStaysCalm(before: set<L.Mark>, w: World, op: L.Op, l: Id)
    requires Calm(before, w, l) && Valid(w) && Owning(op)
    ensures Calm(before, Next(w, Touch(op)), l)
  {
    var n := Next(w, Touch(op));
    assert forall g :: Ahead(n, g) ==> Ahead(w, g);
    assert op.generation in w.held ==> !Ahead(n, op.generation);
  }

  lemma MarkStaysCalm(before: set<L.Mark>, w: World, op: L.Op, l: Id)
    requires Calm(before, w, l) && op.MarkTurnOp?
    ensures Calm(before, Next(w, Touch(op)), l)
  {
    var n := Next(w, Touch(op));
    assert forall g :: Ahead(n, g) == Ahead(w, g);
    if L.CanMark(w.h.rows, op.linked, op.generation, op.turn) {
      var added := L.Mark(op.linked, op.generation, op.turn);
      assert n.h.marks == w.h.marks + {added};
      forall a, b | a in n.h.marks - before && b in n.h.marks && a.linked == b.linked == l && a.generation == b.generation
        ensures a.turn == b.turn
      {
        if a != added && b != added {
          assert a in w.h.marks - before && b in w.h.marks;
        }
      }
    }
  }

  lemma OtherStaysCalm(before: set<L.Mark>, w: World, op: L.Op, l: Id)
    requires Calm(before, w, l) && !op.MarkTurnOp? && !Owning(op)
    ensures Calm(before, Next(w, Touch(op)), l)
  {
    var n := Next(w, Touch(op));
    assert n.h.marks == w.h.marks;
    assert forall g :: Ahead(n, g) == Ahead(w, g);
  }

  lemma {:induction false} ProcessStaysCalm(before: set<L.Mark>, w: World, events: seq<Event>, l: Id)
    requires Calm(before, w, l) && Valid(w) && OneProcess(events)
    ensures Calm(before, Run(w, events), l)
    decreases |events|
  {
    hide Calm, Valid;
    if events != [] {
      assert !events[0].Restart?;
      assert forall i :: 0 <= i < |events[1..]| ==> events[1..][i] == events[i + 1];
      if events[0].Draw? {
        DrawStaysCalm(before, w, l);
      } else if Owning(events[0].op) {
        OwningStaysCalm(before, w, events[0].op, l);
      } else if events[0].op.MarkTurnOp? {
        MarkStaysCalm(before, w, events[0].op, l);
      } else {
        OtherStaysCalm(before, w, events[0].op, l);
      }
      NextKeepsValid(w, events[0]);
      ProcessStaysCalm(before, Next(w, events[0]), events[1..], l);
    }
  }

  /** Between restarts the counter is enough: one process never records two turns for
      one linked thread and generation. */
  lemma OneTurnPerProcess(events: seq<Event>)
    requires OneProcess(events)
    ensures L.OneTurnPerGeneration(Run(BOOT, events).h.marks)
  {
    var marks := Run(BOOT, events).h.marks;
    forall a, b | a in marks && b in marks && a.linked == b.linked && a.generation == b.generation
      ensures a.turn == b.turn
    {
      ProcessStaysCalm({}, BOOT, events, a.linked);
      assert a in marks - {};
    }
  }

  // ---- After restarts ----

  function Draws(n: nat): seq<Event> {
    seq(n, _ => Draw)
  }

  lemma {:induction false} DrawingReaches(w: World, n: nat)
    ensures Run(w, Draws(n)).h == w.h && Run(w, Draws(n)).counter == w.counter + n
    ensures forall g :: w.counter < g <= w.counter + n ==> g in Run(w, Draws(n)).held
    ensures w.held <= Run(w, Draws(n)).held
    decreases n
  {
    if n > 0 {
      assert Draws(n)[1..] == Draws(n - 1);
      DrawingReaches(Next(w, Draw), n - 1);
    }
  }

  lemma {:induction false} RunSplits(w: World, first: seq<Event>, rest: seq<Event>)
    ensures Run(w, first + rest) == Run(Run(w, first), rest)
    decreases |first|
  {
    hide Next;
    if first == [] {
      assert first + rest == rest;
    } else {
      assert (first + rest)[1..] == first[1..] + rest;
      RunSplits(Next(w, first[0]), first[1..], rest);
    }
  }

  lemma {:induction false} NewTurn(marks: set<L.Mark>) returns (turn: Id)
    ensures turn != NONE && forall m :: m in marks ==> m.turn != turn && m.turn < turn
    decreases |marks|
  {
    if marks == {} {
      turn := 1;
    } else {
      var m :| m in marks;
      var other := NewTurn(marks - {m});
      turn := if other <= m.turn then m.turn + 1 else other;
    }
  }

  /** A generation that is ahead can be given to a ready row, and a turn be recorded under it. */
  lemma AheadIsReused(w: World, l: Id, m: L.Mark) returns (events: seq<Event>)
    requires Valid(w) && l in w.h.rows && w.h.rows[l].state.Ready?
    requires m in w.h.marks && m.linked == l && Ahead(w, m.generation) && m.generation > 0
    ensures OneProcess(events) && SecondTurn(w.h.marks, Run(w, events).h.marks, l)
  {
    var g := m.generation;
    var n := if g > w.counter then g - w.counter else 0;
    DrawingReaches(w, n);
    var drawn := Run(w, Draws(n));
    var turn := NewTurn(w.h.marks);
    var last := [Touch(L.ClaimOp(l, g)), Touch(L.MarkTurnOp(l, g, turn))];
    events := Draws(n) + last;
    RunSplits(w, Draws(n), last);
    var claimed := Next(drawn, last[0]);
    assert last[1..] == [last[1]];
    assert Run(drawn, last) == Run(claimed, [last[1]]) == Run(Next(claimed, last[1]), []);
    assert L.Mark(l, g, turn) in Run(w, events).h.marks - w.h.marks;
  }

  /** Marks carry the generation of an owned row, which is in the valid range. */
  ghost predicate InRange(w: World) {
    && (forall m :: m in w.h.marks ==> 0 < m.generation <= L.MAX_GENERATION)
    && (forall l :: l in w.h.rows && w.h.rows[l].state.Running? ==> 0 < w.h.rows[l].generation <= L.MAX_GENERATION)
  }

  lemma {:induction false} RunKeepsInRange(w: World, events: seq<Event>)
    requires Valid(w) && InRange(w)
    ensures InRange(Run(w, events))
    decreases |events|
  {
    if events != [] {
      NextKeepsValid(w, events[0]);
      NextKeepsInRange(w, events[0]);
      RunKeepsInRange(Next(w, events[0]), events[1..]);
    }
  }

  lemma NextKeepsInRange(w: World, e: Event)
    requires Valid(w) && InRange(w)
    ensures InRange(Next(w, e))
  {
  }

  /** The exact condition, in every reachable world and for every ready row: no way to go
      on in this process records a second turn for a generation of the row if and only if
      no recorded generation of it can still be drawn or used. */
  lemma SafeExactlyWhenNothingIsAhead(past: seq<Event>, l: Id)
    requires l in Run(BOOT, past).h.rows && Run(BOOT, past).h.rows[l].state.Ready?
    ensures
      var w := Run(BOOT, past);
      (forall more :: OneProcess(more) ==> !SecondTurn(w.h.marks, Run(w, more).h.marks, l)) <==> NoMarkAhead(w, l)
  {
    var w := Run(BOOT, past);
    RunKeepsValid(BOOT, past);
    RunKeepsInRange(BOOT, past);
    if NoMarkAhead(w, l) {
      forall more | OneProcess(more)
        ensures !SecondTurn(w.h.marks, Run(w, more).h.marks, l)
      {
        ProcessStaysCalm(w.h.marks, w, more, l);
      }
    } else {
      var m :| m in w.h.marks && m.linked == l && Ahead(w, m.generation);
      var more := AheadIsReused(w, l, m);
      assert OneProcess(more) && SecondTurn(w.h.marks, Run(w, more).h.marks, l);
    }
  }

  /** Right after a restart, with no worker yet, that means: a ready row is safe if and
      only if no turn was ever recorded for it. */
  lemma SafeAfterRestartExactlyWhenUnused(past: seq<Event>, l: Id)
    requires l in Run(BOOT, past + [Restart]).h.rows && Run(BOOT, past + [Restart]).h.rows[l].state.Ready?
    ensures
      var w := Run(BOOT, past + [Restart]);
      (forall more :: OneProcess(more) ==> !SecondTurn(w.h.marks, Run(w, more).h.marks, l))
      <==> (forall m :: m in w.h.marks ==> m.linked != l)
  {
    SafeExactlyWhenNothingIsAhead(past + [Restart], l);
    RunKeepsValid(BOOT, past + [Restart]);
    RunKeepsInRange(BOOT, past + [Restart]);
    RunSplits(BOOT, past, [Restart]);
    assert Run(BOOT, past + [Restart]) == Run(Next(Run(BOOT, past), Restart), []);
  }
}
