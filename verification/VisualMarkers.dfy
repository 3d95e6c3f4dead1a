/** Colour markers that tell concurrently shown threads apart. */
module VisualMarkers {
  import opened Ids

  /** A palette symbol, a symbol with "#n" appended, or text some other version stored. */
  datatype Marker = Blank | Symbol(index: nat) | Numbered(index: nat, suffix: nat) | Foreign(text: Id)

  datatype Assignment = Assignment(marker: Marker, expires: int)

  /** The stored state by owner; an unreadable entry is left out. */
  type Table = map<Id, Assignment>

  const PALETTE: nat := 30
  const TTL := 30 * 60

  function SymbolAt(start: nat, offset: nat): Marker {
    Symbol((start + offset) % PALETTE)
  }

  /** The palette from `start` on, wrapping around, without what is occupied. */
  function FreeSymbol(occupied: set<Marker>, start: nat, offset: nat): (found: Option<Marker>)
    requires start < PALETTE && offset <= PALETTE
    ensures found.Some? ==> found.value.Symbol? && found.value.index < PALETTE && found.value !in occupied
    ensures found.None? ==> forall k: nat :: offset <= k < PALETTE ==> SymbolAt(start, k) in occupied
    decreases PALETTE - offset
  {
    if offset == PALETTE then None
    else
      var marker := SymbolAt(start, offset);
      if marker !in occupied then Some(marker) else FreeSymbol(occupied, start, offset + 1)
  }

  function Taken(occupied: set<Marker>, start: nat, suffix: nat): set<Marker> {
    set m | m in occupied && m.Numbered? && m.index == start && suffix <= m.suffix
  }

  /** The unbounded search: every occupied number is one fewer that can still be met. */
  function FreeNumber(occupied: set<Marker>, start: nat, suffix: nat): (m: Marker)
    ensures m.Numbered? && m.index == start && m.suffix >= suffix && m !in occupied
    ensures forall n :: suffix <= n < m.suffix ==> Numbered(start, n) in occupied
    decreases |Taken(occupied, start, suffix)|
  {
    if Numbered(start, suffix) !in occupied then Numbered(start, suffix)
    else
      TakenShrinks(occupied, start, suffix);
      FreeNumber(occupied, start, suffix + 1)
  }

  lemma TakenShrinks(occupied: set<Marker>, start: nat, suffix: nat)
    requires Numbered(start, suffix) in occupied
    ensures |Taken(occupied, start, suffix + 1)| < |Taken(occupied, start, suffix)|
  {
    var fewer := Taken(occupied, start, suffix + 1);
    assert Taken(occupied, start, suffix) == fewer + {Numbered(start, suffix)};
  }

  function Choose(occupied: set<Marker>, start: nat): (m: Marker)
    requires start < PALETTE
    ensures m !in occupied && !m.Blank?
  {
    var symbol := FreeSymbol(occupied, start, 0);
    if symbol.Some? then symbol.value else FreeNumber(occupied, start, 2)
  }

  /** A number is appended only when every symbol of the palette is occupied, and then
      it is the least free one from two on. */
  lemma NumbersOnlyWhenFull(occupied: set<Marker>, start: nat)
    requires start < PALETTE && !Choose(occupied, start).Symbol?
    ensures forall i: nat :: i < PALETTE ==> Symbol(i) in occupied
    ensures Choose(occupied, start).Numbered? && Choose(occupied, start).suffix >= 2
    ensures forall n :: 2 <= n < Choose(occupied, start).suffix ==> Numbered(start, n) in occupied
  {
    forall i: nat | i < PALETTE
      ensures Symbol(i) in occupied
    {
      var k := if start <= i then i - start else i + PALETTE - start;
      assert SymbolAt(start, k) == Symbol(i);
    }
  }

  /** Place k from `offset` on is the first whose symbol is free. */
  predicate FirstFreeAt(occupied: set<Marker>, start: nat, offset: nat, k: nat) {
    SymbolAt(start, k) !in occupied && forall j: nat :: offset <= j < k ==> SymbolAt(start, j) in occupied
  }

  lemma {:induction false} FirstFree(occupied: set<Marker>, start: nat, offset: nat)
    requires start < PALETTE && offset <= PALETTE && FreeSymbol(occupied, start, offset).Some?
    ensures exists k: nat :: FirstFreeAt(occupied, start, offset, k) && k < PALETTE && FreeSymbol(occupied, start, offset) == Some(SymbolAt(start, k))
    decreases PALETTE - offset
  {
    if SymbolAt(start, offset) in occupied {
      FirstFree(occupied, start, offset + 1);
      var k: nat :| FirstFreeAt(occupied, start, offset + 1, k) && k < PALETTE && FreeSymbol(occupied, start, offset + 1) == Some(SymbolAt(start, k));
      assert FirstFreeAt(occupied, start, offset, k);
    } else {
      assert FirstFreeAt(occupied, start, offset, offset);
    }
  }

  /** A symbol that is chosen is the first free one from the thread's own place on. */
  lemma NearestFreeSymbol(occupied: set<Marker>, start: nat)
    requires start < PALETTE && Choose(occupied, start).Symbol?
    ensures exists k: nat :: FirstFreeAt(occupied, start, 0, k) && k < PALETTE && Choose(occupied, start) == SymbolAt(start, k)
  {
    FirstFree(occupied, start, 0);
  }

  /** chooseVisualMarker: it always ends, on the first free marker. */
  method ChooseVisualMarker(occupied: set<Marker>, start: nat) returns (marker: Marker)
    requires start < PALETTE
    ensures marker == Choose(occupied, start)
  {
    for offset := 0 to PALETTE
      invariant FreeSymbol(occupied, start, 0) == FreeSymbol(occupied, start, offset)
    {
      marker := SymbolAt(start, offset);
      if marker !in occupied { return; }
    }
    var suffix := 2;
    marker := Numbered(start, suffix);
    while marker in occupied
      invariant 2 <= suffix && marker == Numbered(start, suffix)
      invariant FreeNumber(occupied, start, 2) == FreeNumber(occupied, start, suffix)
      decreases |Taken(occupied, start, suffix)|
    {
      TakenShrinks(occupied, start, suffix);
      suffix := suffix + 1;
      marker := Numbered(start, suffix);
    }
  }

  predicate Holds(table: Table, owner: Id, now: int) {
    owner in table && !table[owner].marker.Blank? && table[owner].expires > now
  }

  function Occupied(table: Table, thread: Id, now: int): set<Marker> {
    set owner | owner in table && owner != thread && Holds(table, owner, now) :: table[owner].marker
  }

  /** The marker a thread gets: its own unexpired one unless another thread holds it too. */
  function Mark(table: Table, thread: Id, start: nat, now: int): Marker
    requires start < PALETTE
  {
    var occupied := Occupied(table, thread, now);
    if Holds(table, thread, now) && table[thread].marker !in occupied then table[thread].marker else Choose(occupied, start)
  }

  /** `saved` says that the state could be read and the assignment written. */
  function Next(table: Table, thread: Id, start: nat, now: int, saved: bool): Table
    requires start < PALETTE
  {
    if saved then table[thread := Assignment(Mark(table, thread, start, now), now + TTL)] else table
  }

  class Service {
    var table: Table
    const hash: Id -> nat

    constructor (hash: Id -> nat)
      ensures table == map[] && this.hash == hash
    {
      table := map[];
      this.hash := hash;
    }

    /** visualMarker: when the state cannot be read, a symbol that nobody holds for it. */
    method VisualMarker(thread: Id, now: int, readable: bool, writable: bool) returns (marker: Marker)
      modifies this
      ensures thread == NONE ==> marker == Symbol(0) && table == old(table)
      ensures thread != NONE && !readable ==> marker == Symbol(hash(thread) % PALETTE) && table == old(table)
      ensures thread != NONE && readable ==> marker == Mark(old(table), thread, hash(thread) % PALETTE, now)
      ensures thread != NONE ==> table == Next(old(table), thread, hash(thread) % PALETTE, now, readable && writable)
    {
      if thread == NONE { return Symbol(0); }
      if !readable { return Symbol(hash(thread) % PALETTE); }
      var occupied := CollectOccupied(thread, now);
      marker := Blank;
      if thread in table && !table[thread].marker.Blank? && table[thread].expires > now {
        if table[thread].marker !in occupied {
          marker := table[thread].marker;
        }
      }
      if marker.Blank? {
        marker := ChooseVisualMarker(occupied, hash(thread) % PALETTE);
      }
      if writable {
        table := table[thread := Assignment(marker, now + TTL)];
      }
    }

    /** The loop over the stored entries, in any order. */
    method CollectOccupied(thread: Id, now: int) returns (occupied: set<Marker>)
      ensures occupied == Occupied(table, thread, now)
    {
      var keys := table.Keys;
      var seen: set<Id> := {};
      occupied := {};
      while keys != {}
        invariant keys + seen == table.Keys && keys !! seen
        invariant occupied == set owner | owner in seen && owner != thread && Holds(table, owner, now) :: table[owner].marker
        decreases |keys|
      {
        var owner :| owner in keys;
        if owner != thread && !table[owner].marker.Blank? && table[owner].expires > now {
          occupied := occupied + {table[owner].marker};
        }
        keys := keys - {owner};
        seen := seen + {owner};
      }
    }
  }

  // ---- Runs ----

  datatype Call = Call(thread: Id, start: nat, now: int, saved: bool)

  predicate Valid(calls: seq<Call>) {
    forall i :: 0 <= i < |calls| ==> calls[i].start < PALETTE
  }

  function Run(table: Table, calls: seq<Call>): Table
    requires Valid(calls)
    decreases |calls|
  {
    if calls == [] then table
    else
      var last := calls[|calls| - 1];
      Next(Run(table, calls[..|calls| - 1]), last.thread, last.start, last.now, last.saved)
  }

  predicate Ordered(calls: seq<Call>) {
    forall i, j :: 0 <= i < j < |calls| ==> calls[i].now <= calls[j].now
  }

  ghost predicate Unique(table: Table, now: int) {
    forall a, b :: Holds(table, a, now) && Holds(table, b, now) && a != b ==> table[a].marker != table[b].marker
  }

  lemma NextIsUnique(table: Table, thread: Id, start: nat, now: int, saved: bool)
    requires start < PALETTE && Unique(table, now)
    ensures Unique(Next(table, thread, start, now, saved), now)
  {
  }

  /** Over any run with non-decreasing time, from an empty table, no two threads ever
      hold the same unexpired marker, then or later. */
  lemma {:induction false} NoTwoHoldersEver(calls: seq<Call>, later: int)
    requires Valid(calls) && Ordered(calls)
    requires forall i :: 0 <= i < |calls| ==> calls[i].now <= later
    ensures Unique(Run(map[], calls), later)
    decreases |calls|
  {
    if calls != [] {
      var last := calls[|calls| - 1];
      NoTwoHoldersEver(calls[..|calls| - 1], last.now);
      NextIsUnique(Run(map[], calls[..|calls| - 1]), last.thread, last.start, last.now, last.saved);
    }
  }

  /** An owner that asks again before its marker expires keeps it. */
  lemma {:induction false} OwnerKeepsItsMarker(calls: seq<Call>, thread: Id, start: nat, now: int)
    requires Valid(calls) && Ordered(calls) && start < PALETTE
    requires forall i :: 0 <= i < |calls| ==> calls[i].now <= now
    requires Holds(Run(map[], calls), thread, now)
    ensures Mark(Run(map[], calls), thread, start, now) == Run(map[], calls)[thread].marker
  {
    NoTwoHoldersEver(calls, now);
  }

  /** The last call of the run that stored a marker for the thread. */
  function LastSaved(calls: seq<Call>, thread: Id): Option<int>
    decreases |calls|
  {
    if calls == [] then None
    else if calls[|calls| - 1].thread == thread && calls[|calls| - 1].saved then Some(calls[|calls| - 1].now)
    else LastSaved(calls[..|calls| - 1], thread)
  }

  /** Over every run a thread holds a marker exactly for the half hour after its last
      stored call, whatever the other threads do. */
  lemma {:induction false} HeldForHalfAnHour(calls: seq<Call>, thread: Id, now: int)
    requires Valid(calls)
    ensures Holds(Run(map[], calls), thread, now) <==> LastSaved(calls, thread).Some? && now < LastSaved(calls, thread).value + 1800
    decreases |calls|
  {
    if calls != [] {
      var last := calls[|calls| - 1];
      var before := Run(map[], calls[..|calls| - 1]);
      HeldForHalfAnHour(calls[..|calls| - 1], thread, now);
      HeldForHalfAnHour(calls[..|calls| - 1], last.thread, last.now);
      assert last.saved ==> !Mark(before, last.thread, last.start, last.now).Blank?;
    }
  }
}
