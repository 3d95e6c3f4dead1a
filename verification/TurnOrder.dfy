/** Whether a routed turn comes after the anchor turn of a linked thread, decided by a
    walk over a nested payload. */
module TurnOrder {
  import opened Ids

  /** A decoded payload. An object keeps the text of its id, its "turns" entry and the
      values of its other keys in key order; `Leaf` is any other value. */
  datatype Value = Leaf | List(items: seq<Value>) | Object(id: Id, turns: Option<Value>, rest: seq<Value>)

  // ---- The reference: the turn ids in preorder ----

  function Preorder(v: Value): seq<Id>
    decreases v, 1
  {
    match v
    case Leaf => []
    case List(items) => PreorderAll(v, items)
    case Object(_, turns, rest) => (if turns.Some? then TurnIds(turns.value) else []) + PreorderAll(v, rest)
  }

  function PreorderAll(parent: Value, items: seq<Value>): seq<Id>
    requires forall i :: 0 <= i < |items| ==> items[i] < parent
    decreases parent, 0, |items|
  {
    if items == [] then [] else PreorderAll(parent, items[..|items| - 1]) + Preorder(items[|items| - 1])
  }

  /** Only objects in a turn list count as turns; anything else there is skipped whole. */
  function TurnIds(v: Value): seq<Id>
    decreases v, 1
  {
    if v.List? then TurnIdsOf(v, v.items) else []
  }

  function TurnIdsOf(parent: Value, items: seq<Value>): seq<Id>
    requires forall i :: 0 <= i < |items| ==> items[i] < parent
    decreases parent, 0, |items|
  {
    if items == [] then []
    else
      var turn := items[|items| - 1];
      TurnIdsOf(parent, items[..|items| - 1]) + if turn.Object? then Own(turn) + Preorder(turn) else []
  }

  function Own(turn: Value): seq<Id>
    requires turn.Object?
  {
    if turn.id == NONE then [] else [turn.id]
  }

  // ---- The walk ----

  /** The places of an id in an order, ascending. */
  function Places(order: seq<Id>, id: Id): seq<nat> {
    if order == [] then []
    else Places(order[..|order| - 1], id) + if order[|order| - 1] == id then [|order| - 1] else []
  }

  lemma PlacesAppend(order: seq<Id>, last: Id, id: Id)
    ensures Places(order + [last], id) == if last == id then Places(order, id) + [|order|] else Places(order, id)
  {
  }

  lemma {:induction false} PlacesFacts(order: seq<Id>, id: Id)
    ensures forall i :: 0 <= i < |Places(order, id)| ==> Places(order, id)[i] < |order| && order[Places(order, id)[i]] == id
    ensures forall i, j :: 0 <= i < j < |Places(order, id)| ==> Places(order, id)[i] < Places(order, id)[j]
    ensures forall p :: 0 <= p < |order| && order[p] == id ==> p in Places(order, id)
    decreases |order|
  {
    if order != [] {
      PlacesFacts(order[..|order| - 1], id);
    }
  }

  /** The position map lists the places of every id that occurs. */
  ghost predicate Indexes(positions: map<Id, seq<nat>>, order: seq<Id>) {
    && (forall id :: id in order <==> id in positions)
    && (forall id :: id in positions ==> positions[id] == Places(order, id))
  }

  lemma IndexesGrow(positions: map<Id, seq<nat>>, order: seq<Id>, id: Id)
    requires Indexes(positions, order)
    ensures Indexes(positions[id := (if id in positions then positions[id] else []) + [|order|]], order + [id])
  {
    PlacesAbsent(order, id);
    var next := positions[id := (if id in positions then positions[id] else []) + [|order|]];
    forall other | other in next
      ensures next[other] == Places(order + [id], other)
    {
      PlacesAppend(order, id, other);
    }
  }

  /** The position map and the counter that the recursive walk shares. */
  class Walk {
    var positions: map<Id, seq<nat>>
    var next: nat
    ghost var order: seq<Id>

    ghost predicate Valid()
      reads this
    {
      next == |order| && Indexes(positions, order)
    }

    constructor ()
      ensures Valid() && order == []
    {
      positions, next, order := map[], 0, [];
    }

    method RecordTurn(turn: Value)
      requires Valid() && turn.Object?
      modifies this
      ensures Valid() && order == old(order) + Own(turn)
    {
      if turn.id == NONE { return; }
      var seen := if turn.id in positions then positions[turn.id] else [];
      IndexesGrow(positions, order, turn.id);
      hide Indexes;
      positions := positions[turn.id := seen + [next]];
      next := next + 1;
      order := order + [turn.id];
    }

    method Collect(v: Value)
      requires Valid()
      modifies this
      ensures Valid() && order == old(order) + Preorder(v)
      decreases v, 1
    {
      match v
      case Leaf =>
      case List(items) => CollectAll(v, items);
      case Object(_, turns, rest) =>
        if turns.Some? {
          CollectTurns(turns.value);
        }
        CollectAll(v, rest);
    }

    method CollectAll(parent: Value, items: seq<Value>)
      requires Valid() && forall i :: 0 <= i < |items| ==> items[i] < parent
      modifies this
      ensures Valid() && order == old(order) + PreorderAll(parent, items)
      decreases parent, 0
    {
      hide Valid, Places;
      for i := 0 to |items|
        invariant Valid() && order == old(order) + PreorderAll(parent, items[..i])
      {
        assert items[..i + 1][..i] == items[..i];
        Collect(items[i]);
      }
      assert items[..|items|] == items;
    }

    method CollectTurns(v: Value)
      requires Valid()
      modifies this
      ensures Valid() && order == old(order) + TurnIds(v)
      decreases v, 1
    {
      hide Valid, Places;
      if !v.List? { return; }
      for i := 0 to |v.items|
        invariant Valid() && order == old(order) + TurnIdsOf(v, v.items[..i])
      {
        assert v.items[..i + 1][..i] == v.items[..i];
        var turn := v.items[i];
        if turn.Object? {
          RecordTurn(turn);
          Collect(turn);
        }
      }
      assert v.items[..|v.items|] == v.items;
    }
  }

  datatype Relation = Unavailable | AtOrBefore | After

  /** The id occurs exactly once, at p. */
  predicate OnlyAt(order: seq<Id>, id: Id, p: nat) {
    p < |order| && order[p] == id && forall q :: 0 <= q < |order| && order[q] == id ==> q == p
  }

  ghost predicate Once(order: seq<Id>, id: Id) {
    exists p :: OnlyAt(order, id, p)
  }

  ghost predicate Later(order: seq<Id>, a: Id, b: Id) {
    exists p, q :: OnlyAt(order, a, p) && OnlyAt(order, b, q) && q < p
  }

  lemma PlacesAbsent(order: seq<Id>, id: Id)
    ensures id !in order ==> Places(order, id) == []
  {
  }

  lemma OncePlaces(order: seq<Id>, id: Id)
    ensures |Places(order, id)| == 1 <==> Once(order, id)
    ensures |Places(order, id)| == 1 ==> OnlyAt(order, id, Places(order, id)[0])
  {
    var places := Places(order, id);
    PlacesFacts(order, id);
    if |places| == 1 {
      assert OnlyAt(order, id, places[0]);
    } else {
      forall p
        ensures !OnlyAt(order, id, p)
      {
        if |places| > 1 {
          assert order[places[0]] == order[places[1]] == id;
        } else {
          assert p !in places;
        }
      }
    }
  }

  lemma PlacesCompare(order: seq<Id>, a: Id, b: Id)
    requires |Places(order, a)| == 1 && |Places(order, b)| == 1
    ensures Later(order, b, a) <==> Places(order, a)[0] < Places(order, b)[0]
  {
    OncePlaces(order, a);
    OncePlaces(order, b);
  }

  /** The nested thread, when there is one, is the root. */
  function Order(payload: Value, thread: Option<Value>): seq<Id> {
    Preorder(if thread.Some? then thread.value else payload)
  }

  /** minimalSourceTurnRelation. */
  method SourceTurnRelation(payload: Value, thread: Option<Value>, anchor: Id, routed: Id) returns (relation: Relation)
    ensures relation.Unavailable? <==>
      anchor == NONE || routed == NONE || !Once(Order(payload, thread), anchor) || !Once(Order(payload, thread), routed)
    ensures relation.After? <==> anchor != NONE && routed != NONE && Later(Order(payload, thread), routed, anchor)
  {
    hide Places, Preorder, Once, Later;
    if anchor == NONE || routed == NONE { return Unavailable; }
    var walk := new Walk();
    var root := if thread.Some? then thread.value else payload;
    walk.Collect(root);
    ghost var order := Order(payload, thread);
    assert walk.order == order;
    PlacesAbsent(order, anchor);
    PlacesAbsent(order, routed);
    OncePlaces(order, anchor);
    OncePlaces(order, routed);
    LaterIsBetweenOnce(order, routed, anchor);
    if anchor !in walk.positions || |walk.positions[anchor]| != 1 { return Unavailable; }
    if routed !in walk.positions || |walk.positions[routed]| != 1 { return Unavailable; }
    PlacesCompare(order, anchor, routed);
    if walk.positions[routed][0] <= walk.positions[anchor][0] { return AtOrBefore; }
    relation := After;
  }

  lemma LaterIsBetweenOnce(order: seq<Id>, a: Id, b: Id)
    ensures Later(order, a, b) ==> Once(order, a) && Once(order, b)
  {
  }

  /** On ids that occur once, "after" is a strict total order. */
  lemma LaterIsAStrictTotalOrder(order: seq<Id>, a: Id, b: Id, c: Id)
    requires Once(order, a) && Once(order, b) && Once(order, c)
    ensures !Later(order, a, a)
    ensures Later(order, a, b) && Later(order, b, c) ==> Later(order, a, c)
    ensures a != b ==> (Later(order, a, b) <==> !Later(order, b, a))
  {
    var p :| OnlyAt(order, a, p);
    var q :| OnlyAt(order, b, q);
    var r :| OnlyAt(order, c, r);
  }
}
