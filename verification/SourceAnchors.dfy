/** Choosing the turn of a source thread from which a message continues. */
module SourceAnchors {
  import opened Ids

  datatype Turn = Turn(id: Id, terminal: bool)

  datatype Anchor = Found(turn: Id) | InProgress | Unavailable

  /** The scan ends at this turn: the requested one, or without a request any ended one. */
  predicate Stops(turn: Turn, requested: Id) {
    if requested == NONE then turn.terminal else turn.id == requested
  }

  ghost predicate LastStop(turns: seq<Turn>, requested: Id, i: int) {
    0 <= i < |turns| && Stops(turns[i], requested) && forall j :: i < j < |turns| ==> !Stops(turns[j], requested)
  }

  /** resolveSourceAnchor: the backward scan answers with the last turn it may stop at,
      provided that this turn has ended and has an id. */
  method ResolveSourceAnchor(turns: seq<Turn>, requested: Id) returns (anchor: Anchor)
    ensures anchor.Found? <==> exists i :: LastStop(turns, requested, i) && turns[i].terminal && turns[i].id != NONE
    ensures anchor.Found? ==> exists i :: LastStop(turns, requested, i) && turns[i].id == anchor.turn
    ensures anchor.InProgress? <==> requested != NONE && exists i :: LastStop(turns, requested, i) && !turns[i].terminal
  {
    var i := |turns| - 1;
    while i >= 0
      invariant -1 <= i < |turns|
      invariant forall j :: i < j < |turns| ==> !Stops(turns[j], requested)
    {
      var turn := turns[i];
      if requested == NONE && turn.terminal {
        assert LastStop(turns, requested, i);
        LastStopIsUnique(turns, requested, i);
        if turn.id == NONE { return Unavailable; }
        return Found(turn.id);
      }
      if turn.id != NONE && turn.id == requested {
        assert LastStop(turns, requested, i);
        LastStopIsUnique(turns, requested, i);
        if !turn.terminal { return InProgress; }
        return Found(turn.id);
      }
      i := i - 1;
    }
    anchor := Unavailable;
  }

  lemma LastStopIsUnique(turns: seq<Turn>, requested: Id, i: int)
    requires LastStop(turns, requested, i)
    ensures forall j :: LastStop(turns, requested, j) ==> j == i
  {
  }
}
