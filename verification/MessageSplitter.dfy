/** Splitting a rendered message into chunks of a bounded number of UTF-16 units. */
module MessageSplitter {
  import opened Ids

  /** A Unicode scalar value; decoding a string never yields a surrogate. */
  type Rune = r: int | (0 <= r < 0xD800) || (0xE000 <= r <= 0x10FFFF) witness 0

  type Text = seq<Rune>

  /** `style` stands for the type, URL and language of an entity. */
  datatype Entity = Entity(style: Id, offset: int, length: int)
  datatype Message = Message(text: Text, entities: seq<Entity>)

  /** Section 2.1 of RFC 2781. */
  function EncodeRune(r: Rune): (units: seq<int>)
    ensures |units| == Width(r)
  {
    if r < 0x10000 then [r] else [0xD800 + (r - 0x10000) / 0x400, 0xDC00 + (r - 0x10000) % 0x400]
  }

  function Width(r: Rune): nat {
    if r < 0x10000 then 1 else 2
  }

  function Encode(text: Text): (units: seq<int>)
    ensures |units| == Units(text)
  {
    if text == [] then [] else Encode(text[..|text| - 1]) + EncodeRune(text[|text| - 1])
  }

  function Units(text: Text): nat {
    if text == [] then 0 else Units(text[..|text| - 1]) + Width(text[|text| - 1])
  }

  function Max(a: int, b: int): int { if a < b then b else a }
  function Min(a: int, b: int): int { if a < b then a else b }

  /** The part of an entity inside the units [from, to), relative to `from`. */
  function Clip(e: Entity, from: int, to: int): Option<Entity> {
    var a, b := Max(e.offset, from), Min(e.offset + e.length, to);
    if a < b then Some(e.(offset := a - from, length := b - a)) else None
  }

  function Clipped(entities: seq<Entity>, from: int, to: int): seq<Entity> {
    if entities == [] then []
    else
      var rest := Clipped(entities[..|entities| - 1], from, to);
      var last := Clip(entities[|entities| - 1], from, to);
      if last.Some? then rest + [last.value] else rest
  }

  function Joined(chunks: seq<Message>): Text {
    if chunks == [] then [] else Joined(chunks[..|chunks| - 1]) + chunks[|chunks| - 1].text
  }

  /** The unit at which chunk k begins. */
  function StartOf(chunks: seq<Message>, k: nat): nat
    requires k <= |chunks|
  {
    if k == 0 then 0 else StartOf(chunks, k - 1) + Units(chunks[k - 1].text)
  }

  predicate Covers(e: Entity, unit: int) {
    e.offset <= unit < e.offset + e.length
  }

  ghost predicate ChunkOk(message: Message, limit: nat, chunks: seq<Message>, k: nat)
    requires k < |chunks|
  {
    var from := StartOf(chunks, k);
    && chunks[k].text != []
    && Units(chunks[k].text) <= limit
    && chunks[k].entities == Clipped(message.entities, from, from + Units(chunks[k].text))
  }

  /** A chunk ends only where the next rune does not fit. */
  ghost predicate Greedy(limit: nat, chunks: seq<Message>, k: nat)
    requires k < |chunks|
  {
    k + 1 < |chunks| && chunks[k + 1].text != [] ==> Units(chunks[k].text) + Width(chunks[k + 1].text[0]) > limit
  }

  ghost predicate Splits(message: Message, limit: nat, chunks: seq<Message>) {
    && Joined(chunks) == message.text
    && (forall k :: 0 <= k < |chunks| ==> ChunkOk(message, limit, chunks, k))
    && (forall k :: 0 <= k < |chunks| ==> Greedy(limit, chunks, k))
  }

  lemma {:induction false} UnitsConcat(a: Text, b: Text)
    ensures Units(a + b) == Units(a) + Units(b)
    decreases |b|
  {
    if b == [] {
      assert a + b == a;
    } else {
      assert (a + b)[..|a + b| - 1] == a + b[..|b| - 1];
      UnitsConcat(a, b[..|b| - 1]);
    }
  }

  lemma {:induction false} StartOfPrefix(chunks: seq<Message>, more: seq<Message>, k: nat)
    requires k <= |chunks|
    ensures StartOf(chunks + more, k) == StartOf(chunks, k)
  {
    if k > 0 {
      StartOfPrefix(chunks, more, k - 1);
    }
  }

  /** The inner loop over the runes: as many as fit, and at least one. */
  method TakeRunes(runes: Text, startRune: nat, startUnit: nat, limit: nat) returns (endRune: nat, endUnit: nat)
    requires startRune < |runes| && Width(runes[startRune]) <= limit
    ensures startRune < endRune <= |runes|
    ensures endUnit == startUnit + Units(runes[startRune..endRune]) && Units(runes[startRune..endRune]) <= limit
    ensures endRune < |runes| ==> Units(runes[startRune..endRune]) + Width(runes[endRune]) > limit
  {
    endRune, endUnit := startRune, startUnit;
    while endRune < |runes|
      invariant startRune <= endRune <= |runes|
      invariant endUnit == startUnit + Units(runes[startRune..endRune])
      invariant Units(runes[startRune..endRune]) <= limit
      invariant endRune == startRune ==> endUnit == startUnit
    {
      var width := Width(runes[endRune]);
      if endUnit - startUnit + width > limit { break; }
      var taken := runes[startRune..endRune + 1];
      assert taken[..|taken| - 1] == runes[startRune..endRune];
      endUnit := endUnit + width;
      endRune := endRune + 1;
    }
  }

  /** splitMinimalRendered. It makes progress exactly when every single rune fits, which
      is the case for every limit of at least two. */
  method SplitRendered(message: Message, limit: nat) returns (chunks: seq<Message>)
    requires forall i :: 0 <= i < |message.text| ==> Width(message.text[i]) <= limit
    ensures Splits(message, limit, chunks)
  {
    assert Joined([]) == [] && StartOf([], 0) == 0;
    hide ChunkOk, Greedy, Clipped, Joined, StartOf, Units, Width;
    var runes := message.text;
    chunks := [];
    var startRune, startUnit := 0, 0;
    while startRune < |runes|
      invariant 0 <= startRune <= |runes|
      invariant Joined(chunks) == runes[..startRune]
      invariant startUnit == StartOf(chunks, |chunks|)
      invariant forall k :: 0 <= k < |chunks| ==> ChunkOk(message, limit, chunks, k)
      invariant forall k :: 0 <= k < |chunks| ==> Greedy(limit, chunks, k)
      invariant chunks != [] && startRune < |runes| ==> Units(chunks[|chunks| - 1].text) + Width(runes[startRune]) > limit
      decreases |runes| - startRune
    {
      var endRune, endUnit := TakeRunes(runes, startRune, startUnit, limit);
      var entities := ClipEntities(message.entities, startUnit, endUnit);
      var chunk := Message(runes[startRune..endRune], entities);
      ghost var before := chunks;
      chunks := chunks + [chunk];
      Extended(message, limit, before, chunk);
      assert runes[..endRune] == runes[..startRune] + chunk.text;
      startRune, startUnit := endRune, endUnit;
    }
    assert runes[..startRune] == runes;
  }

  lemma Extended(message: Message, limit: nat, chunks: seq<Message>, chunk: Message)
    requires forall k :: 0 <= k < |chunks| ==> ChunkOk(message, limit, chunks, k) && Greedy(limit, chunks, k)
    requires chunk.text != [] && Units(chunk.text) <= limit
    requires chunk.entities == Clipped(message.entities, StartOf(chunks, |chunks|), StartOf(chunks, |chunks|) + Units(chunk.text))
    requires chunks != [] ==> Units(chunks[|chunks| - 1].text) + Width(chunk.text[0]) > limit
    ensures
      var next := chunks + [chunk];
      && Joined(next) == Joined(chunks) + chunk.text
      && StartOf(next, |next|) == StartOf(chunks, |chunks|) + Units(chunk.text)
      && forall k :: 0 <= k < |next| ==> ChunkOk(message, limit, next, k) && Greedy(limit, next, k)
  {
    var next := chunks + [chunk];
    assert next[..|next| - 1] == chunks;
    StartOfPrefix(chunks, [chunk], |chunks|);
    forall k | 0 <= k < |next|
      ensures ChunkOk(message, limit, next, k) && Greedy(limit, next, k)
    {
      if k < |chunks| {
        StartOfPrefix(chunks, [chunk], k);
        assert ChunkOk(message, limit, chunks, k) && Greedy(limit, chunks, k);
      }
    }
  }

  /** The inner loop over the entities of the message. */
  method ClipEntities(entities: seq<Entity>, from: nat, to: nat) returns (clipped: seq<Entity>)
    ensures clipped == Clipped(entities, from, to)
  {
    clipped := [];
    for i := 0 to |entities|
      invariant clipped == Clipped(entities[..i], from, to)
    {
      assert entities[..i + 1][..i] == entities[..i];
      var a := Max(entities[i].offset, from);
      var b := Min(entities[i].offset + entities[i].length, to);
      if a < b {
        clipped := clipped + [entities[i].(offset := a - from, length := b - a)];
      }
    }
    assert entities[..|entities|] == entities;
  }

  // ---- What the chunks mean ----

  lemma EveryRuneFitsFromTwo(message: Message, limit: nat)
    requires limit >= 2
    ensures forall i :: 0 <= i < |message.text| ==> Width(message.text[i]) <= limit
  {
  }

  lemma {:induction false} ClippedCovers(entities: seq<Entity>, from: int, to: int, style: Id, unit: int)
    requires from <= unit < to
    ensures (exists e :: e in Clipped(entities, from, to) && e.style == style && Covers(e, unit - from))
       <==> (exists e :: e in entities && e.style == style && Covers(e, unit))
    ensures forall e :: e in Clipped(entities, from, to) ==> 0 <= e.offset && 0 < e.length && e.offset + e.length <= to - from
    decreases |entities|
  {
    if entities != [] {
      var front, last := entities[..|entities| - 1], entities[|entities| - 1];
      ClippedCovers(front, from, to, style, unit);
      assert entities == front + [last];
      var clip := Clip(last, from, to);
      var clipped := Clipped(entities, from, to);
      assert clipped == Clipped(front, from, to) + if clip.Some? then [clip.value] else [];
      assert Covers(last, unit) <==> clip.Some? && Covers(clip.value, unit - from);
      assert clip.Some? ==> clip.value in clipped;
      assert forall e :: e in Clipped(front, from, to) ==> e in clipped;
    }
  }

  lemma {:induction false} ClipPlace(entities: seq<Entity>, from: int, to: int, i: nat)
    requires i < |entities| && Clip(entities[i], from, to).Some?
    ensures
      var place := |Clipped(entities[..i], from, to)|;
      place < |Clipped(entities, from, to)| && Clipped(entities, from, to)[place] == Clip(entities[i], from, to).value
    decreases |entities|
  {
    var front := entities[..|entities| - 1];
    if i < |entities| - 1 {
      ClipPlace(front, from, to, i);
      assert front[..i] == entities[..i];
    }
  }

  /** A unit of the message has a style exactly when the chunk that contains the unit
      gives it that style; every clipped entity lies inside its chunk. */
  lemma EntitiesPartitioned(message: Message, limit: nat, chunks: seq<Message>, k: nat, unit: nat, style: Id)
    requires Splits(message, limit, chunks) && k < |chunks|
    requires StartOf(chunks, k) <= unit < StartOf(chunks, k + 1)
    ensures (exists e :: e in message.entities && e.style == style && Covers(e, unit))
       <==> (exists e :: e in chunks[k].entities && e.style == style && Covers(e, unit - StartOf(chunks, k)))
    ensures forall e :: e in chunks[k].entities ==> 0 <= e.offset && 0 < e.length && e.offset + e.length <= Units(chunks[k].text)
  {
    assert ChunkOk(message, limit, chunks, k);
    ClippedCovers(message.entities, StartOf(chunks, k), StartOf(chunks, k + 1), style, unit);
  }

  /** The entities that reach into the units [from, to), by their positions. */
  function Reaching(entities: seq<Entity>, from: int, to: int): seq<nat> {
    if entities == [] then []
    else
      var last := |entities| - 1;
      Reaching(entities[..last], from, to) + if Clip(entities[last], from, to).Some? then [last] else []
  }

  /** `pieces` are those of the entities at the increasing positions `reaching`. */
  ghost predicate PiecesOf(entities: seq<Entity>, from: int, to: int, reaching: seq<nat>, pieces: seq<Entity>) {
    && |reaching| == |pieces|
    && (forall k :: 0 <= k < |reaching| ==> reaching[k] < |entities| && Clip(entities[reaching[k]], from, to) == Some(pieces[k]))
    && (forall j, k :: 0 <= j < k < |reaching| ==> reaching[j] < reaching[k])
  }

  lemma OneMore(front: seq<Entity>, e: Entity, from: int, to: int, reaching: seq<nat>, pieces: seq<Entity>)
    requires PiecesOf(front, from, to, reaching, pieces)
    ensures
      var clip := Clip(e, from, to);
      PiecesOf(front + [e], from, to, if clip.Some? then reaching + [|front|] else reaching, if clip.Some? then pieces + [clip.value] else pieces)
  {
    hide Clip;
    assert forall i :: 0 <= i < |front| ==> (front + [e])[i] == front[i];
  }

  lemma ReachingNext(front: seq<Entity>, e: Entity, from: int, to: int)
    ensures
      var clip := Clip(e, from, to);
      && Reaching(front + [e], from, to) == (if clip.Some? then Reaching(front, from, to) + [|front|] else Reaching(front, from, to))
      && Clipped(front + [e], from, to) == (if clip.Some? then Clipped(front, from, to) + [clip.value] else Clipped(front, from, to))
  {
    hide Clip;
    assert (front + [e])[..|front|] == front;
  }

  lemma {:induction false} PiecesAreOfReaching(entities: seq<Entity>, from: int, to: int)
    ensures PiecesOf(entities, from, to, Reaching(entities, from, to), Clipped(entities, from, to))
    decreases |entities|
  {
    if entities != [] {
      var front, e := entities[..|entities| - 1], entities[|entities| - 1];
      assert entities == front + [e];
      hide *;
      PiecesAreOfReaching(front, from, to);
      ReachingNext(front, e, from, to);
      OneMore(front, e, from, to, Reaching(front, from, to), Clipped(front, from, to));
    }
  }

  lemma PieceCovers(e: Entity, from: int, to: int, piece: Entity)
    requires Clip(e, from, to) == Some(piece)
    ensures piece.style == e.style && exists u :: from <= u < to && Covers(e, u)
    ensures forall u :: from <= u < to ==> (Covers(piece, u - from) <==> Covers(e, u))
  {
    assert Covers(e, Max(e.offset, from));
  }

  /** A chunk carries nothing but pieces of entities that cover one of its units, at most
      one of each, in the order of the entities. */
  lemma OnePieceEach(message: Message, limit: nat, chunks: seq<Message>, k: nat)
    requires Splits(message, limit, chunks) && k < |chunks|
    ensures
      var from, to := StartOf(chunks, k), StartOf(chunks, k + 1);
      var reaching := Reaching(message.entities, from, to);
      && |chunks[k].entities| == |reaching|
      && (forall i, j :: 0 <= i < j < |reaching| ==> reaching[i] < reaching[j])
      && (forall p :: 0 <= p < |reaching| ==>
            reaching[p] < |message.entities| && chunks[k].entities[p].style == message.entities[reaching[p]].style &&
            (exists u :: from <= u < to && Covers(message.entities[reaching[p]], u)) &&
            forall u :: from <= u < to ==> (Covers(chunks[k].entities[p], u - from) <==> Covers(message.entities[reaching[p]], u)))
  {
    var from, to := StartOf(chunks, k), StartOf(chunks, k + 1);
    var reaching := Reaching(message.entities, from, to);
    assert ChunkOk(message, limit, chunks, k);
    PiecesAreOfReaching(message.entities, from, to);
    hide Reaching, Clipped, Splits, ChunkOk, StartOf, Clip, Covers;
    forall p | 0 <= p < |reaching|
      ensures reaching[p] < |message.entities|
      ensures exists u :: from <= u < to && Covers(message.entities[reaching[p]], u)
      ensures chunks[k].entities[p].style == message.entities[reaching[p]].style
      ensures forall u :: from <= u < to ==> (Covers(chunks[k].entities[p], u - from) <==> Covers(message.entities[reaching[p]], u))
    {
      PieceCovers(message.entities[reaching[p]], from, to, chunks[k].entities[p]);
    }
  }

  /** Entity by entity: each entity that covers a unit of the chunk has its own piece
      there, behind the pieces of the entities before it, and the piece covers the same
      units. */
  lemma EntityHasItsPiece(message: Message, limit: nat, chunks: seq<Message>, k: nat, i: nat, unit: nat)
    requires Splits(message, limit, chunks) && k < |chunks| && i < |message.entities|
    requires StartOf(chunks, k) <= unit < StartOf(chunks, k + 1) && Covers(message.entities[i], unit)
    ensures
      var from, to := StartOf(chunks, k), StartOf(chunks, k + 1);
      var place := |Clipped(message.entities[..i], from, to)|;
      && place < |chunks[k].entities|
      && chunks[k].entities[place].style == message.entities[i].style
      && forall u :: from <= u < to ==> (Covers(chunks[k].entities[place], u - from) <==> Covers(message.entities[i], u))
  {
    assert ChunkOk(message, limit, chunks, k);
    ClipPlace(message.entities, StartOf(chunks, k), StartOf(chunks, k + 1), i);
  }

  function ClipLength(e: Entity, from: int, to: int): int {
    Max(0, Min(e.offset + e.length, to) - Max(e.offset, from))
  }

  /** The units of entity e that the first k chunks carry. */
  function Carried(e: Entity, chunks: seq<Message>, k: nat): int
    requires k <= |chunks|
  {
    if k == 0 then 0 else Carried(e, chunks, k - 1) + ClipLength(e, StartOf(chunks, k - 1), StartOf(chunks, k))
  }

  /** No unit of an entity is lost or doubled: the pieces add up to its part inside the text. */
  lemma {:induction false} EntityConserved(e: Entity, chunks: seq<Message>, k: nat)
    requires k <= |chunks|
    ensures Carried(e, chunks, k) == ClipLength(e, 0, StartOf(chunks, k))
  {
    if k > 0 {
      EntityConserved(e, chunks, k - 1);
    }
  }

  lemma {:induction false} StartOfUnits(chunks: seq<Message>, k: nat)
    requires k <= |chunks|
    ensures StartOf(chunks, k) == Units(Joined(chunks[..k]))
  {
    if k == 0 {
      assert chunks[..0] == [];
    } else {
      StartOfUnits(chunks, k - 1);
      assert chunks[..k][..k - 1] == chunks[..k - 1];
      UnitsConcat(Joined(chunks[..k - 1]), chunks[k - 1].text);
    }
  }

  /** The chunks together cover the text, so the pieces of an entity add up to its part
      inside the whole message. */
  lemma PiecesAddUp(message: Message, limit: nat, chunks: seq<Message>, e: Entity)
    requires Splits(message, limit, chunks)
    ensures Carried(e, chunks, |chunks|) == ClipLength(e, 0, Units(message.text))
  {
    EntityConserved(e, chunks, |chunks|);
    StartOfUnits(chunks, |chunks|);
    assert chunks[..|chunks|] == chunks;
  }

  function Decode(units: seq<int>): seq<int>
    decreases |units|
  {
    if units == [] then []
    else if |units| >= 2 && HighSurrogate(units[|units| - 2]) && LowSurrogate(units[|units| - 1]) then
      Decode(units[..|units| - 2]) + [0x10000 + (units[|units| - 2] - 0xD800) * 0x400 + (units[|units| - 1] - 0xDC00)]
    else Decode(units[..|units| - 1]) + [units[|units| - 1]]
  }

  lemma DecodeLast(before: seq<int>, r: Rune)
    ensures Decode(before + EncodeRune(r)) == Decode(before) + [r as int]
  {
    var x: int := r;
    var units := before + EncodeRune(r);
    if x >= 0x10000 {
      var y := x - 0x10000;
      assert y == y / 0x400 * 0x400 + y % 0x400 && 0 <= y / 0x400 < 0x400;
      assert units[|units| - 2] == 0xD800 + y / 0x400 && units[|units| - 1] == 0xDC00 + y % 0x400;
      assert units[..|units| - 2] == before;
    } else {
      assert units[|units| - 1] == x && !LowSurrogate(x);
      assert units[..|units| - 1] == before;
    }
  }

  /** The units of a text are its UTF-16 form: decoding them gives the runes back. */
  lemma {:induction false} DecodeEncoded(text: Text)
    ensures |Decode(Encode(text))| == |text| && forall i :: 0 <= i < |text| ==> Decode(Encode(text))[i] == text[i]
    decreases |text|
  {
    if text != [] {
      var front, last := text[..|text| - 1], text[|text| - 1];
      assert text == front + [last] && Encode(text) == Encode(front) + EncodeRune(last);
      hide *;
      DecodeEncoded(front);
      DecodeLast(Encode(front), last);
    }
  }

  predicate HighSurrogate(unit: int) { 0xD800 <= unit < 0xDC00 }
  predicate LowSurrogate(unit: int) { 0xDC00 <= unit < 0xE000 }

  lemma {:induction false} EncodeConcat(a: Text, b: Text)
    ensures Encode(a + b) == Encode(a) + Encode(b)
    decreases |b|
  {
    if b == [] {
      assert a + b == a;
    } else {
      assert (a + b)[..|a + b| - 1] == a + b[..|b| - 1];
      EncodeConcat(a, b[..|b| - 1]);
    }
  }

  lemma EdgeUnits(text: Text)
    requires text != []
    ensures Encode(text) != [] && !LowSurrogate(Encode(text)[0]) && !HighSurrogate(Encode(text)[|Encode(text)| - 1])
  {
  }

  lemma EncodedPart(before: Text, text: Text, after: Text)
    ensures Units(before) + Units(text) <= Units(before + text + after)
    ensures Encode(before + text + after)[Units(before)..Units(before) + Units(text)] == Encode(text)
  {
    EncodeConcat(before + text, after);
    EncodeConcat(before, text);
  }

  /** Cutting between runes never separates a surrogate pair: the encoded chunks are
      consecutive pieces of the encoded text, none starts with a low surrogate and none
      ends with a high one. */
  lemma ChunksKeepPairs(message: Message, limit: nat, chunks: seq<Message>, k: nat)
    requires Splits(message, limit, chunks) && k < |chunks|
    ensures
      var units := Encode(chunks[k].text);
      && 0 < |units| <= limit
      && !LowSurrogate(units[0]) && !HighSurrogate(units[|units| - 1])
      && StartOf(chunks, k + 1) <= Units(message.text)
      && Encode(message.text)[StartOf(chunks, k)..StartOf(chunks, k + 1)] == units
  {
    hide *;
    ChunkFits(message, limit, chunks, k);
    ChunkInText(message, limit, chunks, k);
    EdgeUnits(chunks[k].text);
    EncodedPart(Joined(chunks[..k]), chunks[k].text, Joined(chunks[k + 1..]));
  }

  lemma ChunkFits(message: Message, limit: nat, chunks: seq<Message>, k: nat)
    requires Splits(message, limit, chunks) && k < |chunks|
    ensures chunks[k].text != [] && Units(chunks[k].text) <= limit
  {
    assert ChunkOk(message, limit, chunks, k);
  }

  lemma ChunkInText(message: Message, limit: nat, chunks: seq<Message>, k: nat)
    requires Splits(message, limit, chunks) && k < |chunks|
    ensures message.text == Joined(chunks[..k]) + chunks[k].text + Joined(chunks[k + 1..])
    ensures StartOf(chunks, k) == Units(Joined(chunks[..k])) && StartOf(chunks, k + 1) == Units(Joined(chunks[..k])) + Units(chunks[k].text)
  {
    assert message.text == Joined(chunks);
    assert Joined(chunks[..k + 1]) == Joined(chunks[..k]) + chunks[k].text by {
      assert chunks[..k + 1][..k] == chunks[..k];
    }
    hide Splits, Joined, Units;
    JoinedSplit(chunks, k + 1);
    StartOfUnits(chunks, k);
  }

  lemma {:induction false} JoinedSplit(chunks: seq<Message>, k: nat)
    requires k <= |chunks|
    ensures Joined(chunks) == Joined(chunks[..k]) + Joined(chunks[k..])
    decreases |chunks|
  {
    if k == |chunks| {
      assert chunks[..k] == chunks && chunks[k..] == [];
    } else {
      var front := chunks[..|chunks| - 1];
      JoinedSplit(front, k);
      assert front[..k] == chunks[..k];
      assert chunks[k..][..|chunks| - k - 1] == front[k..];
      assert chunks[k..][|chunks| - k - 1] == chunks[|chunks| - 1];
    }
  }
}
