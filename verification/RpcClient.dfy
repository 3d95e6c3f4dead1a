/** The JSON-RPC client: what it does while it holds its lock. */
module RpcClient {
  import opened Ids

  /** Decoded JSON numbers are floating point; anything else is no usable id. */
  datatype WireId = Number(value: real) | NotANumber

  /** The conversion truncates; a negative number has no defined conversion and is
      taken as unusable here, and id zero is never given to a request. */
  function ResponseId(id: WireId): nat {
    if id.Number? && id.value >= 0.0 then id.value.Floor else 0
  }

  datatype ServerRequest = ServerRequest(generation: nat, thread: Id, turn: Id, kind: Id)

  datatype Core = Core(started: bool, generation: nat, nextId: nat, pending: map<nat, nat>, serverRequests: map<Id, ServerRequest>)

  const NEW := Core(false, 0, 0, map[], map[])

  function Start(c: Core): Core {
    if c.started then c else c.(started := true, generation := c.generation + 1)
  }

  function Stop(c: Core): Core {
    if !c.started then c
    else c.(started := false, generation := c.generation + 1, pending := map[], serverRequests := map[])
  }

  /** Request: the reply channel waits under a new id. */
  function Await(c: Core, channel: nat): Core {
    if !c.started then c else c.(nextId := c.nextId + 1, pending := c.pending[c.nextId + 1 := channel])
  }

  function GiveUp(c: Core, id: nat): Core {
    c.(pending := c.pending - {id})
  }

  predicate Current(c: Core, generation: nat) {
    c.started && c.generation == generation
  }

  /** handlePayload, response branch: the channel that a response read by the reader of
      `generation` resolves. */
  function Resolves(c: Core, id: WireId, generation: nat): Option<nat> {
    if Current(c, generation) && ResponseId(id) in c.pending then Some(c.pending[ResponseId(id)]) else None
  }

  function TakeReply(c: Core, id: WireId, generation: nat): Core {
    if Current(c, generation) then c.(pending := c.pending - {ResponseId(id)}) else c
  }

  function Record(c: Core, id: Id, request: ServerRequest): Core {
    if id == NONE || !Current(c, request.generation) then c else c.(serverRequests := c.serverRequests[id := request])
  }

  function Resolved(c: Core, id: Id, generation: nat): Core {
    if id == NONE || !Current(c, generation) then c else c.(serverRequests := c.serverRequests - {id})
  }

  datatype Answer = Written | NotRunning | NotPending | IdentityChanged | WriteFailed

  /** RespondServerRequest has no expected identity, RespondServerRequestExact has one. */
  function Respond(c: Core, id: Id, expected: Option<ServerRequest>, writes: bool): Answer {
    if !c.started then NotRunning
    else if id !in c.serverRequests || c.serverRequests[id].generation != c.generation then NotPending
    else if expected.Some? && !SameIdentity(c.serverRequests[id], expected.value) then IdentityChanged
    else if writes then Written
    else WriteFailed
  }

  predicate SameIdentity(a: ServerRequest, b: ServerRequest) {
    a.thread == b.thread && a.turn == b.turn && a.kind == b.kind
  }

  function AfterRespond(c: Core, id: Id, expected: Option<ServerRequest>, writes: bool): Core {
    if Respond(c, id, expected, writes).Written? then c.(serverRequests := c.serverRequests - {id}) else c
  }

  /** Ids are never reused, nothing waits while no process runs, and server requests
      belong to the running process. */
  ghost predicate Valid(c: Core) {
    && (forall id :: id in c.pending ==> 0 < id <= c.nextId)
    && (forall id :: id in c.serverRequests ==> c.serverRequests[id].generation == c.generation)
    && (!c.started ==> c.pending == map[] && c.serverRequests == map[])
  }

  /** Exactly which numbers resolve a pending request: those whose integer part is its
      id. No other pending request is touched. */
  lemma ResolvedExactlyByItsIntegerPart(c: Core, generation: nat, x: real, n: nat)
    requires Valid(c) && n in c.pending
    ensures n !in TakeReply(c, Number(x), generation).pending <==> Current(c, generation) && n as real <= x < (n + 1) as real
    ensures Current(c, generation) && n as real <= x < (n + 1) as real ==> Resolves(c, Number(x), generation) == Some(c.pending[n])
    ensures forall m :: m in c.pending && m != n && Current(c, generation) && n as real <= x < (n + 1) as real ==>
      m in TakeReply(c, Number(x), generation).pending
  {
    if x >= 0.0 {
      assert x.Floor as real <= x < (x.Floor + 1) as real;
    }
  }

  /** In particular a fractional id resolves a request. */
  lemma FractionalIdResolves(c: Core, generation: nat)
    requires Valid(c) && Current(c, generation) && 1 in c.pending
    ensures Resolves(c, Number(1.5), generation) == Some(c.pending[1])
  {
    ResolvedExactlyByItsIntegerPart(c, generation, 1.5, 1);
  }

  /** The client object. Every method is one critical section. */
  class Client {
    var started: bool
    var generation: nat
    var nextId: nat
    var pending: map<nat, nat>
    var serverRequests: map<Id, ServerRequest>

    ghost function State(): Core
      reads this
    {
      Core(started, generation, nextId, pending, serverRequests)
    }

    constructor ()
      ensures State() == NEW
    {
      started, generation, nextId, pending, serverRequests := false, 0, 0, map[], map[];
    }

    /** `spawned` says whether the process could be created. */
    method StartProcess(spawned: bool) returns (reader: Option<nat>)
      modifies this
      ensures State() == if spawned then Start(old(State())) else old(State())
      ensures reader == if spawned && !old(started) then Some(generation) else None
    {
      if started || !spawned { return None; }
      started := true;
      generation := generation + 1;
      reader := Some(generation);
    }

    /** closeRunning: the pending channels are handed to the caller, who answers them. */
    method TakeAllPending() returns (taken: map<nat, nat>)
      modifies this
      ensures State() == Stop(old(State()))
      ensures taken == if old(started) then old(pending) else map[]
    {
      if !started { return map[]; }
      taken := pending;
      pending := map[];
      serverRequests := map[];
      started := false;
      generation := generation + 1;
    }

    method Register(channel: nat) returns (id: Option<nat>)
      modifies this
      ensures State() == Await(old(State()), channel)
      ensures id == if old(started) then Some(nextId) else None
      ensures id.Some? && Valid(old(State())) ==> id.value !in old(pending) && pending[id.value] == channel
    {
      if !started { return None; }
      nextId := nextId + 1;
      pending := pending[nextId := channel];
      id := Some(nextId);
    }

    method Forget(id: nat)
      modifies this
      ensures State() == GiveUp(old(State()), id)
    {
      pending := pending - {id};
    }

    method TakeForResponse(id: WireId, reader: nat) returns (channel: Option<nat>)
      modifies this
      ensures channel == Resolves(old(State()), id, reader)
      ensures State() == TakeReply(old(State()), id, reader)
    {
      var responseId := ResponseId(id);
      if !started || generation != reader { return None; }
      channel := if responseId in pending then Some(pending[responseId]) else None;
      pending := pending - {responseId};
    }

    method RecordServerRequest(id: Id, request: ServerRequest)
      modifies this
      ensures State() == Record(old(State()), id, request)
    {
      if id == NONE || !started || generation != request.generation { return; }
      serverRequests := serverRequests[id := request];
    }

    method ResolveServerRequest(id: Id, reader: nat)
      modifies this
      ensures State() == Resolved(old(State()), id, reader)
    {
      if id == NONE || !started || generation != reader { return; }
      serverRequests := serverRequests - {id};
    }

    method RespondServerRequest(id: Id, expected: Option<ServerRequest>, writes: bool) returns (answer: Answer)
      modifies this
      ensures answer == Respond(old(State()), id, expected, writes)
      ensures State() == AfterRespond(old(State()), id, expected, writes)
    {
      if !started { return NotRunning; }
      if id !in serverRequests || serverRequests[id].generation != generation { return NotPending; }
      if expected.Some? && !SameIdentity(serverRequests[id], expected.value) { return IdentityChanged; }
      if !writes { return WriteFailed; }
      serverRequests := serverRequests - {id};
      answer := Written;
    }
  }
}
