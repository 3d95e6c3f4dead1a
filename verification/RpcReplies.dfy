/** Which reply reaches which waiter, and that the reply of a current response does. */
module RpcReplies {
  import opened Ids
  import opened RpcClient
  import opened RpcCorrelation

  /** What every channel that was taken out of the pending requests is to be answered. */
  type Promises = map<nat, Reply>

  function Promised(s: Sys, log: Promises, op: Op): Promises {
    match op
    case ReadResponse(h, generation, wire, value) =>
      if h !in s.hands && Resolves(s.core, wire, generation).Some?
      then log[Resolves(s.core, wire, generation).value := Response(generation, wire, value)]
      else log
    case BeginShutdown(h) =>
      if h !in s.hands && s.core.started
      then map c | c in log.Keys + s.core.pending.Values :: if c in s.core.pending.Values then ClosedBeforeResponse else log[c]
      else log
    case _ => log
  }

  function Log(s: Sys, log: Promises, ops: seq<Op>): Promises
    decreases |ops|
  {
    if ops == [] then log else Log(Next(s, ops[0]), Promised(s, log, ops[0]), ops[1..])
  }

  predicate Says(log: Promises, c: nat, reply: Reply) {
    c in log && log[c] == reply
  }

  ghost predicate HandSays(log: Promises, hand: Hand) {
    match hand
    case Delivering(c, reply) => Says(log, c, reply)
    case Delivered(_) => true
    case Flushing(rest) => forall c :: c in rest ==> Says(log, c, ClosedBeforeResponse)
    case Flushed(rest, _) => forall c :: c in rest ==> Says(log, c, ClosedBeforeResponse)
  }

  ghost predicate Open(s: Sys, log: Promises) {
    && (forall id :: id in s.core.pending ==> s.core.pending[id] !in log)
    && (forall c :: c in log ==> c < |s.channels|)
  }

  ghost predicate Kept(s: Sys, log: Promises) {
    && (forall h :: h in s.hands ==> HandSays(log, s.hands[h]))
    && (forall c :: 0 <= c < |s.channels| && s.channels[c].buffer.Some? ==> Says(log, c, s.channels[c].buffer.value))
    && (forall c :: c in s.outcomes && s.outcomes[c].Got? ==> Says(log, c, s.outcomes[c].reply))
  }

  ghost predicate Grows(log: Promises, next: Promises) {
    forall c :: c in log ==> c in next && next[c] == log[c]
  }

  lemma KeptGrows(s: Sys, log: Promises, next: Promises)
    requires Kept(s, log) && Grows(log, next)
    ensures Kept(s, next)
  {
    forall h | h in s.hands
      ensures HandSays(next, s.hands[h])
    {
      assert HandSays(log, s.hands[h]);
    }
  }

  lemma ReadKeepsPromises(s: Sys, log: Promises, h: nat, generation: nat, wire: WireId, value: Id)
    requires Inv(s) && Open(s, log) && Kept(s, log)
    ensures
      var op := ReadResponse(h, generation, wire, value);
      Open(Next(s, op), Promised(s, log, op)) && Kept(Next(s, op), Promised(s, log, op))
  {
    var resolved := Resolves(s.core, wire, generation);
    if h !in s.hands && resolved.Some? {
      var next := log[resolved.value := Response(generation, wire, value)];
      assert resolved.value !in log && resolved.value < |s.channels|;
      PendingDistinct(s, ResponseId(wire));
      hide Inv;
      KeptGrows(s, log, next);
      assert HandSays(next, Delivering(resolved.value, Response(generation, wire, value)));
    }
  }

  lemma ShutdownKeepsPromises(s: Sys, log: Promises, h: nat)
    requires Inv(s) && Open(s, log) && Kept(s, log)
    ensures Open(Next(s, BeginShutdown(h)), Promised(s, log, BeginShutdown(h))) && Kept(Next(s, BeginShutdown(h)), Promised(s, log, BeginShutdown(h)))
  {
    if h !in s.hands && s.core.started {
      var next := Promised(s, log, BeginShutdown(h));
      forall c | c in s.core.pending.Values
        ensures c !in log && c < |s.channels|
      {
        var id :| id in s.core.pending && s.core.pending[id] == c;
        assert Untouched(s.channels, c);
      }
      hide Inv;
      KeptGrows(s, log, next);
      assert HandSays(next, Flushing(s.core.pending.Values));
    }
  }

  predicate OfHand(op: Op) {
    op.FlushSend? || op.FlushClose? || op.Deliver? || op.CloseDelivered?
  }

  lemma HandKeepsPromises(s: Sys, log: Promises, op: Op)
    requires OfHand(op) && Open(s, log) && Kept(s, log)
    ensures Open(Next(s, op), log) && Kept(Next(s, op), log)
  {
    if op.FlushSend? || op.Deliver? {
      hide Next, Open, Kept;
      SendKeepsPromises(s, log, op);
    } else if op.h in s.hands {
      assert HandSays(log, s.hands[op.h]);
    }
  }

  lemma SendKeepsPromises(s: Sys, log: Promises, op: Op)
    requires (op.FlushSend? || op.Deliver?) && Open(s, log) && Kept(s, log)
    ensures Open(Next(s, op), log) && Kept(Next(s, op), log)
  {
    if op.h in s.hands {
      assert HandSays(log, s.hands[op.h]);
      var n := Next(s, op);
      assert |n.channels| == |s.channels| && n.core == s.core && n.outcomes == s.outcomes;
      assert n.hands == s.hands || (op.h in n.hands && n.hands == s.hands[op.h := n.hands[op.h]] && HandSays(log, n.hands[op.h]));
      hide HandSays;
    }
  }

  lemma ClientKeepsPromises(s: Sys, log: Promises, op: Op)
    requires !OfHand(op) && !op.ReadResponse? && !op.BeginShutdown? && Open(s, log) && Kept(s, log)
    ensures Open(Next(s, op), log) && Kept(Next(s, op), log)
  {
    hide HandSays;
  }

  lemma NextKeepsPromises(s: Sys, log: Promises, op: Op)
    requires Inv(s) && Open(s, log) && Kept(s, log)
    ensures Open(Next(s, op), Promised(s, log, op)) && Kept(Next(s, op), Promised(s, log, op))
  {
    hide Inv, Open, Kept, Next;
    if op.ReadResponse? {
      ReadKeepsPromises(s, log, op.h, op.generation, op.wire, op.value);
    } else if op.BeginShutdown? {
      ShutdownKeepsPromises(s, log, op.h);
    } else if OfHand(op) {
      HandKeepsPromises(s, log, op);
    } else {
      ClientKeepsPromises(s, log, op);
    }
  }

  lemma {:induction false} RunKeepsPromises(s: Sys, log: Promises, ops: seq<Op>)
    requires Inv(s) && Open(s, log) && Kept(s, log)
    ensures Inv(Run(s, ops)) && Open(Run(s, ops), Log(s, log, ops)) && Kept(Run(s, ops), Log(s, log, ops))
    decreases |ops|
  {
    hide Inv, Open, Kept, Next, Promised;
    if ops != [] {
      NextKeeps(s, ops[0]);
      NextKeepsPromises(s, log, ops[0]);
      RunKeepsPromises(Next(s, ops[0]), Promised(s, log, ops[0]), ops[1..]);
    }
  }

  // ---- Where a promise comes from ----

  /** Step i read the response that took channel c, and this is what it read. */
  ghost predicate Took(s: Sys, ops: seq<Op>, i: nat, c: nat, reply: Reply) {
    && i < |ops| && ops[i].ReadResponse?
    && Resolves(Run(s, ops[..i]).core, ops[i].wire, ops[i].generation) == Some(c)
    && reply == Response(ops[i].generation, ops[i].wire, ops[i].value)
  }

  /** Step i began the shutdown that found channel c waiting. */
  ghost predicate ShutDown(s: Sys, ops: seq<Op>, i: nat, c: nat) {
    i < |ops| && ops[i].BeginShutdown? && c in Run(s, ops[..i]).core.pending.Values
  }

  ghost predicate Justified(s: Sys, ops: seq<Op>, c: nat, reply: Reply) {
    if reply.Response? then exists i :: Took(s, ops, i, c, reply) else exists i :: ShutDown(s, ops, i, c)
  }

  lemma Later(s: Sys, ops: seq<Op>, c: nat, reply: Reply)
    requires ops != [] && Justified(Next(s, ops[0]), ops[1..], c, reply)
    ensures Justified(s, ops, c, reply)
  {
    var next := Next(s, ops[0]);
    hide Next, Resolves;
    if reply.Response? {
      var i: nat :| Took(next, ops[1..], i, c, reply);
      assert ops[..i + 1][1..] == ops[1..][..i];
      assert Run(s, ops[..i + 1]) == Run(next, ops[1..][..i]);
      assert Took(s, ops, i + 1, c, reply);
    } else {
      var i: nat :| ShutDown(next, ops[1..], i, c);
      assert ops[..i + 1][1..] == ops[1..][..i];
      assert Run(s, ops[..i + 1]) == Run(next, ops[1..][..i]);
      assert ShutDown(s, ops, i + 1, c);
    }
  }

  lemma First(s: Sys, log: Promises, ops: seq<Op>, c: nat)
    requires ops != [] && c in Promised(s, log, ops[0])
    ensures Says(log, c, Promised(s, log, ops[0])[c]) || Justified(s, ops, c, Promised(s, log, ops[0])[c])
  {
    assert Run(s, ops[..0]) == s;
    var reply := Promised(s, log, ops[0])[c];
    if !Says(log, c, reply) {
      if reply.Response? {
        assert Took(s, ops, 0, c, reply);
      } else {
        assert ShutDown(s, ops, 0, c);
      }
    }
  }

  lemma {:induction false} PromisesAreJustified(s: Sys, log: Promises, ops: seq<Op>, c: nat)
    requires c in Log(s, log, ops)
    ensures Says(log, c, Log(s, log, ops)[c]) || Justified(s, ops, c, Log(s, log, ops)[c])
    decreases |ops|
  {
    if ops != [] {
      var reply := Log(s, log, ops)[c];
      hide Next, Promised, Justified;
      PromisesAreJustified(Next(s, ops[0]), Promised(s, log, ops[0]), ops[1..], c);
      if Says(Promised(s, log, ops[0]), c, reply) {
        First(s, log, ops, c);
      } else {
        Later(s, ops, c, reply);
      }
    }
  }

  // ---- Main results ----

  lemma OutcomeIsJustified(ops: seq<Op>, channel: nat)
    requires channel in Run(START, ops).outcomes && Run(START, ops).outcomes[channel].Got?
    ensures Justified(START, ops, channel, Run(START, ops).outcomes[channel].reply)
  {
    RunKeepsPromises(START, map[], ops);
    hide Run, Justified;
    PromisesAreJustified(START, map[], ops, channel);
  }

  /** The reply a waiter receives is one that was read: some step of the run read a
      response with this generation, id and value when it resolved this very channel. */
  lemma WaitersGetWhatWasRead(ops: seq<Op>, channel: nat)
    requires channel in Run(START, ops).outcomes
    requires Run(START, ops).outcomes[channel].Got? && Run(START, ops).outcomes[channel].reply.Response?
    ensures exists i :: Took(START, ops, i, channel, Run(START, ops).outcomes[channel].reply)
  {
    OutcomeIsJustified(ops, channel);
  }

  /** No two waiters receive the same read. */
  lemma OneReadOneWaiter(ops: seq<Op>, a: nat, b: nat)
    requires a != b && a in Run(START, ops).outcomes && b in Run(START, ops).outcomes
    requires Run(START, ops).outcomes[a].Got? && Run(START, ops).outcomes[a].reply.Response?
    requires Run(START, ops).outcomes[b].Got? && Run(START, ops).outcomes[b].reply.Response?
    ensures exists i, j ::
      i != j && Took(START, ops, i, a, Run(START, ops).outcomes[a].reply) && Took(START, ops, j, b, Run(START, ops).outcomes[b].reply)
  {
    var s := Run(START, ops);
    WaitersGetWhatWasRead(ops, a);
    WaitersGetWhatWasRead(ops, b);
    var i: nat :| Took(START, ops, i, a, s.outcomes[a].reply);
    var j: nat :| Took(START, ops, j, b, s.outcomes[b].reply);
    assert i != j;
  }

  /** A waiter is told that the process closed only when a shutdown found it waiting. */
  lemma ClosedMeansShutdown(ops: seq<Op>, channel: nat)
    requires channel in Run(START, ops).outcomes && Run(START, ops).outcomes[channel] == Got(ClosedBeforeResponse)
    ensures exists i :: ShutDown(START, ops, i, channel)
  {
    OutcomeIsJustified(ops, channel);
  }

  /** The response of the running process to a waiting request reaches its waiter: in
      every reachable state, reading, delivering and receiving it gives the waiter the
      value that was read, and the request is no longer pending. */
  lemma ResponseReachesItsWaiter(ops: seq<Op>, h: nat, id: nat, value: Id)
    requires
      var s := Run(START, ops);
      h !in s.hands && id in s.core.pending && s.core.pending[id] in s.waiters
    ensures
      var s := Run(START, ops);
      var c, wire := s.core.pending[id], Number(id as real);
      var n := Next(Next(Next(s, ReadResponse(h, s.core.generation, wire, value)), Deliver(h)), Receive(c));
      && c in n.outcomes && n.outcomes[c] == Got(Response(s.core.generation, wire, value))
      && c !in n.waiters && id !in n.core.pending
  {
    var s := Run(START, ops);
    RunKeeps(START, ops);
    var c, wire := s.core.pending[id], Number(id as real);
    assert s.core.started && ResponseId(wire) == id;
    assert Untouched(s.channels, c) && s.channels[c].buffer.None?;
    var read := Next(s, ReadResponse(h, s.core.generation, wire, value));
    assert h in read.hands && read.hands[h] == Delivering(c, Response(s.core.generation, wire, value));
    assert read.channels == s.channels && read.waiters == s.waiters && id !in read.core.pending;
    hide *;
    DeliveredAndReceived(read, h);
  }

  lemma DeliveredAndReceived(s: Sys, h: nat)
    requires h in s.hands && s.hands[h].Delivering? && s.hands[h].channel in s.waiters
    requires s.hands[h].channel < |s.channels| && s.channels[s.hands[h].channel].buffer.None? && s.channels[s.hands[h].channel].closes == 0
    ensures
      var c := s.hands[h].channel;
      var n := Next(Next(s, Deliver(h)), Receive(c));
      c in n.outcomes && n.outcomes[c] == Got(s.hands[h].reply) && c !in n.waiters && n.core == s.core
  {
    var c := s.hands[h].channel;
    assert Next(s, Deliver(h)).channels[c].buffer == Some(s.hands[h].reply);
  }

  /** A shutdown reaches every waiting request. */
  lemma ShutdownReachesItsWaiter(ops: seq<Op>, h: nat, id: nat)
    requires
      var s := Run(START, ops);
      h !in s.hands && id in s.core.pending && s.core.pending[id] in s.waiters
    ensures
      var s := Run(START, ops);
      var c := s.core.pending[id];
      var n := Next(Next(Next(s, BeginShutdown(h)), FlushSend(h, c)), Receive(c));
      c in n.outcomes && n.outcomes[c] == Got(ClosedBeforeResponse) && c !in n.waiters && n.core.pending == map[]
  {
    var s := Run(START, ops);
    RunKeeps(START, ops);
    var c := s.core.pending[id];
    assert s.core.started && c in s.core.pending.Values;
    assert Untouched(s.channels, c) && s.channels[c].buffer.None?;
    hide Inv, Run;
    var shut := Next(s, BeginShutdown(h));
    assert shut.hands[h] == Flushing(s.core.pending.Values) && shut.channels == s.channels;
    var sent := Next(shut, FlushSend(h, c));
    assert sent.channels[c].buffer == Some(ClosedBeforeResponse);
  }

  /** A request that timed out is forgotten: a late response resolves nothing. */
  lemma TimedOutIsForgotten(ops: seq<Op>, channel: nat, generation: nat)
    requires channel in Run(START, ops).waiters
    ensures
      var s := Run(START, ops);
      var n := Next(s, Timeout(channel));
      && channel < |s.channels| && channel !in n.waiters && n.outcomes == s.outcomes
      && Resolves(n.core, Number(s.channels[channel].id as real), generation).None?
  {
    RunKeeps(START, ops);
    assert ResponseId(Number(Run(START, ops).channels[channel].id as real)) == Run(START, ops).channels[channel].id;
  }

  lemma GenerationStep(s: Sys, op: Op)
    ensures Next(s, op).core.generation >= s.core.generation
    ensures op.BeginShutdown? && op.h !in s.hands && s.core.started ==> Next(s, op).core.generation > s.core.generation
    ensures op.StartProcess? && !s.core.started ==> Next(s, op).core.generation > s.core.generation && Next(s, op).core.started
    ensures op.StartProcess? && s.core.started ==> Next(s, op) == s
  {
  }

  lemma {:induction false} GenerationsGrow(s: Sys, ops: seq<Op>)
    ensures Run(s, ops).core.generation >= s.core.generation
    decreases |ops|
  {
    hide Next;
    if ops != [] {
      GenerationStep(s, ops[0]);
      GenerationsGrow(Next(s, ops[0]), ops[1..]);
    }
  }

  /** Once its process was shut down, a response that its reader still delivers resolves
      nothing and changes nothing, however many processes were started since. */
  lemma StaleResponseIsDropped(s: Sys, h: nat, ops: seq<Op>, reader: nat, wire: WireId, value: Id)
    requires s.core.started && h !in s.hands
    ensures
      var later := Run(Next(s, BeginShutdown(h)), ops);
      Next(later, ReadResponse(reader, s.core.generation, wire, value)) == later
  {
    GenerationStep(s, BeginShutdown(h));
    GenerationsGrow(Next(s, BeginShutdown(h)), ops);
    var later := Run(Next(s, BeginShutdown(h)), ops);
    assert !Current(later.core, s.core.generation);
  }

  // ---- Requests of the server ----

  /** The step neither answers, resolves nor replaces the server request, and no shutdown. */
  predicate Leaves(op: Op, id: Id) {
    !op.BeginShutdown? && (op.ReadServerRequest? || op.ReadResolved? || op.Answer? ==> op.id != id)
  }

  lemma LeavesKeeps(s: Sys, op: Op, id: Id)
    requires Leaves(op, id) && Inv(s)
    ensures (id in Next(s, op).core.serverRequests) == (id in s.core.serverRequests)
    ensures id in s.core.serverRequests ==>
      Next(s, op).core.serverRequests[id] == s.core.serverRequests[id] && Next(s, op).core.generation == s.core.generation && Next(s, op).core.started
  {
  }

  /** A server request of the running process stays pending, with its identity, over any
      run that does not answer, resolve or replace it, and can be answered then. */
  lemma {:induction false} ServerRequestStays(s: Sys, ops: seq<Op>, id: Id)
    requires Inv(s) && id in s.core.serverRequests && forall i :: 0 <= i < |ops| ==> Leaves(ops[i], id)
    ensures
      var core := Run(s, ops).core;
      && id in core.serverRequests && core.serverRequests[id] == s.core.serverRequests[id]
      && Respond(core, id, Some(s.core.serverRequests[id]), true).Written?
      && Respond(core, id, None, true).Written?
    decreases |ops|
  {
    if ops != [] {
      assert Leaves(ops[0], id);
      assert forall i :: 0 <= i < |ops[1..]| ==> ops[1..][i] == ops[i + 1];
      LeavesKeeps(s, ops[0], id);
      NextKeeps(s, ops[0]);
      hide Inv, Next;
      ServerRequestStays(Next(s, ops[0]), ops[1..], id);
    }
  }

  /** A server request becomes pending exactly when the running process sent it. */
  lemma ServerRequestIsRead(s: Sys, id: Id, request: ServerRequest)
    requires Inv(s) && id != NONE
    ensures
      var n := Next(s, ReadServerRequest(id, request));
      n.core.serverRequests ==
      if s.core.started && request.generation == s.core.generation then s.core.serverRequests[id := request] else s.core.serverRequests
  {
  }
}
