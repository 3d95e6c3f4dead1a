/** Reply channels under concurrency: readers deliver responses and shutdowns flush
    waiting channels outside the lock, while requests wait, time out or fail. */
module RpcCorrelation {
  import opened Ids
  import opened RpcClient

  datatype Reply = Response(generation: nat, id: WireId, value: Id) | ClosedBeforeResponse

  /** A channel with room for one value. `id` and `generation` are those of the request
      it was made for; `sent` and `closes` count the sends and closes. */
  datatype Channel = Channel(id: nat, generation: nat, buffer: Option<Reply>, sent: nat, closes: nat)

  /** A goroutine that took channels out of the pending map: a reader with one reply, or
      a shutdown that answers them one by one. */
  datatype Hand =
    | Delivering(channel: nat, reply: Reply)
    | Delivered(channel: nat)
    | Flushing(rest: set<nat>)
    | Flushed(rest: set<nat>, channel: nat)

  datatype Outcome = Got(reply: Reply) | BareClose

  /** `waiters` are the channels whose request still waits. `panicked` is a send on, or
      a close of, a closed channel; `dropped` a shutdown that found no room. */
  datatype Sys = Sys(
    core: Core, channels: seq<Channel>, hands: map<nat, Hand>, waiters: set<nat>,
    outcomes: map<nat, Outcome>, panicked: bool, dropped: bool)

  const START := Sys(NEW, [], map[], {}, map[], false, false)

  datatype Op =
    | StartProcess
    | BeginShutdown(h: nat)
    | FlushSend(h: nat, channel: nat)
    | FlushClose(h: nat)
    | Request
    | ReadResponse(h: nat, generation: nat, wire: WireId, value: Id)
    | Deliver(h: nat)
    | CloseDelivered(h: nat)
    | Receive(channel: nat)
    | Timeout(channel: nat)
    | WriteFails(channel: nat)
    | ReadServerRequest(id: Id, request: ServerRequest)
    | ReadResolved(id: Id, generation: nat)
    | Answer(id: Id, expected: Option<ServerRequest>, writes: bool)

  function Push(c: Channel, reply: Reply): Channel {
    c.(buffer := Some(reply), sent := c.sent + 1)
  }

  function Shut(s: Sys, channel: nat): Sys {
    if channel >= |s.channels| then s
    else s.(channels := s.channels[channel := s.channels[channel].(closes := s.channels[channel].closes + 1)],
            panicked := s.panicked || s.channels[channel].closes > 0)
  }

  function DoShutdown(s: Sys, h: nat): Sys {
    if h in s.hands || !s.core.started then s
    else s.(core := Stop(s.core), hands := s.hands[h := Flushing(s.core.pending.Values)])
  }

  /** The shutdown sends without blocking: when there is no room the answer is dropped. */
  function DoFlushSend(s: Sys, h: nat, channel: nat): Sys {
    if h !in s.hands || !s.hands[h].Flushing? || channel !in s.hands[h].rest || channel >= |s.channels| then s
    else
      var c := s.channels[channel];
      var s1 := s.(hands := s.hands[h := Flushed(s.hands[h].rest - {channel}, channel)]);
      if c.closes > 0 then s1.(panicked := true)
      else if c.buffer.Some? then s1.(dropped := true)
      else s1.(channels := s.channels[channel := Push(c, ClosedBeforeResponse)])
  }

  function DoFlushClose(s: Sys, h: nat): Sys {
    if h !in s.hands || !s.hands[h].Flushed? then s
    else Shut(s.(hands := s.hands[h := Flushing(s.hands[h].rest)]), s.hands[h].channel)
  }

  function DoRequest(s: Sys): Sys {
    if !s.core.started then s
    else s.(core := Await(s.core, |s.channels|),
            channels := s.channels + [Channel(s.core.nextId + 1, s.core.generation, None, 0, 0)],
            waiters := s.waiters + {|s.channels|})
  }

  function DoReadResponse(s: Sys, h: nat, generation: nat, id: WireId, value: Id): Sys {
    if h in s.hands then s
    else
      var resolved := Resolves(s.core, id, generation);
      var s1 := s.(core := TakeReply(s.core, id, generation));
      if resolved.None? then s1 else s1.(hands := s.hands[h := Delivering(resolved.value, Response(generation, id, value))])
  }

  /** A reader whose channel is full would block. */
  predicate CanDeliver(s: Sys, h: nat) {
    h in s.hands && s.hands[h].Delivering? && s.hands[h].channel < |s.channels| && s.channels[s.hands[h].channel].buffer.None?
  }

  function DoDeliver(s: Sys, h: nat): Sys {
    if !CanDeliver(s, h) then s
    else
      var channel := s.hands[h].channel;
      var s1 := s.(hands := s.hands[h := Delivered(channel)]);
      if s.channels[channel].closes > 0 then s1.(panicked := true)
      else s1.(channels := s.channels[channel := Push(s.channels[channel], s.hands[h].reply)])
  }

  function DoCloseDelivered(s: Sys, h: nat): Sys {
    if h !in s.hands || !s.hands[h].Delivered? then s
    else Shut(s.(hands := s.hands - {h}), s.hands[h].channel)
  }

  function DoReceive(s: Sys, channel: nat): Sys {
    if channel !in s.waiters || channel >= |s.channels| then s
    else
      var c := s.channels[channel];
      if c.buffer.Some? then
        s.(channels := s.channels[channel := c.(buffer := None)], waiters := s.waiters - {channel},
           outcomes := s.outcomes[channel := Got(c.buffer.value)])
      else if c.closes > 0 then s.(waiters := s.waiters - {channel}, outcomes := s.outcomes[channel := BareClose])
      else s
  }

  function Next(s: Sys, op: Op): Sys {
    match op
    case StartProcess => s.(core := Start(s.core))
    case BeginShutdown(h) => DoShutdown(s, h)
    case FlushSend(h, channel) => DoFlushSend(s, h, channel)
    case FlushClose(h) => DoFlushClose(s, h)
    case Request => DoRequest(s)
    case ReadResponse(h, generation, wire, value) => DoReadResponse(s, h, generation, wire, value)
    case Deliver(h) => DoDeliver(s, h)
    case CloseDelivered(h) => DoCloseDelivered(s, h)
    case Receive(channel) => DoReceive(s, channel)
    case Timeout(channel) =>
      if channel in s.waiters && channel < |s.channels|
      then s.(core := GiveUp(s.core, s.channels[channel].id), waiters := s.waiters - {channel}) else s
    case WriteFails(channel) => s.(waiters := s.waiters - {channel})
    case ReadServerRequest(id, request) => s.(core := Record(s.core, id, request))
    case ReadResolved(id, generation) => s.(core := Resolved(s.core, id, generation))
    case Answer(id, expected, writes) => s.(core := AfterRespond(s.core, id, expected, writes))
  }

  function Run(s: Sys, ops: seq<Op>): Sys
    decreases |ops|
  {
    if ops == [] then s else Run(Next(s, ops[0]), ops[1..])
  }

  // ---- Invariant ----

  /** The channels a goroutine still has to answer, and the one it still has to close. */
  function Unanswered(hand: Hand): set<nat> {
    match hand
    case Delivering(channel, _) => {channel}
    case Delivered(_) => {}
    case Flushing(rest) => rest
    case Flushed(rest, _) => rest
  }

  function Unclosed(hand: Hand): set<nat> {
    match hand
    case Delivered(channel) => {channel}
    case Flushed(_, channel) => {channel}
    case _ => {}
  }

  function Held(hand: Hand): set<nat> {
    Unanswered(hand) + Unclosed(hand)
  }

  /** Nothing was sent yet and the channel is open. */
  predicate Untouched(channels: seq<Channel>, c: nat) {
    c < |channels| && channels[c].sent == 0 && channels[c].closes == 0
  }

  predicate Answered(channels: seq<Channel>, c: nat) {
    c < |channels| && channels[c].sent == 1 && channels[c].closes == 0
  }

  ghost predicate ChannelsOk(channels: seq<Channel>, waiters: set<nat>) {
    && (forall c :: 0 <= c < |channels| ==> channels[c].sent <= 1 && channels[c].closes <= channels[c].sent)
    && (forall c :: 0 <= c < |channels| && channels[c].sent == 0 ==> channels[c].buffer.None?)
    && (forall c :: c in waiters && c < |channels| && channels[c].sent == 1 ==> channels[c].buffer.Some?)
    && (forall c :: c in waiters ==> c < |channels|)
  }

  ghost predicate PendingOk(core: Core, channels: seq<Channel>) {
    && Valid(core)
    && (forall id :: id in core.pending ==>
          && Untouched(channels, core.pending[id])
          && channels[core.pending[id]].id == id
          && channels[core.pending[id]].generation == core.generation)
  }

  ghost predicate HandsOk(core: Core, channels: seq<Channel>, hands: map<nat, Hand>) {
    && (forall h :: h in hands ==> HandOk(channels, hands[h]))
    && (forall h, id :: h in hands && id in core.pending ==> core.pending[id] !in Held(hands[h]))
    && (forall h, g :: h in hands && g in hands && h != g ==> Held(hands[h]) !! Held(hands[g]))
  }

  ghost predicate HandOk(channels: seq<Channel>, hand: Hand) {
    && (forall c :: c in Unanswered(hand) ==> Untouched(channels, c))
    && (forall c :: c in Unclosed(hand) ==> Answered(channels, c))
    && Unanswered(hand) !! Unclosed(hand)
    && (hand.Delivering? ==> Fits(channels[hand.channel], hand.reply))
  }

  /** A reply fits a channel when it was read by the process the request was sent to
      and names that request. */
  predicate Fits(c: Channel, reply: Reply) {
    reply.Response? ==> reply.generation == c.generation && ResponseId(reply.id) == c.id
  }

  ghost predicate RepliesFit(channels: seq<Channel>, outcomes: map<nat, Outcome>) {
    && (forall c :: 0 <= c < |channels| && channels[c].buffer.Some? ==> Fits(channels[c], channels[c].buffer.value))
    && (forall c :: c in outcomes ==> c < |channels| && outcomes[c].Got? && Fits(channels[c], outcomes[c].reply))
  }

  ghost predicate Inv(s: Sys) {
    && ChannelsOk(s.channels, s.waiters)
    && PendingOk(s.core, s.channels)
    && HandsOk(s.core, s.channels, s.hands)
    && RepliesFit(s.channels, s.outcomes)
    && !s.panicked
    && !s.dropped
  }

  lemma ShutdownKeeps(s: Sys, h: nat)
    requires Inv(s)
    ensures Inv(DoShutdown(s, h))
  {
    if h !in s.hands && s.core.started {
      var taken := s.core.pending.Values;
      forall c | c in taken
        ensures Untouched(s.channels, c) && forall g :: g in s.hands ==> c !in Held(s.hands[g])
      {
        var id :| id in s.core.pending && s.core.pending[id] == c;
      }
      assert HandOk(s.channels, Flushing(taken));
    }
  }

  lemma ChannelChanges(s: Sys, channels: seq<Channel>, h: nat, channel: nat)
    requires Inv(s) && h in s.hands && channel in Held(s.hands[h])
    requires |channels| == |s.channels| && forall c :: 0 <= c < |channels| && c != channel ==> channels[c] == s.channels[c]
    ensures PendingOk(s.core, channels)
    ensures forall g :: g in s.hands && g != h ==> HandOk(channels, s.hands[g])
  {
  }

  lemma FlushSendKeeps(s: Sys, h: nat, channel: nat)
    requires Inv(s)
    ensures Inv(DoFlushSend(s, h, channel))
  {
    if h in s.hands && s.hands[h].Flushing? && channel in s.hands[h].rest && channel < |s.channels| {
      assert HandOk(s.channels, s.hands[h]) && Untouched(s.channels, channel);
      var n := DoFlushSend(s, h, channel);
      ChannelChanges(s, n.channels, h, channel);
      assert HandOk(n.channels, n.hands[h]);
      assert Held(n.hands[h]) == Held(s.hands[h]);
    }
  }

  lemma FlushCloseKeeps(s: Sys, h: nat)
    requires Inv(s)
    ensures Inv(DoFlushClose(s, h))
  {
    if h in s.hands && s.hands[h].Flushed? {
      var channel := s.hands[h].channel;
      assert HandOk(s.channels, s.hands[h]) && Answered(s.channels, channel);
      var n := DoFlushClose(s, h);
      ChannelChanges(s, n.channels, h, channel);
      assert HandOk(n.channels, n.hands[h]);
      assert Held(n.hands[h]) <= Held(s.hands[h]);
    }
  }

  lemma DeliverKeeps(s: Sys, h: nat)
    requires Inv(s)
    ensures Inv(DoDeliver(s, h))
  {
    if CanDeliver(s, h) {
      var channel := s.hands[h].channel;
      assert HandOk(s.channels, s.hands[h]) && Untouched(s.channels, channel);
      var n := DoDeliver(s, h);
      ChannelChanges(s, n.channels, h, channel);
      assert HandOk(n.channels, n.hands[h]);
      assert Held(n.hands[h]) == Held(s.hands[h]);
    }
  }

  lemma CloseDeliveredKeeps(s: Sys, h: nat)
    requires Inv(s)
    ensures Inv(DoCloseDelivered(s, h))
  {
    if h in s.hands && s.hands[h].Delivered? {
      var channel := s.hands[h].channel;
      assert HandOk(s.channels, s.hands[h]) && Answered(s.channels, channel);
      ChannelChanges(s, DoCloseDelivered(s, h).channels, h, channel);
    }
  }

  lemma RequestKeeps(s: Sys)
    requires Inv(s)
    ensures Inv(DoRequest(s))
  {
    if s.core.started {
      var n := DoRequest(s);
      assert forall c :: 0 <= c < |s.channels| ==> n.channels[c] == s.channels[c];
      forall h | h in s.hands
        ensures HandOk(n.channels, s.hands[h]) && forall c :: c in Held(s.hands[h]) ==> c < |s.channels|
      {
        assert HandOk(s.channels, s.hands[h]);
      }
    }
  }

  lemma ReadResponseKeeps(s: Sys, h: nat, generation: nat, wire: WireId, value: Id)
    requires Inv(s)
    ensures Inv(DoReadResponse(s, h, generation, wire, value))
  {
    var n := DoReadResponse(s, h, generation, wire, value);
    if h !in s.hands && Resolves(s.core, wire, generation).Some? {
      var id := ResponseId(wire);
      assert Untouched(s.channels, s.core.pending[id]);
      assert HandOk(n.channels, n.hands[h]);
      PendingDistinct(s, id);
    }
  }

  /** Different ids wait on different channels, because a channel knows its id. */
  lemma PendingDistinct(s: Sys, id: nat)
    requires Inv(s) && id in s.core.pending
    ensures forall other :: other in s.core.pending && other != id ==> s.core.pending[other] != s.core.pending[id]
  {
  }

  lemma ReceiveKeeps(s: Sys, channel: nat)
    requires Inv(s)
    ensures Inv(DoReceive(s, channel))
  {
    var n := DoReceive(s, channel);
    if n != s {
      assert forall c :: 0 <= c < |s.channels| ==> n.channels[c].(buffer := None) == s.channels[c].(buffer := None);
      forall h | h in s.hands
        ensures HandOk(n.channels, s.hands[h])
      {
        assert HandOk(s.channels, s.hands[h]);
      }
    }
  }

  predicate ServerOp(op: Op) {
    op.StartProcess? || op.Timeout? || op.WriteFails? || op.ReadServerRequest? || op.ReadResolved? || op.Answer?
  }

  lemma CoreOpKeeps(s: Sys, op: Op)
    requires Inv(s) && ServerOp(op)
    ensures Inv(Next(s, op))
  {
  }

  lemma NextKeeps(s: Sys, op: Op)
    requires Inv(s)
    ensures Inv(Next(s, op))
  {
    hide Inv;
    match op
    case BeginShutdown(h) => ShutdownKeeps(s, h);
    case FlushSend(h, channel) => FlushSendKeeps(s, h, channel);
    case FlushClose(h) => FlushCloseKeeps(s, h);
    case Request => RequestKeeps(s);
    case ReadResponse(h, generation, wire, value) => ReadResponseKeeps(s, h, generation, wire, value);
    case Deliver(h) => DeliverKeeps(s, h);
    case CloseDelivered(h) => CloseDeliveredKeeps(s, h);
    case Receive(channel) => ReceiveKeeps(s, channel);
    case _ => CoreOpKeeps(s, op);
  }

  lemma {:induction false} RunKeeps(s: Sys, ops: seq<Op>)
    requires Inv(s)
    ensures Inv(Run(s, ops))
    decreases |ops|
  {
    if ops != [] {
      NextKeeps(s, ops[0]);
      RunKeeps(Next(s, ops[0]), ops[1..]);
    }
  }

  // ---- Main results ----

  /** Every reply channel gets at most one value and is closed at most once and never
      before its value; nothing panics and a shutdown always finds room. */
  lemma ChannelsUsedOnce(ops: seq<Op>)
    ensures
      var s := Run(START, ops);
      && !s.panicked && !s.dropped
      && (forall c :: 0 <= c < |s.channels| ==> s.channels[c].closes <= s.channels[c].sent <= 1)
  {
    RunKeeps(START, ops);
  }

  /** A reader that holds a reply can always deliver it without blocking. */
  lemma DeliveryNeverBlocks(ops: seq<Op>, h: nat)
    ensures
      var s := Run(START, ops);
      h in s.hands && s.hands[h].Delivering? ==> CanDeliver(s, h)
  {
    RunKeeps(START, ops);
    var s := Run(START, ops);
    if h in s.hands && s.hands[h].Delivering? {
      assert HandOk(s.channels, s.hands[h]) && Untouched(s.channels, s.hands[h].channel);
    }
  }

  ghost predicate PositiveIds(channels: seq<Channel>) {
    forall c :: 0 <= c < |channels| ==> channels[c].id > 0
  }

  lemma NextKeepsIds(s: Sys, op: Op)
    requires PositiveIds(s.channels)
    ensures PositiveIds(Next(s, op).channels)
  {
  }

  lemma {:induction false} RunKeepsIds(s: Sys, ops: seq<Op>)
    requires PositiveIds(s.channels)
    ensures PositiveIds(Run(s, ops).channels)
    decreases |ops|
  {
    if ops != [] {
      NextKeepsIds(s, ops[0]);
      RunKeepsIds(Next(s, ops[0]), ops[1..]);
    }
  }

  /** A waiter is never woken by a bare close, and the response it gets was read by the
      very process generation that its request was sent to. Its wire id lies in the unit
      interval from the request's id on, so it is that id exactly when it is integral. */
  lemma WaitersGetTheirReply(ops: seq<Op>, channel: nat)
    requires channel in Run(START, ops).outcomes
    ensures
      var s := Run(START, ops);
      channel < |s.channels| && s.outcomes[channel].Got? && Named(s.channels[channel], s.outcomes[channel].reply)
  {
    RunKeeps(START, ops);
    RunKeepsIds(START, ops);
    var s := Run(START, ops);
    var reply := s.outcomes[channel].reply;
    if reply.Response? {
      assert Fits(s.channels[channel], reply) && s.channels[channel].id > 0;
      var x := reply.id.value;
      assert x.Floor as real <= x < (x.Floor + 1) as real;
    }
  }

  ghost predicate Named(c: Channel, reply: Reply) {
    reply.Response? ==>
      && reply.generation == c.generation
      && reply.id.Number?
      && c.id as real <= reply.id.value < (c.id + 1) as real
      && (reply.id.value == c.id as real <==> reply.id.value == reply.id.value.Floor as real)
  }

  /** The pending server requests are those of the running process, so the generation
      check of a response to one never decides; an answered request is gone. */
  lemma ServerRequestsAreCurrent(ops: seq<Op>, id: Id, expected: Option<ServerRequest>, writes: bool)
    ensures
      var core := Run(START, ops).core;
      && (Respond(core, id, expected, writes).Written? <==>
            && id in core.serverRequests
            && (expected.None? || SameIdentity(core.serverRequests[id], expected.value))
            && writes)
      && (Respond(core, id, expected, writes).Written? ==>
            forall again, w :: !Respond(AfterRespond(core, id, expected, writes), id, again, w).Written?)
  {
    RunKeeps(START, ops);
  }
}
