/** What users of the voice previews see: a list of previews, each with the request and the
    two tokens it was created with. The tables answer every claim as this list does. */
module VoicePreviews {
  import opened Ids
  import opened VoiceConfirmations
  import P = PendingCommands

  datatype Preview = Preview(request: Request, execute: Id, cancel: Id, binding: Binding, status: Status) {
    predicate Bound() {
      binding.chat != 0 && binding.message != 0
    }
  }

  type Ledger = seq<Preview>

  predicate Used(ledger: Ledger, token: Id) {
    exists i :: 0 <= i < |ledger| && (ledger[i].execute == token || ledger[i].cancel == token)
  }

  /** The claim names this open preview, its session, its message and the right button. */
  predicate Addressed(p: Preview, claim: Claim) {
    && p.status.Pending? && p.Bound() && p.binding == claim.binding && p.request.session == claim.session
    && claim.token == if claim.action.Execute? then p.execute else p.cancel
  }

  /** How an addressed preview answers and how it is left. */
  function Reply(p: Preview, id: nat, claim: Claim, unprotects: bool): Answer {
    if !InTime(p.request.expiry, claim.now) then Nothing
    else if claim.action.Cancel? then Done(id, Cancel, NONE)
    else if unprotects then Done(id, Execute, p.request.transcript)
    else Lost(id)
  }

  function Closed(p: Preview, claim: Claim): Preview {
    p.(status := if !InTime(p.request.expiry, claim.now) then Expired else if claim.action.Execute? then Executed else Cancelled)
  }

  function Advance(ledger: Ledger, op: Op): (next: Ledger)
    ensures |next| >= |ledger|
  {
    match op
    case CreateOp(request, execute, cancel) =>
      if Acceptable(request, execute, cancel) && !Used(ledger, execute) && !Used(ledger, cancel)
      then ledger + [Preview(request, execute, cancel, UNBOUND, Pending)]
      else ledger
    case BindOp(voice, binding) =>
      if voice < |ledger| && ledger[voice].status.Pending? && ledger[voice].binding.message == 0 && binding.chat != 0 && binding.message != 0
      then ledger[voice := ledger[voice].(binding := binding)]
      else ledger
    case ConsumeOp(claim, _) =>
      seq(|ledger|, i requires 0 <= i < |ledger| => if Addressed(ledger[i], claim) then Closed(ledger[i], claim) else ledger[i])
    case AbandonOp(voice) =>
      if voice < |ledger| && ledger[voice].status.Pending? then ledger[voice := ledger[voice].(status := Abandoned)] else ledger
    case RecoverOp =>
      seq(|ledger|, i requires 0 <= i < |ledger| => if ledger[i].status.Pending? then ledger[i].(status := Expired) else ledger[i])
  }

  function Previews(ledger: Ledger, ops: seq<Op>): Ledger
    decreases |ops|
  {
    if ops == [] then ledger else Previews(Advance(ledger, ops[0]), ops[1..])
  }

  // ---- The tables hold exactly the ledger ----

  function RowOf(p: Preview): Confirmation {
    Confirmation(p.request.project, p.request.target, p.request.turn, if p.status.Pending? then Some(P.Sealed(p.request.transcript)) else None,
                 p.request.session, p.status, p.request.expiry, p.binding)
  }

  ghost predicate Holds(t: Tables, p: Preview, id: nat)
    requires id < |t.rows|
  {
    && t.rows[id] == RowOf(p)
    && p.execute != p.cancel && p.execute in t.routes && p.cancel in t.routes
    && t.routes[p.execute] == Route(id, Execute, p.status.Pending?, p.binding)
    && t.routes[p.cancel] == Route(id, Cancel, p.status.Pending?, p.binding)
  }

  ghost predicate Matched(t: Tables, ledger: Ledger) {
    && |t.rows| == |ledger|
    && (forall id :: 0 <= id < |ledger| ==> Holds(t, ledger[id], id))
    && (forall token :: token in t.routes ==>
          t.routes[token].voice < |ledger| && (token == ledger[t.routes[token].voice].execute || token == ledger[t.routes[token].voice].cancel))
  }

  lemma RoutesOf(t: Tables, ledger: Ledger, id: nat)
    requires Matched(t, ledger) && id < |ledger|
    ensures ActiveRoutes(t, id) == if ledger[id].status.Pending? then {ledger[id].execute, ledger[id].cancel} else {}
    ensures Unbound(t, id) == if ledger[id].status.Pending? && ledger[id].binding.message == 0 then {ledger[id].execute, ledger[id].cancel} else {}
  {
    var p := ledger[id];
    assert Holds(t, p, id);
  }

  lemma TokensInUse(t: Tables, ledger: Ledger, token: Id)
    requires Matched(t, ledger)
    ensures token in t.routes <==> Used(ledger, token)
  {
    if Used(ledger, token) {
      var i :| 0 <= i < |ledger| && (ledger[i].execute == token || ledger[i].cancel == token);
      assert Holds(t, ledger[i], i);
    }
  }

  lemma CreateMatches(t: Tables, ledger: Ledger, request: Request, execute: Id, cancel: Id)
    requires Matched(t, ledger)
    ensures Matched(Create(t, request, execute, cancel), Advance(ledger, CreateOp(request, execute, cancel)))
  {
    TokensInUse(t, ledger, execute);
    TokensInUse(t, ledger, cancel);
    hide Used;
    var n, next := Create(t, request, execute, cancel), Advance(ledger, CreateOp(request, execute, cancel));
    forall id | 0 <= id < |next|
      ensures Holds(n, next[id], id)
    {
      if id < |ledger| {
        assert Holds(t, ledger[id], id);
      }
    }
  }

  lemma BindMatches(t: Tables, ledger: Ledger, voice: nat, binding: Binding)
    requires Matched(t, ledger)
    ensures Matched(Bind(t, voice, binding), Advance(ledger, BindOp(voice, binding)))
  {
    var n, next := Bind(t, voice, binding), Advance(ledger, BindOp(voice, binding));
    if voice < |ledger| {
      RoutesOf(t, ledger, voice);
      assert Holds(t, ledger[voice], voice);
      assert CanBind(t, voice, binding) <==> next != ledger || (binding == ledger[voice].binding && CanBind(t, voice, binding));
      forall id | 0 <= id < |next|
        ensures Holds(n, next[id], id)
      {
        assert Holds(t, ledger[id], id);
      }
    }
  }

  lemma CloseHolds(t: Tables, ledger: Ledger, voice: nat, status: Status, id: nat)
    requires Matched(t, ledger) && voice < |ledger| && id < |ledger| && !status.Pending?
    ensures Holds(CloseAs(t, voice, status), if id == voice && ledger[id].status.Pending? then ledger[id].(status := status) else ledger[id], id)
  {
    RoutesOf(t, ledger, voice);
    assert Holds(t, ledger[voice], voice) && Holds(t, ledger[id], id);
    hide ActiveRoutes, Unbound;
  }

  lemma CloseMatches(t: Tables, ledger: Ledger, voice: nat, status: Status)
    requires Matched(t, ledger) && voice < |ledger| && !status.Pending?
    ensures Matched(CloseAs(t, voice, status), if ledger[voice].status.Pending? then ledger[voice := ledger[voice].(status := status)] else ledger)
  {
    var n := CloseAs(t, voice, status);
    assert n.routes.Keys == t.routes.Keys && forall token :: token in t.routes ==> n.routes[token].voice == t.routes[token].voice;
    var next := if ledger[voice].status.Pending? then ledger[voice := ledger[voice].(status := status)] else ledger;
    forall id | 0 <= id < |next|
      ensures Holds(n, next[id], id)
    {
      CloseHolds(t, ledger, voice, status, id);
    }
    hide CloseAs, Holds;
  }

  lemma RecoverMatches(t: Tables, ledger: Ledger)
    requires Matched(t, ledger)
    ensures Matched(Recover(t), Advance(ledger, RecoverOp))
  {
    forall id | 0 <= id < |ledger|
      ensures Holds(Recover(t), Advance(ledger, RecoverOp)[id], id)
    {
      assert Holds(t, ledger[id], id);
    }
  }

  /** At most one preview is addressed, and the tables match the claim exactly then. */
  lemma AddressedIsMatched(t: Tables, ledger: Ledger, claim: Claim)
    requires Matched(t, ledger)
    ensures Matches(t, claim) ==>
      t.routes[claim.token].voice < |ledger| && Addressed(ledger[t.routes[claim.token].voice], claim)
    ensures forall id :: 0 <= id < |ledger| && Addressed(ledger[id], claim) ==> Matches(t, claim) && t.routes[claim.token].voice == id
  {
    if claim.token in t.routes {
      var id := t.routes[claim.token].voice;
      assert Holds(t, ledger[id], id);
    }
    forall id | 0 <= id < |ledger| && Addressed(ledger[id], claim)
      ensures Matches(t, claim) && t.routes[claim.token].voice == id
    {
      assert Holds(t, ledger[id], id);
    }
  }

  lemma ConsumeMatches(t: Tables, ledger: Ledger, claim: Claim, unprotects: bool)
    requires Matched(t, ledger)
    ensures Matched(Consume(t, claim, unprotects).0, Advance(ledger, ConsumeOp(claim, unprotects)))
    ensures forall id :: 0 <= id < |ledger| && Addressed(ledger[id], claim) ==> Consume(t, claim, unprotects).1 == Reply(ledger[id], id, claim, unprotects)
    ensures (forall id :: 0 <= id < |ledger| ==> !Addressed(ledger[id], claim)) ==> Consume(t, claim, unprotects).1 == Nothing
  {
    var next := Advance(ledger, ConsumeOp(claim, unprotects));
    AddressedIsMatched(t, ledger, claim);
    if Matches(t, claim) {
      var id := t.routes[claim.token].voice;
      var p := ledger[id];
      assert Holds(t, p, id);
      RoutesOf(t, ledger, id);
      assert next == ledger[id := Closed(p, claim)];
      assert |{p.execute, p.cancel}| == 2;
      assert t.rows[id].payload == Some(P.Sealed(p.request.transcript)) && t.rows[id].expiry == p.request.expiry;
      hide Matched, Holds, CloseAs, ActiveRoutes, Unbound, Matches, Addressed, Advance;
      CloseMatches(t, ledger, id, Closed(p, claim).status);
    } else {
      assert next == ledger;
    }
  }

  lemma NextMatches(h: History, ledger: Ledger, op: Op)
    requires Matched(h.t, ledger)
    ensures Matched(Next(h, op).t, Advance(ledger, op))
  {
    hide Matched, Advance;
    match op
    case CreateOp(request, execute, cancel) => CreateMatches(h.t, ledger, request, execute, cancel);
    case BindOp(voice, binding) => BindMatches(h.t, ledger, voice, binding);
    case ConsumeOp(claim, unprotects) => ConsumeMatches(h.t, ledger, claim, unprotects);
    case AbandonOp(voice) => AbandonMatches(h.t, ledger, voice);
    case RecoverOp => RecoverMatches(h.t, ledger);
  }

  lemma AbandonMatches(t: Tables, ledger: Ledger, voice: nat)
    requires Matched(t, ledger)
    ensures Matched(CloseAs(t, voice, Abandoned), Advance(ledger, AbandonOp(voice)))
  {
    if voice < |ledger| {
      CloseMatches(t, ledger, voice, Abandoned);
    } else {
      assert ActiveRoutes(t, voice) == {};
      assert CloseAs(t, voice, Abandoned).routes == t.routes;
    }
  }

  lemma {:induction false} RunMatches(h: History, ledger: Ledger, ops: seq<Op>)
    requires Matched(h.t, ledger)
    ensures Matched(Run(h, ops).t, Previews(ledger, ops))
    decreases |ops|
  {
    hide Matched, Advance, Next;
    if ops != [] {
      NextMatches(h, ledger, ops[0]);
      RunMatches(Next(h, ops[0]), Advance(ledger, ops[0]), ops[1..]);
    }
  }

  // ---- Main results ----

  /** Over every run the tables answer every claim as the list of previews does: the
      addressed preview replies, and a claim that addresses none gets nothing and
      changes nothing. */
  lemma TablesAnswerLikePreviews(ops: seq<Op>, claim: Claim, unprotects: bool)
    ensures
      var t, ledger := Run(START, ops).t, Previews([], ops);
      && |t.rows| == |ledger|
      && (forall id :: 0 <= id < |ledger| ==> t.rows[id] == RowOf(ledger[id]))
      && (forall id :: 0 <= id < |ledger| && Addressed(ledger[id], claim) ==> Consume(t, claim, unprotects).1 == Reply(ledger[id], id, claim, unprotects))
      && ((forall id :: 0 <= id < |ledger| ==> !Addressed(ledger[id], claim)) ==> Consume(t, claim, unprotects) == (t, Nothing))
  {
    RunMatches(START, [], ops);
    var t, ledger := Run(START, ops).t, Previews([], ops);
    ConsumeMatches(t, ledger, claim, unprotects);
    AddressedIsMatched(t, ledger, claim);
    forall id | 0 <= id < |ledger|
      ensures t.rows[id] == RowOf(ledger[id])
    {
      assert Holds(t, ledger[id], id);
    }
  }

  /** Tokens name one preview and one button for ever. */
  lemma TokensAreUnique(ops: seq<Op>, i: nat, j: nat)
    requires i < |Previews([], ops)| && j < |Previews([], ops)|
    ensures
      var p, q := Previews([], ops)[i], Previews([], ops)[j];
      && p.execute != q.cancel
      && (p.execute == q.execute || p.cancel == q.cancel ==> i == j)
  {
    RunMatches(START, [], ops);
    assert Holds(Run(START, ops).t, Previews([], ops)[i], i) && Holds(Run(START, ops).t, Previews([], ops)[j], j);
  }

  /** Each button does its own action, for its own session and message only: in every
      reachable store an open, bound preview in time gives its transcript for the execute
      token, is cancelled by the cancel token, and answers nothing when the actions are
      exchanged or the session or the message is another one. */
  lemma EachButtonDoesItsAction(ops: seq<Op>, id: nat, now: int)
    requires
      var ledger := Previews([], ops);
      id < |ledger| && ledger[id].status.Pending? && ledger[id].Bound() && InTime(ledger[id].request.expiry, now)
    ensures
      var t, p := Run(START, ops).t, Previews([], ops)[id];
      && Consume(t, Claim(p.execute, Execute, p.request.session, p.binding, now), true).1 == Done(id, Execute, p.request.transcript)
      && Consume(t, Claim(p.cancel, Cancel, p.request.session, p.binding, now), true).1 == Done(id, Cancel, NONE)
      && (forall unprotects :: Consume(t, Claim(p.execute, Cancel, p.request.session, p.binding, now), unprotects).1 == Nothing)
      && (forall unprotects :: Consume(t, Claim(p.cancel, Execute, p.request.session, p.binding, now), unprotects).1 == Nothing)
  {
    var p := Previews([], ops)[id];
    TablesAnswerLikePreviews(ops, Claim(p.execute, Execute, p.request.session, p.binding, now), true);
    TablesAnswerLikePreviews(ops, Claim(p.cancel, Cancel, p.request.session, p.binding, now), true);
    forall unprotects
      ensures Consume(Run(START, ops).t, Claim(p.execute, Cancel, p.request.session, p.binding, now), unprotects).1 == Nothing
      ensures Consume(Run(START, ops).t, Claim(p.cancel, Execute, p.request.session, p.binding, now), unprotects).1 == Nothing
    {
      NobodyElse(ops, id, Claim(p.execute, Cancel, p.request.session, p.binding, now), unprotects);
      NobodyElse(ops, id, Claim(p.cancel, Execute, p.request.session, p.binding, now), unprotects);
    }
  }

  /** A claim with a token of preview id that differs from it in the action, the session or
      the message answers nothing, whatever the other previews are. */
  lemma NobodyElse(ops: seq<Op>, id: nat, claim: Claim, unprotects: bool)
    requires
      var ledger := Previews([], ops);
      id < |ledger| && claim.token in {ledger[id].execute, ledger[id].cancel} &&
      (claim.token != (if claim.action.Execute? then ledger[id].execute else ledger[id].cancel) ||
       claim.session != ledger[id].request.session || claim.binding != ledger[id].binding)
    ensures Consume(Run(START, ops).t, claim, unprotects) == (Run(START, ops).t, Nothing)
  {
    var ledger := Previews([], ops);
    forall other | 0 <= other < |ledger|
      ensures !Addressed(ledger[other], claim)
    {
      TokensAreUnique(ops, id, other);
      TokensAreUnique(ops, other, id);
    }
    TablesAnswerLikePreviews(ops, claim, unprotects);
  }
}
