/** Voice previews with an execute and a cancel button (tables voice_confirmations and
    voice_callback_routes). */
module VoiceConfirmations {
  import opened Ids
  import P = PendingCommands

  datatype Status = Pending | Executed | Cancelled | Expired | Abandoned
  datatype Action = Execute | Cancel
  datatype Target = NewThread | OnThread(thread: Id)
  datatype Expiry = Missing | Unreadable | At(time: int)

  datatype Binding = Binding(chat: int, topic: int, message: int)
  const UNBOUND := Binding(0, 0, 0)

  datatype Request = Request(project: Id, target: Target, turn: Id, transcript: Id, session: Id, expiry: Expiry)

  datatype Confirmation = Confirmation(
    project: Id, target: Target, turn: Id, payload: Option<P.Sealed>, session: Id, status: Status, expiry: Expiry, binding: Binding)

  datatype Route = Route(voice: nat, action: Action, active: bool, binding: Binding)

  /** Confirmations are named by their row number; a route by its callback token. An
      invalid token is the empty id. */
  datatype Tables = Tables(rows: seq<Confirmation>, routes: map<Id, Route>)

  datatype Claim = Claim(token: Id, action: Action, session: Id, binding: Binding, now: int)

  /** `Done` carries the transcript of an execution; a transcript that cannot be
      unprotected is lost although the claim was consumed. */
  datatype Answer = Nothing | Done(voice: nat, action: Action, transcript: Id) | Lost(voice: nat) | Inconsistent

  predicate Acceptable(request: Request, execute: Id, cancel: Id) {
    && request.project != NONE && request.transcript != NONE && request.session != NONE && !request.expiry.Missing?
    && (request.target.OnThread? ==> request.target.thread != NONE)
    && execute != NONE && cancel != NONE && execute != cancel
  }

  /** The insert fails as a whole when a token is taken. */
  predicate CanCreate(t: Tables, request: Request, execute: Id, cancel: Id) {
    Acceptable(request, execute, cancel) && execute !in t.routes && cancel !in t.routes
  }

  function Create(t: Tables, request: Request, execute: Id, cancel: Id): Tables {
    if !CanCreate(t, request, execute, cancel) then t
    else
      var id := |t.rows|;
      Tables(
        t.rows + [Confirmation(request.project, request.target, request.turn, Some(P.Sealed(request.transcript)), request.session,
                               Pending, request.expiry, UNBOUND)],
        t.routes[execute := Route(id, Execute, true, UNBOUND)][cancel := Route(id, Cancel, true, UNBOUND)])
  }

  function ActiveRoutes(t: Tables, id: nat): set<Id> {
    set token | token in t.routes && t.routes[token].voice == id && t.routes[token].active
  }

  function Unbound(t: Tables, id: nat): set<Id> {
    set token | token in ActiveRoutes(t, id) && t.routes[token].binding.message == 0
  }

  predicate CanBind(t: Tables, id: nat, binding: Binding) {
    && binding.chat != 0 && binding.message != 0
    && id < |t.rows| && t.rows[id].status.Pending? && t.rows[id].binding.message == 0
    && |Unbound(t, id)| == 2
  }

  function Bind(t: Tables, id: nat, binding: Binding): Tables {
    if !CanBind(t, id, binding) then t
    else
      Tables(
        t.rows[id := t.rows[id].(binding := binding)],
        map token | token in t.routes :: if token in Unbound(t, id) then t.routes[token].(binding := binding) else t.routes[token])
  }

  /** Every way out of pending clears the transcript and retires the active routes. */
  function CloseAs(t: Tables, id: nat, status: Status): Tables {
    Tables(
      if id < |t.rows| && t.rows[id].status.Pending? then t.rows[id := t.rows[id].(status := status, payload := None)] else t.rows,
      map token | token in t.routes :: if token in ActiveRoutes(t, id) then t.routes[token].(active := false) else t.routes[token])
  }

  /** The button, session and message of the claim are those of a pending confirmation. */
  predicate Matches(t: Tables, claim: Claim) {
    && claim.token in t.routes
    && var route := t.routes[claim.token];
       && route.voice < |t.rows| && route.active && route.action == claim.action
       && var row := t.rows[route.voice];
          row.status.Pending? && row.session == claim.session
          && row.binding.chat != 0 && row.binding.message != 0 && row.binding == claim.binding
  }

  predicate InTime(expiry: Expiry, now: int) {
    expiry.At? && now < expiry.time
  }

  function Consume(t: Tables, claim: Claim, unprotects: bool): (Tables, Answer) {
    if !Matches(t, claim) then (t, Nothing)
    else
      var id := t.routes[claim.token].voice;
      var row := t.rows[id];
      if |ActiveRoutes(t, id)| != 2 || !InTime(row.expiry, claim.now) then (CloseAs(t, id, Expired), Nothing)
      else
        var next := CloseAs(t, id, if claim.action.Execute? then Executed else Cancelled);
        if claim.action.Cancel? then (next, Done(id, Cancel, NONE))
        else if unprotects && row.payload.Some? then (next, Done(id, Execute, row.payload.value.plain))
        else (next, Lost(id))
  }

  /** Startup: everything pending expires and every active route is retired. */
  function Recover(t: Tables): Tables {
    Tables(
      seq(|t.rows|, i requires 0 <= i < |t.rows| => if t.rows[i].status.Pending? then t.rows[i].(status := Expired, payload := None) else t.rows[i]),
      map token | token in t.routes :: t.routes[token].(active := false))
  }

  // ---- Invariant ----

  /** The two buttons of a pending confirmation. */
  ghost predicate Pair(t: Tables, id: nat, execute: Id, cancel: Id)
    requires id < |t.rows|
  {
    && execute in t.routes && cancel in t.routes && execute != cancel
    && t.routes[execute].action.Execute? && t.routes[cancel].action.Cancel?
    && t.routes[execute].binding == t.rows[id].binding && t.routes[cancel].binding == t.rows[id].binding
    && ActiveRoutes(t, id) == {execute, cancel}
  }

  ghost predicate RowOk(t: Tables, id: nat)
    requires id < |t.rows|
  {
    if t.rows[id].status.Pending? then t.rows[id].payload.Some? && exists e, c :: Pair(t, id, e, c)
    else t.rows[id].payload.None? && ActiveRoutes(t, id) == {}
  }

  ghost predicate Valid(t: Tables) {
    && (forall id :: 0 <= id < |t.rows| ==> RowOk(t, id))
    && (forall token :: token in t.routes ==> t.routes[token].voice < |t.rows|)
  }

  // ---- Runs ----

  datatype Op =
    | CreateOp(request: Request, execute: Id, cancel: Id)
    | BindOp(voice: nat, binding: Binding)
    | ConsumeOp(claim: Claim, unprotects: bool)
    | AbandonOp(voice: nat)
    | RecoverOp

  /** The tables with the transcript each confirmation was created with and the answers
      that reached a user. */
  datatype History = History(t: Tables, transcripts: seq<Id>, done: seq<Answer>)

  const START := History(Tables([], map[]), [], [])

  function Next(h: History, op: Op): History {
    match op
    case CreateOp(request, execute, cancel) =>
      h.(t := Create(h.t, request, execute, cancel),
         transcripts := if CanCreate(h.t, request, execute, cancel) then h.transcripts + [request.transcript] else h.transcripts)
    case BindOp(voice, binding) => h.(t := Bind(h.t, voice, binding))
    case ConsumeOp(claim, unprotects) =>
      var (next, answer) := Consume(h.t, claim, unprotects);
      h.(t := next, done := if answer.Done? then h.done + [answer] else h.done)
    case AbandonOp(voice) => h.(t := CloseAs(h.t, voice, Abandoned))
    case RecoverOp => h.(t := Recover(h.t))
  }

  function Run(h: History, ops: seq<Op>): History
    decreases |ops|
  {
    if ops == [] then h else Run(Next(h, ops[0]), ops[1..])
  }

  ghost predicate DoneOk(h: History) {
    && |h.transcripts| == |h.t.rows|
    && (forall id :: 0 <= id < |h.t.rows| && h.t.rows[id].payload.Some? ==> h.t.rows[id].payload.value.plain == h.transcripts[id])
    && (forall i :: 0 <= i < |h.done| ==> AnswerOk(h, h.done[i]))
    && (forall i, j :: 0 <= i < j < |h.done| && h.done[i].Done? && h.done[j].Done? ==> h.done[i].voice != h.done[j].voice)
  }

  ghost predicate AnswerOk(h: History, a: Answer) {
    && a.Done? && a.voice < |h.t.rows| && a.voice < |h.transcripts|
    && h.t.rows[a.voice].status == (if a.action.Execute? then Executed else Cancelled)
    && (a.action.Execute? ==> a.transcript == h.transcripts[a.voice])
  }

  lemma CloseKeepsOthers(t: Tables, id: nat, status: Status, other: nat)
    requires other < |t.rows| && RowOk(t, other) && (other != id || !status.Pending?)
    ensures RowOk(CloseAs(t, id, status), other)
  {
    var n := CloseAs(t, id, status);
    if other == id {
      assert ActiveRoutes(n, other) == {};
    } else {
      assert ActiveRoutes(n, other) == ActiveRoutes(t, other);
      if t.rows[other].status.Pending? {
        var e, c :| Pair(t, other, e, c);
        assert e in ActiveRoutes(t, other) && c in ActiveRoutes(t, other);
        assert Pair(n, other, e, c);
      }
    }
  }

  lemma CloseKeeps(t: Tables, id: nat, status: Status)
    requires Valid(t) && !status.Pending?
    ensures Valid(CloseAs(t, id, status))
  {
    forall other | 0 <= other < |t.rows|
      ensures RowOk(CloseAs(t, id, status), other)
    {
      CloseKeepsOthers(t, id, status, other);
    }
  }

  lemma CreateKeeps(t: Tables, request: Request, execute: Id, cancel: Id)
    requires Valid(t)
    ensures Valid(Create(t, request, execute, cancel))
  {
    var n := Create(t, request, execute, cancel);
    if CanCreate(t, request, execute, cancel) {
      forall id | 0 <= id < |n.rows|
        ensures RowOk(n, id)
      {
        if id == |t.rows| {
          assert ActiveRoutes(n, id) == {execute, cancel};
          assert Pair(n, id, execute, cancel);
        } else {
          assert RowOk(t, id);
          assert ActiveRoutes(n, id) == ActiveRoutes(t, id);
          if t.rows[id].status.Pending? {
            var e, c :| Pair(t, id, e, c);
            assert Pair(n, id, e, c);
          }
        }
      }
    }
  }

  lemma BindKeeps(t: Tables, id: nat, binding: Binding)
    requires Valid(t)
    ensures Valid(Bind(t, id, binding))
  {
    var n := Bind(t, id, binding);
    if CanBind(t, id, binding) {
      forall other | 0 <= other < |t.rows|
        ensures RowOk(n, other)
      {
        assert RowOk(t, other);
        assert ActiveRoutes(n, other) == ActiveRoutes(t, other);
        if t.rows[other].status.Pending? {
          var e, c :| Pair(t, other, e, c);
          assert e in ActiveRoutes(t, other) && c in ActiveRoutes(t, other);
          assert Pair(n, other, e, c);
        }
      }
    }
  }

  lemma RecoverKeeps(t: Tables)
    requires Valid(t)
    ensures Valid(Recover(t))
  {
    forall id | 0 <= id < |t.rows|
      ensures RowOk(Recover(t), id)
    {
      assert RowOk(t, id);
      assert ActiveRoutes(Recover(t), id) == {};
    }
  }

  lemma NextKeepsValid(h: History, op: Op)
    requires Valid(h.t)
    ensures Valid(Next(h, op).t)
  {
    hide Valid;
    match op
    case CreateOp(request, execute, cancel) => CreateKeeps(h.t, request, execute, cancel);
    case BindOp(voice, binding) => BindKeeps(h.t, voice, binding);
    case ConsumeOp(claim, unprotects) =>
      if Matches(h.t, claim) {
        CloseKeeps(h.t, h.t.routes[claim.token].voice, Expired);
        CloseKeeps(h.t, h.t.routes[claim.token].voice, if claim.action.Execute? then Executed else Cancelled);
      }
    case AbandonOp(voice) => CloseKeeps(h.t, voice, Abandoned);
    case RecoverOp => RecoverKeeps(h.t);
  }

  lemma NextKeepsClosed(h: History, op: Op, id: nat)
    requires id < |h.t.rows| && !h.t.rows[id].status.Pending?
    ensures id < |Next(h, op).t.rows| && Next(h, op).t.rows[id] == h.t.rows[id]
  {
  }

  /** Over every run a closed confirmation never changes again. */
  lemma {:induction false} ClosedRowsStay(h: History, ops: seq<Op>, id: nat)
    requires id < |h.t.rows| && !h.t.rows[id].status.Pending?
    ensures id < |Run(h, ops).t.rows| && Run(h, ops).t.rows[id] == h.t.rows[id]
    decreases |ops|
  {
    if ops != [] {
      NextKeepsClosed(h, ops[0], id);
      ClosedRowsStay(Next(h, ops[0]), ops[1..], id);
    }
  }

  lemma NextKeepsDone(h: History, op: Op)
    requires Valid(h.t) && DoneOk(h)
    ensures DoneOk(Next(h, op))
  {
    var n := Next(h, op);
    forall i | 0 <= i < |h.done|
      ensures AnswerOk(n, h.done[i])
    {
      assert AnswerOk(h, h.done[i]);
      NextKeepsClosed(h, op, h.done[i].voice);
    }
  }

  lemma {:induction false} RunKeeps(h: History, ops: seq<Op>)
    requires Valid(h.t) && DoneOk(h)
    ensures Valid(Run(h, ops).t) && DoneOk(Run(h, ops))
    decreases |ops|
  {
    if ops != [] {
      NextKeepsValid(h, ops[0]);
      NextKeepsDone(h, ops[0]);
      RunKeeps(Next(h, ops[0]), ops[1..]);
    }
  }

  // ---- Main results ----

  /** In every reachable store a pending confirmation has exactly one active execute and
      one active cancel button, bound to its own message; any other has none and keeps
      no transcript. */
  lemma ButtonsMatchStatus(ops: seq<Op>)
    ensures Valid(Run(START, ops).t)
  {
    RunKeeps(START, ops);
  }

  /** Execute and cancel together succeed at most once per confirmation over all runs,
      and an execution returns the transcript the confirmation was created with. */
  lemma ConsumedAtMostOnce(ops: seq<Op>)
    ensures
      var h := Run(START, ops);
      && (forall i :: 0 <= i < |h.done| ==> h.done[i].Done?)
      && (forall i, j :: 0 <= i < j < |h.done| ==> h.done[i].voice != h.done[j].voice)
      && (forall i :: 0 <= i < |h.done| && h.done[i].action.Execute? ==>
            h.done[i].voice < |h.transcripts| && h.done[i].transcript == h.transcripts[h.done[i].voice])
  {
    RunKeeps(START, ops);
    var h := Run(START, ops);
    assert forall i :: 0 <= i < |h.done| ==> AnswerOk(h, h.done[i]);
  }

  /** In a valid store a matching claim in time always succeeds, unless the transcript
      of an execution cannot be unprotected; the sibling check never decides. */
  lemma MatchingClaimSucceeds(t: Tables, claim: Claim, unprotects: bool)
    requires Valid(t)
    ensures
      var answer := Consume(t, claim, unprotects).1;
      answer.Done? <==>
        Matches(t, claim) && InTime(t.rows[t.routes[claim.token].voice].expiry, claim.now) && (claim.action.Execute? ==> unprotects)
  {
    if Matches(t, claim) {
      var id := t.routes[claim.token].voice;
      assert RowOk(t, id);
      var e, c :| Pair(t, id, e, c);
      assert |ActiveRoutes(t, id)| == 2;
    }
  }
}
