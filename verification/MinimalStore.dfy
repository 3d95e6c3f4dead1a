/** The store object behind the protocol: every method is one SQL transaction that
    checks its guard and updates the tables in place. */
module MinimalStore {
  import opened Ids
  import P = PendingCommands
  import C = Continuations
  import L = LinkedThreads
  import V = VoiceConfirmations

  /** What the loop over claimed commands sees of one command: whether its prompt can be
      read, its project still matches, and how its turn start ended. */
  datatype Attempt = Unreadable | WrongProject | NotStarted | NoRemoteStart | Unpersisted | Started {
    predicate Fails() {
      Unreadable? || WrongProject? || NotStarted?
    }
  }

  predicate Waiting(rows: P.Table, thread: Id, i: int) {
    0 <= i < |rows| && rows[i].thread == thread && rows[i].status.Pending?
  }

  predicate ThreadIdle(rows: P.Table, thread: Id) {
    forall i :: 0 <= i < |rows| && rows[i].thread == thread ==> !rows[i].status.Claimed?
  }

  function Failed(c: P.Command): P.Command {
    c.(status := P.Failed, payload := None)
  }

  function Recovered(c: P.Command, creating: set<Key>): P.Command {
    if !c.status.Claimed? then c
    else if c.source in creating then c.(status := P.Pending)
    else Failed(c)
  }

  /** How the row of the last claimed command is left. */
  function Left(c: P.Command, attempt: Attempt): P.Command {
    match attempt
    case Started => c.(status := P.Completed, payload := None)
    case NoRemoteStart => c
    case _ => c.(status := P.Claimed)
  }

  /** The first waiting command from `from` on whose attempt does not fail. */
  ghost predicate Stops(rows: P.Table, thread: Id, attempt: nat -> Attempt, stop: Option<nat>) {
    match stop
    case Some(i) => Waiting(rows, thread, i) && !attempt(i).Fails() && forall j: nat :: j < i && Waiting(rows, thread, j) ==> attempt(j).Fails()
    case None => forall j: nat :: Waiting(rows, thread, j) ==> attempt(j).Fails()
  }

  /** The row of j after a drain that stopped at `stop`. */
  ghost predicate Drained(rows: P.Table, next: P.Table, thread: Id, attempt: nat -> Attempt, stop: Option<nat>, j: nat)
    requires j < |rows| == |next|
  {
    next[j] ==
    if stop == Some(j) then Left(rows[j], attempt(j))
    else if Waiting(rows, thread, j) && (stop.None? || j < stop.value) then Failed(rows[j])
    else rows[j]
  }

  predicate Uncertain(row: C.Row) {
    row.status.Failed? && row.failure.Ambiguous?
  }

  /** The rows that the adoption query returns, in its order. */
  ghost predicate Unlinked(continuations: C.Table, links: L.Table, rows: seq<Key>) {
    forall k :: k in rows <==> k in continuations && continuations[k].status.Active? && !L.HasLink(links, k.chat, k.thread)
  }

  ghost predicate FirstOfItsSource(rows: seq<Key>, i: int) {
    0 <= i < |rows| && forall j :: 0 <= j < i ==> rows[j].chat != rows[i].chat || rows[j].thread != rows[i].thread
  }

  /** Link l was adopted from rows[i], the first row of its source. */
  ghost predicate Adopts(continuations: C.Table, links: L.Table, rows: seq<Key>, i: int, l: Id) {
    && FirstOfItsSource(rows, i)
    && rows[i] in continuations && continuations[rows[i]].fork == l
    && l in links
    && links[l] == L.Row(rows[i].chat, continuations[rows[i]].project, rows[i].thread, rows[i].turn, false, L.Ready, NONE, 0)
  }

  /** Every link that is new since `before` was adopted from one of the first n rows. */
  ghost predicate AllAdopted(continuations: C.Table, before: L.Table, links: L.Table, rows: seq<Key>, n: int) {
    forall l :: l in links && l !in before ==> exists j :: 0 <= j < n && Adopts(continuations, links, rows, j, l)
  }

  lemma AdoptRow(continuations: C.Table, before: L.Table, links: L.Table, rows: seq<Key>, i: nat)
    requires i < |rows| && rows[i] in continuations && AllAdopted(continuations, before, links, rows, i)
    requires forall j :: 0 <= j < i ==> L.HasLink(links, rows[j].chat, rows[j].thread)
    requires !L.HasLink(links, rows[i].chat, rows[i].thread) && continuations[rows[i]].fork !in links
    ensures
      var key, row := rows[i], continuations[rows[i]];
      var next := links[row.fork := L.Row(key.chat, row.project, key.thread, key.turn, false, L.Ready, NONE, 0)];
      && AllAdopted(continuations, before, next, rows, i + 1)
      && forall j :: 0 <= j < i + 1 ==> L.HasLink(next, rows[j].chat, rows[j].thread)
  {
    var key, row := rows[i], continuations[rows[i]];
    var next := links[row.fork := L.Row(key.chat, row.project, key.thread, key.turn, false, L.Ready, NONE, 0)];
    forall j | 0 <= j < i
      ensures L.HasLink(next, rows[j].chat, rows[j].thread)
    {
      LinkGrows(links, next, rows[j].chat, rows[j].thread);
    }
    assert Adopts(continuations, next, rows, i, row.fork);
    assert next[row.fork].chat == key.chat;
    forall l | l in next && l !in before
      ensures exists j :: 0 <= j < i + 1 && Adopts(continuations, next, rows, j, l)
    {
      if l != row.fork {
        var j :| 0 <= j < i && Adopts(continuations, links, rows, j, l);
        assert Adopts(continuations, next, rows, j, l);
      }
    }
  }

  /** Adopted links are ready, so the recovery of the workers leaves them alone. */
  lemma AdoptedStay(continuations: C.Table, before: L.Table, links: L.Table, later: L.Table, rows: seq<Key>)
    requires AllAdopted(continuations, before, links, rows, |rows|)
    requires later.Keys == links.Keys && forall l :: l in links && links[l].state.Ready? ==> later[l] == links[l]
    ensures AllAdopted(continuations, before, later, rows, |rows|)
  {
    forall l | l in later && l !in before
      ensures exists j :: 0 <= j < |rows| && Adopts(continuations, later, rows, j, l)
    {
      var j :| 0 <= j < |rows| && Adopts(continuations, links, rows, j, l);
      assert Adopts(continuations, later, rows, j, l);
    }
  }

  lemma LinksStay(continuations: C.Table, links: L.Table, later: L.Table)
    requires forall k :: k in continuations && continuations[k].status.Active? ==> L.HasLink(links, k.chat, k.thread)
    requires forall l :: l in links ==> l in later && later[l].chat == links[l].chat && later[l].source == links[l].source
    ensures forall k :: k in continuations && continuations[k].status.Active? ==> L.HasLink(later, k.chat, k.thread)
  {
    forall k | k in continuations && continuations[k].status.Active?
      ensures L.HasLink(later, k.chat, k.thread)
    {
      var l :| l in links && links[l].chat == k.chat && links[l].source == k.thread;
      assert l in later && later[l].chat == k.chat && later[l].source == k.thread;
    }
  }

  lemma LinkGrows(links: L.Table, later: L.Table, chat: Chat, source: Id)
    requires L.HasLink(links, chat, source)
    requires forall l :: l in links ==> l in later && later[l] == links[l]
    ensures L.HasLink(later, chat, source)
  {
  }

  class Store {
    var commands: P.Table
    var continuations: C.Table
    var links: L.Table
    var voice: V.Tables

    constructor ()
      ensures commands == [] && continuations == map[] && links == map[] && voice == V.Tables([], map[])
    {
      commands, continuations, links, voice := [], map[], map[], V.Tables([], map[]);
    }

    // ---- pending_commands ----

    method EnqueuePendingCommand(thread: Id, source: Key, project: Id, prompt: Id, protects: bool) returns (ok: bool)
      modifies `commands
      ensures ok <==> thread != NONE && project != NONE && prompt != NONE && protects
      ensures commands == if ok then P.Enqueue(old(commands), thread, source, project, prompt) else old(commands)
    {
      if thread == NONE || project == NONE || prompt == NONE { return false; }
      if !protects { return false; }
      commands := commands + [P.Command(thread, source, project, Some(P.Sealed(prompt)), P.Pending)];
      ok := true;
    }

    /** SELECT the candidate, then UPDATE it while it is still pending. */
    method ClaimRow(candidate: Option<nat>) returns (claimed: Option<nat>)
      requires candidate.Some? ==> candidate.value < |commands| && commands[candidate.value].status.Pending?
      modifies `commands
      ensures claimed == candidate && commands == P.Claim(old(commands), candidate)
    {
      if candidate.None? { return None; }
      var id := candidate.value;
      commands := commands[id := commands[id].(status := P.Claimed)];
      claimed := candidate;
    }

    method ClaimPendingCommand(thread: Id) returns (claimed: Option<nat>)
      modifies `commands
      ensures claimed == P.ThreadCandidate(old(commands), thread)
      ensures commands == P.Claim(old(commands), claimed)
    {
      claimed := ClaimRow(P.ThreadCandidate(commands, thread));
    }

    method ClaimPendingCommandForSource(source: Key) returns (claimed: Option<nat>)
      modifies `commands
      ensures claimed == if source.Complete() then P.SourceCandidate(old(commands), source) else None
      ensures commands == P.Claim(old(commands), claimed)
    {
      if !source.Complete() { return None; }
      claimed := ClaimRow(P.SourceCandidate(commands, source));
    }

    /** The single-row updates report whether they changed exactly one row. */
    method ReleaseClaimedPendingCommand(id: nat) returns (changed: bool)
      modifies `commands
      ensures changed <==> id < |old(commands)| && old(commands)[id].status.Claimed?
      ensures commands == P.Release(old(commands), id)
    {
      changed := id < |commands| && commands[id].status.Claimed?;
      if changed {
        commands := commands[id := commands[id].(status := P.Pending)];
      }
    }

    method FinalizePendingCommand(id: nat, status: P.Status) returns (changed: bool)
      modifies `commands
      ensures changed <==> id < |old(commands)| && old(commands)[id].status.Claimed?
      ensures commands == P.Finalize(old(commands), id, status)
    {
      changed := id < |commands| && commands[id].status.Claimed?;
      if changed {
        commands := commands[id := commands[id].(status := status, payload := None)];
      }
    }

    method RecoverClaimedPendingCommands()
      modifies `commands
      ensures commands == P.RecoverClaimed(old(commands))
      ensures forall i :: 0 <= i < |commands| ==> !commands[i].status.Claimed?
    {
      commands := P.RecoverClaimed(commands);
    }

    // ---- minimal_thread_continuations ----

    /** UPDATE a definitely failed row, else INSERT ... ON CONFLICT DO NOTHING. */
    method ClaimMinimalContinuation(key: Key, project: Id) returns (created: bool)
      modifies `continuations
      ensures created == C.Claimable(old(continuations), key, project)
      ensures continuations == C.Claim(old(continuations), key, project)
    {
      if !key.Complete() || project == NONE { return false; }
      if key in continuations {
        var row := continuations[key];
        created := row.status.Failed? && row.failure.Definite? && row.fork == NONE;
        if created {
          continuations := continuations[key := row.(status := C.Creating, failure := C.NoFailure)];
        }
      } else {
        continuations := continuations[key := C.Row(project, NONE, C.Creating, C.NoFailure)];
        created := true;
      }
    }

    method FailMinimalContinuation(key: Key, kind: C.Failure) returns (changed: bool)
      modifies `continuations
      ensures changed <==> !kind.NoFailure? && key in old(continuations) && old(continuations)[key].status.Creating?
      ensures continuations == C.Fail(old(continuations), key, kind)
    {
      if kind.NoFailure? { return false; }
      changed := key in continuations && continuations[key].status.Creating?;
      if changed {
        continuations := continuations[key := continuations[key].(status := C.Failed, failure := kind)];
      }
    }

    /** One transaction over two tables. */
    method RecoverCreatingMinimalContinuations()
      modifies `commands, `continuations
      ensures commands == P.ReturnClaimed(old(commands), C.CreatingKeys(old(continuations)))
      ensures continuations == C.Recover(old(continuations))
      ensures C.CreatingKeys(continuations) == {}
    {
      commands := P.ReturnClaimed(commands, C.CreatingKeys(continuations));
      continuations := C.Recover(continuations);
    }

    /** The repair of a chat: its ambiguous failures become definite, which lets their keys
        be claimed again, and nothing else changes. */
    method RearmAmbiguousMinimalContinuations(chat: Chat)
      modifies `continuations
      ensures continuations.Keys == old(continuations).Keys
      ensures forall k :: k in continuations && (k.chat != chat || chat.id == 0 || !Uncertain(old(continuations)[k])) ==> continuations[k] == old(continuations)[k]
      ensures forall k :: k in continuations && k.chat == chat && chat.id != 0 ==> !Uncertain(continuations[k])
      ensures forall k, project :: C.Claimable(continuations, k, project) <==>
        C.Claimable(old(continuations), k, project) ||
        (k in old(continuations) && k.chat == chat && chat.id != 0 && k.Complete() && project != NONE && Uncertain(old(continuations)[k]) && old(continuations)[k].fork == NONE)
      ensures continuations == if chat.id == 0 then old(continuations) else C.Rearm(old(continuations), chat)
    {
      if chat.id == 0 { return; }
      continuations := C.Rearm(continuations, chat);
    }

    // ---- minimal_linked_threads ----

    /** Three tables change together, or a failed insert rolls everything back. */
    method ActivateMinimalLinkedThread(key: Key, project: Id, child: Id, generation: nat) returns (ok: bool)
      modifies `commands, `continuations, `links
      ensures ok <==>
        C.CanActivate(old(continuations), key, project, child) && L.CanInsert(old(links), child, key.chat, key.thread) && generation <= L.MAX_GENERATION
      ensures !ok ==> commands == old(commands) && continuations == old(continuations) && links == old(links)
      ensures ok ==>
        && continuations == C.Activate(old(continuations), key, project, child)
        && commands == P.Rehome(old(commands), key, child)
        && links == L.Insert(old(links), child, L.Row(key.chat, project, key.thread, key.turn, false, L.Running, NONE, generation))
    {
      var commandsBefore, continuationsBefore := commands, continuations;
      if child == NONE || project == NONE || !key.Complete() || generation > L.MAX_GENERATION { return false; }
      if !C.ForkFree(continuations, key, child) { return false; }
      if key in continuations {
        var row := continuations[key];
        if row.status.Failed? || (row.fork != NONE && row.fork != child) { return false; }
        continuations := continuations[key := row.(fork := child, status := C.Active, failure := C.NoFailure)];
      } else {
        continuations := continuations[key := C.Row(project, child, C.Active, C.NoFailure)];
      }
      commands := P.Rehome(commands, key, child);
      if child in links || L.HasLink(links, key.chat, key.thread) {
        commands, continuations := commandsBefore, continuationsBefore;
        return false;
      }
      links := links[child := L.Row(key.chat, project, key.thread, key.turn, false, L.Running, NONE, generation)];
      ok := true;
    }

    method ClaimMinimalLinkedWorker(linked: Id, generation: nat) returns (changed: bool)
      modifies `links
      ensures changed == L.CanClaim(old(links), linked, generation)
      ensures links == L.Claim(old(links), linked, generation)
    {
      if generation == 0 || generation > L.MAX_GENERATION || linked !in links { return false; }
      changed := links[linked].state.Ready? && links[linked].generation < generation;
      if changed {
        links := links[linked := links[linked].(state := L.Running, turn := NONE, generation := generation)];
      }
    }

    method MarkMinimalLinkedTurnStarted(linked: Id, generation: nat, turn: Id) returns (changed: bool)
      modifies `links
      ensures changed == L.CanMark(old(links), linked, generation, turn)
      ensures links == L.MarkTurn(old(links), linked, generation, turn)
    {
      if turn == NONE || linked !in links { return false; }
      var row := links[linked];
      changed := row.generation == generation && row.state.Running? && row.turn == NONE;
      if changed {
        links := links[linked := row.(turn := turn)];
      }
    }

    method BeginMinimalLinkedRelease(linked: Id, generation: nat, turn: Id) returns (changed: bool)
      modifies `links
      ensures changed <==> links != old(links)
      ensures links == L.BeginRelease(old(links), linked, generation, turn)
    {
      if generation == 0 || turn == NONE || linked !in links { return false; }
      var row := links[linked];
      changed := row.generation == generation && row.state.Running? && row.turn == turn;
      if changed {
        links := links[linked := row.(state := L.ReleasePending)];
        assert links[linked] != old(links)[linked];
      }
    }

    method FinishMinimalLinkedReleaseWithReadyDelivery(linked: Id, generation: nat, turn: Id) returns (changed: bool)
      modifies `links
      ensures changed == L.CanFinishAndClear(old(links), linked, generation, turn)
      ensures links == L.FinishAndClear(old(links), linked, generation, turn)
    {
      if turn == NONE || linked !in links { return false; }
      var row := links[linked];
      changed := row.generation == generation && row.state.ReleasePending? && row.turn == turn;
      if changed {
        links := links[linked := row.(state := L.Ready, turn := NONE, generation := 0)];
      }
    }

    method FailMinimalLinkedThread(linked: Id, generation: nat) returns (changed: bool)
      modifies `links
      ensures changed <==> L.Owns(old(links), linked, generation, L.Running) || L.Owns(old(links), linked, generation, L.ReleasePending)
      ensures links == L.Fail(old(links), linked, generation)
    {
      if linked !in links { return false; }
      var row := links[linked];
      changed := row.generation == generation && (row.state.Running? || row.state.ReleasePending?);
      if changed {
        links := links[linked := row.(state := L.Failed, turn := NONE)];
      }
    }

    method RecoverMinimalLinkedWorkers()
      modifies `links
      ensures links.Keys == old(links).Keys
      ensures forall l :: l in links ==> links[l] == if old(links)[l].state.Running? then old(links)[l].(state := L.ReleasePending) else old(links)[l]
      ensures forall l :: l in links ==> !links[l].state.Running?
      ensures links == L.Recover(old(links))
    {
      links := L.Recover(links);
    }

    /** Links every active continuation whose source has no link yet. `rows` is the
        ordered result of the query; of several rows with one source the first wins. */
    method AdoptMinimalLinkedThreads(rows: seq<Key>) returns (ok: bool)
      requires Unlinked(continuations, links, rows)
      modifies `links
      ensures !ok ==> links == old(links)
      ensures ok ==> forall l :: l in old(links) ==> l in links && links[l] == old(links)[l]
      ensures ok ==> forall k :: k in continuations && continuations[k].status.Active? ==> L.HasLink(links, k.chat, k.thread)
      ensures ok ==> AllAdopted(continuations, old(links), links, rows, |rows|)
    {
      var linksBefore := links;
      var i := 0;
      while i < |rows|
        invariant 0 <= i <= |rows|
        invariant forall l :: l in linksBefore ==> l in links && links[l] == linksBefore[l]
        invariant forall j :: 0 <= j < i ==> L.HasLink(links, rows[j].chat, rows[j].thread)
        invariant AllAdopted(continuations, linksBefore, links, rows, i)
      {
        var key := rows[i];
        var row := continuations[key];
        if !L.HasLink(links, key.chat, key.thread) {
          if row.fork in links {
            links := linksBefore;
            return false;
          }
          AdoptRow(continuations, linksBefore, links, rows, i);
          links := links[row.fork := L.Row(key.chat, row.project, key.thread, key.turn, false, L.Ready, NONE, 0)];
        } else {
          assert AllAdopted(continuations, linksBefore, links, rows, i + 1);
        }
        i := i + 1;
      }
      forall k | k in continuations && continuations[k].status.Active?
        ensures L.HasLink(links, k.chat, k.thread)
      {
        if L.HasLink(linksBefore, k.chat, k.thread) {
          LinkGrows(linksBefore, links, k.chat, k.thread);
        } else {
          assert k in rows;
        }
      }
      ok := true;
    }

    method RecoverVoiceConfirmations()
      modifies `voice
      ensures voice == V.Recover(old(voice))
      ensures forall id :: 0 <= id < |voice.rows| ==> !voice.rows[id].status.Pending?
    {
      voice := V.Recover(voice);
    }

    /** The recovery of newWithStore, in its order: afterwards nothing is in flight, and
        of the claimed commands exactly those whose continuation was being created wait
        again with their prompt; the others failed. When the adoption meets a conflict only
        the first step has happened. */
    method RecoverAtStartup(rows: seq<Key>) returns (ok: bool)
      requires Unlinked(continuations, links, rows)
      modifies this
      ensures C.CreatingKeys(continuations) == {}
      ensures continuations == C.Recover(old(continuations))
      ensures |commands| == |old(commands)|
      ensures !ok ==> commands == P.ReturnClaimed(old(commands), C.CreatingKeys(old(continuations))) && links == old(links) && voice == old(voice)
      ensures ok ==> forall id :: 0 <= id < |voice.rows| ==> !voice.rows[id].status.Pending?
      ensures ok ==> forall i :: 0 <= i < |commands| ==> commands[i] == Recovered(old(commands)[i], C.CreatingKeys(old(continuations)))
      ensures ok ==> forall l :: l in old(links) ==>
        l in links && links[l] == if old(links)[l].state.Running? then old(links)[l].(state := L.ReleasePending) else old(links)[l]
      ensures ok ==> forall l :: l in links ==> !links[l].state.Running?
      ensures ok ==> AllAdopted(continuations, old(links), links, rows, |rows|)
      ensures ok ==> forall k :: k in continuations && continuations[k].status.Active? ==> L.HasLink(links, k.chat, k.thread)
    {
      RecoverCreatingMinimalContinuations();
      ok := AdoptMinimalLinkedThreads(rows);
      if !ok { return; }
      ghost var adopted := links;
      RecoverMinimalLinkedWorkers();
      AdoptedStay(continuations, old(links), adopted, links, rows);
      LinksStay(continuations, adopted, links);
      hide AllAdopted, L.HasLink, L.Recover;
      RecoverClaimedPendingCommands();
      RecoverVoiceConfirmations();
    }

    // ---- The drain loop of the router ----

    /** drainNextLocked: claims waiting commands oldest first, fails those that cannot be
        started, and stops at the first that was started or must stay. */
    method DrainNext(thread: Id, attempt: nat -> Attempt) returns (stop: Option<nat>)
      requires ThreadIdle(commands, thread)
      modifies `commands
      ensures |commands| == |old(commands)|
      ensures Stops(old(commands), thread, attempt, stop)
      ensures forall j: nat :: j < |commands| ==> Drained(old(commands), commands, thread, attempt, stop, j)
    {
      var done := 0;
      while true
        invariant 0 <= done <= |commands| == |old(commands)|
        invariant ThreadIdle(commands, thread)
        invariant forall j: nat :: j < |commands| ==> commands[j] == if j < done && Waiting(old(commands), thread, j) then Failed(old(commands)[j]) else old(commands)[j]
        invariant forall j: nat :: j < done && Waiting(old(commands), thread, j) ==> attempt(j).Fails()
        decreases |commands| - done
      {
        var claimed := ClaimPendingCommand(thread);
        if claimed.None? {
          stop := None;
          return;
        }
        var id := claimed.value;
        assert id >= done;
        if attempt(id).Fails() {
          var _ := FinalizePendingCommand(id, P.Failed);
          done := id + 1;
        } else {
          if attempt(id).Started? {
            var _ := FinalizePendingCommand(id, P.Completed);
          } else if attempt(id).NoRemoteStart? {
            var _ := ReleaseClaimedPendingCommand(id);
          }
          stop := claimed;
          return;
        }
      }
    }
  }
}
