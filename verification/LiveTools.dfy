/** Merging live tool events into the stored snapshot of a thread. */
module LiveTools {
  import opened Ids

  /** Only UUID turn ids are comparable; their rank is their lexicographic order. */
  datatype TurnId = Blank | Uuid(rank: nat) | Plain(name: nat)

  datatype TurnStatus = NoStatus | Open(name: Id) | Ended(name: Id)
  datatype ToolStatus = Active(name: Id) | Done(name: Id)
  const IN_PROGRESS := Open(1)
  const RUNNING := Active(1)
  const COMPLETED := Done(1)

  datatype Detail = Tool(id: string, caption: string, status: ToolStatus) | Output(id: string, text: string) | Note(id: string)

  datatype Tool = Latest(id: string, caption: string, status: ToolStatus, output: string)

  /** `final` says that the turn has a final answer. */
  datatype Snapshot = Snapshot(turn: TurnId, turnStatus: TurnStatus, final: bool, tool: Tool, details: seq<Detail>)

  datatype EventKind = ToolStarted | ToolUpdated | ToolCompleted | OtherEvent

  datatype Event = Event(
    kind: EventKind, caption: string, output: string, status: Option<ToolStatus>, turn: TurnId, turnStatus: TurnStatus,
    itemId: string, itemKind: string)

  datatype Live = Live(turn: TurnId, turnStatus: TurnStatus, tool: Tool)

  function FirstNonEmpty(a: string, b: string): string {
    if a != "" then a else b
  }

  /** ToolSnapshotFromLiveEvent: a live tool always has an id. */
  function FromEvent(e: Event): (live: Option<Live>)
    ensures live.Some? ==> live.value.tool.id != "" && !live.value.turnStatus.NoStatus?
  {
    if e.kind.OtherEvent? || (e.caption == "" && e.output == "") then None
    else
      var status := if e.status.Some? then e.status.value else if e.kind.ToolCompleted? then COMPLETED else RUNNING;
      var turnStatus := if status.Done? && !e.turnStatus.NoStatus? then e.turnStatus else IN_PROGRESS;
      Some(Live(e.turn, turnStatus, Latest(FirstNonEmpty(e.itemId, FirstNonEmpty(e.itemKind, "tool")), e.caption, status, e.output)))
  }

  function OutputId(id: string): string {
    id + ":output"
  }

  /** liveToolDetailItems. */
  function LiveDetails(tool: Tool): seq<Detail> {
    [Detail.Tool(tool.id, tool.caption, tool.status)] + if tool.output == "" then [] else [Output(OutputId(tool.id), tool.output)]
  }

  /** latestToolDetailIndex matches a tool by id, or by caption when the id is empty. */
  predicate Matches(d: Detail, id: string, caption: string) {
    d.Tool? && if id != "" then d.id == id else caption != "" && d.caption == caption
  }

  ghost predicate LastMatch(details: seq<Detail>, id: string, caption: string, index: int) {
    && -1 <= index < |details|
    && (index >= 0 ==> Matches(details[index], id, caption))
    && (forall i :: index < i < |details| ==> !Matches(details[i], id, caption))
  }

  method LatestToolDetailIndex(details: seq<Detail>, id: string, caption: string) returns (index: int)
    ensures LastMatch(details, id, caption, index)
  {
    if id == "" && caption == "" { return -1; }
    index := |details| - 1;
    while index >= 0
      invariant -1 <= index < |details|
      invariant forall i :: index < i < |details| ==> !Matches(details[i], id, caption)
    {
      var item := details[index];
      if item.Tool? {
        if id != "" && item.id == id { return; }
        if id == "" && caption != "" && item.caption == caption { return; }
      }
      index := index - 1;
    }
  }

  function IndexOf(details: seq<Detail>, id: string, caption: string): (index: int)
    ensures LastMatch(details, id, caption, index)
    decreases |details|
  {
    if details == [] then -1
    else if Matches(details[|details| - 1], id, caption) then |details| - 1
    else IndexOf(details[..|details| - 1], id, caption)
  }

  lemma LastMatchIsUnique(details: seq<Detail>, id: string, caption: string, index: int)
    requires LastMatch(details, id, caption, index)
    ensures index == IndexOf(details, id, caption)
  {
  }

  /** The details without the live ids, in their order, then the live details. */
  function Kept(details: seq<Detail>, remove: set<string>): (kept: seq<Detail>)
    ensures forall d :: d in kept <==> d in details && d.id !in remove
  {
    if details == [] then []
    else
      var rest := Kept(details[..|details| - 1], remove);
      var last := details[|details| - 1];
      assert details == details[..|details| - 1] + [last];
      if last.id in remove then rest else rest + [last]
  }

  function LiveIds(live: seq<Detail>): set<string> {
    set d | d in live && d.id != "" :: d.id
  }

  method UpsertLiveToolDetails(details: seq<Detail>, live: seq<Detail>) returns (out: seq<Detail>)
    ensures out == if live == [] then details else Kept(details, LiveIds(live)) + live
  {
    if live == [] { return details; }
    var remove: set<string> := {};
    for i := 0 to |live|
      invariant remove == LiveIds(live[..i])
    {
      assert live[..i + 1] == live[..i] + [live[i]];
      if live[i].id != "" {
        remove := remove + {live[i].id};
      }
    }
    assert live[..|live|] == live;
    out := [];
    for i := 0 to |details|
      invariant out == Kept(details[..i], remove)
    {
      assert details[..i + 1][..i] == details[..i];
      if details[i].id !in remove {
        out := out + [details[i]];
      }
    }
    assert details[..|details|] == details;
    out := out + live;
  }

  predicate TurnAfter(candidate: TurnId, current: TurnId) {
    candidate.Uuid? && current.Uuid? && candidate.rank > current.rank
  }

  predicate SameTool(a: Tool, b: Tool) {
    if a.id != "" && b.id != "" then a.id == b.id else a.caption != "" && a.caption == b.caption
  }

  function TurnOf(current: Snapshot, live: Live): TurnId {
    if live.turn.Blank? then current.turn else live.turn
  }

  /** A live tool that the details already list before the current one. */
  predicate Older(current: Snapshot, live: Live) {
    var a := IndexOf(current.details, current.tool.id, current.tool.caption);
    var b := IndexOf(current.details, live.tool.id, live.tool.caption);
    a >= 0 && b >= 0 && b < a
  }

  predicate Accepts(current: Snapshot, live: Live) {
    var turn := TurnOf(current, live);
    && !turn.Blank?
    && (current.turn != turn && !current.turn.Blank? ==> current.turnStatus.Ended? && TurnAfter(turn, current.turn))
    && (current.turn == turn ==>
          && !(current.turnStatus.Ended? && current.final)
          && !Older(current, live)
          && !(SameTool(current.tool, live.tool) && current.tool.status.Done? && !live.tool.status.Done?))
  }

  function FirstStatus(a: TurnStatus, b: TurnStatus): TurnStatus {
    if !a.NoStatus? then a else if !b.NoStatus? then b else IN_PROGRESS
  }

  function Merge(current: Snapshot, live: Live): Snapshot {
    if !Accepts(current, live) then current
    else
      var added := LiveDetails(live.tool);
      current.(turn := TurnOf(current, live), turnStatus := FirstStatus(live.turnStatus, current.turnStatus), tool := live.tool,
               details := Kept(current.details, LiveIds(added)) + added)
  }

  /** The stored snapshots; `known` are the threads the store has. */
  class Service {
    var snapshots: map<Id, Snapshot>
    const known: set<Id>

    constructor (known: set<Id>)
      ensures this.known == known && snapshots == map[]
    {
      this.known := known;
      snapshots := map[];
    }

    function Current(thread: Id): Snapshot
      reads this
    {
      if thread in snapshots then snapshots[thread] else Snapshot(Blank, NoStatus, false, Latest("", "", RUNNING, ""), [])
    }

    method ApplyLiveToolSnapshot(thread: Id, live: Live) returns (applied: bool)
      modifies this
      ensures applied <==> thread != NONE && thread in known && Accepts(old(Current(thread)), live)
      ensures !applied ==> snapshots == old(snapshots)
      ensures applied ==> snapshots == old(snapshots)[thread := Merge(old(Current(thread)), live)]
    {
      if thread == NONE || thread !in known { return false; }
      var current := Current(thread);
      var turn := live.turn;
      if turn.Blank? { turn := current.turn; }
      if turn.Blank? { return false; }
      if !current.turn.Blank? && current.turn != turn {
        if !current.turnStatus.Ended? || !TurnAfter(turn, current.turn) { return false; }
      }
      if current.turn == turn {
        if current.turnStatus.Ended? && current.final { return false; }
        var older := LiveToolIsOlder(current, live);
        if older { return false; }
        if SameTool(current.tool, live.tool) && current.tool.status.Done? && !live.tool.status.Done? { return false; }
      }
      var details := UpsertLiveToolDetails(current.details, LiveDetails(live.tool));
      snapshots := snapshots[thread := current.(turn := turn, turnStatus := FirstStatus(live.turnStatus, current.turnStatus),
                                                tool := live.tool, details := details)];
      applied := true;
    }

    method LiveToolIsOlder(current: Snapshot, live: Live) returns (older: bool)
      ensures older == Older(current, live)
    {
      var a := LatestToolDetailIndex(current.details, current.tool.id, current.tool.caption);
      var b := LatestToolDetailIndex(current.details, live.tool.id, live.tool.caption);
      LastMatchIsUnique(current.details, current.tool.id, current.tool.caption, a);
      LastMatchIsUnique(current.details, live.tool.id, live.tool.caption, b);
      older := a >= 0 && b >= 0 && b < a;
    }
  }

  // ---- One merge ----

  /** The latest tool is the last tool among the details, or there is no tool yet. */
  ghost predicate Shaped(s: Snapshot) {
    (s.tool.id == "" && s.tool.caption == "" && forall d :: d in s.details ==> !d.Tool?) ||
    (exists i :: 0 <= i < |s.details| && Matches(s.details[i], s.tool.id, s.tool.caption) && forall j :: i < j < |s.details| ==> !s.details[j].Tool?)
  }

  lemma MergeKeepsShape(current: Snapshot, live: Live)
    requires Shaped(current) && live.tool.id != ""
    ensures Shaped(Merge(current, live))
  {
    if Accepts(current, live) {
      var added := LiveDetails(live.tool);
      var next := Merge(current, live);
      var i := |Kept(current.details, LiveIds(added))|;
      assert next.details[i] == added[0] && Matches(next.details[i], live.tool.id, live.tool.caption);
    }
  }

  lemma MergedTurn(current: Snapshot, live: Live)
    ensures
      var next := Merge(current, live);
      next.turn != current.turn && !current.turn.Blank? ==> current.turnStatus.Ended? && TurnAfter(next.turn, current.turn)
  {
  }

  // ---- Runs: a superseded tool stays superseded ----

  function Run(s: Snapshot, events: seq<Live>): Snapshot
    decreases |events|
  {
    if events == [] then s else Run(Merge(s, events[0]), events[1..])
  }

  predicate Listed(details: seq<Detail>, id: string) {
    exists d :: d in details && d.Tool? && d.id == id
  }

  /** An accepted output whose detail takes the id `id`. */
  predicate Takes(current: Snapshot, live: Live, id: string) {
    Accepts(current, live) && live.tool.output != "" && OutputId(live.tool.id) == id
  }

  /** Some output of the run took the id `id`. */
  predicate Taken(s: Snapshot, events: seq<Live>, id: string)
    decreases |events|
  {
    events != [] && (Takes(s, events[0], id) || Taken(Merge(s, events[0]), events[1..], id))
  }

  predicate Named(events: seq<Live>) {
    forall e :: e in events ==> e.tool.id != ""
  }

  /** No live event of the tool `id` is accepted along the run. */
  predicate NotBack(s: Snapshot, events: seq<Live>, id: string)
    decreases |events|
  {
    events == [] || ((Accepts(s, events[0]) ==> events[0].tool.id != id) && NotBack(Merge(s, events[0]), events[1..], id))
  }

  lemma OutputIdDiffers(id: string)
    ensures OutputId(id) != id && OutputId(id) != ""
  {
  }

  /** A latest turn gives way only after it ended, to a greater id, and over any run it
      never comes back. */
  lemma {:induction false} TurnsOnlyGrow(s: Snapshot, events: seq<Live>)
    requires !s.turn.Blank?
    ensures
      var last := Run(s, events);
      last.turn != s.turn ==>
        && TurnAfter(last.turn, s.turn)
        && exists i :: 0 <= i < |events| && Run(s, events[..i]).turn == s.turn && Run(s, events[..i]).turnStatus.Ended?
    decreases |events|
  {
    if events != [] {
      var next := Merge(s, events[0]);
      MergedTurn(s, events[0]);
      TurnsOnlyGrow(next, events[1..]);
      if next.turn != s.turn {
        assert Run(s, events[..0]) == s;
      } else if Run(s, events).turn != s.turn {
        var rest := events[1..];
        var i :| 0 <= i < |rest| && Run(next, rest[..i]).turn == next.turn && Run(next, rest[..i]).turnStatus.Ended?;
        assert events[..i + 1][1..] == rest[..i];
        assert Run(s, events[..i + 1]) == Run(next, rest[..i]);
      }
    }
  }

  lemma TurnNeverReturns(s: Snapshot, events: seq<Live>, earlier: TurnId)
    requires TurnAfter(s.turn, earlier)
    ensures Run(s, events).turn != earlier
  {
    TurnsOnlyGrow(s, events);
  }

  /** Within a turn an accepted tool is the current one or was not listed before. */
  lemma AcceptedIsNewOrCurrent(current: Snapshot, live: Live)
    requires Shaped(current) && live.tool.id != "" && Accepts(current, live) && TurnOf(current, live) == current.turn
    requires Listed(current.details, live.tool.id)
    ensures
      exists i :: 0 <= i < |current.details| && Matches(current.details[i], current.tool.id, current.tool.caption) && current.details[i].id == live.tool.id
  {
  }

  lemma ListedStays(current: Snapshot, live: Live, id: string)
    requires !Takes(current, live, id) && Listed(current.details, id)
    ensures Listed(Merge(current, live).details, id)
  {
  }

  /** A tool that was listed while another one is current never becomes current again
      in that turn, unless an output took its id. */
  lemma {:induction false} SupersededStays(s: Snapshot, events: seq<Live>, id: string)
    requires Shaped(s) && Named(events) && !Taken(s, events, id) && !s.turn.Blank?
    requires s.tool.id != "" && s.tool.id != id && Listed(s.details, id)
    ensures Run(s, events).turn == s.turn ==> Run(s, events).tool.id != id
    decreases |events|
  {
    if events != [] {
      var live := events[0];
      var next := Merge(s, live);
      MergeKeepsShape(s, live);
      MergedTurn(s, live);
      ListedStays(s, live, id);
      if next.turn == s.turn {
        if Accepts(s, live) && live.tool.id == id {
          AcceptedIsNewOrCurrent(s, live);
          assert false;
        }
        SupersededStays(next, events[1..], id);
      } else {
        TurnNeverReturns(next, events[1..], s.turn);
      }
    }
  }

  /** Over any run of live merges in which no output takes its id, a tool that was current
      and gave way to another one in the same turn never comes back in that turn. */
  lemma NoResurrection(s: Snapshot, first: Live, second: Live, events: seq<Live>)
    requires Shaped(s) && first.tool.id != "" && second.tool.id != "" && Named(events)
    requires !Taken(Merge(s, first), [second] + events, first.tool.id)
    requires Accepts(s, first) && Accepts(Merge(s, first), second)
    requires
      var s1, s2 := Merge(s, first), Merge(Merge(s, first), second);
      s2.turn == s1.turn && second.tool.id != first.tool.id
    ensures
      var s1 := Merge(s, first);
      var last := Run(s, [first, second] + events);
      last.turn == s1.turn ==> last.tool.id != first.tool.id
  {
    var s1 := Merge(s, first);
    var s2 := Merge(s1, second);
    var all := [first, second] + events;
    assert all[1..] == [second] + events && all[1..][1..] == events && ([second] + events)[1..] == events;
    MergeKeepsShape(s, first);
    MergeKeepsShape(s1, second);
    assert LiveDetails(first.tool)[0] in s1.details;
    assert Listed(s1.details, first.tool.id);
    ListedStays(s1, second, first.tool.id);
    SupersededStays(s2, events, first.tool.id);
    assert Run(s, all) == Run(s1, all[1..]) == Run(s2, events);
  }

  /** Over any run that stays in its turn, a tool that ended is never current and running
      again: it is not restarted, and once another tool replaced it, it does not return. */
  lemma {:induction false} EndedToolsStayEnded(s: Snapshot, events: seq<Live>)
    requires Shaped(s) && Named(events) && !s.turn.Blank?
    requires s.tool.id != "" && s.tool.status.Done? && !Taken(s, events, s.tool.id)
    ensures
      var last := Run(s, events);
      last.turn == s.turn && last.tool.id == s.tool.id ==> last.tool.status.Done?
    decreases |events|
  {
    if events != [] {
      var live := events[0];
      var next := Merge(s, live);
      MergeKeepsShape(s, live);
      MergedTurn(s, live);
      assert Listed(s.details, s.tool.id);
      ListedStays(s, live, s.tool.id);
      if next.turn != s.turn {
        TurnNeverReturns(next, events[1..], s.turn);
      } else if next.tool.id == s.tool.id {
        EndedToolsStayEnded(next, events[1..]);
      } else {
        SupersededStays(next, events[1..], s.tool.id);
      }
    }
  }

  /** The last live tool of the run that was accepted. */
  function LastAccepted(s: Snapshot, events: seq<Live>): Option<Live>
    decreases |events|
  {
    if events == [] then None
    else
      var later := LastAccepted(Merge(s, events[0]), events[1..]);
      if later.Some? then later else if Accepts(s, events[0]) then Some(events[0]) else None
  }

  predicate EndsWith(details: seq<Detail>, live: seq<Detail>) {
    |live| <= |details| && details[|details| - |live|..] == live
  }

  lemma MergedFields(current: Snapshot, live: Live)
    requires Accepts(current, live)
    ensures
      var next := Merge(current, live);
      && next.tool == live.tool && next.final == current.final && EndsWith(next.details, LiveDetails(live.tool))
      && (if live.turn.Blank? then next.turn == current.turn else next.turn == live.turn)
      && (!live.turnStatus.NoStatus? ==> next.turnStatus == live.turnStatus)
  {
  }

  /** After every run the snapshot shows the last accepted live tool: its fields, its turn
      and turn status, and its details at the end; without one nothing has changed. */
  lemma {:induction false} RunShowsTheLastAccepted(s: Snapshot, events: seq<Live>)
    ensures
      var last, live := Run(s, events), LastAccepted(s, events);
      if live.None? then last == s
      else
        && last.tool == live.value.tool && last.final == s.final && EndsWith(last.details, LiveDetails(live.value.tool))
        && (!live.value.turn.Blank? ==> last.turn == live.value.turn)
        && (!live.value.turnStatus.NoStatus? ==> last.turnStatus == live.value.turnStatus)
    decreases |events|
  {
    if events != [] {
      RunShowsTheLastAccepted(Merge(s, events[0]), events[1..]);
      if Accepts(s, events[0]) {
        MergedFields(s, events[0]);
      }
      assert !Accepts(s, events[0]) ==> Merge(s, events[0]) == s;
      assert Merge(s, events[0]).final == s.final;
      hide Accepts, Merge, EndsWith, LiveDetails;
    }
  }

  /** The live tools of the tool events among `events`. */
  function FromEvents(events: seq<Event>): seq<Live>
    decreases |events|
  {
    if events == [] then []
    else (var live := FromEvent(events[0]); if live.Some? then [live.value] else []) + FromEvents(events[1..])
  }

  /** An event whose tool has ended names an ended turn. */
  predicate EndsTurn(e: Event, status: TurnStatus) {
    && !e.kind.OtherEvent? && (e.caption != "" || e.output != "")
    && (if e.status.Some? then e.status.value.Done? else e.kind.ToolCompleted?)
    && e.turnStatus == status && status.Ended?
  }

  lemma {:induction false} EndingEvent(events: seq<Event>, live: Live)
    requires live in FromEvents(events) && live.turnStatus.Ended?
    ensures exists e :: e in events && EndsTurn(e, live.turnStatus)
    decreases |events|
  {
    if FromEvent(events[0]) == Some(live) {
      assert EndsTurn(events[0], live.turnStatus);
    } else {
      EndingEvent(events[1..], live);
      var e :| e in events[1..] && EndsTurn(e, live.turnStatus);
      assert e in events;
    }
  }

  lemma {:induction false} AcceptedIsAnEvent(s: Snapshot, events: seq<Live>)
    ensures LastAccepted(s, events).Some? ==> LastAccepted(s, events).value in events
    decreases |events|
  {
    if events != [] {
      AcceptedIsAnEvent(Merge(s, events[0]), events[1..]);
    }
  }

  lemma {:induction false} FromEventsHaveStatus(events: seq<Event>)
    ensures forall live :: live in FromEvents(events) ==> !live.turnStatus.NoStatus?
    decreases |events|
  {
    if events != [] {
      FromEventsHaveStatus(events[1..]);
    }
  }

  /** Live events mark a running turn as ended only when an event of an ended tool says
      that the turn has ended. */
  lemma TurnsEndOnlyWithATool(s: Snapshot, events: seq<Event>)
    requires !s.turnStatus.Ended? && Run(s, FromEvents(events)).turnStatus.Ended?
    ensures exists e :: e in events && EndsTurn(e, Run(s, FromEvents(events)).turnStatus)
  {
    var lives := FromEvents(events);
    RunShowsTheLastAccepted(s, lives);
    AcceptedIsAnEvent(s, lives);
    FromEventsHaveStatus(events);
    EndingEvent(events, LastAccepted(s, lives).value);
  }

  lemma KeptNext(front: seq<Detail>, d: Detail, remove: set<string>)
    ensures Kept(front + [d], remove) == Kept(front, remove) + if d.id in remove then [] else [d]
  {
    assert (front + [d])[..|front|] == front;
  }

  /** Keeping details drops exactly those with a removed id and keeps the order of the
      others: it goes through the details one by one. */
  lemma {:induction false} KeptConcat(a: seq<Detail>, b: seq<Detail>, remove: set<string>)
    ensures Kept(a + b, remove) == Kept(a, remove) + Kept(b, remove)
    decreases |b|
  {
    if b == [] {
      assert a + b == a;
    } else {
      var front, d := b[..|b| - 1], b[|b| - 1];
      assert b == front + [d] && a + b == (a + front) + [d];
      hide *;
      KeptConcat(a, front, remove);
      KeptNext(front, d, remove);
      KeptNext(a + front, d, remove);
    }
  }

  /** Where the merged tool ends up, and which tools are still listed. */
  lemma MergedDetails(current: Snapshot, live: Live)
    requires Accepts(current, live) && live.tool.id != ""
    ensures
      var next := Merge(current, live);
      var i := IndexOf(next.details, live.tool.id, live.tool.caption);
      && 0 <= i < |next.details| && next.details[i].Tool?
      && (forall j :: i < j < |next.details| ==> !next.details[j].Tool?)
      && (forall id :: id != live.tool.id ==>
            (Listed(next.details, id) <==> Listed(current.details, id) && !(live.tool.output != "" && id == OutputId(live.tool.id))))
  {
  }

  /** In an open turn another tool is accepted exactly when it is not listed. */
  lemma AcceptsUnlisted(c: Snapshot, live: Live)
    requires live.tool.id != "" && c.tool.id != "" && live.tool.id != c.tool.id
    requires TurnOf(c, live) == c.turn && !c.turn.Blank? && !(c.turnStatus.Ended? && c.final)
    requires
      var i := IndexOf(c.details, c.tool.id, c.tool.caption);
      i >= 0 && forall j :: i < j < |c.details| ==> !c.details[j].Tool?
    ensures Accepts(c, live) <==> !Listed(c.details, live.tool.id)
  {
  }

  /** Which live tool is accepted, by what the reader of the snapshot sees: a later turn
      after the end of the latest one; in the same turn the current tool unless it would
      be restarted, and any tool that is not listed; nothing after a final answer. */
  lemma AcceptedExactly(c: Snapshot, live: Live)
    requires live.tool.id != ""
    requires c.tool.id != "" && !c.turn.Blank?
    requires
      var i := IndexOf(c.details, c.tool.id, c.tool.caption);
      i >= 0 && forall j :: i < j < |c.details| ==> !c.details[j].Tool?
    ensures
      var turn := TurnOf(c, live);
      Accepts(c, live) <==>
      if turn != c.turn then c.turnStatus.Ended? && TurnAfter(turn, c.turn)
      else
        && !(c.turnStatus.Ended? && c.final)
        && (if live.tool.id == c.tool.id then c.tool.status.Done? ==> live.tool.status.Done? else !Listed(c.details, live.tool.id))
  {
    if TurnOf(c, live) == c.turn && live.tool.id != c.tool.id && !(c.turnStatus.Ended? && c.final) {
      AcceptsUnlisted(c, live);
    } else if live.tool.id == c.tool.id {
      SameIdSamePlace(c, live);
      hide IndexOf, LastMatch;
    }
  }

  lemma SameIdSamePlace(c: Snapshot, live: Live)
    requires live.tool.id == c.tool.id != ""
    ensures !Older(c, live)
  {
    LastMatchIsUnique(c.details, c.tool.id, live.tool.caption, IndexOf(c.details, c.tool.id, c.tool.caption));
  }

  /** The first live tool of a thread is accepted exactly when it names its turn. */
  lemma FirstToolAccepted(c: Snapshot, live: Live)
    requires c.turn.Blank?
    ensures Accepts(c, live) <==> !live.turn.Blank?
  {
  }

  /** The current tool has an id and is the last tool among the details. */
  ghost predicate CurrentIsLast(c: Snapshot) {
    var i := IndexOf(c.details, c.tool.id, c.tool.caption);
    c.tool.id != "" && i >= 0 && forall j :: i < j < |c.details| ==> !c.details[j].Tool?
  }

  /** While none of its events is accepted, a listed tool stays listed exactly until an
      output takes its id. */
  lemma {:induction false} ListedUntilTaken(s: Snapshot, events: seq<Live>, id: string)
    requires CurrentIsLast(s) && !s.turn.Blank?
    requires Named(events) && NotBack(s, events, id)
    ensures
      var last := Run(s, events);
      && CurrentIsLast(last) && !last.turn.Blank?
      && (Listed(last.details, id) <==> Listed(s.details, id) && !Taken(s, events, id))
    decreases |events|
  {
    if events != [] {
      var live := events[0];
      var next := Merge(s, live);
      if Accepts(s, live) {
        MergedDetails(s, live);
        MergeInTurn(s, live);
      }
      assert CurrentIsLast(next) && !next.turn.Blank?;
      assert Listed(next.details, id) <==> Listed(s.details, id) && !Takes(s, live, id);
      hide CurrentIsLast, Accepts, Merge, Listed, Takes;
      ListedUntilTaken(next, events[1..], id);
    }
  }

  /** The condition on the ids is exact. Take any run of live merges over which a listed
      tool `id` was superseded and has not come back. Its next event in the open turn is
      accepted if and only if some output of the run took its id. */
  lemma ReturnsExactlyWhenItsIdWasTaken(s: Snapshot, events: seq<Live>, id: string, next: Live)
    requires CurrentIsLast(s) && !s.turn.Blank? && Listed(s.details, id)
    requires Named(events) && NotBack(s, events, id)
    requires id != "" && next.tool.id == id
    requires
      var last := Run(s, events);
      last.tool.id != id && TurnOf(last, next) == last.turn && !(last.turnStatus.Ended? && last.final)
    ensures Accepts(Run(s, events), next) <==> Taken(s, events, id)
  {
    ListedUntilTaken(s, events, id);
    hide Listed, Accepts, Run, Taken;
    AcceptsUnlisted(Run(s, events), next);
  }

  lemma OneEvent(s: Snapshot, live: Live, id: string)
    ensures Run(s, [live]) == Merge(s, live) && (Taken(s, [live], id) <==> Takes(s, live, id))
    ensures live.tool.id != id ==> NotBack(s, [live], id)
  {
    var next := Merge(s, live);
    assert [live][1..] == [] && NotBack(next, [], id) && !Taken(next, [], id);
  }

  /** Such runs exist for every tool id and output. */
  lemma CollidingIdReturns(id: string, x: string, y: string, text: string)
    requires id != "" && text != ""
    ensures
      var first := Live(Uuid(1), IN_PROGRESS, Latest(OutputId(id), x, RUNNING, ""));
      var second := Live(Uuid(1), IN_PROGRESS, Latest(id, y, RUNNING, text));
      var start := Snapshot(Uuid(1), IN_PROGRESS, false, Latest("", "", RUNNING, ""), []);
      Merge(Merge(Merge(start, first), second), first).tool == first.tool
  {
    var first := Live(Uuid(1), IN_PROGRESS, Latest(OutputId(id), x, RUNNING, ""));
    var second := Live(Uuid(1), IN_PROGRESS, Latest(id, y, RUNNING, text));
    var start := Snapshot(Uuid(1), IN_PROGRESS, false, Latest("", "", RUNNING, ""), []);
    OutputIdDiffers(id);
    assert Accepts(start, first) && !Listed(start.details, id);
    MergedDetails(start, first);
    var s1 := Merge(start, first);
    assert s1.tool == first.tool && s1.turn == Uuid(1) && s1.turnStatus == IN_PROGRESS;
    assert CurrentIsLast(s1) && Listed(s1.details, OutputId(id)) && !Listed(s1.details, id);
    hide OutputId, Kept, LiveIds, LiveDetails, Listed, IndexOf, LastMatch, Merge;
    AcceptsUnlisted(s1, second);
    MergeInTurn(s1, second);
    OneEvent(s1, second, OutputId(id));
    hide Accepts, Run, Taken, NotBack;
    ReturnsExactlyWhenItsIdWasTaken(s1, [second], OutputId(id), first);
    MergeInTurn(Merge(s1, second), first);
  }

  lemma MergeInTurn(c: Snapshot, live: Live)
    ensures Merge(c, live).final == c.final
    ensures Accepts(c, live) ==> Merge(c, live).tool == live.tool && Merge(c, live).turn == TurnOf(c, live)
  {
  }
}
