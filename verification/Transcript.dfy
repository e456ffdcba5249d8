/**
 * What holds of every transcript the fold of `Projection.dfy` produces: rows keep
 * their place and their identity as the log grows, and live marks, queued bubbles
 * and open names always agree with the bookkeeping.
 */
module Transcript {
  import opened Events
  import opened P = Projection

  // ---------- rows only ever move forward ----------

  predicate Evolves(a: ViewItem, b: ViewItem) {
    match a
    case User(content, ts, attachments, queued, _, _, _) =>
      b.User? && b.content == content && b.ts == ts && b.attachments == attachments && (b.queued ==> b == a)
    case Assistant(_, ts, live, thinking, _, _, _, turnId, turnOpen) =>
      && b.Assistant? && b.ts == ts && b.turnId == turnId && thinking <= b.thinking
      && (b.live ==> live) && (b.turnOpen ==> turnOpen)
      && (!live ==> b == a.(turnOpen := b.turnOpen))
    case Tool(call, ts, _, result, recovered, server, _, _) =>
      b.Tool? && b.call == call && b.ts == ts && b.server == server && (result.Some? ==> b.result.Some?)
        && (recovered ==> b.recovered)
    case Delegation(id, definition, brief, ts, _) =>
      b.Delegation? && b.childSessionId == id && b.definition == definition && b.brief == brief && b.ts == ts
    case Audit(_, _, _, _) => b == a
    case Status(_, _) => b == a
    case Compacting(ts, status, _, _, _, _, _, _, _) =>
      b.Compacting? && b.ts == ts && (status == "completed" || status == "failed" ==> b == a)
        && (b.status == "running" ==> status == "running")
    case Context(ts, _, requests) => b.Context? && b.ts == ts && requests <= b.requests
  }

  ghost predicate Extends(old': seq<ViewItem>, new': seq<ViewItem>) {
    |old'| <= |new'| && forall i | 0 <= i < |old'| :: Evolves(old'[i], new'[i])
  }

  lemma EvolvesTransitive(a: ViewItem, b: ViewItem, c: ViewItem)
    requires Evolves(a, b) && Evolves(b, c)
    ensures Evolves(a, c)
  {
  }

  lemma ExtendsTransitive(a: seq<ViewItem>, b: seq<ViewItem>, c: seq<ViewItem>)
    requires Extends(a, b) && Extends(b, c)
    ensures Extends(a, c)
  {
    forall i | 0 <= i < |a| ensures Evolves(a[i], c[i]) {
      EvolvesTransitive(a[i], b[i], c[i]);
    }
  }

  lemma ExtendsReflexive(items: seq<ViewItem>)
    ensures Extends(items, items)
  {
  }

  lemma AddExtends(items: seq<ViewItem>, row: ViewItem)
    ensures Extends(items, items + [row])
  {
  }

  lemma ClosedExtends(items: seq<ViewItem>, rows: seq<nat>)
    ensures Extends(items, ClosedAt(items, rows))
  {
  }

  lemma InterruptedExtends(items: seq<ViewItem>, rows: set<nat>)
    ensures Extends(items, InterruptedAt(items, rows))
  {
  }

  // ---------- the bookkeeping and the rows agree ----------

  /** Only the draft is live. */
  ghost predicate OneDraft(items: seq<ViewItem>, draft: Option<nat>) {
    && (draft.Some? ==> draft.value < |items| && items[draft.value].Assistant? && items[draft.value].live)
    && forall i | 0 <= i < |items| && items[i].Assistant? && (items[i].live || items[i].thinkingLive) ::
      draft == Some(i)
  }

  /** Only the open compaction is running; an open one has no outcome yet. */
  ghost predicate OneCompaction(items: seq<ViewItem>, current: Option<nat>) {
    && (current.Some? ==> current.value < |items| && Unsettled(items[current.value]))
    && forall i | 0 <= i < |items| && Compressing(items[i]) :: current == Some(i)
  }

  predicate Unsettled(row: ViewItem) {
    row.Compacting? && (row.status == "running" || row.status == "interrupted")
  }

  predicate Waiting(row: ViewItem, id: string) {
    row.User? && row.queued && row.inputId == Some(id)
  }

  /** A queued input is shown as waiting under its own id. */
  ghost predicate Queue(items: seq<ViewItem>, names: map<string, nat>) {
    forall k | k in names :: names[k] < |items| && Waiting(items[names[k]], k)
  }

  ghost predicate Listed(names: map<string, seq<nat>>, i: nat, turnId: Option<string>) {
    turnId.Some? && turnId.value in names && i in names[turnId.value]
  }

  predicate AnswerOf(row: ViewItem, id: string) {
    row.Assistant? && row.turnId == Some(id)
  }

  /** An answer marked open belongs to a turn whose end will close it. */
  ghost predicate OpenListed(items: seq<ViewItem>, names: map<string, seq<nat>>) {
    forall i | 0 <= i < |items| && items[i].Assistant? && items[i].turnOpen :: Listed(names, i, items[i].turnId)
  }

  ghost predicate ListsAnswers(items: seq<ViewItem>, names: map<string, seq<nat>>) {
    forall k, j | k in names && 0 <= j < |names[k]| :: names[k][j] < |items| && AnswerOf(items[names[k][j]], k)
  }

  predicate CallRow(row: ViewItem, id: string) {
    row.Tool? && row.call.id == id
  }

  predicate ChildRow(row: ViewItem, id: string) {
    row.Delegation? && row.childSessionId == id
  }

  ghost predicate Calls(items: seq<ViewItem>, names: map<string, nat>) {
    forall k | k in names :: names[k] < |items| && CallRow(items[names[k]], k)
  }

  ghost predicate Children(items: seq<ViewItem>, names: map<string, nat>) {
    forall k | k in names :: names[k] < |items| && ChildRow(items[names[k]], k)
  }

  ghost predicate Markers(items: seq<ViewItem>, names: map<string, nat>) {
    forall k | k in names :: names[k] < |items| && items[names[k]].Context?
  }

  ghost predicate Tidy(s: Proj) {
    && OneDraft(s.items, s.draft) && OneCompaction(s.items, s.openCompaction)
    && Queue(s.items, s.queuedUsers) && Calls(s.items, s.toolItems) && Children(s.items, s.delegations)
    && Markers(s.items, s.turnContexts)
    && OpenListed(s.items, s.turnAssistants) && ListsAnswers(s.items, s.turnAssistants)
  }

  /** Order is kept and rows move forward only. */
  ghost predicate Sound(s: Proj, s': Proj) {
    Tidy(s') && Extends(s.items, s'.items)
  }

  /** ... and no compaction is opened. */
  ghost predicate Good(s: Proj, s': Proj) {
    Sound(s, s') && (s'.openCompaction == s.openCompaction || s'.openCompaction.None?)
  }

  lemma SoundTransitive(a: Proj, b: Proj, c: Proj)
    requires Sound(a, b) && Sound(b, c)
    ensures Sound(a, c)
  {
    ExtendsTransitive(a.items, b.items, c.items);
  }

  lemma GoodTransitive(a: Proj, b: Proj, c: Proj)
    requires Good(a, b) && Good(b, c)
    ensures Good(a, c)
  {
    ExtendsTransitive(a.items, b.items, c.items);
  }

  // ---------- the three ways rows change ----------

  /** The names stay good on rows that only evolve. */
  lemma NamesEvolve(s: Proj, items: seq<ViewItem>)
    requires Tidy(s) && Extends(s.items, items)
    ensures Calls(items, s.toolItems) && Children(items, s.delegations) && Markers(items, s.turnContexts)
    ensures ListsAnswers(items, s.turnAssistants)
  {
    forall k | k in s.toolItems
      ensures CallRow(items[s.toolItems[k]], k)
    {
      assert CallRow(s.items[s.toolItems[k]], k);
    }
    forall k | k in s.delegations
      ensures ChildRow(items[s.delegations[k]], k)
    {
      assert ChildRow(s.items[s.delegations[k]], k);
    }
    forall k, j | k in s.turnAssistants && 0 <= j < |s.turnAssistants[k]|
      ensures AnswerOf(items[s.turnAssistants[k][j]], k)
    {
      assert AnswerOf(s.items[s.turnAssistants[k][j]], k);
    }
  }

  lemma DraftGrows(items: seq<ViewItem>, draft: Option<nat>, row: ViewItem)
    requires OneDraft(items, draft)
    requires row.Assistant? && row.live ==> draft.None?
    requires row.Assistant? && row.thinkingLive ==> row.live
    ensures OneDraft(items + [row], if row.Assistant? && row.live then Some(|items|) else draft)
  {
  }

  lemma CompactionGrows(items: seq<ViewItem>, current: Option<nat>, row: ViewItem)
    requires OneCompaction(items, current)
    requires Compressing(row) ==> forall i | 0 <= i < |items| :: !Compressing(items[i])
    ensures OneCompaction(items + [row], if Compressing(row) then Some(|items|) else current)
  {
  }

  lemma QueueGrows(items: seq<ViewItem>, names: map<string, nat>, row: ViewItem)
    requires Queue(items, names)
    ensures Queue(items + [row], names)
  {
    forall k | k in names
      ensures names[k] < |items| && Waiting((items + [row])[names[k]], k)
    {
      assert Waiting(items[names[k]], k);
    }
  }

  lemma OpenListedStill(items: seq<ViewItem>, names: map<string, seq<nat>>, row: ViewItem)
    requires OpenListed(items, names) && !(row.Assistant? && row.turnOpen)
    ensures OpenListed(items + [row], names)
  {
    forall i | 0 <= i < |items + [row]| && (items + [row])[i].Assistant? && (items + [row])[i].turnOpen
      ensures Listed(names, i, (items + [row])[i].turnId)
    {
      assert Listed(names, i, items[i].turnId);
    }
  }

  /** A new row that is neither live, open nor running. */
  predicate Still(row: ViewItem) {
    && (row.Assistant? ==> !row.live && !row.thinkingLive && !row.turnOpen)
    && !Compressing(row)
  }

  lemma AddGood(s: State, row: ViewItem)
    requires Tidy(s) && Still(row)
    ensures Good(s, AddRow(s, row))
  {
    hide OneDraft, OneCompaction, Queue, Calls, Children, Markers, OpenListed, ListsAnswers, Evolves, WellFormed;
    AddExtends(s.items, row);
    NamesEvolve(s, s.items + [row]);
    DraftGrows(s.items, s.draft, row);
    CompactionGrows(s.items, s.openCompaction, row);
    QueueGrows(s.items, s.queuedUsers, row);
    OpenListedStill(s.items, s.turnAssistants, row);
  }

  /** An edit that changes no live, open or running mark, on a row no queued input names. */
  ghost predicate Quiet(s: Proj, at: nat, row: ViewItem)
    requires at < |s.items|
  {
    && Evolves(s.items[at], row)
    && (row.Assistant?
        ==> row.live == s.items[at].live && row.turnOpen == s.items[at].turnOpen && (row.thinkingLive ==> row.live))
    && (Compressing(row) ==> Compressing(s.items[at]))
    && (s.openCompaction == Some(at) ==> Unsettled(row))
    && forall k | k in s.queuedUsers :: s.queuedUsers[k] != at
  }

  lemma SetGood(s: State, at: nat, row: ViewItem)
    requires Tidy(s) && at < |s.items| && Quiet(s, at, row)
    ensures Good(s, SetRow(s, at, row))
  {
    var items := s.items[at := row];
    forall i | 0 <= i < |s.items| ensures Evolves(s.items[i], items[i]) {}
    NamesEvolve(s, items);
    forall k | k in s.queuedUsers
      ensures Waiting(items[s.queuedUsers[k]], k)
    {
      assert Waiting(s.items[s.queuedUsers[k]], k);
    }
  }

  /** A row other than a bubble: no queued input names it. */
  lemma NotQueued(s: State, at: nat)
    requires Tidy(s) && at < |s.items| && !s.items[at].User?
    ensures forall k | k in s.queuedUsers :: s.queuedUsers[k] != at
  {
    forall k | k in s.queuedUsers ensures s.queuedUsers[k] != at { assert Waiting(s.items[s.queuedUsers[k]], k); }
  }

  /** The draft gives up its live mark and its name at once. */
  lemma FinishGood(s: State, row: ViewItem)
    requires Tidy(s) && s.draft.Some?
    requires Evolves(s.items[s.draft.value], row) && row.Assistant? && !row.live && !row.thinkingLive
    ensures Good(s, SetRow(s, s.draft.value, row).(draft := None))
    ensures forall i | 0 <= i < |s.items| && SetRow(s, s.draft.value, row).items[i].Assistant? ::
      !SetRow(s, s.draft.value, row).items[i].live
  {
    var items := s.items[s.draft.value := row];
    forall i | 0 <= i < |s.items| ensures Evolves(s.items[i], items[i]) {}
    NamesEvolve(s, items);
    forall k | k in s.queuedUsers
      ensures Waiting(items[s.queuedUsers[k]], k)
    {
      assert Waiting(s.items[s.queuedUsers[k]], k);
    }
  }

  // ---------- one lemma per operation ----------

  lemma InterruptGood(s: State, e: Event)
    requires Tidy(s)
    ensures Good(s, Interrupt(s, e))
    ensures !e.CompactionEnd? ==> forall i | 0 <= i < |Interrupt(s, e).items| :: !Compressing(Interrupt(s, e).items[i])
  {
    if s.openCompaction.Some? && Compressing(s.items[s.openCompaction.value]) && !e.CompactionEnd? {
      NotQueued(s, s.openCompaction.value);
      SetGood(s, s.openCompaction.value, s.items[s.openCompaction.value].(status := "interrupted"));
    }
  }

  lemma UnqueueGood(s: State, id: string, outcome: Option<string>)
    requires Tidy(s) && id in s.queuedUsers
    ensures var s2 := SetRow(s, s.queuedUsers[id], Unqueued(s.items[s.queuedUsers[id]], outcome));
      Good(s, s2.(queuedUsers := s2.queuedUsers - {id}))
  {
    var at := s.queuedUsers[id];
    var s1 := s.(queuedUsers := s.queuedUsers - {id});
    assert Waiting(s.items[at], id);
    forall k | k in s1.queuedUsers ensures s1.queuedUsers[k] != at && Waiting(s.items[s1.queuedUsers[k]], k) {
      assert Waiting(s.items[s.queuedUsers[k]], k);
    }
    SetGood(s1, at, Unqueued(s.items[at], outcome));
  }

  lemma ClaimTidy(s: State, content: Option<string>, inputId: Option<string>, attachments: seq<string>)
    requires Tidy(s)
    ensures var s1 := ClaimMessage(s, content, inputId, attachments);
      Tidy(s1) && s1.items == s.items && s1.openCompaction == s.openCompaction
  {
    hide OneDraft, OneCompaction, Queue, Calls, Children, Markers, OpenListed, ListsAnswers, WellFormed;
  }

  lemma SettledTidy(s: State, id: string)
    requires Tidy(s)
    ensures Good(s, ClaimSettled(s, id)) && Tidy(ClaimSettled(s, id)) && ClaimSettled(s, id).items == s.items
      && ClaimSettled(s, id).openCompaction == s.openCompaction
  {
    hide OneDraft, OneCompaction, Queue, Calls, Children, Markers, OpenListed, ListsAnswers, WellFormed;
    ExtendsReflexive(s.items);
  }

  lemma SameItems(s: Proj, s1: Proj, r: Proj)
    requires s1.items == s.items && s1.openCompaction == s.openCompaction && Good(s1, r)
    ensures Good(s, r)
  {
  }

  lemma UserMessageGood(s: State, ts: Option<nat>, content: Option<string>, inputId: Option<string>,
                        attachments: seq<string>)
    requires Tidy(s)
    ensures Good(s, OnUserMessage(s, ts, content, inputId, attachments))
  {
    if content.Some? {
      hide Good, Tidy, Unqueued, AddRow, ClaimMessage;
      var s1 := ClaimMessage(s, content, inputId, attachments);
      ClaimTidy(s, content, inputId, attachments);
      if Named(inputId) && inputId.value in s1.queuedUsers {
        UnqueueGood(s1, inputId.value, None);
        SameItems(s, s1, OnUserMessage(s, ts, content, inputId, attachments));
      } else {
        AddGood(s1, User(content.value, ts, attachments, false, None, false, None));
        SameItems(s, s1, OnUserMessage(s, ts, content, inputId, attachments));
      }
    }
  }

  lemma InputQueuedGood(s: State, ts: Option<nat>, content: Option<string>, inputId: Option<string>,
                        attachments: seq<string>, steer: bool)
    requires Tidy(s)
    ensures Good(s, OnInputQueued(s, ts, content, inputId, attachments, steer))
  {
    hide WellFormed, OneDraft, OneCompaction, Calls, Children, Markers, OpenListed, ListsAnswers, Extends;
    ExtendsReflexive(s.items);
    if Named(inputId) && content.Some? {
      var row := User(content.value, ts, attachments, true, inputId, steer, None);
      AddGood(s, row);
      var r := OnInputQueued(s, ts, content, inputId, attachments, steer);
      forall k | k in r.queuedUsers ensures r.queuedUsers[k] < |r.items| && Waiting(r.items[r.queuedUsers[k]], k) {
        if k != inputId.value { assert Waiting(s.items[s.queuedUsers[k]], k); }
      }
    }
  }

  lemma InputSettledGood(s: State, inputId: Option<string>, outcome: Option<string>)
    requires Tidy(s)
    ensures Good(s, OnInputSettled(s, inputId, outcome))
  {
    hide Good, Tidy, ClaimSettled, Unqueued;
    if Named(inputId) {
      var s1 := ClaimSettled(s, inputId.value);
      SettledTidy(s, inputId.value);
      if inputId.value in s1.queuedUsers {
        UnqueueGood(s1, inputId.value, outcome);
        SameItems(s, s1, OnInputSettled(s, inputId, outcome));
      }
    } else {
      GoodReflexive(s);
    }
  }

  lemma AddAnswerFields(s: State, row: ViewItem)
    requires row.Assistant?
    ensures AddAnswer(s, row) == s.(items := s.items + [row], draft := if row.live then Some(|s.items|) else s.draft,
      turnAssistants := Listing(s.turnAssistants, row.turnId, |s.items|))
  {
  }

  /** Adding an answer and listing it under its turn; a live one becomes the draft. */
  lemma AnswerGood(s: State, row: ViewItem)
    requires Tidy(s) && row.Assistant? && row.turnOpen == row.turnId.Some? && !row.thinkingLive
    requires row.live ==> s.draft.None?
    ensures Good(s, AddAnswer(s, row))
  {
    hide OneDraft, OneCompaction, Queue, Calls, Children, Markers, OpenListed, ListsAnswers, Evolves, WellFormed;
    hide AddAnswer, Listing;
    AddExtends(s.items, row);
    NamesEvolve(s, s.items + [row]);
    DraftGrows(s.items, s.draft, row);
    CompactionGrows(s.items, s.openCompaction, row);
    QueueGrows(s.items, s.queuedUsers, row);
    OpenListedGrows(s.items, s.turnAssistants, row);
    ListsAnswersGrows(s.items, s.turnAssistants, row);
    AddAnswerFields(s, row);
  }

  function Listing(names: map<string, seq<nat>>, turnId: Option<string>, at: nat): map<string, seq<nat>> {
    if turnId.None? then names
    else names[turnId.value := (if turnId.value in names then names[turnId.value] else []) + [at]]
  }

  lemma OpenListedGrows(items: seq<ViewItem>, names: map<string, seq<nat>>, row: ViewItem)
    requires OpenListed(items, names) && row.Assistant? && row.turnOpen == row.turnId.Some?
    ensures OpenListed(items + [row], Listing(names, row.turnId, |items|))
  {
    var names' := Listing(names, row.turnId, |items|);
    forall i | 0 <= i < |items + [row]| && (items + [row])[i].Assistant? && (items + [row])[i].turnOpen
      ensures Listed(names', i, (items + [row])[i].turnId)
    {
      if i < |items| {
        assert Listed(names, i, items[i].turnId);
      } else {
        assert names'[row.turnId.value][|names'[row.turnId.value]| - 1] == i;
      }
    }
  }

  lemma ListsAnswersGrows(items: seq<ViewItem>, names: map<string, seq<nat>>, row: ViewItem)
    requires ListsAnswers(items, names) && row.Assistant?
    ensures ListsAnswers(items + [row], Listing(names, row.turnId, |items|))
  {
    var names' := Listing(names, row.turnId, |items|);
    forall k, j | k in names' && 0 <= j < |names'[k]|
      ensures names'[k][j] < |items| + 1 && AnswerOf((items + [row])[names'[k][j]], k)
    {
      if k in names && j < |names[k]| {
        assert AnswerOf(items[names[k][j]], k);
      }
    }
  }

  lemma ChunkGood(s: State, ts: Option<nat>, delta: Option<string>, thinking: bool)
    requires Tidy(s)
    ensures Good(s, OnChunk(s, ts, delta, thinking))
  {
    hide Good, Tidy, OpenDraft, Streamed;
    if delta.Some? {
      var s1 := OpenDraft(s, ts);
      OpenDraftGood(s, ts);
      StreamGood(s1, delta.value, thinking);
      GoodTransitive(s, s1, OnChunk(s, ts, delta, thinking));
    } else {
      GoodReflexive(s);
    }
  }

  lemma OpenDraftGood(s: State, ts: Option<nat>)
    requires Tidy(s)
    ensures Good(s, OpenDraft(s, ts)) && Tidy(OpenDraft(s, ts))
  {
    if s.draft.None? {
      AnswerGood(s, Answer("", ts, true, None, None, s.openTurnId));
    } else {
      ExtendsReflexive(s.items);
    }
  }

  lemma StreamGood(s: State, delta: string, thinking: bool)
    requires Tidy(s) && s.draft.Some?
    ensures Good(s, SetRow(s, s.draft.value, Streamed(s.items[s.draft.value], delta, thinking)))
  {
    NotQueued(s, s.draft.value);
    SetGood(s, s.draft.value, Streamed(s.items[s.draft.value], delta, thinking));
  }

  lemma GoodReflexive(s: Proj)
    requires Tidy(s)
    ensures Good(s, s)
  {
    ExtendsReflexive(s.items);
  }

  lemma MessageGood(s: State, ts: Option<nat>, content: Option<string>, toolCalls: Option<seq<ToolCall>>,
                    controls: Option<Controls>)
    requires Tidy(s)
    ensures Good(s, OnMessage(s, ts, content, toolCalls, controls))
  {
    var text := OrElse(content, "");
    if s.draft.Some? {
      FinishGood(s, Finished(s.items[s.draft.value], text, toolCalls, controls));
    } else if text != "" || toolCalls.Some? {
      AnswerGood(s, Answer(text, ts, false, toolCalls, controls, s.openTurnId));
    }
  }

  lemma CallGood(s: State, ts: Option<nat>, call: Option<ToolCall>)
    requires Tidy(s)
    ensures Good(s, OnCall(s, ts, call))
  {
    if call.Some? {
      var row := Tool(call.value, ts, None, None, false, McpServerOf(call.value.name), None, None);
      AddGood(s, row);
      var r := OnCall(s, ts, call);
      forall k | k in r.toolItems ensures r.toolItems[k] < |r.items| && CallRow(r.items[r.toolItems[k]], k) {
        if k != call.value.id { assert CallRow(s.items[s.toolItems[k]], k); }
      }
    }
  }

  lemma ResultGood(s: State, e: Event)
    requires Tidy(s) && e.CallDone?
    ensures Good(s, OnResult(s, e))
  {
    if e.callId.Some? && e.callId.value in s.toolItems {
      var at := s.toolItems[e.callId.value];
      assert CallRow(s.items[at], e.callId.value);
      NotQueued(s, at);
      SetGood(s, at, Settle(s.items[at], e));
    }
  }

  lemma SpawnGood(s: State, ts: Option<nat>, id: string, definition: Option<string>, brief: Option<string>,
                  objective: Option<string>)
    requires Tidy(s)
    ensures Good(s, Spawn(s, ts, id, definition, brief, objective))
  {
    var row := Delegation(id, OrElse(definition, ""), OrElse(Later(brief, objective), ""), ts, "running");
    AddGood(s, row);
    var r := Spawn(s, ts, id, definition, brief, objective);
    forall k | k in r.delegations ensures r.delegations[k] < |r.items| && ChildRow(r.items[r.delegations[k]], k) {
      if k != id { assert ChildRow(s.items[s.delegations[k]], k); }
    }
  }

  lemma ChildResultGood(s: State, e: Event)
    requires Tidy(s) && e.ChildResult?
    ensures Good(s, OnChildResult(s, e))
  {
    if e.childSessionId.Some? {
      hide Good, Spawn, Tidy;
      var id := e.childSessionId.value;
      var s1 := if id in s.delegations then s else Spawn(s, e.ts, id, e.definition, e.brief, e.objective);
      if id in s.delegations { GoodReflexive(s); } else { SpawnGood(s, e.ts, id, e.definition, e.brief, e.objective); }
      if e.status.Some? && e.status.value in CHILD_STATUSES {
        TidyOf(s, s1);
        EndedGood(s1, id, e.status.value);
        GoodTransitive(s, s1, OnChildResult(s, e));
      }
    } else {
      GoodReflexive(s);
    }
  }

  lemma EndedGood(s: State, id: string, outcome: string)
    requires Tidy(s) && id in s.delegations
    ensures Good(s, SetRow(s, s.delegations[id], Ended(s.items[s.delegations[id]], outcome)))
  {
    assert ChildRow(s.items[s.delegations[id]], id);
    NotQueued(s, s.delegations[id]);
    SetGood(s, s.delegations[id], Ended(s.items[s.delegations[id]], outcome));
  }

  lemma ManifestGood(s: State, ts: Option<nat>, manifest: Option<string>)
    requires Tidy(s)
    ensures Good(s, OnManifest(s, ts, manifest))
  {
    if manifest.Some? {
      var key := OrElse(s.openTurnId, "turnless");
      if key in s.turnContexts {
        RefreshGood(s, key, manifest.value);
      } else {
        AddGood(s, Context(ts, manifest.value, 1));
      }
    } else {
      GoodReflexive(s);
    }
  }

  lemma RefreshGood(s: State, key: string, manifest: string)
    requires Tidy(s) && key in s.turnContexts
    ensures Good(s, SetRow(s, s.turnContexts[key], Refreshed(s.items[s.turnContexts[key]], manifest)))
  {
    NotQueued(s, s.turnContexts[key]);
    SetGood(s, s.turnContexts[key], Refreshed(s.items[s.turnContexts[key]], manifest));
  }

  lemma CompactionStartGood(s: State, ts: Option<nat>, trigger: Option<string>, who: Option<string>)
    requires Tidy(s) && forall i | 0 <= i < |s.items| :: !Compressing(s.items[i])
    ensures Sound(s, OnCompactionStart(s, ts, trigger, who))
    ensures var r := OnCompactionStart(s, ts, trigger, who);
      r.openCompaction == Some(|s.items|) && |r.items| == |s.items| + 1
  {
    hide OneDraft, OneCompaction, Queue, Calls, Children, Markers, OpenListed, ListsAnswers, Evolves, WellFormed;
    var row := Compacting(ts, "running", trigger, who, None, None, None, None, None);
    AddExtends(s.items, row);
    NamesEvolve(s, s.items + [row]);
    DraftGrows(s.items, s.draft, row);
    CompactionGrows(s.items, s.openCompaction, row);
    QueueGrows(s.items, s.queuedUsers, row);
    OpenListedStill(s.items, s.turnAssistants, row);
  }

  lemma CompactionEndGood(s: State, e: Event)
    requires Tidy(s) && e.CompactionEnd?
    ensures Good(s, OnCompactionEnd(s, e)) && OnCompactionEnd(s, e).openCompaction.None?
  {
    if s.openCompaction.Some? {
      var at := s.openCompaction.value;
      var row := Patch(s.items[at], e);
      var items := s.items[at := row];
      forall i | 0 <= i < |s.items| ensures Evolves(s.items[i], items[i]) {}
      NamesEvolve(s, items);
      NotQueued(s, at);
      forall k | k in s.queuedUsers
        ensures Waiting(items[s.queuedUsers[k]], k)
      {
        assert Waiting(s.items[s.queuedUsers[k]], k);
      }
    } else {
      AddGood(s, Patch(Compacting(e.ts, "running", None, None, None, None, None, None, None), e));
    }
  }

  lemma EndDraftGood(s: State)
    requires Tidy(s)
    ensures Good(s, EndDraft(s))
    ensures forall i | 0 <= i < |EndDraft(s).items| && EndDraft(s).items[i].Assistant? :: !EndDraft(s).items[i].live
  {
    if s.draft.Some? {
      FinishGood(s, Stopped(s.items[s.draft.value]));
    } else {
      ExtendsReflexive(s.items);
    }
  }

  /** A turn's end touches nothing but open marks and running children. */
  ghost predicate Relabels(items: seq<ViewItem>, items': seq<ViewItem>) {
    |items'| == |items| && forall i | 0 <= i < |items| ::
      items'[i] == items[i] || items'[i] == Closed(items[i]) || items'[i] == Interrupted(items[i])
  }

  lemma RelabelKeeps(items: seq<ViewItem>, items': seq<ViewItem>, draft: Option<nat>, current: Option<nat>,
                     queued: map<string, nat>)
    requires Relabels(items, items') && OneDraft(items, draft) && OneCompaction(items, current) && Queue(items, queued)
    ensures OneDraft(items', draft) && OneCompaction(items', current) && Queue(items', queued)
  {
    forall k | k in queued ensures Waiting(items'[queued[k]], k) { assert Waiting(items[queued[k]], k); }
  }

  lemma OpenListedRelabels(items: seq<ViewItem>, items': seq<ViewItem>, names: map<string, seq<nat>>)
    requires Relabels(items, items') && OpenListed(items, names)
    ensures OpenListed(items', names)
  {
    forall i | 0 <= i < |items'| && items'[i].Assistant? && items'[i].turnOpen
      ensures Listed(names, i, items'[i].turnId)
    {
      assert Listed(names, i, items[i].turnId);
    }
  }

  lemma OpenListedCloses(items: seq<ViewItem>, names: map<string, seq<nat>>, id: string)
    requires OpenListed(items, names)
    ensures var closed := ClosedAt(items, if id in names then names[id] else []);
      OpenListed(closed, names - {id}) && forall i | 0 <= i < |items| && AnswerOf(items[i], id) :: !closed[i].turnOpen
  {
    var closed := ClosedAt(items, if id in names then names[id] else []);
    forall i | 0 <= i < |closed| && closed[i].Assistant? && closed[i].turnOpen
      ensures Listed(names - {id}, i, closed[i].turnId) && closed[i].turnId != Some(id)
    {
      assert Listed(names, i, items[i].turnId);
    }
  }

  lemma CloseTurnGood(s: State, id: string)
    requires Tidy(s)
    ensures Good(s, CloseTurn(s, id))
    ensures forall i | 0 <= i < |s.items| && AnswerOf(s.items[i], id) :: !CloseTurn(s, id).items[i].turnOpen
  {
    hide OneDraft, OneCompaction, Queue, Calls, Children, OpenListed, Evolves, WellFormed;
    var rows := if id in s.turnAssistants then s.turnAssistants[id] else [];
    ClosedExtends(s.items, rows);
    NamesEvolve(s, ClosedAt(s.items, rows));
    RelabelKeeps(s.items, ClosedAt(s.items, rows), s.draft, s.openCompaction, s.queuedUsers);
    OpenListedCloses(s.items, s.turnAssistants, id);
  }

  lemma InterruptChildrenGood(s: State)
    requires Tidy(s)
    ensures Good(s, InterruptChildren(s))
  {
    hide OneDraft, OneCompaction, Queue, Calls, Children, Markers, OpenListed, ListsAnswers, Evolves, WellFormed;
    var rows := s.delegations.Values;
    InterruptedExtends(s.items, rows);
    NamesEvolve(s, InterruptedAt(s.items, rows));
    RelabelKeeps(s.items, InterruptedAt(s.items, rows), s.draft, s.openCompaction, s.queuedUsers);
    OpenListedRelabels(s.items, InterruptedAt(s.items, rows), s.turnAssistants);
  }

  lemma LeaveTurnGood(s: State, id: Option<string>)
    requires Tidy(s)
    ensures Good(s, LeaveTurn(s, id))
  {
    var closing := if Named(id) then id else s.openTurnId;
    if closing.Some? {
      CloseTurnGood(s, closing.value);
    } else {
      ExtendsReflexive(s.items);
    }
  }

  lemma TurnEndGood(s: State, id: Option<string>, reason: Option<string>)
    requires Tidy(s)
    ensures Good(s, OnTurnEnd(s, id, reason))
  {
    hide Good, Tidy, EndDraft, LeaveTurn, InterruptChildren;
    var s1 := EndDraft(s);
    EndDraftGood(s);
    TidyOf(s, s1);
    var s2 := LeaveTurn(s1, id);
    LeaveTurnGood(s1, id);
    TidyOf(s1, s2);
    var s3 := InterruptChildren(s2);
    InterruptChildrenGood(s2);
    TidyOf(s2, s3);
    GoodTransitive(s, s1, s2);
    GoodTransitive(s, s2, s3);
    if reason.Some? {
      AddGood(s3, Status(reason.value, None));
      GoodTransitive(s, s3, AddRow(s3, Status(reason.value, None)));
    }
  }

  lemma TidyOf(s: Proj, s': Proj)
    requires Good(s, s')
    ensures Tidy(s')
  {
  }

  lemma RowGood(s: State, row: Option<ViewItem>)
    requires Tidy(s) && PlainRow(row)
    ensures Good(s, AddIf(s, row))
  {
    if row.Some? { AddGood(s, row.value); } else { ExtendsReflexive(s.items); }
  }

  lemma TurnStartGood(s: State, id: Option<string>)
    requires Tidy(s)
    ensures Good(s, OnTurnStart(s, id))
  {
    ExtendsReflexive(s.items);
  }

  lemma ApprovalGood(s: State, id: Option<string>, call: Option<ToolCall>)
    requires Tidy(s)
    ensures Good(s, OnApprovalRequest(s, id, call))
  {
    ExtendsReflexive(s.items);
  }

  /** What one event does, past its interruption of the open compaction. */
  ghost predicate Handled(s: State, e: Event, r: State) {
    if e.CompactionStart? then Sound(s, r) && r.openCompaction == Some(|s.items|) && |r.items| == |s.items| + 1
    else Good(s, r) && (e.CompactionEnd? ==> r.openCompaction.None?)
  }

  lemma ConversationGood(s: State, e: Event)
    requires Tidy(s) && IsConversation(e)
    ensures Good(s, Handle(s, e))
  {
    hide Good, Tidy, WellFormed;
    hide OnTurnStart, OnTurnEnd, OnUserMessage, OnInputQueued, OnInputSettled, OnChunk, OnMessage, ErrorRow, AddIf;
    match e {
      case TurnStart(_, _, id) => TurnStartGood(s, id);
      case TurnEnd(_, _, id, reason) => TurnEndGood(s, id, reason);
      case TurnError(_, _, _, _) => ErrorRowKind(s.turn, e); RowGood(s, ErrorRow(s.turn, e));
      case UserMessage(_, ts, content, inputId, attachments) => UserMessageGood(s, ts, content, inputId, attachments);
      case InputQueued(_, ts, content, inputId, attachments, steer) =>
        InputQueuedGood(s, ts, content, inputId, attachments, steer);
      case InputSettled(_, _, inputId, outcome) => InputSettledGood(s, inputId, outcome);
      case AssistantChunk(_, ts, _, delta, thinking) => ChunkGood(s, ts, delta, thinking);
      case AssistantMessage(_, ts, _, content, toolCalls, controls) => MessageGood(s, ts, content, toolCalls, controls);
    }
  }

  lemma WorkGood(s: State, e: Event)
    requires Tidy(s) && !IsConversation(e) && !e.CompactionStart? && !e.CompactionEnd?
    ensures Good(s, Handle(s, e))
  {
    hide Good, Tidy, WellFormed;
    hide OnCall, OnResult, OnApprovalRequest, DecisionRow, HookRow, AddIf, Spawn, OnChildResult, OnManifest;
    match e {
      case CallMade(_, ts, call) => CallGood(s, ts, call);
      case CallDone(_, _, _, _, _, _, _, _) => ResultGood(s, e);
      case ApprovalRequest(_, _, id, call, _) => ApprovalGood(s, id, call);
      case ApprovalDecision(_, ts, id, decision) =>
        DecisionRowKind(s.approvals, ts, id, decision);
        RowGood(s, DecisionRow(s.approvals, ts, id, decision));
      case HookRun(_, _, _, _, _, _) => HookRowKind(e); RowGood(s, HookRow(e));
      case ChildSpawn(_, ts, Some(id), definition, brief, objective) =>
        SpawnGood(s, ts, id, definition, brief, objective);
      case ChildResult(_, _, _, _, _, _, _) => ChildResultGood(s, e);
      case ContextManifest(_, ts, manifest) => ManifestGood(s, ts, manifest);
      case _ => GoodReflexive(s);
    }
  }

  lemma HandleGood(s: State, e: Event)
    requires Tidy(s) && (!e.CompactionEnd? ==> forall i | 0 <= i < |s.items| :: !Compressing(s.items[i]))
    ensures Handled(s, e, Handle(s, e))
  {
    hide Good, Sound, Tidy, WellFormed, OnCompactionStart, OnCompactionEnd;
    if e.CompactionStart? {
      CompactionStartGood(s, e.ts, e.trigger, e.model);
    } else if e.CompactionEnd? {
      CompactionEndGood(s, e);
    } else {
      hide Handle;
      if IsConversation(e) { ConversationGood(s, e); } else { WorkGood(s, e); }
    }
  }

  predicate PlainRow(row: Option<ViewItem>) {
    row.Some? ==> row.value.Audit? || row.value.Status?
  }

  lemma ErrorRowKind(turn: TurnInputs, e: Event)
    requires e.TurnError?
    ensures PlainRow(ErrorRow(turn, e))
  {
  }

  lemma DecisionRowKind(approvals: map<string, ToolCall>, ts: Option<nat>, id: Option<string>, decision: Option<string>)
    ensures PlainRow(DecisionRow(approvals, ts, id, decision))
  {
  }

  lemma HookRowKind(e: Event)
    requires e.HookRun?
    ensures PlainRow(HookRow(e))
  {
  }

  lemma StepGood(s: State, e: Event)
    requires Tidy(s)
    ensures Sound(s, Step(s, e))
  {
    hide Tidy, Extends, Handle, Interrupt, WellFormed;
    InterruptGood(s, e);
    HandleGood(Interrupt(s, e), e);
    SoundTransitive(s, Interrupt(s, e), Step(s, e));
  }

  lemma {:induction false} FoldGood(s: State, es: seq<Event>)
    requires Tidy(s)
    ensures Sound(s, Fold<State>(Step, s, es))
  {
    hide Tidy, Step, WellFormed, Extends;
    if es == [] {
      ExtendsReflexive(s.items);
    } else {
      var front := es[..|es| - 1];
      FoldGood(s, front);
      StepGood(Fold<State>(Step, s, front), es[|es| - 1]);
      SoundTransitive(s, Fold<State>(Step, s, front), Fold<State>(Step, s, es));
    }
  }

  // ---------- for every log ----------

  lemma TranscriptTidy(es: seq<Event>)
    ensures Tidy(Project(es))
  {
    FoldGood(Empty, es);
  }

  /** As the log grows, every row keeps its place, its kind and its identity, and finished rows stay as they are. */
  lemma TranscriptStable(a: seq<Event>, b: seq<Event>)
    ensures Extends(ProjectItems(a), ProjectItems(a + b))
  {
    TranscriptTidy(a);
    FoldAppend<State>(Step, Empty, a, b);
    FoldGood(Project(a), b);
  }

  predicate Running(row: ViewItem) {
    row.Delegation? && row.outcome == "running"
  }

  /** The turn an end closes: the one it names, or the open one. */
  function Closing(s: Proj, id: Option<string>): Option<string> {
    if Named(id) then id else s.openTurnId
  }

  /** After a turn's end nothing streams, no answer of the turn it closes is open, and no known child runs. */
  lemma TurnEndSettles(es: seq<Event>, e: Event)
    requires e.TurnEnd?
    ensures var s := Project(es + [e]);
      && (forall i | 0 <= i < |s.items| && s.items[i].Assistant? :: !s.items[i].live && !s.items[i].thinkingLive)
      && (forall k | k in s.delegations :: !Running(s.items[s.delegations[k]]))
      && s.openTurnId.None?
      && var closing := Closing(Project(es), e.turnId);
         closing.Some? ==> forall i | 0 <= i < |s.items| && AnswerOf(s.items[i], closing.value) :: !s.items[i].turnOpen
  {
    FoldSnoc<State>(Step, Empty, es, e);
    TranscriptTidy(es + [e]);
    hide WellFormed, OnTurnEnd, Interrupt, OneCompaction, Queue, Calls, Children, Markers, ListsAnswers, AnswerOf;
    hide Running;
    var t := Interrupt(Project(es), e);
    InterruptFields(Project(es), e);
    TurnEndFields(t, e.turnId, e.reason);
    var s := Project(es + [e]);
    ClosedTurn(s, Closing(Project(es), e.turnId));
  }

  lemma InterruptFields(s: State, e: Event)
    ensures var r := Interrupt(s, e); r.openTurnId == s.openTurnId && r.delegations == s.delegations
  {
  }

  /** With its name gone, none of a turn's answers is open. */
  lemma ClosedTurn(s: Proj, closing: Option<string>)
    requires OpenListed(s.items, s.turnAssistants) && (closing.Some? ==> closing.value !in s.turnAssistants)
    ensures closing.Some?
      ==> forall i | 0 <= i < |s.items| && AnswerOf(s.items[i], closing.value) :: !s.items[i].turnOpen
  {
  }

  lemma EndDraftFields(s: State)
    ensures var r := EndDraft(s);
      r.draft.None? && r.delegations == s.delegations && r.openTurnId == s.openTurnId
        && r.turnAssistants == s.turnAssistants
  {
    hide WellFormed, Stopped;
  }

  lemma TurnEndFields(s: State, id: Option<string>, reason: Option<string>)
    ensures var r := OnTurnEnd(s, id, reason);
      && r.draft.None? && r.delegations == s.delegations && r.openTurnId.None?
      && (Closing(s, id).Some? ==> Closing(s, id).value !in r.turnAssistants)
      && forall k | k in s.delegations :: s.delegations[k] < |r.items| && !Running(r.items[s.delegations[k]])
  {
    var s1 := EndDraft(s);
    EndDraftFields(s);
    LeaveKeeps(s1, id);
    var s2 := LeaveTurn(s1, id);
    ChildrenSettled(s2);
    ChildrenInRange(s2);
    var s3 := InterruptChildren(s2);
    AddIfFields(s3, if reason.Some? then Some(Status(reason.value, None)) else None);
    hide WellFormed, EndDraft, LeaveTurn, InterruptChildren, Running, AddIf;
  }

  lemma AddIfFields(s: State, row: Option<ViewItem>)
    ensures var r := AddIf(s, row);
      && r.draft == s.draft && r.delegations == s.delegations && r.openTurnId == s.openTurnId
      && r.turnAssistants == s.turnAssistants
      && |s.items| <= |r.items| && forall i | 0 <= i < |s.items| :: r.items[i] == s.items[i]
  {
    hide WellFormed;
  }

  lemma ChildrenInRange(s: State)
    ensures var r := InterruptChildren(s);
      && |r.items| == |s.items| && r.draft == s.draft && r.delegations == s.delegations && r.openTurnId == s.openTurnId
      && r.turnAssistants == s.turnAssistants && forall k | k in s.delegations :: s.delegations[k] < |r.items|
  {
  }

  lemma LeaveKeeps(s: State, id: Option<string>)
    ensures var r := LeaveTurn(s, id);
      r.delegations == s.delegations && r.draft == s.draft && |r.items| == |s.items| && r.openTurnId.None?
      && (Closing(s, id).Some? ==> Closing(s, id).value !in r.turnAssistants)
  {
  }

  lemma ChildrenSettled(s: State)
    ensures forall k | k in s.delegations :: !Running(InterruptChildren(s).items[s.delegations[k]])
  {
    forall k | k in s.delegations ensures !Running(InterruptChildren(s).items[s.delegations[k]]) {
      assert InterruptChildren(s).items[s.delegations[k]] == Interrupted(s.items[s.delegations[k]]);
    }
  }

  /** A row shows a running compaction only while its start is the newest event. */
  lemma RunningCompactionIsNewest(es: seq<Event>, i: nat)
    requires i < |ProjectItems(es)| && Compressing(ProjectItems(es)[i])
    ensures es != [] && es[|es| - 1].CompactionStart? && i == |ProjectItems(es)| - 1
  {
    var front, e := es[..|es| - 1], es[|es| - 1];
    TranscriptTidy(front);
    TranscriptTidy(es);
    RunningKept(Project(front), e, i);
  }

  lemma RunningKept(s: State, e: Event, i: nat)
    requires Tidy(s) && i < |Step(s, e).items| && Compressing(Step(s, e).items[i])
    ensures e.CompactionStart? && i == |Step(s, e).items| - 1
  {
    hide WellFormed, Interrupt, Handle, Calls, Children, Markers, OpenListed, ListsAnswers, Queue, OneDraft;
    var s1 := Interrupt(s, e);
    InterruptGood(s, e);
    HandleGood(s1, e);
  }
}
