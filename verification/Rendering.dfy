/**
 * What the transcript shows, said of the log alone: the streaming answer is the
 * text streamed so far, a finished answer is the durable message, tool rows are
 * the tool calls in order, and a result lands on the latest call of its id.
 */
module Rendering {
  import opened Events
  import opened P = Projection
  import opened Transcript

  // ---------- answers ----------

  /** An answer ends with its durable message or with its turn. */
  predicate EndsAnswer(e: Event) {
    e.AssistantMessage? || e.TurnEnd?
  }

  /** The deltas of this sort since the last answer ended. */
  function Streaming(es: seq<Event>, thinking: bool): seq<string> {
    if es == [] || EndsAnswer(es[|es| - 1]) then []
    else
      var e := es[|es| - 1];
      Streaming(es[..|es| - 1], thinking)
      + if e.AssistantChunk? && e.delta.Some? && e.thinking == thinking then [e.delta.value] else []
  }

  function Text(deltas: seq<string>): string {
    if deltas == [] then "" else Text(deltas[..|deltas| - 1]) + deltas[|deltas| - 1]
  }

  lemma TextSnoc(deltas: seq<string>, delta: string)
    ensures Text(deltas + [delta]) == Text(deltas) + delta
  {
    assert (deltas + [delta])[..|deltas|] == deltas;
  }

  lemma StreamingSnoc(es: seq<Event>, e: Event, thinking: bool)
    ensures Streaming(es + [e], thinking) ==
      if EndsAnswer(e) then []
      else
        Streaming(es, thinking)
        + if e.AssistantChunk? && e.delta.Some? && e.thinking == thinking then [e.delta.value] else []
  {
    assert (es + [e])[..|es|] == es;
  }

  /** An answer keeps its words, a tool row is untouched, and nothing becomes a tool row. */
  predicate RowQuiet(a: ViewItem, b: ViewItem) {
    && (a.Assistant? ==> b.Assistant? && b.text == a.text && b.thinking == a.thinking)
    && (b.Assistant? ==> a.Assistant?)
    && (a.Tool? || b.Tool? ==> b == a)
  }

  /** Rows already there are quiet; new ones are neither answers nor tool rows. */
  ghost predicate Quiet(a: seq<ViewItem>, b: seq<ViewItem>) {
    && |a| <= |b|
    && (forall i | 0 <= i < |a| :: RowQuiet(a[i], b[i]))
    && (forall i | |a| <= i < |b| :: !b[i].Assistant? && !b[i].Tool?)
  }

  lemma QuietSame(items: seq<ViewItem>)
    ensures Quiet(items, items)
  {
  }

  lemma QuietAdd(items: seq<ViewItem>, row: ViewItem)
    requires !row.Assistant? && !row.Tool?
    ensures Quiet(items, items + [row])
  {
  }

  lemma QuietSet(items: seq<ViewItem>, at: nat, row: ViewItem)
    requires at < |items| && RowQuiet(items[at], row)
    ensures Quiet(items, items[at := row])
  {
  }

  lemma QuietTwice(a: seq<ViewItem>, b: seq<ViewItem>, c: seq<ViewItem>)
    requires Quiet(a, b) && Quiet(b, c)
    ensures Quiet(a, c)
  {
    forall i | 0 <= i < |a| ensures RowQuiet(a[i], c[i]) {
      assert RowQuiet(a[i], b[i]) && RowQuiet(b[i], c[i]);
    }
    forall i | |a| <= i < |c| ensures !c[i].Assistant? && !c[i].Tool? {
      if i < |b| { assert RowQuiet(b[i], c[i]); }
    }
  }

  /** What was said and what was called stay as they are. */
  ghost predicate Aside(s: Proj, r: Proj) {
    Quiet(s.items, r.items) && r.draft == s.draft && r.toolItems == s.toolItems
  }

  lemma InterruptQuiet(s: State, e: Event)
    ensures var r := Interrupt(s, e); Aside(s, r)
  {
    hide Quiet;
    QuietSame(s.items);
    if s.openCompaction.Some? && Compressing(s.items[s.openCompaction.value]) && !e.CompactionEnd? {
      QuietSet(s.items, s.openCompaction.value, s.items[s.openCompaction.value].(status := "interrupted"));
    }
  }

  lemma UnqueuedQuiet(row: ViewItem, outcome: Option<string>)
    ensures RowQuiet(row, Unqueued(row, outcome))
  {
  }

  lemma UserMessageQuiet(s: State, ts: Option<nat>, content: Option<string>, inputId: Option<string>,
                         attachments: seq<string>)
    ensures var r := OnUserMessage(s, ts, content, inputId, attachments); Aside(s, r)
  {
    hide Quiet, WellFormed;
    QuietSame(s.items);
    if content.Some? {
      var s1 := ClaimMessage(s, content, inputId, attachments);
      hide ClaimMessage, Unqueued, RowQuiet;
      QuietAdd(s.items, User(content.value, ts, attachments, false, None, false, None));
      if Named(inputId) && inputId.value in s1.queuedUsers {
        InRangeAt(s1, inputId.value);
        var at := s1.queuedUsers[inputId.value];
        UnqueuedQuiet(s.items[at], None);
        QuietSet(s.items, at, Unqueued(s.items[at], None));
      }
    }
  }

  lemma InRangeAt(s: State, id: string)
    requires id in s.queuedUsers
    ensures s.queuedUsers[id] < |s.items|
  {
  }

  lemma InputSettledQuiet(s: State, inputId: Option<string>, outcome: Option<string>)
    ensures var r := OnInputSettled(s, inputId, outcome); Aside(s, r)
  {
    hide Quiet, WellFormed, Unqueued, RowQuiet, ClaimSettled;
    QuietSame(s.items);
    if Named(inputId) && inputId.value in s.queuedUsers {
      InRangeAt(s, inputId.value);
      var at := s.queuedUsers[inputId.value];
      UnqueuedQuiet(s.items[at], outcome);
      QuietSet(s.items, at, Unqueued(s.items[at], outcome));
    }
  }

  lemma EndedQuiet(s: State, id: string, outcome: string)
    requires id in s.delegations
    ensures s.delegations[id] < |s.items|
    ensures Aside(s, SetRow(s, s.delegations[id], Ended(s.items[s.delegations[id]], outcome)))
  {
    hide Quiet;
    QuietSet(s.items, s.delegations[id], Ended(s.items[s.delegations[id]], outcome));
  }

  lemma AsideTwice(a: Proj, b: Proj, c: Proj)
    requires Aside(a, b) && Aside(b, c)
    ensures Aside(a, c)
  {
    hide RowQuiet;
    QuietTwice(a.items, b.items, c.items);
  }

  lemma ChildResultQuiet(s: State, e: Event)
    requires e.ChildResult?
    ensures Aside(s, OnChildResult(s, e))
  {
    NothingHappens(s);
    if e.childSessionId.Some? {
      var id := e.childSessionId.value;
      SpawnQuiet(s, e.ts, id, e.definition, e.brief, e.objective);
      var s1: State := if id in s.delegations then s else Spawn(s, e.ts, id, e.definition, e.brief, e.objective);
      assert id in s1.delegations;
      hide Aside, WellFormed, Spawn, SetRow, Ended;
      if e.status.Some? && e.status.value in CHILD_STATUSES {
        EndedQuiet(s1, id, e.status.value);
        AsideTwice(s, s1, OnChildResult(s, e));
      }
    }
  }

  lemma ManifestQuiet(s: State, ts: Option<nat>, manifest: Option<string>)
    ensures Aside(s, OnManifest(s, ts, manifest))
  {
    hide Quiet, WellFormed;
    QuietSame(s.items);
    if manifest.Some? {
      var key := OrElse(s.openTurnId, "turnless");
      if key in s.turnContexts {
        MarkerInRange(s, key);
        QuietSet(s.items, s.turnContexts[key], Refreshed(s.items[s.turnContexts[key]], manifest.value));
      } else {
        QuietAdd(s.items, Context(ts, manifest.value, 1));
      }
    }
  }

  lemma MarkerInRange(s: State, key: string)
    requires key in s.turnContexts
    ensures s.turnContexts[key] < |s.items|
  {
  }

  lemma CompactionEndQuiet(s: State, e: Event)
    requires e.CompactionEnd?
    ensures var r := OnCompactionEnd(s, e); Aside(s, r)
  {
    hide Quiet;
    if s.openCompaction.Some? {
      QuietSet(s.items, s.openCompaction.value, Patch(s.items[s.openCompaction.value], e));
    } else {
      QuietAdd(s.items, Patch(Compacting(e.ts, "running", None, None, None, None, None, None, None), e));
    }
  }

  /** Events that are about neither answers nor calls. */
  predicate Elsewhere(e: Event) {
    !e.AssistantChunk? && !EndsAnswer(e) && !e.CallMade? && !e.CallDone?
  }

  lemma AddIfQuiet(s: State, row: Option<ViewItem>)
    requires row.Some? ==> !row.value.Assistant? && !row.value.Tool?
    ensures var r := AddIf(s, row); Aside(s, r)
  {
    hide Quiet, WellFormed;
    QuietSame(s.items);
    if row.Some? { QuietAdd(s.items, row.value); }
  }

  lemma InputQueuedQuiet(s: State, ts: Option<nat>, content: Option<string>, inputId: Option<string>,
                         attachments: seq<string>, steer: bool)
    ensures Aside(s, OnInputQueued(s, ts, content, inputId, attachments, steer))
  {
    hide Quiet, WellFormed;
    QuietSame(s.items);
    if content.Some? { QuietAdd(s.items, User(content.value, ts, attachments, true, inputId, steer, None)); }
  }

  lemma SpawnQuiet(s: State, ts: Option<nat>, id: string, definition: Option<string>, brief: Option<string>,
                   objective: Option<string>)
    ensures Aside(s, Spawn(s, ts, id, definition, brief, objective))
  {
    hide Quiet, WellFormed;
    QuietAdd(s.items, Delegation(id, OrElse(definition, ""), OrElse(Later(brief, objective), ""), ts, "running"));
  }

  lemma RestQuiet(s: State, e: Event)
    requires e.TurnStart? || e.ApprovalRequest? || e.CompactionStart?
    ensures Aside(s, Handle(s, e))
  {
    hide Quiet, WellFormed;
    QuietSame(s.items);
    if e.CompactionStart? {
      QuietAdd(s.items, Compacting(e.ts, "running", e.trigger, e.model, None, None, None, None, None));
    }
  }

  lemma NothingHappens(s: State)
    ensures Aside(s, s)
  {
    QuietSame(s.items);
  }

  lemma HandleQuiet(s: State, e: Event)
    requires Elsewhere(e)
    ensures Aside(s, Handle(s, e))
  {
    hide Aside, WellFormed, AddIf, ErrorRow, DecisionRow, HookRow, OnUserMessage, OnInputQueued, OnInputSettled, Spawn;
    hide OnChildResult, OnManifest, OnCompactionStart, OnCompactionEnd, OnTurnStart, OnApprovalRequest;
    NothingHappens(s);
    match e {
      case TurnError(_, _, _, _) =>
        ErrorRowKind(s.turn, e);
        AddIfQuiet(s, ErrorRow(s.turn, e));
      case UserMessage(_, ts, content, inputId, attachments) => UserMessageQuiet(s, ts, content, inputId, attachments);
      case InputQueued(_, ts, content, inputId, attachments, steer) =>
        InputQueuedQuiet(s, ts, content, inputId, attachments, steer);
      case InputSettled(_, _, inputId, outcome) => InputSettledQuiet(s, inputId, outcome);
      case ApprovalDecision(_, ts, id, decision) =>
        DecisionRowKind(s.approvals, ts, id, decision);
        AddIfQuiet(s, DecisionRow(s.approvals, ts, id, decision));
      case HookRun(_, _, _, _, _, _) =>
        HookRowKind(e);
        AddIfQuiet(s, HookRow(e));
      case ChildSpawn(_, ts, Some(id), definition, brief, objective) =>
        SpawnQuiet(s, ts, id, definition, brief, objective);
      case ChildResult(_, _, _, _, _, _, _) => ChildResultQuiet(s, e);
      case ContextManifest(_, ts, manifest) => ManifestQuiet(s, ts, manifest);
      case CompactionEnd(_, _, _, _, _, _, _, _, _) => CompactionEndQuiet(s, e);
      case TurnStart(_, _, _) => RestQuiet(s, e);
      case ApprovalRequest(_, _, _, _, _) => RestQuiet(s, e);
      case CompactionStart(_, _, _, _) => RestQuiet(s, e);
      case _ =>
    }
  }

  lemma ClosedQuiet(items: seq<ViewItem>, rows: seq<nat>)
    ensures Quiet(items, ClosedAt(items, rows))
  {
  }

  lemma InterruptedQuiet(items: seq<ViewItem>, rows: set<nat>)
    ensures Quiet(items, InterruptedAt(items, rows))
  {
  }

  lemma EndDraftQuiet(s: State)
    ensures var r := EndDraft(s); Quiet(s.items, r.items) && r.draft.None? && r.toolItems == s.toolItems
  {
    hide Quiet;
    QuietSame(s.items);
    if s.draft.Some? { QuietSet(s.items, s.draft.value, Stopped(s.items[s.draft.value])); }
  }

  lemma LeaveTurnQuiet(s: State, id: Option<string>)
    ensures Aside(s, LeaveTurn(s, id))
  {
    hide Quiet, ClosedAt;
    QuietSame(s.items);
    var closing := if Named(id) then id else s.openTurnId;
    if closing.Some? {
      ClosedQuiet(s.items, if closing.value in s.turnAssistants then s.turnAssistants[closing.value] else []);
    }
  }

  lemma ChildrenQuiet(s: State)
    ensures Aside(s, InterruptChildren(s))
  {
    hide Quiet, InterruptedAt;
    InterruptedQuiet(s.items, s.delegations.Values);
  }

  lemma TurnEndQuiet(s: State, id: Option<string>, reason: Option<string>)
    ensures var r := OnTurnEnd(s, id, reason); Quiet(s.items, r.items) && r.draft.None? && r.toolItems == s.toolItems
  {
    var s1 := EndDraft(s);
    var s2 := LeaveTurn(s1, id);
    var s3 := InterruptChildren(s2);
    var row := if reason.Some? then Some(Status(reason.value, None)) else None;
    EndDraftQuiet(s);
    LeaveTurnQuiet(s1, id);
    ChildrenQuiet(s2);
    AddIfQuiet(s3, row);
    hide Quiet, WellFormed, EndDraft, LeaveTurn, InterruptChildren, AddIf;
    QuietTwice(s.items, s1.items, s2.items);
    QuietTwice(s.items, s2.items, s3.items);
    QuietTwice(s.items, s3.items, AddIf(s3, row).items);
  }

  // ---------- the streaming answer ----------

  /** The draft, if any, reads as these deltas. */
  ghost predicate DraftReads(s: Proj, said: seq<string>, thought: seq<string>) {
    && (s.draft.Some? <==> said != [] || thought != [])
    && (s.draft.Some? ==>
          && s.draft.value < |s.items| && s.items[s.draft.value].Assistant?
          && s.items[s.draft.value].text == Text(said) && s.items[s.draft.value].thinking == thought)
  }

  lemma AsideReads(s: Proj, r: Proj, said: seq<string>, thought: seq<string>)
    requires Aside(s, r) && DraftReads(s, said, thought)
    ensures DraftReads(r, said, thought)
  {
    if s.draft.Some? { assert RowQuiet(s.items[s.draft.value], r.items[s.draft.value]); }
  }

  /** Tool rows are untouched, and no new one appears. */
  ghost predicate ToolsSame(a: seq<ViewItem>, b: seq<ViewItem>) {
    && |a| <= |b|
    && (forall i | 0 <= i < |a| && (a[i].Tool? || b[i].Tool?) :: b[i] == a[i])
    && (forall i | |a| <= i < |b| :: !b[i].Tool?)
  }

  lemma ToolsAdd(items: seq<ViewItem>, row: ViewItem)
    requires !row.Tool?
    ensures ToolsSame(items, items + [row])
  {
  }

  lemma ToolsSet(items: seq<ViewItem>, at: nat, row: ViewItem)
    requires at < |items| && !items[at].Tool? && !row.Tool?
    ensures ToolsSame(items, items[at := row])
  {
  }

  lemma OpenDraftMeans(s: State, ts: Option<nat>)
    requires OneDraft(s.items, s.draft)
    ensures var r := OpenDraft(s, ts);
      && r.draft.Some? && r.draft.value < |r.items| && r.items[r.draft.value].Assistant?
      && r.toolItems == s.toolItems && ToolsSame(s.items, r.items)
      && (if s.draft.Some? then r == s else r.items[r.draft.value].text == "" && r.items[r.draft.value].thinking == [])
  {
    hide AddAnswer, WellFormed;
    if s.draft.None? {
      var row := Answer("", ts, true, None, None, s.openTurnId);
      AddAnswerFields(s, row);
      ToolsAdd(s.items, row);
    }
  }

  lemma ChunkReads(s: State, ts: Option<nat>, delta: Option<string>, thinking: bool, said: seq<string>,
                   thought: seq<string>)
    requires OneDraft(s.items, s.draft) && DraftReads(s, said, thought)
    ensures var r := OnChunk(s, ts, delta, thinking);
      && r.toolItems == s.toolItems && ToolsSame(s.items, r.items)
      && DraftReads(r,
           if delta.Some? && !thinking then said + [delta.value] else said,
           if delta.Some? && thinking then thought + [delta.value] else thought)
  {
    hide WellFormed, OpenDraft, OneDraft, Text;
    if delta.Some? {
      OpenDraftMeans(s, ts);
      TextSnoc(said, delta.value);
      NoText();
    }
  }

  lemma NoText()
    ensures Text([]) == ""
  {
  }

  lemma MessageReads(s: State, ts: Option<nat>, content: Option<string>, toolCalls: Option<seq<ToolCall>>,
                     controls: Option<Controls>)
    requires OneDraft(s.items, s.draft)
    ensures var r := OnMessage(s, ts, content, toolCalls, controls);
      && r.draft.None? && r.toolItems == s.toolItems && ToolsSame(s.items, r.items)
      && (content.Some? && content.value != "" ==>
            var at := if s.draft.Some? then s.draft.value else |s.items|;
            at < |r.items| && r.items[at].Assistant? && !r.items[at].live && r.items[at].text == content.value)
  {
    hide AddAnswer, ToolsSame, WellFormed;
    var text := OrElse(content, "");
    if s.draft.Some? {
      ToolsSet(s.items, s.draft.value, Finished(s.items[s.draft.value], text, toolCalls, controls));
    } else if text != "" || toolCalls.Some? {
      var row := Answer(text, ts, false, toolCalls, controls, s.openTurnId);
      AddAnswerFields(s, row);
      ToolsAdd(s.items, row);
    } else {
      ToolsNothing(s.items);
    }
  }

  lemma ToolsNothing(items: seq<ViewItem>)
    ensures ToolsSame(items, items)
  {
  }

  lemma QuietTools(a: seq<ViewItem>, b: seq<ViewItem>)
    requires Quiet(a, b)
    ensures ToolsSame(a, b)
  {
    forall i | 0 <= i < |a| && (a[i].Tool? || b[i].Tool?) ensures b[i] == a[i] { assert RowQuiet(a[i], b[i]); }
  }

  lemma ReadsNothing(s: Proj)
    requires s.draft.None?
    ensures DraftReads(s, [], [])
  {
  }

  /**
   * The live answer reads exactly as what was streamed since the last answer ended, and there is one exactly
   * when something was.
   */
  lemma {:induction false} AnswerStreams(es: seq<Event>)
    ensures DraftReads(Project(es), Streaming(es, false), Streaming(es, true))
  {
    hide DraftReads, Aside, Quiet, Handle, Interrupt, OnChunk, OnMessage, OnTurnEnd, WellFormed, ToolsSame, Tidy;
    hide Good, OneDraft;
    if es == [] {
      ReadsNothing(Project(es));
    } else {
      var front, e := es[..|es| - 1], es[|es| - 1];
      assert es == front + [e];
      AnswerStreams(front);
      TranscriptTidy(front);
      var s := Project(front);
      AfterInterrupt(s, e);
      var t := Interrupt(s, e);
      FoldSnoc<State>(Step, Empty, front, e);
      assert Project(es) == Handle(t, e);
      StreamingSnoc(front, e, false);
      StreamingSnoc(front, e, true);
      AsideReads(s, t, Streaming(front, false), Streaming(front, true));
      HandleReads(t, e, Streaming(front, false), Streaming(front, true));
    }
  }

  lemma AfterInterrupt(s: State, e: Event)
    requires Tidy(s)
    ensures Aside(s, Interrupt(s, e)) && Tidy(Interrupt(s, e))
  {
    hide Aside, Interrupt, WellFormed, Quiet, Tidy;
    InterruptQuiet(s, e);
    InterruptGood(s, e);
  }

  lemma HandleReads(s: State, e: Event, said: seq<string>, thought: seq<string>)
    requires Tidy(s) && DraftReads(s, said, thought)
    ensures DraftReads(Handle(s, e),
      if EndsAnswer(e) then []
      else said + (if e.AssistantChunk? && e.delta.Some? && !e.thinking then [e.delta.value] else []),
      if EndsAnswer(e) then []
      else thought + (if e.AssistantChunk? && e.delta.Some? && e.thinking then [e.delta.value] else []))
  {
    hide DraftReads, Aside, OnChunk, OnMessage, OnTurnEnd, OnCall, OnResult, WellFormed, ToolsSame, OneDraft, Quiet;
    hide OneCompaction, Queue, Calls, Children, Markers, OpenListed, ListsAnswers;
    assert said + [] == said && thought + [] == thought;
    match e {
      case AssistantChunk(_, ts, _, delta, thinking) => ChunkReads(s, ts, delta, thinking, said, thought);
      case AssistantMessage(_, ts, _, content, toolCalls, controls) =>
        MessageReads(s, ts, content, toolCalls, controls);
        ReadsNothing(Handle(s, e));
      case TurnEnd(_, _, id, reason) =>
        TurnEndQuiet(s, id, reason);
        ReadsNothing(Handle(s, e));
      case CallMade(_, ts, call) => CallReads(s, ts, call, said, thought);
      case CallDone(_, _, _, _, _, _, _, _) => ResultReads(s, e, said, thought);
      case _ =>
        HandleQuiet(s, e);
        AsideReads(s, Handle(s, e), said, thought);
    }
  }

  lemma CallReads(s: State, ts: Option<nat>, call: Option<ToolCall>, said: seq<string>, thought: seq<string>)
    requires DraftReads(s, said, thought)
    ensures DraftReads(OnCall(s, ts, call), said, thought)
  {
    hide WellFormed, Text;
  }

  lemma ResultReads(s: State, e: Event, said: seq<string>, thought: seq<string>)
    requires e.CallDone? && DraftReads(s, said, thought)
    ensures DraftReads(OnResult(s, e), said, thought)
  {
    hide Text;
  }

  // ---------- a finished answer ----------

  /** A durable message with text is an answer in the transcript, word for word, from then on. */
  lemma MessageStays(es: seq<Event>, e: Event, later: seq<Event>) returns (at: nat)
    requires e.AssistantMessage? && e.content.Some? && e.content.value != ""
    ensures var items := ProjectItems(es + [e] + later);
      at < |items| && items[at].Assistant? && !items[at].live && items[at].text == e.content.value
  {
    hide Aside, Interrupt, OnMessage, WellFormed, ToolsSame, Tidy, Quiet, OneDraft;
    TranscriptTidy(es);
    var s := Project(es);
    AfterInterrupt(s, e);
    var t := Interrupt(s, e);
    DraftOf(t);
    MessageReads(t, e.ts, e.content, e.toolCalls, e.controls);
    FoldSnoc<State>(Step, Empty, es, e);
    at := if t.draft.Some? then t.draft.value else |t.items|;
    TranscriptStable(es + [e], later);
    assert Evolves(ProjectItems(es + [e])[at], ProjectItems(es + [e] + later)[at]);
  }

  lemma DraftOf(s: Proj)
    requires Tidy(s)
    ensures OneDraft(s.items, s.draft) && Calls(s.items, s.toolItems)
  {
  }

  // ---------- tool rows ----------

  function ToolCalls(items: seq<ViewItem>): seq<ToolCall> {
    if items == [] then []
    else ToolCalls(items[..|items| - 1]) + if items[|items| - 1].Tool? then [items[|items| - 1].call] else []
  }

  function CallsMade(es: seq<Event>): seq<ToolCall> {
    if es == [] then []
    else
      CallsMade(es[..|es| - 1])
      + if es[|es| - 1].CallMade? && es[|es| - 1].call.Some? then [es[|es| - 1].call.value] else []
  }

  /** Same calls in the same places. */
  ghost predicate CallsAlike(a: seq<ViewItem>, b: seq<ViewItem>) {
    && |a| <= |b|
    && (forall i | 0 <= i < |a| :: (a[i].Tool? <==> b[i].Tool?) && (a[i].Tool? ==> b[i].call == a[i].call))
    && (forall i | |a| <= i < |b| :: !b[i].Tool?)
  }

  lemma {:induction false} AlikeCalls(a: seq<ViewItem>, b: seq<ViewItem>)
    requires CallsAlike(a, b)
    ensures ToolCalls(b) == ToolCalls(a)
    decreases |a| + |b|
  {
    if |b| > |a| {
      AlikeCalls(a, b[..|b| - 1]);
    } else if a != [] {
      AlikeCalls(a[..|a| - 1], b[..|b| - 1]);
    }
  }

  /** Every tool row's call id is named, by its latest row. */
  ghost predicate LatestNamed(items: seq<ViewItem>, names: map<string, nat>) {
    forall i | 0 <= i < |items| && items[i].Tool? :: items[i].call.id in names && i <= names[items[i].call.id]
  }

  lemma AlikeNamed(a: seq<ViewItem>, b: seq<ViewItem>, names: map<string, nat>)
    requires CallsAlike(a, b) && LatestNamed(a, names)
    ensures LatestNamed(b, names)
  {
  }

  lemma SameAlike(a: seq<ViewItem>, b: seq<ViewItem>)
    requires ToolsSame(a, b)
    ensures CallsAlike(a, b)
  {
    forall i | 0 <= i < |a| ensures (a[i].Tool? <==> b[i].Tool?) && (a[i].Tool? ==> b[i].call == a[i].call) {
      if a[i].Tool? || b[i].Tool? { assert b[i] == a[i]; }
    }
  }

  /** Anything but a call and its result leaves the tool rows alone. */
  lemma HandleTools(s: State, e: Event)
    requires Tidy(s) && !e.CallMade? && !e.CallDone?
    ensures var r := Handle(s, e); ToolsSame(s.items, r.items) && r.toolItems == s.toolItems
  {
    hide Aside, OnChunk, OnMessage, OnTurnEnd, OnCall, OnResult, WellFormed, ToolsSame, OneDraft, Quiet, Tidy;
    DraftOf(s);
    match e {
      case AssistantChunk(_, ts, _, delta, thinking) => ChunkTools(s, ts, delta, thinking);
      case AssistantMessage(_, ts, _, content, toolCalls, controls) =>
        MessageReads(s, ts, content, toolCalls, controls);
      case TurnEnd(_, _, id, reason) =>
        TurnEndQuiet(s, id, reason);
        QuietTools(s.items, OnTurnEnd(s, id, reason).items);
      case _ =>
        HandleQuiet(s, e);
        AsideTools(s, Handle(s, e));
    }
  }

  lemma AsideTools(s: Proj, r: Proj)
    requires Aside(s, r)
    ensures ToolsSame(s.items, r.items) && r.toolItems == s.toolItems
  {
    QuietTools(s.items, r.items);
  }

  lemma ChunkTools(s: State, ts: Option<nat>, delta: Option<string>, thinking: bool)
    requires OneDraft(s.items, s.draft)
    ensures var r := OnChunk(s, ts, delta, thinking); ToolsSame(s.items, r.items) && r.toolItems == s.toolItems
  {
    hide WellFormed, OpenDraft, OneDraft;
    if delta.Some? {
      OpenDraftMeans(s, ts);
    }
  }

  /** A result changes the named row's outcome and no call. */
  lemma ResultMeans(s: State, e: Event)
    requires e.CallDone? && Calls(s.items, s.toolItems)
    ensures var r := OnResult(s, e);
      && r.toolItems == s.toolItems && CallsAlike(s.items, r.items) && |r.items| == |s.items|
      && (forall i | 0 <= i < |s.items|
          && !(e.callId.Some? && e.callId.value in s.toolItems && i == s.toolItems[e.callId.value]) ::
            r.items[i] == s.items[i])
      && (e.callId.Some? && e.callId.value in s.toolItems ==>
            var row := r.items[s.toolItems[e.callId.value]];
              row.Tool? && row.result == Some(ToolOutput(e.ok, OrElse(e.output, ""))))
  {
    hide WellFormed, Settle, CallsAlike;
    if e.callId.Some? && e.callId.value in s.toolItems {
      var at := s.toolItems[e.callId.value];
      assert CallRow(s.items[at], e.callId.value);
      SettleMeans(s.items[at], e);
      SetAlike(s.items, at, Settle(s.items[at], e));
    } else {
      SameAlike(s.items, s.items);
    }
  }

  lemma SettleMeans(row: ViewItem, e: Event)
    requires row.Tool? && e.CallDone?
    ensures var r := Settle(row, e);
      r.Tool? && r.call == row.call && r.result == Some(ToolOutput(e.ok, OrElse(e.output, "")))
  {
  }

  lemma SetAlike(items: seq<ViewItem>, at: nat, row: ViewItem)
    requires at < |items| && items[at].Tool? && row.Tool? && row.call == items[at].call
    ensures CallsAlike(items, items[at := row])
  {
  }

  /**
   * One event's effect on the tool rows: at most one more, for a call that was made; the latest row of each id
   * stays named.
   */
  lemma StepTools(s: State, e: Event)
    requires Tidy(s) && LatestNamed(s.items, s.toolItems)
    ensures var r := Step(s, e);
      && LatestNamed(r.items, r.toolItems)
      && ToolCalls(r.items) == ToolCalls(s.items) + if e.CallMade? && e.call.Some? then [e.call.value] else []
  {
    hide Aside, Handle, Interrupt, WellFormed, ToolsSame, Tidy, Quiet, LatestNamed, CallsAlike, ToolCalls, OneDraft;
    hide Calls;
    var t := Interrupt(s, e);
    AfterInterrupt(s, e);
    AsideTools(s, t);
    SameAlike(s.items, t.items);
    AlikeCalls(s.items, t.items);
    AlikeNamed(s.items, t.items, s.toolItems);
    var r := Handle(t, e);
    if e.CallMade? {
      CallMadeTools(t, e);
    } else if e.CallDone? {
      DraftOf(t);
      ResultMeans(t, e);
      ResultIs(t, e);
      AlikeCalls(t.items, r.items);
      AlikeNamed(t.items, r.items, t.toolItems);
    } else {
      HandleTools(t, e);
      SameAlike(t.items, r.items);
      AlikeCalls(t.items, r.items);
      AlikeNamed(t.items, r.items, t.toolItems);
    }
  }

  lemma ResultIs(s: State, e: Event)
    requires e.CallDone?
    ensures Handle(s, e) == OnResult(s, e)
  {
    hide OnResult, WellFormed;
  }

  lemma CallMadeTools(s: State, e: Event)
    requires e.CallMade? && LatestNamed(s.items, s.toolItems)
    ensures var r := Handle(s, e);
      && LatestNamed(r.items, r.toolItems)
      && ToolCalls(r.items) == ToolCalls(s.items) + if e.call.Some? then [e.call.value] else []
  {
    hide WellFormed, McpServerOf;
    if e.call.Some? {
      var r := Handle(s, e);
      assert r.items[..|s.items|] == s.items;
    }
  }

  lemma {:induction false} ToolsTracked(es: seq<Event>)
    ensures LatestNamed(Project(es).items, Project(es).toolItems) && ToolCalls(ProjectItems(es)) == CallsMade(es)
  {
    hide LatestNamed, ToolCalls, WellFormed, Step, Tidy;
    if es == [] {
      NoTools(Project(es));
    } else {
      var front, e := es[..|es| - 1], es[|es| - 1];
      assert es == front + [e];
      ToolsTracked(front);
      TranscriptTidy(front);
      FoldSnoc<State>(Step, Empty, front, e);
      StepTools(Project(front), e);
    }
  }

  lemma NoTools(s: Proj)
    requires s.items == []
    ensures LatestNamed(s.items, s.toolItems) && ToolCalls(s.items) == []
  {
  }

  /** The tool rows are the tool calls of the log, one row per call, in order. */
  lemma ToolRowsAreCalls(es: seq<Event>)
    ensures ToolCalls(ProjectItems(es)) == CallsMade(es)
  {
    ToolsTracked(es);
  }

  /** The row at `at` has this result; every other tool row is as it was. */
  ghost predicate ResultOn(before: seq<ViewItem>, after: seq<ViewItem>, at: nat, output: ToolOutput) {
    && |before| <= |after| && at < |before|
    && after[at].Tool? && after[at].result == Some(output)
    && forall i | 0 <= i < |before| && i != at && before[i].Tool? :: after[i] == before[i]
  }

  /** A result lands on the latest row of its call id, and on no other row. */
  lemma ResultLands(es: seq<Event>, e: Event, at: nat)
    requires e.CallDone? && at < |ProjectItems(es)| && ProjectItems(es)[at].Tool?
      && e.callId == Some(ProjectItems(es)[at].call.id)
    requires forall i | at < i < |ProjectItems(es)| && ProjectItems(es)[i].Tool? ::
      e.callId != Some(ProjectItems(es)[i].call.id)
    ensures ResultOn(ProjectItems(es), ProjectItems(es + [e]), at, ToolOutput(e.ok, OrElse(e.output, "")))
  {
    hide Aside, Handle, Interrupt, WellFormed, Tidy, Quiet, OneDraft, OnResult;
    ToolsTracked(es);
    TranscriptTidy(es);
    var s := Project(es);
    var t := Interrupt(s, e);
    AfterInterrupt(s, e);
    AsideTools(s, t);
    DraftOf(s);
    DraftOf(t);
    FoldSnoc<State>(Step, Empty, es, e);
    ResultIs(t, e);
    ResultMeans(t, e);
    var id := s.items[at].call.id;
    assert at <= s.toolItems[id];
    assert CallRow(s.items[s.toolItems[id]], id);
  }
}
