/**
 * The transcript a log stands for (web/lib/project.ts:163-552), as a plain fold:
 * rows are values, and the maps name rows by position. `Projector.dfy` proves the
 * in-place projector against it.
 */
module Projection {
  import opened Basics
  import opened Events

  datatype RetryInput = RetryInput(content: string, attachments: seq<string>)
  datatype RetryTarget = RetryTarget(key: nat, inputs: seq<RetryInput>, toolsRan: bool)
  datatype ToolOutput = ToolOutput(ok: bool, output: string)

  /** One transcript row. A flag that is absent reads as false. */
  datatype ViewItem =
    | User(content: string, ts: Option<nat>, attachments: seq<string>, queued: bool, inputId: Option<string>,
           steer: bool, notSent: Option<string>)
    | Assistant(text: string, ts: Option<nat>, live: bool, thinking: seq<string>, thinkingLive: bool,
                toolCalls: Option<seq<ToolCall>>, controls: Option<Controls>, turnId: Option<string>, turnOpen: bool)
    | Tool(call: ToolCall, ts: Option<nat>, doneAt: Option<nat>, result: Option<ToolOutput>, recovered: bool,
           server: Option<string>, mcpOutcome: Option<string>, invocationId: Option<string>)
    | Delegation(childSessionId: string, definition: string, brief: string, ts: Option<nat>, outcome: string)
    | Audit(ts: Option<nat>, icon: string, text: string, durationMs: Option<nat>)
    | Status(reason: string, retry: Option<RetryTarget>)
    | Compacting(ts: Option<nat>, status: string, trigger: Option<string>, model: Option<string>,
                 coversSeq: Option<nat>, summaryChars: Option<nat>, tookMs: Option<nat>, summary: Option<string>,
                 error: Option<string>)
    | Context(ts: Option<nat>, manifest: string, requests: nat)

  datatype Proj = Proj(
    items: seq<ViewItem>,
    toolItems: map<string, nat>,
    queuedUsers: map<string, nat>,
    delegations: map<string, nat>,
    approvals: map<string, ToolCall>,
    draft: Option<nat>,
    openTurnId: Option<string>,
    turnAssistants: map<string, seq<nat>>,
    turnContexts: map<string, nat>,
    openCompaction: Option<nat>,
    acceptedInputs: map<string, RetryInput>,
    turn: TurnInputs)

  /** The open turn's own inputs, and whether it recorded a tool call. */
  datatype TurnInputs = TurnInputs(inputs: seq<RetryInput>, legacy: seq<RetryInput>, ids: set<string>, toolsRan: bool)

  const NoInputs := TurnInputs([], [], {}, false)
  const NoRows := Proj([], map[], map[], map[], map[], None, None, map[], map[], None, map[], NoInputs)

  ghost predicate InRange(names: map<string, nat>, n: nat) {
    forall k | k in names :: names[k] < n
  }

  ghost predicate AllInRange(names: map<string, seq<nat>>, n: nat) {
    forall k, i | k in names && 0 <= i < |names[k]| :: names[k][i] < n
  }

  predicate OneInRange(at: Option<nat>, n: nat) {
    at.Some? ==> at.value < n
  }

  /** Every name points at a row. */
  ghost predicate WellFormed(s: Proj) {
    && InRange(s.toolItems, |s.items|)
    && InRange(s.queuedUsers, |s.items|)
    && InRange(s.delegations, |s.items|)
    && InRange(s.turnContexts, |s.items|)
    && AllInRange(s.turnAssistants, |s.items|)
    && OneInRange(s.draft, |s.items|)
    && OneInRange(s.openCompaction, |s.items|)
  }

  type State = s: Proj | WellFormed(s) ghost witness NoRows

  const Empty: State := NoRows

  // ---------- small helpers of the source ----------

  function IndexOf(s: string, needle: string): (at: Option<nat>)
    ensures at.Some? ==> at.value <= |s| && needle <= s[at.value..]
  {
    if needle <= s then Some(0)
    else if s == "" then None
    else match IndexOf(s[1..], needle) case Some(i) => Some(i + 1) case None => None
  }

  function McpServerOf(name: string): Option<string> {
    if !StartsWith(name, "mcp__") then None
    else
      var rest := name[5..];
      match IndexOf(rest, "__")
      case Some(at) => if at > 0 then Some(rest[..at]) else None
      case None => None
  }

  function ToolTarget(args: seq<Arg>): string {
    if args == [] then ""
    else if args[0].value.Text? && args[0].value.text != "" then args[0].value.text
    else ToolTarget(args[1..])
  }

  function RetryOf(content: Option<string>, attachments: seq<string>): RetryInput {
    RetryInput(OrElse(content, ""), attachments)
  }

  const MCP_OUTCOMES: set<string> := {"success", "error", "indeterminate", "audit_fault"}
  const CHILD_STATUSES: set<string> := {"completed", "failed", "cancelled", "interrupted"}
  const Dot := " \U{00B7} "

  // ---------- rows ----------

  function AddRow(s: State, row: ViewItem): (r: State) {
    s.(items := s.items + [row])
  }

  function SetRow(s: State, at: nat, row: ViewItem): (r: State)
    requires at < |s.items|
  {
    s.(items := s.items[at := row])
  }

  predicate Compressing(row: ViewItem) {
    row.Compacting? && row.status == "running"
  }

  /** The open compaction loses its running label once the log moves past it. */
  function Interrupt(s: State, e: Event): (r: State) {
    if s.openCompaction.Some? && Compressing(s.items[s.openCompaction.value]) && !e.CompactionEnd? then
      SetRow(s, s.openCompaction.value, s.items[s.openCompaction.value].(status := "interrupted"))
    else s
  }

  // ---------- inputs ----------

  /** A claimed input joins its turn once; an accepted one keeps what the user typed. */
  function ClaimMessage(s: State, content: Option<string>, inputId: Option<string>,
                        attachments: seq<string>): (r: State)
    ensures r == s.(turn := r.turn)
  {
    var own := RetryOf(content, attachments);
    if Named(inputId) then
      if inputId.value in s.turn.ids then s
      else s.(turn := s.turn.(
          ids := s.turn.ids + {inputId.value},
          inputs := s.turn.inputs
            + [if inputId.value in s.acceptedInputs then s.acceptedInputs[inputId.value] else own]))
    else s.(turn := s.turn.(legacy := s.turn.legacy + [own]))
  }

  /** The bubble stops waiting, at the same place; a refused input says so. */
  function Unqueued(row: ViewItem, outcome: Option<string>): ViewItem {
    if !row.User? then row
    else row.(queued := false, inputId := None, steer := false,
              notSent := if outcome == Some("rejected") || outcome == Some("empty") then outcome else row.notSent)
  }

  function OnUserMessage(s: State, ts: Option<nat>, content: Option<string>, inputId: Option<string>,
                         attachments: seq<string>): (r: State) {
    if content.None? then s
    else
      var s1 := ClaimMessage(s, content, inputId, attachments);
      if Named(inputId) && inputId.value in s1.queuedUsers then
        var at := s1.queuedUsers[inputId.value];
        var s2 := SetRow(s1, at, Unqueued(s1.items[at], None));
        s2.(queuedUsers := s2.queuedUsers - {inputId.value})
      else AddRow(s1, User(content.value, ts, attachments, false, None, false, None))
  }

  function OnInputQueued(s: State, ts: Option<nat>, content: Option<string>, inputId: Option<string>,
                         attachments: seq<string>, steer: bool): (r: State) {
    if !Named(inputId) || content.None? then s
    else
      var s1 := AddRow(s, User(content.value, ts, attachments, true, inputId, steer, None));
      s1.(acceptedInputs := s.acceptedInputs[inputId.value := RetryOf(content, attachments)],
          queuedUsers := s.queuedUsers[inputId.value := |s.items|])
  }

  function ClaimSettled(s: State, id: string): (r: State)
    ensures r == s.(turn := r.turn)
  {
    if id !in s.turn.ids && id in s.acceptedInputs then
      s.(turn := s.turn.(ids := s.turn.ids + {id}, inputs := s.turn.inputs + [s.acceptedInputs[id]]))
    else s
  }

  function OnInputSettled(s: State, inputId: Option<string>, outcome: Option<string>): (r: State) {
    if !Named(inputId) then s
    else
      var s1 := ClaimSettled(s, inputId.value);
      if inputId.value !in s1.queuedUsers then s1
      else
        var at := s1.queuedUsers[inputId.value];
        var s2 := SetRow(s1, at, Unqueued(s1.items[at], outcome));
        s2.(queuedUsers := s2.queuedUsers - {inputId.value})
  }

  // ---------- answers ----------

  /** An answer of the open turn, if one is open. */
  function Answer(text: string, ts: Option<nat>, live: bool, toolCalls: Option<seq<ToolCall>>,
                  controls: Option<Controls>, turnId: Option<string>): (r: ViewItem)
    ensures r.Assistant?
  {
    Assistant(text, ts, live, [], false, toolCalls, controls, turnId, turnId.Some?)
  }

  function Track(s: State, at: nat): (r: State)
    requires at < |s.items|
  {
    var id := if s.items[at].Assistant? then s.items[at].turnId else None;
    if id.None? then s
    else
      var tracked := if id.value in s.turnAssistants then s.turnAssistants[id.value] else [];
      s.(turnAssistants := s.turnAssistants[id.value := tracked + [at]])
  }

  /** A new answer is listed under its turn; a live one is the draft. */
  function AddAnswer(s: State, row: ViewItem): (r: State)
    requires row.Assistant?
    ensures r.draft == if row.live then Some(|s.items|) else s.draft
  {
    var s1 := AddRow(s, row);
    var s2 := if row.live then s1.(draft := Some(|s.items|)) else s1;
    Track(s2, |s.items|)
  }

  function OpenDraft(s: State, ts: Option<nat>): (r: State)
    ensures r.draft.Some?
  {
    if s.draft.Some? then s else AddAnswer(s, Answer("", ts, true, None, None, s.openTurnId))
  }

  function Streamed(row: ViewItem, delta: string, thinking: bool): ViewItem {
    if !row.Assistant? then row
    else if thinking then row.(thinking := row.thinking + [delta], thinkingLive := true)
    else row.(text := row.text + delta, thinkingLive := false)
  }

  /** The durable message closes the draft; its text wins when it has one. */
  function Finished(row: ViewItem, text: string, toolCalls: Option<seq<ToolCall>>,
                    controls: Option<Controls>): ViewItem {
    if !row.Assistant? then row
    else row.(text := if text != "" then text else row.text, live := false, thinkingLive := false,
              toolCalls := Later(toolCalls, row.toolCalls), controls := Later(controls, row.controls))
  }

  function OnChunk(s: State, ts: Option<nat>, delta: Option<string>, thinking: bool): (r: State) {
    if delta.None? then s
    else
      var s1 := OpenDraft(s, ts);
      SetRow(s1, s1.draft.value, Streamed(s1.items[s1.draft.value], delta.value, thinking))
  }

  function OnMessage(s: State, ts: Option<nat>, content: Option<string>, toolCalls: Option<seq<ToolCall>>,
                     controls: Option<Controls>): (r: State) {
    var text := OrElse(content, "");
    if s.draft.Some? then
      var s1 := SetRow(s, s.draft.value, Finished(s.items[s.draft.value], text, toolCalls, controls));
      s1.(draft := None)
    else if text != "" || toolCalls.Some? then
      AddAnswer(s, Answer(text, ts, false, toolCalls, controls, s.openTurnId))
    else s
  }

  // ---------- tools, approvals, hooks ----------

  function OnCall(s: State, ts: Option<nat>, call: Option<ToolCall>): (r: State) {
    if call.None? then s
    else
      var s1 := AddRow(s, Tool(call.value, ts, None, None, false, McpServerOf(call.value.name), None, None));
      s1.(toolItems := s.toolItems[call.value.id := |s.items|], turn := s.turn.(toolsRan := true))
  }

  function Settle(row: ViewItem, e: Event): (r: ViewItem)
    requires e.CallDone?
  {
    if !row.Tool? then row
    else row.(result := Some(ToolOutput(e.ok, OrElse(e.output, ""))), doneAt := Later(e.ts, row.doneAt),
         recovered := row.recovered || e.recovery,
         mcpOutcome := if e.outcome.Some? && e.outcome.value in MCP_OUTCOMES then e.outcome else row.mcpOutcome,
         invocationId := Later(e.invocationId, row.invocationId))
  }

  function OnResult(s: State, e: Event): (r: State)
    requires e.CallDone?
  {
    if e.callId.None? || e.callId.value !in s.toolItems then s
    else
      var at := s.toolItems[e.callId.value];
      SetRow(s, at, Settle(s.items[at], e))
  }

  function OnApprovalRequest(s: State, id: Option<string>, call: Option<ToolCall>): (r: State) {
    if id.Some? && call.Some? then s.(approvals := s.approvals[id.value := call.value]) else s
  }

  function DecisionText(decision: string, call: Option<ToolCall>): string {
    var target := if call.Some? then ToolTarget(call.value.args) else "";
    (if decision == "allow" then "Allowed" else "Denied") + Dot
    + (if call.Some? then call.value.name else "unknown tool") + (if target != "" then Dot + target else "")
  }

  function DecisionRow(approvals: map<string, ToolCall>, ts: Option<nat>, id: Option<string>,
                       decision: Option<string>): Option<ViewItem> {
    var d := OrElse(decision, "");
    if d == "allow" || d == "deny" then
      var call := if id.Some? && id.value in approvals then Some(approvals[id.value]) else None;
      Some(Audit(ts, d, DecisionText(d, call), None))
    else if d == "expired" then Some(Audit(ts, "expired", "Expired" + Dot + "no decision recorded", None))
    else if d == "cancelled" then Some(Audit(ts, "expired", "Cancelled" + Dot + "no decision recorded", None))
    else if d == "invalidated" then Some(Audit(ts, "expired", "Invalidated" + Dot + "no decision recorded", None))
    else None
  }

  function HookRow(e: Event): Option<ViewItem>
    requires e.HookRun?
  {
    var d := OrElse(e.decision, "");
    var what := OrElse(e.hook, "hook") + Dot + OrElse(e.matcher, "");
    if d == "block" then Some(Audit(e.ts, "block", "hook blocked" + Dot + what, e.durationMs))
    else if StartsWith(d, "failure:")
      then Some(Audit(e.ts, "fail", "hook failed" + Dot + what + " (" + d[8..] + ")", e.durationMs))
    else None
  }

  function AddIf(s: State, row: Option<ViewItem>): (r: State) {
    if row.Some? then AddRow(s, row.value) else s
  }

  // ---------- children, context, compaction ----------

  function Spawn(s: State, ts: Option<nat>, id: string, definition: Option<string>, brief: Option<string>,
                 objective: Option<string>): (r: State) {
    var s1 := AddRow(s, Delegation(id, OrElse(definition, ""), OrElse(Later(brief, objective), ""), ts, "running"));
    s1.(delegations := s.delegations[id := |s.items|])
  }

  function Ended(row: ViewItem, outcome: string): ViewItem {
    if row.Delegation? then row.(outcome := outcome) else row
  }

  function OnChildResult(s: State, e: Event): (r: State)
    requires e.ChildResult?
  {
    if e.childSessionId.None? then s
    else
      var id := e.childSessionId.value;
      var s1 := if id in s.delegations then s else Spawn(s, e.ts, id, e.definition, e.brief, e.objective);
      if e.status.Some? && e.status.value in CHILD_STATUSES then
        SetRow(s1, s1.delegations[id], Ended(s1.items[s1.delegations[id]], e.status.value))
      else s1
  }

  function Refreshed(row: ViewItem, manifest: string): ViewItem {
    if row.Context? then row.(manifest := manifest, requests := row.requests + 1) else row
  }

  function OnManifest(s: State, ts: Option<nat>, manifest: Option<string>): (r: State) {
    if manifest.None? then s
    else
      var key := OrElse(s.openTurnId, "turnless");
      if key in s.turnContexts then
        var at := s.turnContexts[key];
        SetRow(s, at, Refreshed(s.items[at], manifest.value))
      else
        var s1 := AddRow(s, Context(ts, manifest.value, 1));
        s1.(turnContexts := s.turnContexts[key := |s.items|])
  }

  function OnCompactionStart(s: State, ts: Option<nat>, trigger: Option<string>, model: Option<string>): (r: State) {
    var s1 := AddRow(s, Compacting(ts, "running", trigger, model, None, None, None, None, None));
    s1.(openCompaction := Some(|s.items|))
  }

  function Patch(row: ViewItem, e: Event): (r: ViewItem)
    requires e.CompactionEnd?
  {
    if !row.Compacting? then row
    else row.(status := if e.error.Some? then "failed" else "completed",
         trigger := Later(e.trigger, row.trigger), model := Later(e.model, row.model),
         coversSeq := Later(e.coversSeq, row.coversSeq), summaryChars := Later(e.summaryChars, row.summaryChars),
         tookMs := Later(e.durationMs, row.tookMs), summary := Later(e.summary, row.summary),
         error := Later(e.error, row.error))
  }

  function OnCompactionEnd(s: State, e: Event): (r: State)
    requires e.CompactionEnd?
  {
    if s.openCompaction.Some? then
      var s1 := SetRow(s, s.openCompaction.value, Patch(s.items[s.openCompaction.value], e));
      s1.(openCompaction := None)
    else AddRow(s, Patch(Compacting(e.ts, "running", None, None, None, None, None, None, None), e))
  }

  // ---------- turns ----------

  function OnTurnStart(s: State, id: Option<string>): (r: State) {
    s.(openTurnId := if Named(id) then id else s.openTurnId, turn := NoInputs)
  }

  function ErrorRow(turn: TurnInputs, e: Event): Option<ViewItem>
    requires e.TurnError?
  {
    if e.message.None? then None
    else
      var inputs := if turn.inputs != [] then turn.inputs else turn.legacy;
      Some(Status(OrElse(e.kind, "error") + ": " + e.message.value,
                  if inputs != [] && e.kind != Some("rejected")
                    then Some(RetryTarget(e.seqNo, inputs, turn.toolsRan)) else None))
  }

  function Stopped(row: ViewItem): ViewItem {
    if row.Assistant? then row.(live := false, thinkingLive := false) else row
  }

  function EndDraft(s: State): (r: State) {
    if s.draft.None? then s
    else
      var s1 := SetRow(s, s.draft.value, Stopped(s.items[s.draft.value]));
      s1.(draft := None)
  }

  function Closed(row: ViewItem): ViewItem {
    if row.Assistant? then row.(turnOpen := false) else row
  }

  function Interrupted(row: ViewItem): ViewItem {
    if row.Delegation? && row.outcome == "running" then row.(outcome := "interrupted") else row
  }

  /** Every answer of the closing turn loses its open mark. */
  function CloseTurn(s: State, id: string): (r: State) {
    var rows := if id in s.turnAssistants then s.turnAssistants[id] else [];
    var items := ClosedAt(s.items, rows);
    s.(items := items, turnAssistants := s.turnAssistants - {id}, turnContexts := s.turnContexts - {id})
  }

  function ClosedAt(items: seq<ViewItem>, rows: seq<nat>): (r: seq<ViewItem>)
    ensures |r| == |items|
  {
    seq(|items|, i requires 0 <= i < |items| => if i in rows then Closed(items[i]) else items[i])
  }

  function InterruptedAt(items: seq<ViewItem>, rows: set<nat>): (r: seq<ViewItem>)
    ensures |r| == |items|
  {
    seq(|items|, i requires 0 <= i < |items| => if i in rows then Interrupted(items[i]) else items[i])
  }

  /** No known child is left running by a turn that ended. */
  function InterruptChildren(s: State): (r: State) {
    var items := InterruptedAt(s.items, s.delegations.Values);
    s.(items := items)
  }

  /** The named turn closes, or the open one. */
  function LeaveTurn(s: State, id: Option<string>): (r: State) {
    var closing := if Named(id) then id else s.openTurnId;
    var s1 := if closing.Some? then CloseTurn(s, closing.value) else s;
    s1.(openTurnId := None)
  }

  function OnTurnEnd(s: State, id: Option<string>, reason: Option<string>): (r: State) {
    AddIf(InterruptChildren(LeaveTurn(EndDraft(s), id)),
          if reason.Some? then Some(Status(reason.value, None)) else None)
  }

  // ---------- the fold ----------

  /** Turns, inputs and answers. */
  predicate IsConversation(e: Event) {
    || e.TurnStart? || e.TurnEnd? || e.TurnError? || e.UserMessage? || e.InputQueued? || e.InputSettled?
    || e.AssistantChunk? || e.AssistantMessage?
  }

  function Handle(s: State, e: Event): (r: State) {
    match e
    case TurnStart(_, _, id) => OnTurnStart(s, id)
    case TurnEnd(_, _, id, reason) => OnTurnEnd(s, id, reason)
    case TurnError(_, _, _, _) => AddIf(s, ErrorRow(s.turn, e))
    case UserMessage(_, ts, content, inputId, attachments) => OnUserMessage(s, ts, content, inputId, attachments)
    case InputQueued(_, ts, content, inputId, attachments, steer) =>
      OnInputQueued(s, ts, content, inputId, attachments, steer)
    case InputSettled(_, _, inputId, outcome) => OnInputSettled(s, inputId, outcome)
    case AssistantChunk(_, ts, _, delta, thinking) => OnChunk(s, ts, delta, thinking)
    case AssistantMessage(_, ts, _, content, toolCalls, controls) => OnMessage(s, ts, content, toolCalls, controls)
    case CallMade(_, ts, call) => OnCall(s, ts, call)
    case CallDone(_, _, _, _, _, _, _, _) => OnResult(s, e)
    case ApprovalRequest(_, _, id, call, _) => OnApprovalRequest(s, id, call)
    case ApprovalDecision(_, ts, id, decision) => AddIf(s, DecisionRow(s.approvals, ts, id, decision))
    case HookRun(_, _, _, _, _, _) => AddIf(s, HookRow(e))
    case ChildSpawn(_, ts, Some(id), definition, brief, objective) => Spawn(s, ts, id, definition, brief, objective)
    case ChildResult(_, _, _, _, _, _, _) => OnChildResult(s, e)
    case ContextManifest(_, ts, manifest) => OnManifest(s, ts, manifest)
    case CompactionStart(_, ts, trigger, model) => OnCompactionStart(s, ts, trigger, model)
    case CompactionEnd(_, _, _, _, _, _, _, _, _) => OnCompactionEnd(s, e)
    case _ => s
  }

  function Step(s: State, e: Event): (r: State) {
    Handle(Interrupt(s, e), e)
  }

  function Project(es: seq<Event>): State {
    Fold<State>(Step, Empty, es)
  }

  function ProjectItems(es: seq<Event>): seq<ViewItem> {
    Project(es).items
  }
}
