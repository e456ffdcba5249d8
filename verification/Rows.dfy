/**
 * The whole transcript, said of the log alone (web/lib/project.ts:163-541): which
 * events open a row, which later events speak to it, and what the row then shows.
 * `RowsRead` proves that the fold of `Projection.dfy` shows exactly these rows.
 */
module Rows {
  import opened Events
  import opened P = Projection
  import opened Transcript
  import opened Rendering
  import opened Turns

  // ---------- what is open where ----------

  /** An input is shown as a message, or settles. */
  predicate Frees(e: Event) {
    ((e.UserMessage? && e.content.Some?) || e.InputSettled?) && Named(e.inputId)
  }

  /** The last queueing of the input, if nothing has shown or settled it since. */
  function WaitingAt(es: seq<Event>, id: string): (at: Option<nat>)
    ensures at.Some? ==> at.value < |es| && Queues(es[at.value]) && es[at.value].inputId.value == id
  {
    if es == [] then None
    else
      var front, e := es[..|es| - 1], es[|es| - 1];
      if Queues(e) && e.inputId.value == id then Some(|front|)
      else if Frees(e) && e.inputId.value == id then None
      else WaitingAt(front, id)
  }

  /** The first delta since the last answer ended. */
  function DraftAt(es: seq<Event>): (at: Option<nat>)
    ensures at.Some? ==> at.value < |es| && es[at.value].AssistantChunk? && es[at.value].delta.Some?
  {
    if es == [] then None
    else
      var front, e := es[..|es| - 1], es[|es| - 1];
      if EndsAnswer(e) then None
      else if DraftAt(front).None? && e.AssistantChunk? && e.delta.Some? then Some(|front|)
      else DraftAt(front)
  }

  /** The latest call with this id. */
  function CallAt(es: seq<Event>, id: string): (at: Option<nat>)
    ensures at.Some? ==>
              at.value < |es| && es[at.value].CallMade? && es[at.value].call.Some? && es[at.value].call.value.id == id
  {
    if es == [] then None
    else
      var front, e := es[..|es| - 1], es[|es| - 1];
      if e.CallMade? && e.call.Some? && e.call.value.id == id then Some(|front|) else CallAt(front, id)
  }

  predicate OfChild(e: Event, id: string) {
    (e.ChildSpawn? || e.ChildResult?) && e.childSessionId == Some(id)
  }

  /** The child's latest spawn, or its first result when that came before any. */
  function ChildAt(es: seq<Event>, id: string): (at: Option<nat>)
    ensures at.Some? ==> at.value < |es| && OfChild(es[at.value], id)
  {
    if es == [] then None
    else
      var front, e := es[..|es| - 1], es[|es| - 1];
      if OfChild(e, id) && (e.ChildSpawn? || ChildAt(front, id).None?) then Some(|front|) else ChildAt(front, id)
  }

  /** The turn's end closes the turn it names, or the open one. */
  predicate Closes(es: seq<Event>, e: Event, id: string) {
    e.TurnEnd? && (if Named(e.turnId) then e.turnId else OpenTurn(es)) == Some(id)
  }

  /** A request's manifest belongs to the open turn. */
  function MarkerKey(es: seq<Event>): string {
    OrElse(OpenTurn(es), "turnless")
  }

  /** The first manifest under this key since a turn of that name was last closed. */
  function ManifestAt(es: seq<Event>, key: string): (at: Option<nat>)
    ensures at.Some? ==> at.value < |es| && es[at.value].ContextManifest? && es[at.value].manifest.Some?
  {
    if es == [] then None
    else
      var front, e := es[..|es| - 1], es[|es| - 1];
      if Closes(front, e, key) then None
      else if ManifestAt(front, key).None? && e.ContextManifest? && e.manifest.Some? && MarkerKey(front) == key
        then Some(|front|)
      else ManifestAt(front, key)
  }

  /** The last compaction started, if none has ended since. */
  function CompactionAt(es: seq<Event>): (at: Option<nat>)
    ensures at.Some? ==> at.value < |es| && es[at.value].CompactionStart?
  {
    if es == [] then None
    else
      var front, e := es[..|es| - 1], es[|es| - 1];
      if e.CompactionStart? then Some(|front|) else if e.CompactionEnd? then None else CompactionAt(front)
  }

  /** The call the approval was last requested for. */
  function AskedFor(es: seq<Event>, id: string): Option<ToolCall> {
    if es == [] then None
    else
      var front, e := es[..|es| - 1], es[|es| - 1];
      if e.ApprovalRequest? && e.approvalId == Some(id) && e.call.Some? then e.call else AskedFor(front, id)
  }

  // ---------- which events open a row ----------

  predicate Opens(es: seq<Event>, e: Event) {
    match e
    case UserMessage(_, _, content, id, _) => content.Some? && !(Named(id) && WaitingAt(es, id.value).Some?)
    case InputQueued(_, _, _, _, _, _) => Queues(e)
    case AssistantChunk(_, _, _, delta, _) => delta.Some? && DraftAt(es).None?
    case AssistantMessage(_, _, _, content, toolCalls, _) =>
      DraftAt(es).None? && (Named(content) || toolCalls.Some?)
    case CallMade(_, _, call) => call.Some?
    case TurnError(_, _, _, message) => message.Some?
    case TurnEnd(_, _, _, reason) => reason.Some?
    case ApprovalDecision(_, _, _, decision) =>
      decision.Some? && decision.value in {"allow", "deny", "expired", "cancelled", "invalidated"}
    case HookRun(_, _, decision, _, _, _) => decision.Some? && (decision.value == "block" || Failure(decision.value))
    case ChildSpawn(_, _, id, _, _, _) => id.Some?
    case ChildResult(_, _, id, _, _, _, _) => id.Some? && ChildAt(es, id.value).None?
    case ContextManifest(_, _, manifest) => manifest.Some? && ManifestAt(es, MarkerKey(es)).None?
    case CompactionStart(_, _, _, _) => true
    case CompactionEnd(_, _, _, _, _, _, _, _, _) => CompactionAt(es).None?
    case _ => false
  }

  predicate Failure(decision: string) {
    "failure:" <= decision
  }

  /** The events that open a row, in log order: one row each. */
  function Opened(es: seq<Event>): (at: seq<nat>)
    ensures |at| <= |es| && forall k | 0 <= k < |at| :: at[k] < |es|
  {
    if es == [] then []
    else
      var front, e := es[..|es| - 1], es[|es| - 1];
      Opened(front) + if Opens(front, e) then [|front|] else []
  }

  /** How many rows stand before the one the event at `i` opens. */
  function Rank(es: seq<Event>, i: nat): nat
    requires i <= |es|
  {
    |Opened(es[..i])|
  }

  lemma OpenedSnoc(es: seq<Event>, e: Event)
    ensures Opened(es + [e]) == Opened(es) + if Opens(es, e) then [|es|] else []
  {
    assert (es + [e])[..|es|] == es;
  }

  lemma RankSnoc(es: seq<Event>, e: Event, i: nat)
    requires i <= |es|
    ensures Rank(es + [e], i) == Rank(es, i)
  {
    assert (es + [e])[..i] == es[..i];
  }

  lemma RankAll(es: seq<Event>)
    ensures Rank(es, |es|) == |Opened(es)|
  {
    assert es[..|es|] == es;
  }

  lemma {:induction false} OpenedAt(es: seq<Event>, i: nat)
    requires i < |es| && Opens(es[..i], es[i])
    ensures Rank(es, i) < |Opened(es)| && Opened(es)[Rank(es, i)] == i
  {
    hide Opens;
    var front := es[..|es| - 1];
    if i < |front| {
      assert es[..i] == front[..i];
      OpenedAt(front, i);
    }
  }

  lemma {:induction false} OpenedOpens(es: seq<Event>, k: nat)
    requires k < |Opened(es)|
    ensures var i := Opened(es)[k]; Opens(es[..i], es[i]) && Rank(es, i) == k
  {
    hide Opens;
    var front := es[..|es| - 1];
    if k < |Opened(front)| {
      OpenedOpens(front, k);
      assert es[..Opened(front)[k]] == front[..Opened(front)[k]];
    }
  }

  // ---------- which later events speak to a row ----------

  const KnownEnds: set<string> := {"completed", "failed", "cancelled", "interrupted"}

  /** The event, arriving after `es`, speaks to the row opened at `i`. */
  predicate SpeaksTo(es: seq<Event>, e: Event, i: nat) {
    match e
    case UserMessage(_, _, content, id, _) => content.Some? && Named(id) && WaitingAt(es, id.value) == Some(i)
    case InputSettled(_, _, id, _) => Named(id) && WaitingAt(es, id.value) == Some(i)
    case AssistantChunk(_, _, _, delta, _) => delta.Some? && DraftAt(es) == Some(i)
    case AssistantMessage(_, _, _, _, _, _) => DraftAt(es) == Some(i)
    case CallDone(_, _, id, _, _, _, _, _) => id.Some? && CallAt(es, id.value) == Some(i)
    case ChildResult(_, _, id, _, _, _, status) =>
      id.Some? && status.Some? && status.value in KnownEnds && ChildAt(es, id.value) == Some(i)
    case ContextManifest(_, _, manifest) => manifest.Some? && ManifestAt(es, MarkerKey(es)) == Some(i)
    case CompactionEnd(_, _, _, _, _, _, _, _, _) => CompactionAt(es) == Some(i)
    case TurnEnd(_, _, _, _) => DraftAt(es) == Some(i) || Newest(es, i)
    case _ => false
  }

  /** The row opened at `i` is its child's newest. */
  predicate Newest(es: seq<Event>, i: nat) {
    && i < |es| && (es[i].ChildSpawn? || es[i].ChildResult?) && es[i].childSessionId.Some?
    && ChildAt(es, es[i].childSessionId.value) == Some(i)
  }

  predicate Fits(o: Event, e: Event) {
    match o
    case InputQueued(_, _, _, _, _, _) => e.UserMessage? || e.InputSettled?
    case AssistantChunk(_, _, _, _, _) => (e.AssistantChunk? && e.delta.Some?) || EndsAnswer(e)
    case CallMade(_, _, _) => e.CallDone?
    case ChildSpawn(_, _, _, _, _, _) => e.ChildResult? || e.TurnEnd?
    case ChildResult(_, _, _, _, _, _, _) => e.ChildResult? || e.TurnEnd?
    case ContextManifest(_, _, _) => e.ContextManifest? && e.manifest.Some?
    case CompactionStart(_, _, _, _) => e.CompactionEnd?
    case _ => false
  }

  lemma SpeakersFit(es: seq<Event>, e: Event, i: nat)
    requires SpeaksTo(es, e, i)
    ensures i < |es| && Fits(es[i], e)
  {
  }

  /** What was said to the row opened at `i`, in log order. */
  function Heard(es: seq<Event>, i: nat): (heard: seq<Event>)
    requires i < |es|
    ensures forall k | 0 <= k < |heard| :: Fits(es[i], heard[k])
    decreases |es|
  {
    if |es| == i + 1 then []
    else
      var front, e := es[..|es| - 1], es[|es| - 1];
      Heard(front, i) + if SpeaksTo(front, e, i) then (SpeakersFit(front, e, i); [e]) else []
  }

  lemma HeardSnoc(es: seq<Event>, e: Event, i: nat)
    requires i < |es|
    ensures Heard(es + [e], i) == if SpeaksTo(es, e, i) then Heard(es, i) + [e] else Heard(es, i)
  {
    hide SpeaksTo, Fits;
    assert (es + [e])[..|es|] == es;
  }

  // ---------- what a row shows ----------

  /** The last of these values that is there. */
  function Latest<T>(said: seq<Event>, part: Event -> Option<T>): Option<T> {
    if said == [] then None
    else Later(part(said[|said| - 1]), Latest(said[..|said| - 1], part))
  }

  lemma LatestSnoc<T>(said: seq<Event>, e: Event, part: Event -> Option<T>)
    ensures Latest(said + [e], part) == Later(part(e), Latest(said, part))
  {
    assert (said + [e])[..|said|] == said;
  }

  function When(e: Event): Option<nat> {
    e.ts
  }

  function McpOutcome(e: Event): Option<string> {
    if e.CallDone? && e.outcome.Some? && e.outcome.value in {"success", "error", "indeterminate", "audit_fault"}
    then e.outcome else None
  }

  function Invocation(e: Event): Option<string> {
    if e.CallDone? then e.invocationId else None
  }

  function Ending(e: Event): Option<string> {
    if e.ChildResult? && e.status.Some? && e.status.value in KnownEnds then e.status else None
  }

  /** The deltas of this sort, in order. */
  function Deltas(said: seq<Event>, thinking: bool): seq<string> {
    if said == [] then []
    else
      var e := said[|said| - 1];
      Deltas(said[..|said| - 1], thinking)
      + if e.AssistantChunk? && e.delta.Some? && e.thinking == thinking then [e.delta.value] else []
  }

  lemma DeltasSnoc(said: seq<Event>, e: Event, thinking: bool)
    ensures Deltas(said + [e], thinking) ==
      if e.AssistantChunk? && e.delta.Some? && e.thinking == thinking then Deltas(said, thinking) + [e.delta.value]
      else Deltas(said, thinking)
  {
    assert (said + [e])[..|said|] == said;
  }

  /** A turn of this name was closed after the event at `i`. */
  predicate ClosedSince(es: seq<Event>, i: nat, id: string) {
    |es| > i + 1 && (Closes(es[..|es| - 1], es[|es| - 1], id) || ClosedSince(es[..|es| - 1], i, id))
  }

  lemma ClosedSinceSnoc(es: seq<Event>, e: Event, i: nat, id: string)
    requires i < |es|
    ensures ClosedSince(es + [e], i, id) <==> Closes(es, e, id) || ClosedSince(es, i, id)
  {
    assert (es + [e])[..|es|] == es;
  }

  /** Opened by its first delta or by its message; the message's words win when it has any. */
  function AnswerRow(said: seq<Event>, turnId: Option<string>, closed: bool): ViewItem
    requires said != []
  {
    var last := said[|said| - 1];
    var live := last.AssistantChunk?;
    Assistant(
      if last.AssistantMessage? && Named(last.content) then last.content.value else Rendering.Text(Deltas(said, false)),
      said[0].ts, live, Deltas(said, true), live && last.thinking,
      if last.AssistantMessage? then last.toolCalls else None,
      if last.AssistantMessage? then last.controls else None,
      turnId, turnId.Some? && !closed)
  }

  function ToolRow(call: ToolCall, ts: Option<nat>, results: seq<Event>): ViewItem
    requires forall k | 0 <= k < |results| :: results[k].CallDone?
  {
    Tool(call, ts, Latest(results, When),
         if results == [] then None
         else Some(ToolOutput(results[|results| - 1].ok, OrElse(results[|results| - 1].output, ""))),
         exists k | 0 <= k < |results| :: results[k].recovery, McpServerOf(call.name), Latest(results, McpOutcome),
         Latest(results, Invocation))
  }

  /** The child's last known status; without one, a turn's end has interrupted it. */
  function ChildShown(o: Event, heard: seq<Event>): string {
    match Latest([o] + heard, Ending)
    case Some(status) => status
    case None => if heard == [] then "running" else "interrupted"
  }

  function ChildCard(o: Event, heard: seq<Event>): ViewItem
    requires (o.ChildSpawn? || o.ChildResult?) && o.childSessionId.Some?
  {
    var brief := if o.brief.Some? then o.brief.value else if o.objective.Some? then o.objective.value else "";
    Delegation(o.childSessionId.value, OrElse(o.definition, ""), brief, o.ts, ChildShown(o, heard))
  }

  /** What its end says of the compaction; until then it runs while the log stands still. */
  function CompactionRow(o: Event, heard: seq<Event>, newest: bool): ViewItem
    requires o.CompactionStart? || o.CompactionEnd?
    requires forall k | 0 <= k < |heard| :: heard[k].CompactionEnd?
  {
    var end := if heard != [] then heard[|heard| - 1] else o;
    if end.CompactionEnd? then
      Compacting(o.ts, if end.error.Some? then "failed" else "completed", Later(end.trigger, o.trigger),
                 Later(end.model, o.model), end.coversSeq, end.summaryChars, end.durationMs, end.summary, end.error)
    else
      Compacting(o.ts, if newest then "running" else "interrupted", o.trigger, o.model, None, None, None, None, None)
  }

  /** The decision in words, with the call it was asked for. */
  function DecisionShown(decision: string, call: Option<ToolCall>): string {
    if decision == "expired" then "Expired" + " \U{00B7} " + "no decision recorded"
    else if decision == "cancelled" then "Cancelled" + " \U{00B7} " + "no decision recorded"
    else if decision == "invalidated" then "Invalidated" + " \U{00B7} " + "no decision recorded"
    else
      (if decision == "allow" then "Allowed" else "Denied") + " \U{00B7} "
      + if call.None? then "unknown tool"
        else if ToolTarget(call.value.args) == "" then call.value.name
        else call.value.name + " \U{00B7} " + ToolTarget(call.value.args)
  }

  function HookShown(decision: string, hook: Option<string>, matcher: Option<string>): string {
    var what := OrElse(hook, "hook") + " \U{00B7} " + OrElse(matcher, "");
    if Failure(decision) then "hook failed" + " \U{00B7} " + what + " (" + decision[|"failure:"|..] + ")"
    else "hook blocked" + " \U{00B7} " + what
  }

  /** What a retry of the failed turn would send, unless its input was rejected. */
  ghost function Offer(es: seq<Event>, e: Event): Option<RetryTarget>
    requires e.TurnError?
  {
    var at := ClaimsSince(es);
    ClaimsBound(es);
    var claimed := seq(|at|, k requires 0 <= k < |at| => InputAt(es, at[k]));
    var inputs := if claimed != [] then claimed else Unnamed(es);
    if inputs == [] || e.kind == Some("rejected") then None
    else Some(RetryTarget(e.seqNo, inputs, CalledSince(es)))
  }

  lemma ClaimsBound(es: seq<Event>)
    ensures forall k | 0 <= k < |ClaimsSince(es)| :: ClaimsSince(es)[k] < |es| && ClaimAt(es, ClaimsSince(es)[k]).Some?
  {
    var at := ClaimedInputs(es);
  }

  /** The row the event at `i` opened, as the whole log leaves it. */
  ghost function RowAt(es: seq<Event>, i: nat): ViewItem
    requires i < |es| && Opens(es[..i], es[i])
  {
    var o, heard := es[i], Heard(es, i);
    match o
    case UserMessage(_, ts, content, _, attachments) => User(content.value, ts, attachments, false, None, false, None)
    case InputQueued(_, ts, content, id, attachments, steer) =>
      if heard == [] then User(content.value, ts, attachments, true, id, steer, None)
      else User(content.value, ts, attachments, false, None, false, Refusal(heard[0]))
    case AssistantChunk(_, _, _, _, _) => AnswerAt(es, i)
    case AssistantMessage(_, _, _, _, _, _) => AnswerAt(es, i)
    case CallMade(_, ts, call) => ToolRow(call.value, ts, heard)
    case TurnError(_, _, kind, message) =>
      Status(OrElse(kind, "error") + ": " + message.value, Offer(es[..i], o))
    case TurnEnd(_, _, _, reason) => Status(reason.value, None)
    case ApprovalDecision(_, ts, id, decision) =>
      var call := if id.Some? then AskedFor(es[..i], id.value) else None;
      Audit(ts, if decision.value in {"allow", "deny"} then decision.value else "expired",
            DecisionShown(decision.value, call), None)
    case HookRun(_, ts, decision, hook, matcher, durationMs) =>
      Audit(ts, if Failure(decision.value) then "fail" else "block", HookShown(decision.value, hook, matcher),
            durationMs)
    case ChildSpawn(_, _, _, _, _, _) => ChildCard(o, heard)
    case ChildResult(_, _, _, _, _, _, _) => ChildCard(o, heard)
    case ContextManifest(_, ts, manifest) =>
      Context(ts, if heard == [] then manifest.value else heard[|heard| - 1].manifest.value, 1 + |heard|)
    case CompactionStart(_, _, _, _) => CompactionRow(o, heard, |es| == i + 1)
    case CompactionEnd(_, _, _, _, _, _, _, _, _) => CompactionRow(o, heard, |es| == i + 1)
  }

  /** A refused input says so. */
  function Refusal(e: Event): Option<string> {
    if e.InputSettled? && (e.outcome == Some("rejected") || e.outcome == Some("empty")) then e.outcome else None
  }

  /** The answer belongs to the turn that was open, until that turn closes. */
  function AnswerAt(es: seq<Event>, i: nat): ViewItem
    requires i < |es|
  {
    var turnId := OpenTurn(es[..i]);
    AnswerRow([es[i]] + Heard(es, i), turnId, turnId.Some? && ClosedSince(es, i, turnId.value))
  }

  /** The `k`th row of the transcript. */
  ghost function Shown(es: seq<Event>, k: nat): ViewItem
    requires k < |Opened(es)|
  {
    OpenedOpens(es, k);
    RowAt(es, Opened(es)[k])
  }

  /** The transcript the log stands for. */
  ghost function RowsOf(es: seq<Event>): seq<ViewItem> {
    seq(|Opened(es)|, k requires 0 <= k < |Opened(es)| => Shown(es, k))
  }

  // ---------- what an open name says of its row ----------

  lemma {:induction false} WaitingOpens(es: seq<Event>, id: string, i: nat)
    requires WaitingAt(es, id) == Some(i)
    ensures Opens(es[..i], es[i]) && Heard(es, i) == []
  {
    var front := es[..|es| - 1];
    if i + 1 < |es| { WaitingOpens(front, id, i); }
  }

  lemma {:induction false} DraftOpens(es: seq<Event>, i: nat)
    requires DraftAt(es) == Some(i)
    ensures Opens(es[..i], es[i])
    ensures forall k | 0 <= k < |Heard(es, i)| :: Heard(es, i)[k].AssistantChunk?
  {
    var front := es[..|es| - 1];
    if i + 1 < |es| {
      DraftOpens(front, i);
      assert es[..i] == front[..i];
    }
  }

  lemma {:induction false} ChildOpens(es: seq<Event>, id: string, i: nat)
    requires ChildAt(es, id) == Some(i)
    ensures Opens(es[..i], es[i])
  {
    var front := es[..|es| - 1];
    if i + 1 < |es| {
      ChildOpens(front, id, i);
      assert es[..i] == front[..i];
    }
  }

  lemma {:induction false} ManifestOpens(es: seq<Event>, key: string, i: nat)
    requires ManifestAt(es, key) == Some(i)
    ensures Opens(es[..i], es[i]) && MarkerKey(es[..i]) == key
  {
    hide OpenTurn, MarkerKey;
    var front := es[..|es| - 1];
    if i + 1 < |es| {
      ManifestOpens(front, key, i);
      assert es[..i] == front[..i];
    }
  }

  lemma {:induction false} CompactionOpens(es: seq<Event>, i: nat)
    requires CompactionAt(es) == Some(i)
    ensures Opens(es[..i], es[i]) && Heard(es, i) == []
  {
    var front := es[..|es| - 1];
    if i + 1 < |es| { CompactionOpens(front, i); }
  }

  // ---------- how a row changes when it is spoken to ----------

  lemma Prefix(es: seq<Event>, e: Event, i: nat)
    requires i < |es|
    ensures (es + [e])[..i] == es[..i] && (es + [e])[i] == es[i]
  {
  }

  lemma ReleaseReads(es: seq<Event>, e: Event, i: nat)
    requires i < |es| && Opens(es[..i], es[i]) && es[i].InputQueued? && Heard(es, i) == [] && SpeaksTo(es, e, i)
    ensures Opens((es + [e])[..i], (es + [e])[i])
    ensures RowAt(es + [e], i) == Unqueued(RowAt(es, i), if e.InputSettled? then e.outcome else None)
  {
    Prefix(es, e, i);
    HeardSnoc(es, e, i);
    SpeakersFit(es, e, i);
    hide SpeaksTo, Heard, Opens;
  }

  lemma SettleReads(es: seq<Event>, e: Event, i: nat)
    requires i < |es| && Opens(es[..i], es[i]) && es[i].CallMade? && e.CallDone? && SpeaksTo(es, e, i)
    ensures Opens((es + [e])[..i], (es + [e])[i])
    ensures RowAt(es + [e], i) == Settle(RowAt(es, i), e)
  {
    Prefix(es, e, i);
    HeardSnoc(es, e, i);
    hide SpeaksTo, Heard, ToolRow;
    ToolSettles(es[i].call.value, es[i].ts, Heard(es, i), e);
  }

  lemma ToolSettles(call: ToolCall, ts: Option<nat>, heard: seq<Event>, e: Event)
    requires e.CallDone? && forall k | 0 <= k < |heard| :: heard[k].CallDone?
    ensures ToolRow(call, ts, heard + [e]) == Settle(ToolRow(call, ts, heard), e)
  {
    hide McpServerOf, Latest;
    LatestSnoc(heard, e, When);
    LatestSnoc(heard, e, McpOutcome);
    LatestSnoc(heard, e, Invocation);
    RecoverySnoc(heard, e);
  }

  lemma RecoverySnoc(heard: seq<Event>, e: Event)
    requires e.CallDone? && forall k | 0 <= k < |heard| :: heard[k].CallDone?
    ensures (exists k | 0 <= k < |heard + [e]| :: (heard + [e])[k].recovery) <==>
      e.recovery || exists k | 0 <= k < |heard| :: heard[k].recovery
  {
    if k :| 0 <= k < |heard| && heard[k].recovery { assert (heard + [e])[k].recovery; }
    assert (heard + [e])[|heard|] == e;
  }

  lemma RefreshReads(es: seq<Event>, e: Event, i: nat)
    requires i < |es| && Opens(es[..i], es[i]) && es[i].ContextManifest? && e.ContextManifest? && SpeaksTo(es, e, i)
    ensures Opens((es + [e])[..i], (es + [e])[i])
    ensures e.manifest.Some? && RowAt(es + [e], i) == Refreshed(RowAt(es, i), e.manifest.value)
  {
    Prefix(es, e, i);
    HeardSnoc(es, e, i);
  }

  lemma StartIs(es: seq<Event>, i: nat)
    requires i < |es| && es[i].CompactionStart? && Opens(es[..i], es[i])
    ensures RowAt(es, i) == CompactionRow(es[i], Heard(es, i), |es| == i + 1)
  {
    hide Heard;
  }

  lemma PatchReads(es: seq<Event>, e: Event, i: nat)
    requires i < |es| && Opens(es[..i], es[i]) && es[i].CompactionStart? && e.CompactionEnd?
    requires Heard(es, i) == [] && SpeaksTo(es, e, i)
    ensures Opens((es + [e])[..i], (es + [e])[i])
    ensures RowAt(es + [e], i) == Patch(RowAt(es, i), e)
  {
    hide SpeaksTo, Heard, CompactionRow, Opens, RowAt;
    Prefix(es, e, i);
    HeardSnoc(es, e, i);
    assert [] + [e] == [e];
    StartIs(es, i);
    StartIs(es + [e], i);
    PatchedRow(es[i], e, |es| == i + 1);
  }

  lemma PatchedRow(o: Event, e: Event, newest: bool)
    requires o.CompactionStart? && e.CompactionEnd?
    ensures CompactionRow(o, [e], false) == Patch(CompactionRow(o, [], newest), e)
  {
  }

  lemma ChildReads(es: seq<Event>, e: Event, i: nat)
    requires i < |es| && Opens(es[..i], es[i]) && (es[i].ChildSpawn? || es[i].ChildResult?) && SpeaksTo(es, e, i)
    requires e.ChildResult? || e.TurnEnd?
    ensures Opens((es + [e])[..i], (es + [e])[i])
    ensures RowAt(es + [e], i) ==
      if e.ChildResult? then Ended(RowAt(es, i), OrElse(e.status, "")) else Interrupted(RowAt(es, i))
  {
    Prefix(es, e, i);
    HeardSnoc(es, e, i);
    ResultKnown(es, e, i);
    hide SpeaksTo, Heard, ChildCard;
    ChildGrows(es[i], Heard(es, i), e);
  }

  lemma ResultKnown(es: seq<Event>, e: Event, i: nat)
    requires SpeaksTo(es, e, i)
    ensures e.ChildResult? ==> Ending(e).Some?
  {
  }

  lemma ChildGrows(o: Event, heard: seq<Event>, e: Event)
    requires (o.ChildSpawn? || o.ChildResult?) && o.childSessionId.Some?
    requires e.TurnEnd? || (e.ChildResult? && Ending(e).Some?)
    ensures ChildCard(o, heard + [e]) ==
      if e.ChildResult? then Ended(ChildCard(o, heard), OrElse(e.status, "")) else Interrupted(ChildCard(o, heard))
  {
    assert [o] + (heard + [e]) == ([o] + heard) + [e];
    LatestSnoc([o] + heard, e, Ending);
    SomeEnding([o] + heard);
    hide Latest;
  }

  lemma {:induction false} SomeEnding(said: seq<Event>)
    ensures var last := Latest(said, Ending); last.Some? ==> last.value in KnownEnds
  {
    if said != [] { SomeEnding(said[..|said| - 1]); }
  }

  predicate IsAnswer(e: Event) {
    e.AssistantChunk? || e.AssistantMessage?
  }

  lemma AnswerIs(es: seq<Event>, i: nat)
    requires i < |es| && IsAnswer(es[i]) && Opens(es[..i], es[i])
    ensures RowAt(es, i) == AnswerAt(es, i)
  {
    hide Opens, AnswerAt, Heard;
  }

  lemma AnswerGrows(es: seq<Event>, e: Event, i: nat)
    requires i < |es| && IsAnswer(es[i])
    ensures OpenTurn((es + [e])[..i]) == OpenTurn(es[..i])
    ensures var turnId := OpenTurn(es[..i]);
      var said := [es[i]] + Heard(es, i);
      AnswerAt(es + [e], i) == AnswerRow(
        if SpeaksTo(es, e, i) then said + [e] else said, turnId,
        turnId.Some? && (Closes(es, e, turnId.value) || ClosedSince(es, i, turnId.value)))
  {
    hide Heard, SpeaksTo, OpenTurn, ClosedSince, Closes, AnswerRow;
    Prefix(es, e, i);
    HeardSnoc(es, e, i);
    assert [es[i]] + (Heard(es, i) + [e]) == ([es[i]] + Heard(es, i)) + [e];
    var turnId := OpenTurn(es[..i]);
    if turnId.Some? { ClosedSinceSnoc(es, e, i, turnId.value); }
  }

  /** The answer after one more delta. */
  lemma RowStreams(said: seq<Event>, e: Event, turnId: Option<string>, closed: bool)
    requires said != [] && said[|said| - 1].AssistantChunk? && e.AssistantChunk? && e.delta.Some?
    ensures AnswerRow(said + [e], turnId, closed) ==
      Streamed(AnswerRow(said, turnId, closed), e.delta.value, e.thinking)
  {
    hide Deltas, Rendering.Text;
    assert (said + [e])[0] == said[0] && (said + [e])[|said|] == e;
    DeltasSnoc(said, e, true);
    DeltasSnoc(said, e, false);
    TextSnoc(Deltas(said, false), e.delta.value);
  }

  lemma RowFinishes(said: seq<Event>, e: Event, turnId: Option<string>, closed: bool)
    requires said != [] && said[|said| - 1].AssistantChunk? && e.AssistantMessage?
    ensures AnswerRow(said + [e], turnId, closed) ==
      Finished(AnswerRow(said, turnId, closed), OrElse(e.content, ""), e.toolCalls, e.controls)
  {
    hide Deltas, Rendering.Text;
    assert (said + [e])[0] == said[0] && (said + [e])[|said|] == e;
    DeltasSnoc(said, e, true);
    DeltasSnoc(said, e, false);
  }

  lemma RowStops(said: seq<Event>, e: Event, turnId: Option<string>, closed: bool)
    requires said != [] && said[|said| - 1].AssistantChunk? && e.TurnEnd?
    ensures AnswerRow(said + [e], turnId, closed) == LeftOpen(AnswerRow(said, turnId, closed), true, false)
  {
    hide Deltas, Rendering.Text;
    assert (said + [e])[0] == said[0] && (said + [e])[|said|] == e;
    DeltasSnoc(said, e, true);
    DeltasSnoc(said, e, false);
  }

  lemma StreamReads(es: seq<Event>, e: Event, i: nat)
    requires DraftAt(es) == Some(i) && e.AssistantChunk? && e.delta.Some?
    ensures AnswerAt(es + [e], i) == Streamed(AnswerAt(es, i), e.delta.value, e.thinking)
  {
    DraftOpens(es, i);
    AnswerGrows(es, e, i);
    var turnId := OpenTurn(es[..i]);
    var said := [es[i]] + Heard(es, i);
    hide Heard, Opens, DraftAt, OpenTurn, ClosedSince, AnswerRow;
    RowStreams(said, e, turnId, turnId.Some? && ClosedSince(es, i, turnId.value));
  }

  lemma FinishReads(es: seq<Event>, e: Event, i: nat)
    requires DraftAt(es) == Some(i) && e.AssistantMessage?
    ensures AnswerAt(es + [e], i) == Finished(AnswerAt(es, i), OrElse(e.content, ""), e.toolCalls, e.controls)
  {
    DraftOpens(es, i);
    AnswerGrows(es, e, i);
    var turnId := OpenTurn(es[..i]);
    var said := [es[i]] + Heard(es, i);
    hide Heard, Opens, DraftAt, OpenTurn, ClosedSince, AnswerRow;
    RowFinishes(said, e, turnId, turnId.Some? && ClosedSince(es, i, turnId.value));
  }

  /** An answer's row after a turn's end. */
  function LeftOpen(row: ViewItem, draft: bool, closes: bool): ViewItem
    requires row.Assistant?
  {
    var stopped := if draft then row.(live := false, thinkingLive := false) else row;
    if closes then stopped.(turnOpen := false) else stopped
  }

  lemma StopReads(es: seq<Event>, e: Event, i: nat)
    requires i < |es| && IsAnswer(es[i]) && e.TurnEnd?
    ensures AnswerAt(es, i).Assistant?
    ensures var row := AnswerAt(es, i);
      AnswerAt(es + [e], i) ==
        LeftOpen(row, DraftAt(es) == Some(i), row.turnId.Some? && Closes(es, e, row.turnId.value))
  {
    AnswerGrows(es, e, i);
    var turnId := OpenTurn(es[..i]);
    var said := [es[i]] + Heard(es, i);
    AnswerHears(es, e, i);
    hide Heard, Opens, DraftAt, OpenTurn, ClosedSince, Closes, SpeaksTo;
    if DraftAt(es) == Some(i) {
      DraftOpens(es, i);
      hide AnswerRow;
      RowStops(said, e, turnId, turnId.Some? && (Closes(es, e, turnId.value) || ClosedSince(es, i, turnId.value)));
    } else {
      hide Rendering.Text, Deltas;
    }
  }

  lemma AnswerHears(es: seq<Event>, e: Event, i: nat)
    requires i < |es| && IsAnswer(es[i]) && e.TurnEnd?
    ensures SpeaksTo(es, e, i) <==> DraftAt(es) == Some(i)
  {
  }

  // ---------- a row nothing speaks to ----------

  /** The open compaction loses its running label when the log moves past it. */
  ghost function Paused(es: seq<Event>, e: Event, i: nat): ViewItem
    requires i < |es| && Opens(es[..i], es[i])
  {
    var row := RowAt(es, i);
    if es[i].CompactionStart? && |es| == i + 1 && !e.CompactionEnd? then row.(status := "interrupted") else row
  }

  lemma Kept(es: seq<Event>, e: Event, i: nat)
    requires i < |es| && Opens(es[..i], es[i]) && !SpeaksTo(es, e, i) && !(e.TurnEnd? && IsAnswer(es[i]))
    ensures Opens((es + [e])[..i], (es + [e])[i])
    ensures RowAt(es + [e], i) == Paused(es, e, i)
  {
    hide Heard, SpeaksTo, AnswerRow, OpenTurn, ClosedSince;
    Prefix(es, e, i);
    if IsAnswer(es[i]) {
      AnswerKept(es, e, i);
    } else {
      HeardSnoc(es, e, i);
      if es[i].CompactionStart? && |es| == i + 1 { JustStarted(es, e); }
    }
  }

  lemma AnswerKept(es: seq<Event>, e: Event, i: nat)
    requires i < |es| && IsAnswer(es[i]) && !SpeaksTo(es, e, i) && !e.TurnEnd?
    ensures AnswerAt(es + [e], i) == AnswerAt(es, i)
  {
    hide Heard, SpeaksTo, AnswerRow, OpenTurn, ClosedSince;
    AnswerGrows(es, e, i);
  }

  lemma JustStarted(es: seq<Event>, e: Event)
    requires es != [] && es[|es| - 1].CompactionStart?
    ensures e.CompactionEnd? ==> SpeaksTo(es, e, |es| - 1)
    ensures Heard(es, |es| - 1) == []
  {
  }

  /** A new row has been told nothing yet. */
  lemma NewRow(es: seq<Event>, e: Event)
    requires Opens(es, e)
    ensures (es + [e])[..|es|] == es && (es + [e])[|es|] == e && Heard(es + [e], |es|) == []
  {
  }

  // ---------- the projector's names ----------

  /** How one event changes what the projector has names for; a new row goes to the end. */
  ghost predicate Renames(s: Proj, e: Event, r: Proj) {
    var n := |s.items|;
    && r.queuedUsers == (if Queues(e) then s.queuedUsers[e.inputId.value := n]
                         else if Frees(e) then s.queuedUsers - {e.inputId.value} else s.queuedUsers)
    && r.draft == (if EndsAnswer(e) then None
                   else if e.AssistantChunk? && e.delta.Some? && s.draft.None? then Some(n) else s.draft)
    && r.toolItems == (if e.CallMade? && e.call.Some? then s.toolItems[e.call.value.id := n] else s.toolItems)
    && r.delegations == (if NewChild(s, e) then s.delegations[e.childSessionId.value := n] else s.delegations)
    && r.turnContexts == (if e.TurnEnd? then Left(s, e)
                          else if NewMarker(s, e) then s.turnContexts[KeyOf(s) := n] else s.turnContexts)
    && r.openCompaction == (if e.CompactionStart? then Some(n) else if e.CompactionEnd? then None
                            else s.openCompaction)
    && r.approvals == (if e.ApprovalRequest? && e.approvalId.Some? && e.call.Some?
                       then s.approvals[e.approvalId.value := e.call.value] else s.approvals)
    && |r.items| == n + if Adds(s, e) then 1 else 0
  }

  predicate NewChild(s: Proj, e: Event) {
    (e.ChildSpawn? || e.ChildResult?) && e.childSessionId.Some?
    && (e.ChildSpawn? || e.childSessionId.value !in s.delegations)
  }

  function KeyOf(s: Proj): string {
    OrElse(s.openTurnId, "turnless")
  }

  predicate NewMarker(s: Proj, e: Event) {
    e.ContextManifest? && e.manifest.Some? && KeyOf(s) !in s.turnContexts
  }

  function Left(s: Proj, e: Event): map<string, nat>
    requires e.TurnEnd?
  {
    var closing := Closing(s, e.turnId);
    if closing.Some? then s.turnContexts - {closing.value} else s.turnContexts
  }

  predicate Adds(s: Proj, e: Event) {
    match e
    case UserMessage(_, _, content, id, _) => content.Some? && !(Named(id) && id.value in s.queuedUsers)
    case InputQueued(_, _, _, _, _, _) => Queues(e)
    case AssistantChunk(_, _, _, delta, _) => delta.Some? && s.draft.None?
    case AssistantMessage(_, _, _, content, toolCalls, _) => s.draft.None? && (Named(content) || toolCalls.Some?)
    case CallMade(_, _, call) => call.Some?
    case TurnError(_, _, _, message) => message.Some?
    case TurnEnd(_, _, _, reason) => reason.Some?
    case ApprovalDecision(_, _, id, decision) => DecisionRow(s.approvals, e.ts, id, decision).Some?
    case HookRun(_, _, _, _, _, _) => HookRow(e).Some?
    case ChildSpawn(_, _, _, _, _, _) => NewChild(s, e)
    case ChildResult(_, _, _, _, _, _, _) => NewChild(s, e)
    case ContextManifest(_, _, _) => NewMarker(s, e)
    case CompactionStart(_, _, _, _) => true
    case CompactionEnd(_, _, _, _, _, _, _, _, _) => s.openCompaction.None?
    case _ => false
  }

  /** The names are as they were. */
  ghost predicate SameNames(s: Proj, r: Proj) {
    && r.queuedUsers == s.queuedUsers && r.draft == s.draft && r.toolItems == s.toolItems
    && r.delegations == s.delegations && r.turnContexts == s.turnContexts && r.openCompaction == s.openCompaction
    && r.approvals == s.approvals && r.openTurnId == s.openTurnId
  }

  lemma SetNames(s: State, at: nat, row: ViewItem)
    requires at < |s.items|
    ensures SameNames(s, SetRow(s, at, row)) && SetRow(s, at, row).items == s.items[at := row]
  {
    hide WellFormed;
  }

  lemma AddNames(s: State, row: ViewItem)
    ensures SameNames(s, AddRow(s, row)) && AddRow(s, row).items == s.items + [row]
  {
    hide WellFormed;
  }

  lemma InterruptNames(s: State, e: Event)
    ensures var r := Interrupt(s, e); r == s.(items := r.items) && |r.items| == |s.items|
  {
    hide WellFormed;
    OpenInRange(s);
  }

  lemma UserNames(s: State, e: Event)
    requires e.UserMessage?
    ensures Renames(s, e, OnUserMessage(s, e.ts, e.content, e.inputId, e.attachments))
  {
    hide WellFormed, Unqueued, RetryOf, SetRow, AddRow, ClaimMessage;
    if e.content.Some? {
      var s1 := ClaimMessage(s, e.content, e.inputId, e.attachments);
      assert s1 == s.(turn := s1.turn);
      AddNames(s1, User(e.content.value, e.ts, e.attachments, false, None, false, None));
      if Named(e.inputId) {
        if e.inputId.value in s1.queuedUsers {
          QueuedInRange(s1, e.inputId.value);
          var at := s1.queuedUsers[e.inputId.value];
          SetNames(s1, at, Unqueued(s1.items[at], None));
        } else {
          assert s.queuedUsers - {e.inputId.value} == s.queuedUsers;
        }
      }
    }
  }

  lemma QueuedNames(s: State, e: Event)
    requires e.InputQueued?
    ensures Renames(s, e, OnInputQueued(s, e.ts, e.content, e.inputId, e.attachments, e.steer))
  {
    hide WellFormed, RetryOf, AddRow;
    if e.content.Some? { AddNames(s, User(e.content.value, e.ts, e.attachments, true, e.inputId, e.steer, None)); }
  }

  lemma SettledNames(s: State, e: Event)
    requires e.InputSettled?
    ensures Renames(s, e, OnInputSettled(s, e.inputId, e.outcome))
  {
    hide WellFormed, Unqueued, SetRow, ClaimSettled;
    if Named(e.inputId) {
      var s1 := ClaimSettled(s, e.inputId.value);
      assert s1 == s.(turn := s1.turn);
      if e.inputId.value in s1.queuedUsers {
        QueuedInRange(s1, e.inputId.value);
        var at := s1.queuedUsers[e.inputId.value];
        SetNames(s1, at, Unqueued(s1.items[at], e.outcome));
      } else { assert s.queuedUsers - {e.inputId.value} == s.queuedUsers; }
    }
  }

  lemma OpenDraftNames(s: State, ts: Option<nat>)
    ensures var r := OpenDraft(s, ts);
      && SameNames(s, r.(draft := s.draft)) && r.draft == (if s.draft.Some? then s.draft else Some(|s.items|))
      && r.items == if s.draft.Some? then s.items else s.items + [Answer("", ts, true, None, None, s.openTurnId)]
  {
    hide WellFormed, AddAnswer, Listing;
    if s.draft.None? { AddAnswerFields(s, Answer("", ts, true, None, None, s.openTurnId)); }
  }

  lemma ChunkNames(s: State, e: Event)
    requires e.AssistantChunk?
    ensures Renames(s, e, OnChunk(s, e.ts, e.delta, e.thinking))
  {
    hide WellFormed, Streamed, OpenDraft, SetRow;
    if e.delta.Some? {
      OpenDraftNames(s, e.ts);
      var s1 := OpenDraft(s, e.ts);
      OpenInRange(s1);
      SetNames(s1, s1.draft.value, Streamed(s1.items[s1.draft.value], e.delta.value, e.thinking));
    }
  }

  lemma MessageNames(s: State, e: Event)
    requires e.AssistantMessage?
    ensures Renames(s, e, OnMessage(s, e.ts, e.content, e.toolCalls, e.controls))
  {
    hide WellFormed, Finished, AddAnswer, Listing, SetRow;
    OpenInRange(s);
    var text := OrElse(e.content, "");
    AddAnswerFields(s, Answer(text, e.ts, false, e.toolCalls, e.controls, s.openTurnId));
    if s.draft.Some? {
      SetNames(s, s.draft.value, Finished(s.items[s.draft.value], text, e.toolCalls, e.controls));
    }
  }

  lemma CallNames(s: State, e: Event)
    requires e.CallMade?
    ensures Renames(s, e, OnCall(s, e.ts, e.call))
  {
    hide WellFormed, McpServerOf, AddRow;
    if e.call.Some? {
      AddNames(s, Tool(e.call.value, e.ts, None, None, false, McpServerOf(e.call.value.name), None, None));
    }
  }

  lemma ResultNames(s: State, e: Event)
    requires e.CallDone?
    ensures Renames(s, e, OnResult(s, e))
  {
    hide WellFormed, Settle, SetRow;
    if e.callId.Some? && e.callId.value in s.toolItems {
      CallInRange(s, e.callId.value);
      SetNames(s, s.toolItems[e.callId.value], Settle(s.items[s.toolItems[e.callId.value]], e));
    }
  }

  lemma CallInRange(s: State, id: string)
    requires id in s.toolItems
    ensures s.toolItems[id] < |s.items|
  {
  }

  lemma ChildInRange(s: State, id: string)
    requires id in s.delegations
    ensures s.delegations[id] < |s.items|
  {
  }

  lemma ChildNames(s: State, e: Event)
    requires e.ChildResult?
    ensures Renames(s, e, OnChildResult(s, e))
  {
    hide WellFormed, Ended, Spawn, SetRow;
    if e.childSessionId.Some? {
      var id := e.childSessionId.value;
      SpawnFields(s, e.ts, id, e.definition, e.brief, e.objective);
      var s1: State := if id in s.delegations then s else Spawn(s, e.ts, id, e.definition, e.brief, e.objective);
      ChildInRange(s1, id);
      if e.status.Some? { SetNames(s1, s1.delegations[id], Ended(s1.items[s1.delegations[id]], e.status.value)); }
    }
  }

  lemma SpawnFields(s: State, ts: Option<nat>, id: string, definition: Option<string>, brief: Option<string>,
                    objective: Option<string>)
    ensures var r := Spawn(s, ts, id, definition, brief, objective);
      SameNames(s, r.(delegations := s.delegations)) && r.delegations == s.delegations[id := |s.items|]
      && |r.items| == |s.items| + 1
  {
    hide WellFormed;
  }

  lemma SpawnNames(s: State, e: Event)
    requires e.ChildSpawn? && e.childSessionId.Some?
    ensures Renames(s, e, Spawn(s, e.ts, e.childSessionId.value, e.definition, e.brief, e.objective))
  {
    hide WellFormed;
  }

  lemma ManifestNames(s: State, e: Event)
    requires e.ContextManifest?
    ensures Renames(s, e, OnManifest(s, e.ts, e.manifest))
  {
    hide WellFormed, Refreshed, SetRow, AddRow;
    if e.manifest.Some? {
      var key := KeyOf(s);
      AddNames(s, Context(e.ts, e.manifest.value, 1));
      if key in s.turnContexts {
        ContextInRange(s, key);
        SetNames(s, s.turnContexts[key], Refreshed(s.items[s.turnContexts[key]], e.manifest.value));
      }
    }
  }

  lemma CompactionNames(s: State, e: Event)
    requires e.CompactionEnd?
    ensures Renames(s, e, OnCompactionEnd(s, e))
  {
    hide WellFormed, Patch, SetRow, AddRow;
    OpenInRange(s);
    AddNames(s, Patch(Compacting(e.ts, "running", None, None, None, None, None, None, None), e));
    if s.openCompaction.Some? {
      SetNames(s, s.openCompaction.value, Patch(s.items[s.openCompaction.value], e));
    }
  }

  lemma PlainNames(s: State, e: Event)
    ensures e.TurnStart? ==> Renames(s, e, OnTurnStart(s, e.turnId))
    ensures e.ApprovalRequest? ==> Renames(s, e, OnApprovalRequest(s, e.approvalId, e.call))
    ensures e.CompactionStart? ==> Renames(s, e, OnCompactionStart(s, e.ts, e.trigger, e.model))
  {
    hide WellFormed, AddRow;
    if e.CompactionStart? {
      AddNames(s, Compacting(e.ts, "running", e.trigger, e.model, None, None, None, None, None));
    }
  }

  lemma AuditNames(s: State, e: Event, row: Option<ViewItem>)
    requires e.TurnError? || e.ApprovalDecision? || e.HookRun?
    requires Adds(s, e) <==> row.Some?
    ensures Renames(s, e, AddIf(s, row))
  {
    hide WellFormed, Adds, DecisionRow, HookRow;
  }

  lemma AuditAdds(s: Proj, e: Event)
    ensures e.TurnError? ==> (Adds(s, e) <==> ErrorRow(s.turn, e).Some?)
    ensures e.ApprovalDecision? ==> (Adds(s, e) <==> DecisionRow(s.approvals, e.ts, e.approvalId, e.decision).Some?)
    ensures e.HookRun? ==> (Adds(s, e) <==> HookRow(e).Some?)
  {
    hide DecisionRow, HookRow;
  }

  lemma EndDraftNames(s: State)
    ensures var r := EndDraft(s); SameNames(s, r.(draft := s.draft)) && r.draft.None? && |r.items| == |s.items|
  {
    hide WellFormed, Stopped, SetRow;
    OpenInRange(s);
    if s.draft.Some? { SetNames(s, s.draft.value, Stopped(s.items[s.draft.value])); }
  }

  lemma LeaveNames(s: State, e: Event)
    requires e.TurnEnd?
    ensures var r := LeaveTurn(s, e.turnId);
      && SameNames(s, r.(turnContexts := s.turnContexts, openTurnId := s.openTurnId)) && r.turnContexts == Left(s, e)
      && |r.items| == |s.items|
  {
    hide WellFormed, CloseTurn;
    var closing := Closing(s, e.turnId);
    if closing.Some? { CloseNames(s, closing.value); }
  }

  lemma CloseNames(s: State, id: string)
    ensures var r := CloseTurn(s, id);
      SameNames(s, r.(turnContexts := s.turnContexts)) && r.turnContexts == s.turnContexts - {id}
      && |r.items| == |s.items|
  {
    hide WellFormed, ClosedAt;
  }

  lemma ChildrenNames(s: State)
    ensures SameNames(s, InterruptChildren(s)) && |InterruptChildren(s).items| == |s.items|
  {
    hide WellFormed, InterruptedAt;
  }

  lemma AddIfNames(s: State, row: Option<ViewItem>)
    ensures SameNames(s, AddIf(s, row)) && |AddIf(s, row).items| == |s.items| + if row.Some? then 1 else 0
  {
    hide WellFormed;
  }

  lemma EndNames(s: State, e: Event)
    requires e.TurnEnd?
    ensures Renames(s, e, OnTurnEnd(s, e.turnId, e.reason))
  {
    hide WellFormed, EndDraft, LeaveTurn, InterruptChildren, AddIf;
    var s1 := EndDraft(s);
    var s2 := LeaveTurn(s1, e.turnId);
    EndDraftNames(s);
    LeaveNames(s1, e);
    ChildrenNames(s2);
    AddIfNames(InterruptChildren(s2), if e.reason.Some? then Some(Status(e.reason.value, None)) else None);
  }

  lemma HandleNames(s: State, e: Event)
    ensures Renames(s, e, Handle(s, e))
  {
    hide Adds, Queues, ErrorRow, DecisionRow, HookRow, Renames, WellFormed, OnUserMessage, OnInputQueued;
    hide OnInputSettled, OnChunk, OnMessage, OnCall, OnResult, Spawn;
    hide OnChildResult, OnManifest, OnCompactionEnd, OnTurnEnd, OnTurnStart, OnApprovalRequest, OnCompactionStart;
    hide AddIf;
    match e {
      case UserMessage(_, _, _, _, _) => UserNames(s, e);
      case InputQueued(_, _, _, _, _, _) => QueuedNames(s, e);
      case InputSettled(_, _, _, _) => SettledNames(s, e);
      case AssistantChunk(_, _, _, _, _) => ChunkNames(s, e);
      case AssistantMessage(_, _, _, _, _, _) => MessageNames(s, e);
      case CallMade(_, _, _) => CallNames(s, e);
      case CallDone(_, _, _, _, _, _, _, _) => ResultNames(s, e);
      case ChildSpawn(_, _, Some(_), _, _, _) => SpawnNames(s, e);
      case ChildResult(_, _, _, _, _, _, _) => ChildNames(s, e);
      case ContextManifest(_, _, _) => ManifestNames(s, e);
      case CompactionEnd(_, _, _, _, _, _, _, _, _) => CompactionNames(s, e);
      case TurnEnd(_, _, _, _) => EndNames(s, e);
      case TurnStart(_, _, _) => PlainNames(s, e);
      case ApprovalRequest(_, _, _, _, _) => PlainNames(s, e);
      case CompactionStart(_, _, _, _) => PlainNames(s, e);
      case TurnError(_, _, _, _) =>
        AuditAdds(s, e);
        AuditNames(s, e, ErrorRow(s.turn, e));
      case ApprovalDecision(_, ts, id, decision) =>
        AuditAdds(s, e);
        AuditNames(s, e, DecisionRow(s.approvals, ts, id, decision));
      case HookRun(_, _, _, _, _, _) =>
        AuditAdds(s, e);
        AuditNames(s, e, HookRow(e));
      case _ => NothingNamed(s, e);
    }
  }

  lemma NothingNamed(s: State, e: Event)
    requires e.ContextBody? || e.ProcessStart? || e.ProcessExit? || e.Other?
      || (e.ChildSpawn? && e.childSessionId.None?)
    ensures Renames(s, e, s)
  {
    hide WellFormed;
  }

  // ---------- the names point where the log says ----------

  function PlaceOf(es: seq<Event>, at: Option<nat>): Option<nat>
    requires at.Some? ==> at.value <= |es|
  {
    if at.None? then None else Some(Rank(es, at.value))
  }

  function Find<V>(names: map<string, V>, id: string): Option<V> {
    if id in names then Some(names[id]) else None
  }

  ghost predicate InputsNamed(names: map<string, nat>, es: seq<Event>) {
    forall id :: Find(names, id) == PlaceOf(es, WaitingAt(es, id))
  }

  ghost predicate CallsNamed(names: map<string, nat>, es: seq<Event>) {
    forall id :: Find(names, id) == PlaceOf(es, CallAt(es, id))
  }

  ghost predicate ChildrenNamed(names: map<string, nat>, es: seq<Event>) {
    forall id :: Find(names, id) == PlaceOf(es, ChildAt(es, id))
  }

  ghost predicate ManifestsNamed(names: map<string, nat>, es: seq<Event>) {
    forall key :: Find(names, key) == PlaceOf(es, ManifestAt(es, key))
  }

  ghost predicate ApprovalsNamed(names: map<string, ToolCall>, es: seq<Event>) {
    forall id :: Find(names, id) == AskedFor(es, id)
  }

  ghost predicate Located(s: Proj, es: seq<Event>) {
    && InputsNamed(s.queuedUsers, es) && CallsNamed(s.toolItems, es) && ChildrenNamed(s.delegations, es)
    && ManifestsNamed(s.turnContexts, es) && ApprovalsNamed(s.approvals, es)
    && s.draft == PlaceOf(es, DraftAt(es)) && s.openCompaction == PlaceOf(es, CompactionAt(es))
    && |s.items| == |Opened(es)| && s.openTurnId == OpenTurn(es)
  }

  lemma PlaceSnoc(es: seq<Event>, e: Event, at: Option<nat>)
    requires at.Some? ==> at.value < |es|
    ensures PlaceOf(es + [e], at) == PlaceOf(es, at)
  {
    if at.Some? { RankSnoc(es, e, at.value); }
  }

  lemma PlaceNew(es: seq<Event>, e: Event)
    ensures PlaceOf(es + [e], Some(|es|)) == Some(|Opened(es)|)
  {
    RankSnoc(es, e, |es|);
    RankAll(es);
  }

  lemma InputsStep(names: map<string, nat>, es: seq<Event>, e: Event)
    requires InputsNamed(names, es)
    ensures InputsNamed(
      if Queues(e) then names[e.inputId.value := |Opened(es)|]
      else if Frees(e) then names - {e.inputId.value} else names, es + [e])
  {
    hide PlaceOf, Opened;
    assert (es + [e])[..|es|] == es;
    var after := if Queues(e) then names[e.inputId.value := |Opened(es)|]
                 else if Frees(e) then names - {e.inputId.value} else names;
    PlaceNew(es, e);
    PlaceNone(es, es + [e]);
    forall id ensures Find(after, id) == PlaceOf(es + [e], WaitingAt(es + [e], id)) {
      PlaceSnoc(es, e, WaitingAt(es, id));
    }
  }

  lemma PlaceNone(es: seq<Event>, all: seq<Event>)
    ensures PlaceOf(es, None).None? && PlaceOf(all, None).None?
  {
  }

  lemma CallsStep(names: map<string, nat>, es: seq<Event>, e: Event)
    requires CallsNamed(names, es)
    ensures CallsNamed(
      if e.CallMade? && e.call.Some? then names[e.call.value.id := |Opened(es)|] else names, es + [e])
  {
    hide PlaceOf, Opened;
    assert (es + [e])[..|es|] == es;
    var after := if e.CallMade? && e.call.Some? then names[e.call.value.id := |Opened(es)|] else names;
    PlaceNew(es, e);
    forall id ensures Find(after, id) == PlaceOf(es + [e], CallAt(es + [e], id)) {
      PlaceSnoc(es, e, CallAt(es, id));
    }
  }

  lemma ChildrenStep(names: map<string, nat>, es: seq<Event>, e: Event)
    requires ChildrenNamed(names, es)
    ensures ChildrenNamed(
      if (e.ChildSpawn? || e.ChildResult?) && e.childSessionId.Some?
         && (e.ChildSpawn? || e.childSessionId.value !in names)
      then names[e.childSessionId.value := |Opened(es)|] else names, es + [e])
  {
    hide PlaceOf, Opened;
    assert (es + [e])[..|es|] == es;
    PlaceNew(es, e);
    forall id
      ensures PlaceOf(es + [e], ChildAt(es, id)) == PlaceOf(es, ChildAt(es, id))
        && (id in names <==> ChildAt(es, id).Some?)
    {
      PlaceSnoc(es, e, ChildAt(es, id));
      Placed(names, es, id, ChildAt(es, id));
    }
  }

  lemma Placed(names: map<string, nat>, es: seq<Event>, id: string, at: Option<nat>)
    requires at.Some? ==> at.value <= |es|
    requires Find(names, id) == PlaceOf(es, at)
    ensures id in names <==> at.Some?
    ensures at.Some? ==> names[id] == Rank(es, at.value)
  {
  }

  lemma ManifestsStep(names: map<string, nat>, es: seq<Event>, e: Event)
    requires ManifestsNamed(names, es)
    ensures ManifestsNamed(
      if e.TurnEnd? then
        (var closing := if Named(e.turnId) then e.turnId else OpenTurn(es);
         if closing.Some? then names - {closing.value} else names)
      else if e.ContextManifest? && e.manifest.Some? && MarkerKey(es) !in names
        then names[MarkerKey(es) := |Opened(es)|]
      else names, es + [e])
  {
    hide PlaceOf, Opened, OpenTurn, MarkerKey;
    assert (es + [e])[..|es|] == es;
    PlaceNew(es, e);
    PlaceNone(es, es + [e]);
    forall key
      ensures PlaceOf(es + [e], ManifestAt(es, key)) == PlaceOf(es, ManifestAt(es, key))
        && (key in names <==> ManifestAt(es, key).Some?)
    {
      PlaceSnoc(es, e, ManifestAt(es, key));
      Placed(names, es, key, ManifestAt(es, key));
    }
  }

  lemma ApprovalsStep(names: map<string, ToolCall>, es: seq<Event>, e: Event)
    requires ApprovalsNamed(names, es)
    ensures ApprovalsNamed(
      if e.ApprovalRequest? && e.approvalId.Some? && e.call.Some? then names[e.approvalId.value := e.call.value]
      else names, es + [e])
  {
    assert (es + [e])[..|es|] == es;
    var after := if e.ApprovalRequest? && e.approvalId.Some? && e.call.Some?
                 then names[e.approvalId.value := e.call.value] else names;
    forall id ensures Find(after, id) == AskedFor(es + [e], id) {}
  }

  lemma OthersStep(es: seq<Event>, e: Event)
    ensures PlaceOf(es + [e], DraftAt(es + [e])) ==
      if EndsAnswer(e) then None
      else if e.AssistantChunk? && e.delta.Some? && DraftAt(es).None? then Some(|Opened(es)|)
      else PlaceOf(es, DraftAt(es))
    ensures PlaceOf(es + [e], CompactionAt(es + [e])) ==
      if e.CompactionStart? then Some(|Opened(es)|) else if e.CompactionEnd? then None
      else PlaceOf(es, CompactionAt(es))
  {
    hide Opened;
    assert (es + [e])[..|es|] == es;
    PlaceNew(es, e);
    PlaceSnoc(es, e, DraftAt(es));
    PlaceSnoc(es, e, CompactionAt(es));
  }

  /** A row is added exactly when the log opens one. */
  lemma AddsOpens(s: Proj, es: seq<Event>, e: Event)
    requires Located(s, es)
    ensures Adds(s, e) <==> Opens(es, e)
  {
    hide PlaceOf, Opened, OpenTurn, WaitingAt, ChildAt, ManifestAt, DraftAt, CompactionAt, DecisionText, ToolTarget;
    match e {
      case UserMessage(_, _, _, id, _) =>
        if Named(id) { Placed(s.queuedUsers, es, id.value, WaitingAt(es, id.value)); }
      case ChildResult(_, _, id, _, _, _, _) =>
        if id.Some? { Placed(s.delegations, es, id.value, ChildAt(es, id.value)); }
      case ContextManifest(_, _, _) =>
        Placed(s.turnContexts, es, MarkerKey(es), ManifestAt(es, MarkerKey(es)));
      case AssistantChunk(_, _, _, _, _) => PlaceSome(es, DraftAt(es));
      case AssistantMessage(_, _, _, _, _, _) => PlaceSome(es, DraftAt(es));
      case CompactionEnd(_, _, _, _, _, _, _, _, _) => PlaceSome(es, CompactionAt(es));
      case _ =>
    }
  }

  lemma PlaceSome(es: seq<Event>, at: Option<nat>)
    requires at.Some? ==> at.value <= |es|
    ensures PlaceOf(es, at).Some? <==> at.Some?
  {
  }

  lemma LocatedStep(s: Proj, es: seq<Event>, e: Event, r: Proj)
    requires Located(s, es) && Renames(s, e, r) && r.openTurnId == OpenTurn(es + [e])
    ensures Located(r, es + [e])
  {
    hide InputsNamed, CallsNamed, ChildrenNamed, ManifestsNamed, ApprovalsNamed;
    AddsOpens(s, es, e);
    OpenedSnoc(es, e);
    InputsStep(s.queuedUsers, es, e);
    CallsStep(s.toolItems, es, e);
    ChildrenStep(s.delegations, es, e);
    ManifestsStep(s.turnContexts, es, e);
    ApprovalsStep(s.approvals, es, e);
    OthersStep(es, e);
    PlaceSome(es, DraftAt(es));
    hide Adds, Opens, Opened, PlaceOf, OpenTurn, DraftAt, CompactionAt;
  }

  lemma {:induction false} NamesLocated(es: seq<Event>)
    ensures Located(Project(es), es)
  {
    hide Located, Renames, WellFormed, Interrupt, Handle, OpenTurn;
    OpenTurnKnown(es);
    if es == [] {
      NothingLocated();
    } else {
      var front, e := es[..|es| - 1], es[|es| - 1];
      assert es == front + [e];
      NamesLocated(front);
      FoldSnoc<State>(Step, Empty, front, e);
      var s := Project(front);
      InterruptNames(s, e);
      var t := Interrupt(s, e);
      HandleNames(t, e);
      LocatedItems(s, t, front);
      LocatedStep(t, front, e, Project(es));
    }
  }

  lemma LocatedItems(s: Proj, t: Proj, es: seq<Event>)
    requires Located(s, es) && t == s.(items := t.items) && |t.items| == |s.items|
    ensures Located(t, es)
  {
    hide InputsNamed, CallsNamed, ChildrenNamed, ManifestsNamed, ApprovalsNamed;
  }

  lemma NothingLocated()
    ensures Located(Project([]), [])
  {
  }

  // ---------- one event, all rows ----------

  /** The row, one event later. */
  ghost function After(es: seq<Event>, e: Event, i: nat): ViewItem
    requires i < |es| && Opens(es[..i], es[i])
  {
    Prefix(es, e, i);
    RowAt(es + [e], i)
  }

  /** The row the newest event opens. */
  ghost function Added(es: seq<Event>, e: Event): ViewItem
    requires Opens(es, e)
  {
    NewRow(es, e);
    RowAt(es + [e], |es|)
  }

  ghost function PausedRow(es: seq<Event>, e: Event, k: nat): ViewItem
    requires k < |Opened(es)|
  {
    OpenedOpens(es, k);
    Paused(es, e, Opened(es)[k])
  }

  ghost predicate PausedRows(items: seq<ViewItem>, es: seq<Event>, e: Event) {
    |items| == |Opened(es)| && forall k | 0 <= k < |items| :: items[k] == PausedRow(es, e, k)
  }

  ghost predicate RowsShown(items: seq<ViewItem>, es: seq<Event>) {
    |items| == |Opened(es)| && forall k | 0 <= k < |items| :: items[k] == Shown(es, k)
  }

  /** The one row an event other than a turn's end speaks to. */
  function Target(es: seq<Event>, e: Event): Option<nat> {
    match e
    case UserMessage(_, _, content, id, _) => if content.Some? && Named(id) then WaitingAt(es, id.value) else None
    case InputSettled(_, _, id, _) => if Named(id) then WaitingAt(es, id.value) else None
    case AssistantChunk(_, _, _, delta, _) => if delta.Some? then DraftAt(es) else None
    case AssistantMessage(_, _, _, _, _, _) => DraftAt(es)
    case CallDone(_, _, id, _, _, _, _, _) => if id.Some? then CallAt(es, id.value) else None
    case ChildResult(_, _, id, _, _, _, status) =>
      if id.Some? && status.Some? && status.value in KnownEnds then ChildAt(es, id.value) else None
    case ContextManifest(_, _, manifest) => if manifest.Some? then ManifestAt(es, MarkerKey(es)) else None
    case CompactionEnd(_, _, _, _, _, _, _, _, _) => CompactionAt(es)
    case _ => None
  }

  lemma TargetSpeaks(es: seq<Event>, e: Event)
    requires !e.TurnEnd?
    ensures forall i: nat :: SpeaksTo(es, e, i) <==> Target(es, e) == Some(i)
  {
  }

  lemma TargetOpens(es: seq<Event>, e: Event, i: nat)
    requires Target(es, e) == Some(i)
    ensures i < |es| && Opens(es[..i], es[i])
  {
    hide Opens, Heard, WaitingAt, DraftAt, CallAt, ChildAt, ManifestAt, CompactionAt, MarkerKey;
    match e {
      case UserMessage(_, _, _, id, _) => WaitingOpens(es, id.value, i);
      case InputSettled(_, _, id, _) => WaitingOpens(es, id.value, i);
      case AssistantChunk(_, _, _, _, _) => DraftOpens(es, i);
      case AssistantMessage(_, _, _, _, _, _) => DraftOpens(es, i);
      case CallDone(_, _, id, _, _, _, _, _) => CallOpens(es, id.value, i);
      case ChildResult(_, _, id, _, _, _, _) => ChildOpens(es, id.value, i);
      case ContextManifest(_, _, _) => ManifestOpens(es, MarkerKey(es), i);
      case CompactionEnd(_, _, _, _, _, _, _, _, _) => CompactionOpens(es, i);
    }
  }

  lemma CallOpens(es: seq<Event>, id: string, i: nat)
    requires CallAt(es, id) == Some(i)
    ensures Opens(es[..i], es[i])
  {
  }

  /** The rows after an event that tells one row at most. */
  lemma RowsFollow(es: seq<Event>, e: Event, a: seq<ViewItem>, b: seq<ViewItem>, at: Option<nat>)
    requires !e.TurnEnd? && PausedRows(a, es, e) && at == Target(es, e)
    requires |b| == |a| + if Opens(es, e) then 1 else 0
    requires at.Some? ==> at.value < |es| && Opens(es[..at.value], es[at.value])
    requires forall k | 0 <= k < |a| ::
      b[k] == if at.Some? && k == Rank(es, at.value) then After(es, e, at.value) else a[k]
    requires Opens(es, e) ==> b[|a|] == Added(es, e)
    ensures RowsShown(b, es + [e])
  {
    hide Opens, RowAt, Heard, SpeaksTo, Rank, Target;
    TargetSpeaks(es, e);
    OpenedSnoc(es, e);
    forall k | 0 <= k < |b| ensures b[k] == Shown(es + [e], k) {
      if k < |a| {
        OpenedOpens(es, k);
        var i := Opened(es)[k];
        Prefix(es, e, i);
        if at != Some(i) {
          Kept(es, e, i);
          if at.Some? { OpenedAt(es, at.value); }
        }
      } else {
        NewRow(es, e);
      }
    }
  }

  /** The open compaction is paused as the log moves past it. */
  lemma PauseRows(s: State, es: seq<Event>, e: Event)
    requires RowsShown(s.items, es) && Located(s, es)
    ensures PausedRows(Interrupt(s, e).items, es, e)
  {
    hide RowAt, Opens, WellFormed, Located, Interrupt, Opened, Shown, PausedRow, Rank, Heard;
    InterruptNames(s, e);
    forall k | 0 <= k < |s.items| ensures Interrupt(s, e).items[k] == PausedRow(es, e, k) {
      PauseRow(s, es, e, k);
    }
  }

  lemma PauseRow(s: State, es: seq<Event>, e: Event, k: nat)
    requires Located(s, es) && k < |s.items| && s.items[k] == Shown(es, k)
    ensures Interrupt(s, e).items[k] == PausedRow(es, e, k)
  {
    CompactionPlace(s, es);
    InterruptedRow(s, e, k);
    hide RowAt, Opens, WellFormed, Located, Opened, Rank, Heard, CompactionAt, Interrupt;
    OpenedOpens(es, k);
    var i := Opened(es)[k];
    CompactionNewest(es, i);
    if CompactionAt(es) == Some(i) {
      CompactionOpens(es, i);
      StartIs(es, i);
    } else if CompactionAt(es).Some? {
      var c := CompactionAt(es).value;
      CompactionOpens(es, c);
      OpenedAt(es, c);
    }
  }

  lemma InterruptedRow(s: State, e: Event, k: nat)
    requires k < |s.items|
    ensures k < |Interrupt(s, e).items|
    ensures Interrupt(s, e).items[k] ==
      if s.openCompaction == Some(k) && Compressing(s.items[k]) && !e.CompactionEnd?
      then s.items[k].(status := "interrupted") else s.items[k]
  {
    hide WellFormed, SetRow;
    OpenInRange(s);
    if s.openCompaction.Some? && Compressing(s.items[s.openCompaction.value]) {
      SetNames(s, s.openCompaction.value, s.items[s.openCompaction.value].(status := "interrupted"));
    }
  }

  lemma CompactionPlace(s: Proj, es: seq<Event>)
    requires Located(s, es)
    ensures |s.items| == |Opened(es)|
    ensures s.openCompaction == if CompactionAt(es).Some? then Some(Rank(es, CompactionAt(es).value)) else None
  {
    hide InputsNamed, CallsNamed, ChildrenNamed, ManifestsNamed, ApprovalsNamed, Opened, OpenTurn, DraftAt;
    hide CompactionAt;
  }

  lemma CompactionNewest(es: seq<Event>, i: nat)
    requires i < |es|
    ensures es[i].CompactionStart? && |es| == i + 1 ==> CompactionAt(es) == Some(i)
  {
  }

  /** The row spoken to is where its name points, and reads as before. */
  lemma TargetRow(items: seq<ViewItem>, es: seq<Event>, e: Event, i: nat)
    requires PausedRows(items, es, e) && Target(es, e) == Some(i)
    ensures i < |es| && Opens(es[..i], es[i]) && Rank(es, i) < |items| && items[Rank(es, i)] == RowAt(es, i)
  {
    TargetOpens(es, e, i);
    TargetKind(es, e, i);
    OpenedAt(es, i);
    hide Opens, Opened, Rank, RowAt, Target;
    assert items[Rank(es, i)] == PausedRow(es, e, Rank(es, i));
  }

  lemma TargetKind(es: seq<Event>, e: Event, i: nat)
    requires Target(es, e) == Some(i)
    ensures i < |es| && (es[i].CompactionStart? ==> e.CompactionEnd?)
  {
  }

  lemma InputPlace(s: Proj, es: seq<Event>, id: string)
    requires Located(s, es)
    ensures Find(s.queuedUsers, id) == PlaceOf(es, WaitingAt(es, id))
  {
    hide PlaceOf, Opened, OpenTurn, WaitingAt, DraftAt, CompactionAt;
  }

  lemma UserRows(s: State, es: seq<Event>, e: Event)
    requires e.UserMessage? && Located(s, es) && PausedRows(s.items, es, e)
    ensures RowsShown(OnUserMessage(s, e.ts, e.content, e.inputId, e.attachments).items, es + [e])
  {
    var at := Target(es, e);
    UserItems(s, e);
    if Named(e.inputId) { InputPlace(s, es, e.inputId.value); }
    if at.Some? {
      TargetRow(s.items, es, e, at.value);
      WaitingOpens(es, e.inputId.value, at.value);
      TargetSpeaks(es, e);
      ReleaseReads(es, e, at.value);
    }
    if Opens(es, e) { NewRow(es, e); }
    hide WellFormed, OnUserMessage, Located, PausedRows, RowsShown, SpeaksTo, WaitingAt, Heard, Opened, Unqueued;
    RowsFollow(es, e, s.items, OnUserMessage(s, e.ts, e.content, e.inputId, e.attachments).items, at);
  }

  lemma UserItems(s: State, e: Event)
    requires e.UserMessage?
    ensures var r := OnUserMessage(s, e.ts, e.content, e.inputId, e.attachments).items;
      if e.content.None? then r == s.items
      else if Named(e.inputId) && e.inputId.value in s.queuedUsers then
        var p := s.queuedUsers[e.inputId.value];
        p < |s.items| && r == s.items[p := Unqueued(s.items[p], None)]
      else r == s.items + [User(e.content.value, e.ts, e.attachments, false, None, false, None)]
  {
    hide WellFormed, Unqueued, RetryOf, SetRow, AddRow, ClaimMessage;
    if e.content.Some? {
      var s1 := ClaimMessage(s, e.content, e.inputId, e.attachments);
      assert s1 == s.(turn := s1.turn);
      AddNames(s1, User(e.content.value, e.ts, e.attachments, false, None, false, None));
      if Named(e.inputId) && e.inputId.value in s1.queuedUsers {
        QueuedInRange(s1, e.inputId.value);
        var at := s1.queuedUsers[e.inputId.value];
        SetNames(s1, at, Unqueued(s1.items[at], None));
      }
    }
  }

  lemma QueuedRows(s: State, es: seq<Event>, e: Event)
    requires e.InputQueued? && Located(s, es) && PausedRows(s.items, es, e)
    ensures RowsShown(OnInputQueued(s, e.ts, e.content, e.inputId, e.attachments, e.steer).items, es + [e])
  {
    QueuedItems(s, e);
    if Opens(es, e) { NewRow(es, e); }
    CompactionPlace(s, es);
    hide WellFormed, OnInputQueued, Located, PausedRows, RowsShown, SpeaksTo, Heard, Opened;
    RowsFollow(es, e, s.items, OnInputQueued(s, e.ts, e.content, e.inputId, e.attachments, e.steer).items, None);
  }

  lemma QueuedItems(s: State, e: Event)
    requires e.InputQueued?
    ensures OnInputQueued(s, e.ts, e.content, e.inputId, e.attachments, e.steer).items ==
      if Queues(e) then s.items + [User(e.content.value, e.ts, e.attachments, true, e.inputId, e.steer, None)]
      else s.items
  {
    hide WellFormed, RetryOf, AddRow;
    if e.content.Some? { AddNames(s, User(e.content.value, e.ts, e.attachments, true, e.inputId, e.steer, None)); }
  }

  lemma SettledRows(s: State, es: seq<Event>, e: Event)
    requires e.InputSettled? && Located(s, es) && PausedRows(s.items, es, e)
    ensures RowsShown(OnInputSettled(s, e.inputId, e.outcome).items, es + [e])
  {
    var at := Target(es, e);
    SettledItems(s, e);
    if Named(e.inputId) { InputPlace(s, es, e.inputId.value); }
    if at.Some? {
      TargetRow(s.items, es, e, at.value);
      WaitingOpens(es, e.inputId.value, at.value);
      TargetSpeaks(es, e);
      ReleaseReads(es, e, at.value);
    }
    hide WellFormed, OnInputSettled, Located, RowsShown, SpeaksTo, WaitingAt, Heard, Opened, Unqueued;
    RowsFollow(es, e, s.items, OnInputSettled(s, e.inputId, e.outcome).items, at);
  }

  lemma SettledItems(s: State, e: Event)
    requires e.InputSettled?
    ensures var r := OnInputSettled(s, e.inputId, e.outcome).items;
      if Named(e.inputId) && e.inputId.value in s.queuedUsers then
        var p := s.queuedUsers[e.inputId.value];
        p < |s.items| && r == s.items[p := Unqueued(s.items[p], e.outcome)]
      else r == s.items
  {
    hide WellFormed, Unqueued, SetRow, ClaimSettled;
    if Named(e.inputId) {
      var s1 := ClaimSettled(s, e.inputId.value);
      assert s1 == s.(turn := s1.turn);
      if e.inputId.value in s1.queuedUsers {
        QueuedInRange(s1, e.inputId.value);
        var at := s1.queuedUsers[e.inputId.value];
        SetNames(s1, at, Unqueued(s1.items[at], e.outcome));
      }
    }
  }

  lemma DraftPlace(s: Proj, es: seq<Event>)
    requires Located(s, es)
    ensures s.draft == PlaceOf(es, DraftAt(es)) && s.openTurnId == OpenTurn(es) && |s.items| == |Opened(es)|
  {
    hide PlaceOf, Opened, OpenTurn, WaitingAt, DraftAt, CompactionAt;
  }

  lemma ChunkRows(s: State, es: seq<Event>, e: Event)
    requires e.AssistantChunk? && Located(s, es) && PausedRows(s.items, es, e)
    ensures RowsShown(OnChunk(s, e.ts, e.delta, e.thinking).items, es + [e])
  {
    var at := Target(es, e);
    DraftPlace(s, es);
    ChunkItems(s, e);
    if at.Some? {
      var i := at.value;
      TargetRow(s.items, es, e, i);
      Prefix(es, e, i);
      AnswerIs(es, i);
      AnswerIs(es + [e], i);
      StreamReads(es, e, i);
    }
    if Opens(es, e) { NewAnswer(es, e); }
    hide WellFormed, OnChunk, Located, PausedRows, RowsShown, SpeaksTo, DraftAt, Heard, Opened, Streamed, AnswerAt;
    hide RowAt;
    RowsFollow(es, e, s.items, OnChunk(s, e.ts, e.delta, e.thinking).items, at);
  }

  lemma ChunkItems(s: State, e: Event)
    requires e.AssistantChunk?
    ensures var r := OnChunk(s, e.ts, e.delta, e.thinking).items;
      if e.delta.None? then r == s.items
      else if s.draft.Some? then
        var p := s.draft.value;
        p < |s.items| && r == s.items[p := Streamed(s.items[p], e.delta.value, e.thinking)]
      else
        r == s.items
          + [Streamed(Answer("", e.ts, true, None, None, s.openTurnId), e.delta.value, e.thinking)]
  {
    hide WellFormed, Streamed, OpenDraft, SetRow;
    OpenInRange(s);
    if e.delta.Some? {
      OpenDraftNames(s, e.ts);
      var s1 := OpenDraft(s, e.ts);
      OpenInRange(s1);
      SetNames(s1, s1.draft.value, Streamed(s1.items[s1.draft.value], e.delta.value, e.thinking));
    }
  }

  /** A new answer starts with the event that opens it, in the open turn. */
  lemma NewAnswer(es: seq<Event>, e: Event)
    requires Opens(es, e) && IsAnswer(e)
    ensures Added(es, e) ==
      if e.AssistantChunk?
      then Streamed(Answer("", e.ts, true, None, None, OpenTurn(es)), e.delta.value, e.thinking)
      else Answer(OrElse(e.content, ""), e.ts, false, e.toolCalls, e.controls, OpenTurn(es))
  {
    hide Heard, RowAt, OpenTurn, AnswerRow, AnswerAt;
    NewRow(es, e);
    AnswerIs(es + [e], |es|);
    NewAnswerAt(es, e);
    hide Opens, Added;
    AnswerAlone(e, OpenTurn(es));
  }

  lemma NewAnswerAt(es: seq<Event>, e: Event)
    requires Heard(es + [e], |es|) == []
    ensures AnswerAt(es + [e], |es|) == AnswerRow([e], OpenTurn(es), false)
  {
    hide Heard, OpenTurn, AnswerRow;
    assert (es + [e])[..|es|] == es && [(es + [e])[|es|]] + [] == [e];
  }

  lemma AnswerAlone(e: Event, turnId: Option<string>)
    requires IsAnswer(e) && (e.AssistantChunk? ==> e.delta.Some?)
    ensures AnswerRow([e], turnId, false) ==
      if e.AssistantChunk? then Streamed(Answer("", e.ts, true, None, None, turnId), e.delta.value, e.thinking)
      else Answer(OrElse(e.content, ""), e.ts, false, e.toolCalls, e.controls, turnId)
  {
    hide Deltas, Rendering.Text;
    NoDeltas(e);
    assert e.AssistantChunk? ==> "" + e.delta.value == e.delta.value;
  }

  lemma NoDeltas(e: Event)
    ensures forall thinking ::
      Deltas([e], thinking) ==
        if e.AssistantChunk? && e.delta.Some? && e.thinking == thinking then [e.delta.value] else []
    ensures Rendering.Text([]) == ""
    ensures e.AssistantChunk? && e.delta.Some? ==> Rendering.Text([e.delta.value]) == e.delta.value
  {
    DeltasSnoc([], e, true);
    DeltasSnoc([], e, false);
    assert [] + [e] == [e];
    if e.AssistantChunk? && e.delta.Some? {
      TextSnoc([], e.delta.value);
      assert [] + [e.delta.value] == [e.delta.value] && "" + e.delta.value == e.delta.value;
    }
  }

  lemma MessageRows(s: State, es: seq<Event>, e: Event)
    requires e.AssistantMessage? && Located(s, es) && PausedRows(s.items, es, e)
    ensures RowsShown(OnMessage(s, e.ts, e.content, e.toolCalls, e.controls).items, es + [e])
  {
    var at := Target(es, e);
    DraftPlace(s, es);
    MessageItems(s, e);
    if at.Some? {
      var i := at.value;
      TargetRow(s.items, es, e, i);
      Prefix(es, e, i);
      AnswerIs(es, i);
      AnswerIs(es + [e], i);
      FinishReads(es, e, i);
    }
    if Opens(es, e) { NewAnswer(es, e); }
    hide WellFormed, OnMessage, Located, PausedRows, RowsShown, SpeaksTo, DraftAt, Heard, Opened, Finished;
    hide AnswerAt, RowAt;
    RowsFollow(es, e, s.items, OnMessage(s, e.ts, e.content, e.toolCalls, e.controls).items, at);
  }

  lemma MessageItems(s: State, e: Event)
    requires e.AssistantMessage?
    ensures var r := OnMessage(s, e.ts, e.content, e.toolCalls, e.controls).items;
      var text := OrElse(e.content, "");
      if s.draft.Some? then
        var p := s.draft.value;
        p < |s.items| && r == s.items[p := Finished(s.items[p], text, e.toolCalls, e.controls)]
      else if Named(e.content) || e.toolCalls.Some? then
        r == s.items + [Answer(text, e.ts, false, e.toolCalls, e.controls, s.openTurnId)]
      else r == s.items
  {
    hide WellFormed, Finished, AddAnswer, Listing, SetRow;
    OpenInRange(s);
    var text := OrElse(e.content, "");
    AddAnswerFields(s, Answer(text, e.ts, false, e.toolCalls, e.controls, s.openTurnId));
    if s.draft.Some? {
      SetNames(s, s.draft.value, Finished(s.items[s.draft.value], text, e.toolCalls, e.controls));
    }
  }

  lemma CallRows(s: State, es: seq<Event>, e: Event)
    requires e.CallMade? && Located(s, es) && PausedRows(s.items, es, e)
    ensures RowsShown(OnCall(s, e.ts, e.call).items, es + [e])
  {
    CallItems(s, e);
    if Opens(es, e) { NewRow(es, e); }
    CompactionPlace(s, es);
    hide WellFormed, OnCall, Located, PausedRows, RowsShown, SpeaksTo, Heard, Opened, McpServerOf;
    RowsFollow(es, e, s.items, OnCall(s, e.ts, e.call).items, None);
  }

  lemma CallItems(s: State, e: Event)
    requires e.CallMade?
    ensures OnCall(s, e.ts, e.call).items ==
      if e.call.None? then s.items
      else
        s.items
        + [Tool(e.call.value, e.ts, None, None, false, McpServerOf(e.call.value.name), None, None)]
  {
    hide WellFormed, McpServerOf;
  }

  lemma CallPlace(s: Proj, es: seq<Event>, id: string)
    requires Located(s, es)
    ensures Find(s.toolItems, id) == PlaceOf(es, CallAt(es, id))
  {
    hide PlaceOf, Opened, OpenTurn, CallAt, DraftAt, CompactionAt;
  }

  lemma ResultRows(s: State, es: seq<Event>, e: Event)
    requires e.CallDone? && Located(s, es) && PausedRows(s.items, es, e)
    ensures RowsShown(OnResult(s, e).items, es + [e])
  {
    var at := Target(es, e);
    ResultItems(s, e);
    if e.callId.Some? { CallPlace(s, es, e.callId.value); }
    if at.Some? {
      TargetRow(s.items, es, e, at.value);
      TargetSpeaks(es, e);
      SettleReads(es, e, at.value);
    }
    hide WellFormed, OnResult, Located, RowsShown, SpeaksTo, CallAt, Heard, Opened, Settle;
    RowsFollow(es, e, s.items, OnResult(s, e).items, at);
  }

  lemma ResultItems(s: State, e: Event)
    requires e.CallDone?
    ensures var r := OnResult(s, e).items;
      if e.callId.Some? && e.callId.value in s.toolItems then
        var p := s.toolItems[e.callId.value];
        p < |s.items| && r == s.items[p := Settle(s.items[p], e)]
      else r == s.items
  {
    hide WellFormed, Settle, SetRow;
    if e.callId.Some? && e.callId.value in s.toolItems {
      CallInRange(s, e.callId.value);
      SetNames(s, s.toolItems[e.callId.value], Settle(s.items[s.toolItems[e.callId.value]], e));
    }
  }

  /** Decisions, hooks and errors: a row of their own, or nothing. */
  lemma AuditRows(s: State, es: seq<Event>, e: Event, row: Option<ViewItem>)
    requires PausedRows(s.items, es, e) && Target(es, e).None? && !e.TurnEnd?
    requires row.Some? <==> Opens(es, e)
    requires Opens(es, e) ==> row == Some(Added(es, e))
    ensures RowsShown(AddIf(s, row).items, es + [e])
  {
    hide WellFormed, PausedRow, RowsShown, SpeaksTo, Heard, Opened, Opens, Added;
    assert |s.items| == |Opened(es)|;
    RowsFollow(es, e, s.items, AddIf(s, row).items, None);
  }

  lemma DecisionIs(approvals: map<string, ToolCall>, es: seq<Event>, e: Event)
    requires e.ApprovalDecision? && ApprovalsNamed(approvals, es)
    ensures var row := DecisionRow(approvals, e.ts, e.approvalId, e.decision);
      && (row.Some? <==> Opens(es, e)) && (Opens(es, e) ==> row == Some(Added(es, e)))
  {
    if Opens(es, e) {
      NewRow(es, e);
      hide Heard, ToolTarget;
      var call := if e.approvalId.Some? then AskedFor(es, e.approvalId.value) else None;
      if e.approvalId.Some? { assert Find(approvals, e.approvalId.value) == AskedFor(es, e.approvalId.value); }
      if e.decision.value == "allow" || e.decision.value == "deny" { DecisionWords(e.decision.value, call); }
    }
  }

  lemma DecisionWords(decision: string, call: Option<ToolCall>)
    requires decision == "allow" || decision == "deny"
    ensures DecisionText(decision, call) == DecisionShown(decision, call)
  {
    hide ToolTarget;
    var head := (if decision == "allow" then "Allowed" else "Denied") + Dot;
    if call.Some? {
      var name, target := call.value.name, ToolTarget(call.value.args);
      assert head + name + "" == head + name;
      assert (head + name) + (Dot + target) == head + ((name + Dot) + target);
    } else {
      assert head + "unknown tool" + "" == head + "unknown tool";
    }
  }

  lemma HookIs(es: seq<Event>, e: Event)
    requires e.HookRun?
    ensures (HookRow(e).Some? <==> Opens(es, e)) && (Opens(es, e) ==> HookRow(e) == Some(Added(es, e)))
  {
    if Opens(es, e) {
      NewRow(es, e);
      hide Heard;
    }
  }

  lemma ErrorIs(es: seq<Event>, e: Event)
    requires e.TurnError?
    ensures var row := ErrorRow(Project(es).turn, e);
      && (row.Some? <==> Opens(es, e)) && (Opens(es, e) ==> row == Some(Added(es, e)))
  {
    hide Project, InputAt, ClaimAt, CalledSince, FirstClaims;
    var at := ClaimedInputs(es);
    var again := TurnInputsKnown(es);
    hide TurnHolds, ClaimsSince;
    if Opens(es, e) {
      NewRow(es, e);
      hide Heard, FirstClaims, Carries;
    }
  }

  lemma SpawnRows(s: State, es: seq<Event>, e: Event)
    requires e.ChildSpawn? && e.childSessionId.Some? && PausedRows(s.items, es, e)
    ensures RowsShown(Spawn(s, e.ts, e.childSessionId.value, e.definition, e.brief, e.objective).items, es + [e])
  {
    SpawnItems(s, e);
    NewChildRow(es, e);
    assert |s.items| == |Opened(es)|;
    hide WellFormed, Spawn, PausedRows, RowsShown, SpeaksTo, Heard, Opened, RowAt;
    RowsFollow(es, e, s.items,
               Spawn(s, e.ts, e.childSessionId.value, e.definition, e.brief, e.objective).items, None);
  }

  lemma SpawnItems(s: State, e: Event)
    requires (e.ChildSpawn? || e.ChildResult?) && e.childSessionId.Some?
    ensures Spawn(s, e.ts, e.childSessionId.value, e.definition, e.brief, e.objective).items ==
      s.items + [Delegation(e.childSessionId.value, OrElse(e.definition, ""), OrElse(Later(e.brief, e.objective), ""),
                            e.ts, "running")]
  {
    hide WellFormed;
  }

  lemma NewChildRow(es: seq<Event>, e: Event)
    requires Opens(es, e) && (e.ChildSpawn? || e.ChildResult?)
    ensures e.childSessionId.Some? && Added(es, e) ==
      Delegation(e.childSessionId.value, OrElse(e.definition, ""), OrElse(Later(e.brief, e.objective), ""), e.ts,
                 OrElse(Ending(e), "running"))
  {
    NewRow(es, e);
    assert [e] + [] == [] + [e];
    LatestSnoc([], e, Ending);
  }

  lemma ChildPlace(s: Proj, es: seq<Event>, id: string)
    requires Located(s, es)
    ensures Find(s.delegations, id) == PlaceOf(es, ChildAt(es, id))
  {
    hide PlaceOf, Opened, OpenTurn, ChildAt, DraftAt, CompactionAt;
  }

  lemma ChildRows(s: State, es: seq<Event>, e: Event)
    requires e.ChildResult? && Located(s, es) && PausedRows(s.items, es, e)
    ensures RowsShown(OnChildResult(s, e).items, es + [e])
  {
    var at := Target(es, e);
    ChildItems(s, e);
    if e.childSessionId.Some? { ChildPlace(s, es, e.childSessionId.value); }
    if at.Some? {
      TargetRow(s.items, es, e, at.value);
      TargetSpeaks(es, e);
      ChildReads(es, e, at.value);
    }
    if Opens(es, e) { NewChildRow(es, e); }
    hide WellFormed, OnChildResult, Located, RowsShown, SpeaksTo, ChildAt, Heard, Opened, RowAt;
    RowsFollow(es, e, s.items, OnChildResult(s, e).items, at);
  }

  lemma ChildItems(s: State, e: Event)
    requires e.ChildResult?
    ensures var r := OnChildResult(s, e).items;
      if e.childSessionId.None? then r == s.items
      else if e.childSessionId.value in s.delegations then
        var p := s.delegations[e.childSessionId.value];
        p < |s.items| && r == if Ending(e).Some? then s.items[p := Ended(s.items[p], Ending(e).value)] else s.items
      else
        r == s.items
          + [Delegation(e.childSessionId.value, OrElse(e.definition, ""), OrElse(Later(e.brief, e.objective), ""),
                        e.ts, OrElse(Ending(e), "running"))]
  {
    hide WellFormed, Ended, Spawn;
    if e.childSessionId.Some? {
      var id := e.childSessionId.value;
      SpawnItems(s, e);
      SpawnFields(s, e.ts, id, e.definition, e.brief, e.objective);
      if id in s.delegations { ChildInRange(s, id); }
      EndedNew(id, OrElse(e.definition, ""), OrElse(Later(e.brief, e.objective), ""), e.ts, OrElse(e.status, ""));
    }
  }

  lemma EndedNew(id: string, definition: string, brief: string, ts: Option<nat>, outcome: string)
    ensures Ended(Delegation(id, definition, brief, ts, "running"), outcome) ==
      Delegation(id, definition, brief, ts, outcome)
  {
  }

  lemma ManifestPlace(s: Proj, es: seq<Event>)
    requires Located(s, es)
    ensures KeyOf(s) == MarkerKey(es)
    ensures Find(s.turnContexts, KeyOf(s)) == PlaceOf(es, ManifestAt(es, MarkerKey(es)))
  {
    hide PlaceOf, Opened, OpenTurn, ManifestAt, DraftAt, CompactionAt;
  }

  lemma ManifestRows(s: State, es: seq<Event>, e: Event)
    requires e.ContextManifest? && Located(s, es) && PausedRows(s.items, es, e)
    ensures RowsShown(OnManifest(s, e.ts, e.manifest).items, es + [e])
  {
    var at := Target(es, e);
    ManifestItems(s, e);
    ManifestPlace(s, es);
    if at.Some? {
      TargetRow(s.items, es, e, at.value);
      TargetSpeaks(es, e);
      RefreshReads(es, e, at.value);
    }
    if Opens(es, e) { NewRow(es, e); }
    hide WellFormed, OnManifest, Located, RowsShown, SpeaksTo, ManifestAt, Heard, Opened, Refreshed, MarkerKey;
    RowsFollow(es, e, s.items, OnManifest(s, e.ts, e.manifest).items, at);
  }

  lemma ManifestItems(s: State, e: Event)
    requires e.ContextManifest?
    ensures var r := OnManifest(s, e.ts, e.manifest).items;
      if e.manifest.None? then r == s.items
      else if KeyOf(s) in s.turnContexts then
        var p := s.turnContexts[KeyOf(s)];
        p < |s.items| && r == s.items[p := Refreshed(s.items[p], e.manifest.value)]
      else r == s.items + [Context(e.ts, e.manifest.value, 1)]
  {
    hide WellFormed, Refreshed, SetRow, AddRow;
    if e.manifest.Some? {
      var key := KeyOf(s);
      AddNames(s, Context(e.ts, e.manifest.value, 1));
      if key in s.turnContexts {
        ContextInRange(s, key);
        SetNames(s, s.turnContexts[key], Refreshed(s.items[s.turnContexts[key]], e.manifest.value));
      }
    }
  }

  lemma StartRows(s: State, es: seq<Event>, e: Event)
    requires e.CompactionStart? && PausedRows(s.items, es, e)
    ensures RowsShown(OnCompactionStart(s, e.ts, e.trigger, e.model).items, es + [e])
  {
    StartItems(s, e);
    NewRow(es, e);
    assert |s.items| == |Opened(es)|;
    hide WellFormed, OnCompactionStart, PausedRows, RowsShown, SpeaksTo, Heard, Opened;
    RowsFollow(es, e, s.items, OnCompactionStart(s, e.ts, e.trigger, e.model).items, None);
  }

  lemma StartItems(s: State, e: Event)
    requires e.CompactionStart?
    ensures OnCompactionStart(s, e.ts, e.trigger, e.model).items ==
      s.items + [Compacting(e.ts, "running", e.trigger, e.model, None, None, None, None, None)]
  {
    hide WellFormed;
  }

  lemma EndRows(s: State, es: seq<Event>, e: Event)
    requires e.CompactionEnd? && Located(s, es) && PausedRows(s.items, es, e)
    ensures RowsShown(OnCompactionEnd(s, e).items, es + [e])
  {
    var at := Target(es, e);
    EndItems(s, e);
    CompactionPlace(s, es);
    if at.Some? {
      TargetRow(s.items, es, e, at.value);
      CompactionOpens(es, at.value);
      TargetSpeaks(es, e);
      PatchReads(es, e, at.value);
    }
    if Opens(es, e) { NewEnd(es, e); }
    hide WellFormed, OnCompactionEnd, Located, RowsShown, SpeaksTo, CompactionAt, Heard, Opened, Patch, RowAt;
    RowsFollow(es, e, s.items, OnCompactionEnd(s, e).items, at);
  }

  lemma NewEnd(es: seq<Event>, e: Event)
    requires e.CompactionEnd? && Opens(es, e)
    ensures Added(es, e) == Patch(Compacting(e.ts, "running", None, None, None, None, None, None, None), e)
  {
    NewRow(es, e);
    hide Opens, Heard;
  }

  lemma EndItems(s: State, e: Event)
    requires e.CompactionEnd?
    ensures var r := OnCompactionEnd(s, e).items;
      if s.openCompaction.Some? then
        var p := s.openCompaction.value;
        p < |s.items| && r == s.items[p := Patch(s.items[p], e)]
      else r == s.items + [Patch(Compacting(e.ts, "running", None, None, None, None, None, None, None), e)]
  {
    hide WellFormed, Patch, SetRow, AddRow;
    OpenInRange(s);
    AddNames(s, Patch(Compacting(e.ts, "running", None, None, None, None, None, None, None), e));
    if s.openCompaction.Some? {
      SetNames(s, s.openCompaction.value, Patch(s.items[s.openCompaction.value], e));
    }
  }

  // ---------- a turn's end ----------

  /** A row after a turn's end: the draft stops, the turn's answers close, the newest children are interrupted. */
  function EndedRow(row: ViewItem, draft: bool, closing: Option<string>, child: bool): ViewItem {
    if row.Assistant? then LeftOpen(row, draft, row.turnId.Some? && row.turnId == closing)
    else if child then Interrupted(row) else row
  }

  lemma StoppedRow(s: State, k: nat)
    requires k < |s.items|
    ensures k < |EndDraft(s).items|
    ensures EndDraft(s).items[k] == if s.draft == Some(k) then Stopped(s.items[k]) else s.items[k]
  {
    hide WellFormed, Stopped, SetRow;
    OpenInRange(s);
    if s.draft.Some? { SetNames(s, s.draft.value, Stopped(s.items[s.draft.value])); }
  }

  /** An answer is closed exactly when it belongs to the turn. */
  lemma ClosedRow(s: State, id: string, k: nat)
    requires Tidy(s) && k < |s.items|
    ensures k < |CloseTurn(s, id).items|
    ensures var row := s.items[k];
      CloseTurn(s, id).items[k] ==
        if row.Assistant? && row.turnId == Some(id) then row.(turnOpen := false) else row
  {
    hide WellFormed, OneDraft, OneCompaction, Queue, Calls, Children, Markers;
    var rows := if id in s.turnAssistants then s.turnAssistants[id] else [];
    if k in rows {
      var j :| 0 <= j < |rows| && rows[j] == k;
      assert AnswerOf(s.items[s.turnAssistants[id][j]], id);
    } else if s.items[k].Assistant? && s.items[k].turnOpen {
      assert Listed(s.turnAssistants, k, s.items[k].turnId);
    }
  }

  lemma LeftRow(s: State, e: Event, k: nat)
    requires e.TurnEnd? && Tidy(s) && k < |s.items|
    ensures k < |LeaveTurn(s, e.turnId).items|
    ensures var row, closing := s.items[k], Closing(s, e.turnId);
      LeaveTurn(s, e.turnId).items[k] ==
        if row.Assistant? && row.turnId.Some? && row.turnId == closing then row.(turnOpen := false) else row
  {
    hide WellFormed, Tidy, CloseTurn;
    var closing := Closing(s, e.turnId);
    if closing.Some? { ClosedRow(s, closing.value, k); }
  }

  lemma ChildrenRow(s: State, k: nat)
    requires k < |s.items|
    ensures k < |InterruptChildren(s).items|
    ensures InterruptChildren(s).items[k] ==
      if k in s.delegations.Values then Interrupted(s.items[k]) else s.items[k]
  {
    hide WellFormed, Interrupted;
  }

  lemma AddIfRow(s: State, row: Option<ViewItem>, k: nat)
    requires k < |s.items|
    ensures k < |AddIf(s, row).items| && AddIf(s, row).items[k] == s.items[k]
    ensures row.Some? ==> |AddIf(s, row).items| == |s.items| + 1 && AddIf(s, row).items[|s.items|] == row.value
  {
    hide WellFormed;
  }

  lemma TurnRow(s: State, e: Event, k: nat)
    requires e.TurnEnd? && Tidy(s) && k < |s.items|
    ensures k < |OnTurnEnd(s, e.turnId, e.reason).items|
    ensures OnTurnEnd(s, e.turnId, e.reason).items[k] ==
      EndedRow(s.items[k], s.draft == Some(k), Closing(s, e.turnId), k in s.delegations.Values)
  {
    hide WellFormed, Tidy, Good, EndDraft, LeaveTurn, InterruptChildren, AddIf;
    var s1 := EndDraft(s);
    StoppedRow(s, k);
    EndDraftNames(s);
    EndDraftGood(s);
    TidyOf(s, s1);
    var s2 := LeaveTurn(s1, e.turnId);
    LeftRow(s1, e, k);
    LeaveNames(s1, e);
    ChildrenRow(s2, k);
    AddIfRow(InterruptChildren(s2), if e.reason.Some? then Some(Status(e.reason.value, None)) else None, k);
  }

  lemma TurnAdds(s: State, e: Event)
    requires e.TurnEnd?
    ensures var r := OnTurnEnd(s, e.turnId, e.reason).items;
      && |r| == |s.items| + (if e.reason.Some? then 1 else 0)
      && (e.reason.Some? ==> r[|s.items|] == Status(e.reason.value, None))
  {
    hide WellFormed, EndDraft, LeaveTurn, InterruptChildren;
    var s1 := EndDraft(s);
    var s2 := LeaveTurn(s1, e.turnId);
    EndDraftNames(s);
    LeaveNames(s1, e);
    ChildrenNames(s2);
  }

  lemma RowKind(es: seq<Event>, i: nat)
    requires i < |es| && Opens(es[..i], es[i])
    ensures RowAt(es, i).Assistant? <==> IsAnswer(es[i])
    ensures RowAt(es, i).Delegation? <==> es[i].ChildSpawn? || es[i].ChildResult?
  {
    hide Heard, OpenTurn, Rendering.Text, Deltas;
  }

  /** The projector lists the newest row of each child. */
  lemma NewestListed(s: Proj, es: seq<Event>, i: nat)
    requires ChildrenNamed(s.delegations, es) && i < |es| && Opens(es[..i], es[i])
    ensures Rank(es, i) in s.delegations.Values <==> Newest(es, i)
  {
    hide Opens, ChildAt, Opened, Rank;
    OpenedAt(es, i);
    if Newest(es, i) {
      var id := es[i].childSessionId.value;
      Placed(s.delegations, es, id, ChildAt(es, id));
      assert s.delegations[id] == Rank(es, i);
    }
    if Rank(es, i) in s.delegations.Values {
      var id :| id in s.delegations && s.delegations[id] == Rank(es, i);
      Placed(s.delegations, es, id, ChildAt(es, id));
      var c := ChildAt(es, id).value;
      ChildOpens(es, id, c);
      OpenedAt(es, c);
    }
  }

  lemma DraftListed(s: Proj, es: seq<Event>, i: nat)
    requires s.draft == PlaceOf(es, DraftAt(es)) && i < |es| && Opens(es[..i], es[i])
    ensures s.draft == Some(Rank(es, i)) <==> DraftAt(es) == Some(i)
  {
    OpenedAt(es, i);
    hide Opens, Opened, Rank, DraftAt;
    if DraftAt(es).Some? {
      var d := DraftAt(es).value;
      DraftOpens(es, d);
      OpenedAt(es, d);
    }
  }

  lemma TurnRowShown(s: State, es: seq<Event>, e: Event, k: nat)
    requires e.TurnEnd? && Located(s, es) && Tidy(s) && k < |s.items| == |Opened(es)|
    requires s.items[k] == PausedRow(es, e, k)
    ensures var i := Opened(es)[k];
      && i < |es| && Opens(es[..i], es[i])
      && k < |OnTurnEnd(s, e.turnId, e.reason).items|
      && OnTurnEnd(s, e.turnId, e.reason).items[k] == After(es, e, i)
  {
    TurnRow(s, e, k);
    OpenedOpens(es, k);
    var i := Opened(es)[k];
    DraftPlace(s, es);
    ChildrenLocated(s, es);
    NewestListed(s, es, i);
    DraftListed(s, es, i);
    RowKind(es, i);
    Prefix(es, e, i);
    EndSpeaks(es, e, i);
    hide WellFormed, OnTurnEnd, Located, Tidy, Opens, Opened, Rank, DraftAt, ChildAt, RowAt, AnswerAt, SpeaksTo, Heard;
    hide OpenTurn, Newest;
    if IsAnswer(es[i]) {
      AnswerIs(es, i);
      AnswerIs(es + [e], i);
      StopReads(es, e, i);
    } else if Newest(es, i) {
      ChildReads(es, e, i);
    } else {
      Kept(es, e, i);
    }
  }

  lemma ChildrenLocated(s: Proj, es: seq<Event>)
    requires Located(s, es)
    ensures ChildrenNamed(s.delegations, es)
  {
    hide PlaceOf, Opened, OpenTurn, ChildAt, DraftAt, CompactionAt;
  }

  lemma EndSpeaks(es: seq<Event>, e: Event, i: nat)
    requires e.TurnEnd? && i < |es|
    ensures SpeaksTo(es, e, i) <==> DraftAt(es) == Some(i) || Newest(es, i)
    ensures DraftAt(es) == Some(i) ==> IsAnswer(es[i])
    ensures Newest(es, i) ==> es[i].ChildSpawn? || es[i].ChildResult?
  {
  }

  lemma TurnRows(s: State, es: seq<Event>, e: Event)
    requires e.TurnEnd? && Located(s, es) && Tidy(s) && PausedRows(s.items, es, e)
    ensures RowsShown(OnTurnEnd(s, e.turnId, e.reason).items, es + [e])
  {
    TurnAdds(s, e);
    if Opens(es, e) { NewRow(es, e); }
    OpenedSnoc(es, e);
    hide WellFormed, OnTurnEnd, Located, Tidy, Opened, Heard, Opens, PausedRow;
    var r := OnTurnEnd(s, e.turnId, e.reason).items;
    forall k | 0 <= k < |r| ensures r[k] == Shown(es + [e], k) {
      if k < |s.items| { TurnRowShown(s, es, e, k); }
    }
  }

  // ---------- for every log ----------

  lemma NothingRows(items: seq<ViewItem>, es: seq<Event>, e: Event)
    requires PausedRows(items, es, e) && Target(es, e).None? && !Opens(es, e) && !e.TurnEnd?
    ensures RowsShown(items, es + [e])
  {
    hide PausedRow, RowsShown, SpeaksTo, Heard, Opened, Opens, Target;
    assert |items| == |Opened(es)|;
    RowsFollow(es, e, items, items, None);
  }

  lemma HandleRows(s: State, es: seq<Event>, e: Event)
    requires Located(s, es) && Tidy(s) && PausedRows(s.items, es, e) && s.turn == Project(es).turn
    ensures RowsShown(Handle(s, e).items, es + [e])
  {
    hide Located, Tidy, PausedRows, RowsShown, WellFormed, OnUserMessage, OnInputQueued, OnInputSettled, OnChunk;
    hide OnMessage, OnCall, OnResult, Spawn, OnChildResult, OnManifest, OnCompactionEnd, OnTurnEnd, OnTurnStart;
    hide OnApprovalRequest, OnCompactionStart, AddIf, ErrorRow, DecisionRow, HookRow, Fold, Added;
    match e {
      case UserMessage(_, _, _, _, _) => UserRows(s, es, e);
      case InputQueued(_, _, _, _, _, _) => QueuedRows(s, es, e);
      case InputSettled(_, _, _, _) => SettledRows(s, es, e);
      case AssistantChunk(_, _, _, _, _) => ChunkRows(s, es, e);
      case AssistantMessage(_, _, _, _, _, _) => MessageRows(s, es, e);
      case CallMade(_, _, _) => CallRows(s, es, e);
      case CallDone(_, _, _, _, _, _, _, _) => ResultRows(s, es, e);
      case ChildSpawn(_, _, Some(_), _, _, _) => SpawnRows(s, es, e);
      case ChildResult(_, _, _, _, _, _, _) => ChildRows(s, es, e);
      case ContextManifest(_, _, _) => ManifestRows(s, es, e);
      case CompactionStart(_, _, _, _) => StartRows(s, es, e);
      case CompactionEnd(_, _, _, _, _, _, _, _, _) => EndRows(s, es, e);
      case TurnEnd(_, _, _, _) => TurnRows(s, es, e);
      case TurnError(_, _, _, _) =>
        ErrorIs(es, e);
        AuditRows(s, es, e, ErrorRow(s.turn, e));
      case ApprovalDecision(_, ts, id, decision) =>
        ApprovalsLocated(s, es);
        DecisionIs(s.approvals, es, e);
        AuditRows(s, es, e, DecisionRow(s.approvals, ts, id, decision));
      case HookRun(_, _, _, _, _, _) =>
        HookIs(es, e);
        AuditRows(s, es, e, HookRow(e));
      case _ =>
        SameItemsRest(s, e);
        NothingRows(s.items, es, e);
    }
  }

  lemma SameItemsRest(s: State, e: Event)
    requires e.TurnStart? || e.ApprovalRequest? || e.ContextBody? || e.ProcessStart? || e.ProcessExit? || e.Other?
      || (e.ChildSpawn? && e.childSessionId.None?)
    ensures Handle(s, e).items == s.items
  {
    hide WellFormed;
  }

  lemma ApprovalsLocated(s: Proj, es: seq<Event>)
    requires Located(s, es)
    ensures ApprovalsNamed(s.approvals, es)
  {
    hide PlaceOf, Opened, OpenTurn, ChildAt, DraftAt, CompactionAt, AskedFor;
  }

  lemma {:induction false} RowsFolded(es: seq<Event>)
    ensures RowsShown(ProjectItems(es), es)
  {
    hide RowsShown, PausedRows, Located, Tidy, WellFormed, Interrupt, Handle, Good, Fold;
    if es == [] {
      NoRowsYet();
    } else {
      var front, e := es[..|es| - 1], es[|es| - 1];
      assert es == front + [e];
      RowsFolded(front);
      FoldSnoc<State>(Step, Empty, front, e);
      var s := Project(front);
      NamesLocated(front);
      TranscriptTidy(front);
      InterruptNames(s, e);
      InterruptGood(s, e);
      var t := Interrupt(s, e);
      TidyOf(s, t);
      LocatedItems(s, t, front);
      PauseRows(s, front, e);
      HandleRows(t, front, e);
    }
  }

  lemma NoRowsYet()
    ensures RowsShown(ProjectItems([]), [])
  {
  }

  /**
   * For every log, the transcript is exactly its rows: one for each event that opens one, in log order, each
   * reading as the events that spoke to it left it.
   */
  lemma TranscriptIsRows(es: seq<Event>)
    ensures ProjectItems(es) == RowsOf(es)
  {
    RowsFolded(es);
    hide ProjectItems, Opened, Shown;
  }

  // ---------- bubbles, in so many words ----------

  predicate About(e: Event, id: string) {
    (Queues(e) || Frees(e)) && e.inputId.value == id
  }

  /** The first event about the input since its queueing at `i`, and it frees it. */
  ghost predicate FreedAt(es: seq<Event>, i: nat, j: nat)
    requires i < |es| && Queues(es[i])
  {
    && i < j < |es| && Frees(es[j]) && es[j].inputId == es[i].inputId
    && forall k | i < k < j :: !About(es[k], es[i].inputId.value)
  }

  lemma {:induction false} WaitingMeans(es: seq<Event>, i: nat)
    requires i < |es| && Queues(es[i])
    ensures WaitingAt(es, es[i].inputId.value) == Some(i) <==>
      forall k | i < k < |es| :: !About(es[k], es[i].inputId.value)
  {
    var n, id := |es| - 1, es[i].inputId.value;
    if i < n {
      var front := es[..n];
      WaitingMeans(front, i);
      assert forall k | i < k < n :: es[k] == front[k];
      assert About(es[n], id) ==> WaitingAt(es, id) != Some(i);
      if !About(es[n], id) && WaitingAt(front, id) == Some(i) {
        forall k | i < k < |es| ensures !About(es[k], id) {
          assert k < n ==> !About(front[k], id);
        }
      }
    }
  }

  lemma {:induction false} HeardMeans(es: seq<Event>, i: nat)
    requires i < |es| && Queues(es[i])
    ensures Heard(es, i) == [] || exists j: nat :: FreedAt(es, i, j)
    ensures forall j: nat | FreedAt(es, i, j) :: Heard(es, i) == [es[j]]
  {
    var n := |es| - 1;
    if i < n {
      var front := es[..n];
      HeardMeans(front, i);
      WaitingMeans(front, i);
      FreeSpeaks(front, es[n], i);
      FreedBefore(front, es[n], i);
      assert es == front + [es[n]];
      HeardSnoc(front, es[n], i);
      hide SpeaksTo, Frees, About, FreedAt, Heard, WaitingAt, Queues;
      if SpeaksTo(front, es[n], i) { WaitingOpens(front, es[i].inputId.value, i); }
    }
  }

  lemma FreeSpeaks(es: seq<Event>, e: Event, i: nat)
    requires i < |es| && Queues(es[i])
    ensures SpeaksTo(es, e, i) <==>
      Frees(e) && e.inputId == es[i].inputId && WaitingAt(es, es[i].inputId.value) == Some(i)
  {
  }

  lemma FreedBefore(es: seq<Event>, e: Event, i: nat)
    requires i < |es| && Queues(es[i])
    ensures forall j: nat | j < |es| :: FreedAt(es + [e], i, j) <==> FreedAt(es, i, j)
    ensures forall j: nat | FreedAt(es + [e], i, j) :: j <= |es|
    ensures FreedAt(es + [e], i, |es|) <==>
      Frees(e) && e.inputId == es[i].inputId && forall k | i < k < |es| :: !About(es[k], es[i].inputId.value)
  {
    hide About, Frees;
    var all := es + [e];
    assert forall k | 0 <= k < |es| :: all[k] == es[k];
    forall j: nat | j < |es| ensures FreedAt(all, i, j) <==> FreedAt(es, i, j) {}
  }

  /**
   * The bubble of a queued input carries its event's own words, and waits exactly until the input is shown or
   * settled before it is queued again; a refusal is that settlement's.
   */
  lemma BubbleReads(es: seq<Event>, i: nat)
    requires i < |es| && Queues(es[i])
    ensures Opens(es[..i], es[i])
    ensures var row := RowAt(es, i);
      && row.User? && row.content == es[i].content.value && row.ts == es[i].ts && row.attachments == es[i].attachments
      && (row.queued <==> !exists j: nat :: FreedAt(es, i, j))
      && (row.queued ==> row.inputId == es[i].inputId && row.steer == es[i].steer && row.notSent.None?)
      && forall j: nat | FreedAt(es, i, j) ::
           row.notSent == if es[j].InputSettled? && es[j].outcome in {Some("rejected"), Some("empty")}
                          then es[j].outcome else None
  {
    hide FreedAt, Heard;
    HeardMeans(es, i);
  }

  // ---------- what a call is shown as ----------

  predicate Says(arg: Arg, text: string) {
    arg.value == Text(text) && text != ""
  }

  /** A decision names the call's first argument that is a text and not empty. */
  lemma {:induction false} ToolTargetMeans(args: seq<Arg>)
    ensures var target := ToolTarget(args);
      if target == "" then forall k | 0 <= k < |args| && args[k].value.Text? :: args[k].value.text == ""
      else exists k :: 0 <= k < |args| && Says(args[k], target)
             && forall j | 0 <= j < k && args[j].value.Text? :: args[j].value.text == ""
  {
    if args != [] {
      var rest := args[1..];
      ToolTargetMeans(rest);
      if args[0].value.Text? && args[0].value.text != "" {
        assert Says(args[0], ToolTarget(args));
      } else {
        assert forall k | 0 < k < |args| :: args[k] == rest[k - 1];
        if ToolTarget(args) != "" {
          var k :| 0 <= k < |rest| && Says(rest[k], ToolTarget(rest))
            && forall j | 0 <= j < k && rest[j].value.Text? :: rest[j].value.text == "";
          assert Says(args[k + 1], ToolTarget(args));
        }
      }
    }
  }

  /** The first double underscore of the text. */
  ghost predicate SplitsAt(s: string, at: nat) {
    && at + 2 <= |s| && s[at] == '_' && s[at + 1] == '_'
    && forall k | 0 <= k < at :: !(s[k] == '_' && s[k + 1] == '_')
  }

  lemma {:induction false} IndexOfMeans(s: string)
    ensures match IndexOf(s, "__")
      case Some(at) => SplitsAt(s, at)
      case None => forall k | 0 <= k && k + 1 < |s| :: !(s[k] == '_' && s[k + 1] == '_')
  {
    if "__" <= s {
      assert s[0] == "__"[0] && s[1] == "__"[1];
    } else if s != "" {
      assert |s| >= 2 ==> s[..2] != "__";
      var rest := s[1..];
      IndexOfMeans(rest);
      assert forall k | 0 < k < |s| :: s[k] == rest[k - 1];
    }
  }

  /** A tool of an MCP server is named `mcp__<server>__<tool>`; the server's name is not empty. */
  lemma McpServerMeans(name: string, server: string)
    ensures McpServerOf(name) == Some(server) <==>
      && "mcp__" <= name && server != "" && server <= name[5..] && SplitsAt(name[5..], |server|)
  {
    if "mcp__" <= name {
      IndexOfMeans(name[5..]);
      OneSplit(name[5..], server);
    }
  }

  lemma OneSplit(s: string, server: string)
    ensures forall a: nat, b: nat | SplitsAt(s, a) && SplitsAt(s, b) :: a == b
    ensures server <= s ==> s[..|server|] == server
  {
  }
}