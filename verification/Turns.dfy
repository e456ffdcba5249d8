/**
 * What the transcript knows of the running turn (web/lib/project.ts:171-183,
 * 214-293, 347-348, 506-519), said of the log alone: which turn is open, and what
 * a retry of a failed turn sends again.
 */
module Turns {
  import opened Events
  import opened P = Projection
  import opened Transcript

  // ---------- one event ----------

  /** Nothing about turns and accepted inputs changes. */
  predicate SameTurn(s: Proj, r: Proj) {
    r.openTurnId == s.openTurnId && r.acceptedInputs == s.acceptedInputs && r.turn == s.turn
  }

  /** A claimed input joins its turn once, as it was accepted if it was. */
  function Claimed(turn: TurnInputs, id: string, input: RetryInput): TurnInputs {
    if id in turn.ids then turn else turn.(ids := turn.ids + {id}, inputs := turn.inputs + [input])
  }

  function AcceptedOr(accepted: map<string, RetryInput>, id: string, own: RetryInput): RetryInput {
    if id in accepted then accepted[id] else own
  }

  /** The turn's inputs after one event. */
  function TurnAfter(turn: TurnInputs, accepted: map<string, RetryInput>, e: Event): TurnInputs {
    match e
    case TurnStart(_, _, _) => NoInputs
    case UserMessage(_, _, content, id, attachments) =>
      var own := RetryOf(content, attachments);
      if content.None? then turn
      else if Named(id) then Claimed(turn, id.value, AcceptedOr(accepted, id.value, own))
      else turn.(legacy := turn.legacy + [own])
    case InputSettled(_, _, id, _) =>
      if Named(id) && id.value in accepted then Claimed(turn, id.value, accepted[id.value]) else turn
    case CallMade(_, _, call) => if call.Some? then turn.(toolsRan := true) else turn
    case _ => turn
  }

  function AcceptedAfter(accepted: map<string, RetryInput>, e: Event): map<string, RetryInput> {
    if Queues(e) then accepted[e.inputId.value := RetryOf(e.content, e.attachments)] else accepted
  }

  predicate Queues(e: Event) {
    e.InputQueued? && Named(e.inputId) && e.content.Some?
  }

  lemma SetTurn(s: State, at: nat, row: ViewItem)
    requires at < |s.items|
    ensures SameTurn(s, SetRow(s, at, row))
  {
    hide WellFormed;
  }

  lemma AddTurn(s: State, row: ViewItem)
    ensures SameTurn(s, AddRow(s, row))
  {
    hide WellFormed;
  }

  lemma OpenDraftTurn(s: State, ts: Option<nat>)
    ensures SameTurn(s, OpenDraft(s, ts))
  {
    hide WellFormed, AddAnswer;
    if s.draft.None? { AddAnswerFields(s, Answer("", ts, true, None, None, s.openTurnId)); }
  }

  lemma ChunkTurn(s: State, ts: Option<nat>, delta: Option<string>, thinking: bool)
    ensures SameTurn(s, OnChunk(s, ts, delta, thinking))
  {
    hide WellFormed, OpenDraft;
    OpenDraftTurn(s, ts);
  }

  lemma MessageTurn(s: State, ts: Option<nat>, content: Option<string>, toolCalls: Option<seq<ToolCall>>,
                    controls: Option<Controls>)
    ensures SameTurn(s, OnMessage(s, ts, content, toolCalls, controls))
  {
    hide WellFormed, AddAnswer;
    AddAnswerFields(s, Answer(OrElse(content, ""), ts, false, toolCalls, controls, s.openTurnId));
  }

  lemma ClaimIs(s: State, e: Event)
    requires e.UserMessage? && e.content.Some?
    ensures ClaimMessage(s, e.content, e.inputId, e.attachments).turn == TurnAfter(s.turn, s.acceptedInputs, e)
  {
    hide WellFormed;
  }

  lemma UserTurn(s: State, e: Event)
    requires e.UserMessage?
    ensures TurnStep(s, e, OnUserMessage(s, e.ts, e.content, e.inputId, e.attachments))
  {
    hide WellFormed, Unqueued, ClaimMessage, SetRow, AddRow;
    if e.content.Some? {
      ClaimIs(s, e);
      hide TurnAfter;
      var s1 := ClaimMessage(s, e.content, e.inputId, e.attachments);
      AddTurn(s1, User(e.content.value, e.ts, e.attachments, false, None, false, None));
      if Named(e.inputId) && e.inputId.value in s1.queuedUsers {
        QueuedInRange(s1, e.inputId.value);
        var at := s1.queuedUsers[e.inputId.value];
        SetTurn(s1, at, Unqueued(s1.items[at], None));
      }
    }
  }

  lemma QueuedInRange(s: State, id: string)
    requires id in s.queuedUsers
    ensures s.queuedUsers[id] < |s.items|
  {
  }

  lemma ClaimSettledIs(s: State, e: Event)
    requires e.InputSettled? && Named(e.inputId)
    ensures ClaimSettled(s, e.inputId.value).turn == TurnAfter(s.turn, s.acceptedInputs, e)
  {
    hide WellFormed;
  }

  lemma SettledTurn(s: State, e: Event)
    requires e.InputSettled?
    ensures TurnStep(s, e, OnInputSettled(s, e.inputId, e.outcome))
  {
    hide WellFormed, Unqueued, ClaimSettled, SetRow;
    if Named(e.inputId) {
      ClaimSettledIs(s, e);
      hide TurnAfter;
      var s1 := ClaimSettled(s, e.inputId.value);
      if e.inputId.value in s1.queuedUsers {
        QueuedInRange(s1, e.inputId.value);
        var at := s1.queuedUsers[e.inputId.value];
        SetTurn(s1, at, Unqueued(s1.items[at], e.outcome));
      }
    }
  }

  lemma ResultTurn(s: State, e: Event)
    requires e.CallDone?
    ensures SameTurn(s, OnResult(s, e))
  {
    hide WellFormed, Settle;
  }

  lemma SpawnTurn(s: State, ts: Option<nat>, id: string, definition: Option<string>, brief: Option<string>,
                  objective: Option<string>)
    ensures SameTurn(s, Spawn(s, ts, id, definition, brief, objective))
  {
    hide WellFormed;
  }

  lemma ChildTurn(s: State, e: Event)
    requires e.ChildResult?
    ensures SameTurn(s, OnChildResult(s, e))
  {
    hide WellFormed, Ended, Spawn;
    if e.childSessionId.Some? { SpawnTurn(s, e.ts, e.childSessionId.value, e.definition, e.brief, e.objective); }
  }

  lemma ManifestTurn(s: State, ts: Option<nat>, manifest: Option<string>)
    ensures SameTurn(s, OnManifest(s, ts, manifest))
  {
    hide WellFormed, Refreshed, SetRow, AddRow;
    var key := OrElse(s.openTurnId, "turnless");
    if manifest.Some? {
      AddTurn(s, Context(ts, manifest.value, 1));
      if key in s.turnContexts {
        ContextInRange(s, key);
        SetTurn(s, s.turnContexts[key], Refreshed(s.items[s.turnContexts[key]], manifest.value));
      }
    }
  }

  lemma ContextInRange(s: State, key: string)
    requires key in s.turnContexts
    ensures s.turnContexts[key] < |s.items|
  {
  }

  lemma CompactionTurn(s: State, e: Event)
    requires e.CompactionEnd?
    ensures SameTurn(s, OnCompactionEnd(s, e))
  {
    hide WellFormed, Patch, SetRow, AddRow;
    AddTurn(s, Patch(Compacting(e.ts, "running", None, None, None, None, None, None, None), e));
    if s.openCompaction.Some? {
      OpenInRange(s);
      SetTurn(s, s.openCompaction.value, Patch(s.items[s.openCompaction.value], e));
    }
  }

  lemma OpenInRange(s: State)
    ensures s.openCompaction.Some? ==> s.openCompaction.value < |s.items|
    ensures s.draft.Some? ==> s.draft.value < |s.items|
  {
  }

  lemma AddIfTurn(s: State, row: Option<ViewItem>)
    ensures SameTurn(s, AddIf(s, row))
  {
    hide WellFormed;
  }

  lemma EndDraftTurn(s: State)
    ensures SameTurn(s, EndDraft(s))
  {
    hide WellFormed, Stopped, SetRow;
    if s.draft.Some? {
      OpenInRange(s);
      SetTurn(s, s.draft.value, Stopped(s.items[s.draft.value]));
    }
  }

  lemma CloseTurnTurn(s: State, id: string)
    ensures SameTurn(s, CloseTurn(s, id))
  {
    hide WellFormed, ClosedAt;
  }

  lemma LeaveTurnTurn(s: State, id: Option<string>)
    ensures var r := LeaveTurn(s, id); r.openTurnId.None? && r.acceptedInputs == s.acceptedInputs && r.turn == s.turn
  {
    hide WellFormed, CloseTurn;
    var closing := if Named(id) then id else s.openTurnId;
    if closing.Some? { CloseTurnTurn(s, closing.value); }
  }

  lemma ChildrenTurn(s: State)
    ensures SameTurn(s, InterruptChildren(s))
  {
    hide WellFormed, InterruptedAt;
  }

  lemma TurnEndTurn(s: State, id: Option<string>, reason: Option<string>)
    ensures var r := OnTurnEnd(s, id, reason);
      r.openTurnId.None? && r.acceptedInputs == s.acceptedInputs && r.turn == s.turn
  {
    hide WellFormed, EndDraft, LeaveTurn, InterruptChildren, AddIf;
    var s1 := EndDraft(s);
    var s2 := LeaveTurn(s1, id);
    EndDraftTurn(s);
    LeaveTurnTurn(s1, id);
    ChildrenTurn(s2);
    AddIfTurn(InterruptChildren(s2), if reason.Some? then Some(Status(reason.value, None)) else None);
  }

  lemma InterruptTurn(s: State, e: Event)
    ensures SameTurn(s, Interrupt(s, e))
  {
  }

  /** The state after one event, as far as turns go. */
  ghost predicate TurnStep(s: Proj, e: Event, r: Proj) {
    && r.openTurnId == (if e.TurnEnd? then None else if e.TurnStart? && Named(e.turnId) then e.turnId else s.openTurnId)
    && r.acceptedInputs == AcceptedAfter(s.acceptedInputs, e)
    && r.turn == TurnAfter(s.turn, s.acceptedInputs, e)
  }

  /** An event that neither claims nor accepts an input, nor starts or ends a turn, nor records a call. */
  predicate TurnQuiet(e: Event) {
    !e.TurnStart? && !e.TurnEnd? && !e.UserMessage? && !e.InputSettled? && !e.InputQueued? && !e.CallMade?
  }

  lemma QuietTurn(s: State, e: Event)
    requires TurnQuiet(e)
    ensures SameTurn(s, Handle(s, e))
  {
    hide WellFormed, SameTurn, OnChunk, OnMessage, OnResult, OnChildResult, OnManifest;
    hide OnCompactionEnd, AddIf, ErrorRow, DecisionRow, HookRow, Spawn;
    PlainTurn(s, e);
    match e {
      case TurnError(_, _, _, _) => AddIfTurn(s, ErrorRow(s.turn, e));
      case ApprovalDecision(_, ts, id, decision) => AddIfTurn(s, DecisionRow(s.approvals, ts, id, decision));
      case HookRun(_, _, _, _, _, _) => AddIfTurn(s, HookRow(e));
      case AssistantChunk(_, ts, _, delta, thinking) => ChunkTurn(s, ts, delta, thinking);
      case AssistantMessage(_, ts, _, content, toolCalls, controls) => MessageTurn(s, ts, content, toolCalls, controls);
      case CallDone(_, _, _, _, _, _, _, _) => ResultTurn(s, e);
      case ChildSpawn(_, ts, Some(id), definition, brief, objective) =>
        SpawnTurn(s, ts, id, definition, brief, objective);
      case ChildResult(_, _, _, _, _, _, _) => ChildTurn(s, e);
      case ContextManifest(_, ts, manifest) => ManifestTurn(s, ts, manifest);
      case CompactionEnd(_, _, _, _, _, _, _, _, _) => CompactionTurn(s, e);
      case _ =>
    }
  }

  lemma PlainTurn(s: State, e: Event)
    ensures SameTurn(s, s)
    ensures e.ApprovalRequest? ==> SameTurn(s, OnApprovalRequest(s, e.approvalId, e.call))
    ensures e.CompactionStart? ==> SameTurn(s, OnCompactionStart(s, e.ts, e.trigger, e.model))
  {
    hide WellFormed;
  }

  lemma StartTurn(s: State, e: Event)
    requires e.TurnStart?
    ensures TurnStep(s, e, OnTurnStart(s, e.turnId))
  {
    hide WellFormed;
  }

  lemma QueuedTurn(s: State, e: Event)
    requires e.InputQueued?
    ensures TurnStep(s, e, OnInputQueued(s, e.ts, e.content, e.inputId, e.attachments, e.steer))
  {
    hide WellFormed, AddRow;
    if e.content.Some? { AddTurn(s, User(e.content.value, e.ts, e.attachments, true, e.inputId, e.steer, None)); }
  }

  lemma CallTurn(s: State, e: Event)
    requires e.CallMade?
    ensures TurnStep(s, e, OnCall(s, e.ts, e.call))
  {
    hide WellFormed, McpServerOf, AddRow;
    if e.call.Some? {
      AddTurn(s, Tool(e.call.value, e.ts, None, None, false, McpServerOf(e.call.value.name), None, None));
    }
  }

  lemma EndTurn(s: State, e: Event)
    requires e.TurnEnd?
    ensures TurnStep(s, e, OnTurnEnd(s, e.turnId, e.reason))
  {
    hide WellFormed, OnTurnEnd;
    TurnEndTurn(s, e.turnId, e.reason);
  }

  lemma SameStep(s: Proj, e: Event, r: Proj)
    requires TurnQuiet(e) && SameTurn(s, r)
    ensures TurnStep(s, e, r)
  {
  }

  lemma HandleTurn(s: State, e: Event)
    ensures TurnStep(s, e, Handle(s, e))
  {
    hide WellFormed, TurnStep, OnTurnStart, OnTurnEnd, OnUserMessage, OnInputSettled, OnInputQueued, OnCall;
    if TurnQuiet(e) {
      hide Handle;
      QuietTurn(s, e);
      SameStep(s, e, Handle(s, e));
    } else {
      match e {
        case TurnStart(_, _, _) => StartTurn(s, e);
        case TurnEnd(_, _, _, _) => EndTurn(s, e);
        case UserMessage(_, _, _, _, _) => UserTurn(s, e);
        case InputSettled(_, _, _, _) => SettledTurn(s, e);
        case InputQueued(_, _, _, _, _, _) => QueuedTurn(s, e);
        case CallMade(_, _, _) => CallTurn(s, e);
      }
    }
  }

  lemma StepTurn(es: seq<Event>, e: Event)
    ensures TurnStep(Project(es), e, Project(es + [e]))
  {
    hide Handle, Interrupt, WellFormed, TurnAfter, AcceptedAfter;
    FoldSnoc<State>(Step, Empty, es, e);
    InterruptTurn(Project(es), e);
    HandleTurn(Interrupt(Project(es), e), e);
  }

  // ---------- the open turn ----------

  /** The last named start since the last end. */
  function OpenTurn(es: seq<Event>): Option<string> {
    if es == [] || es[|es| - 1].TurnEnd? then None
    else if es[|es| - 1].TurnStart? && Named(es[|es| - 1].turnId) then es[|es| - 1].turnId
    else OpenTurn(es[..|es| - 1])
  }

  /** Which turn the transcript takes for the open one is plain from the log. */
  lemma {:induction false} OpenTurnKnown(es: seq<Event>)
    ensures Project(es).openTurnId == OpenTurn(es)
  {
    hide Step, WellFormed, TurnAfter, AcceptedAfter;
    if es != [] {
      var front, e := es[..|es| - 1], es[|es| - 1];
      assert es == front + [e];
      OpenTurnKnown(front);
      StepTurn(front, e);
    }
  }

  // ---------- what a retry sends again ----------

  /** The latest accepted input of this id. */
  function LastAccepted(es: seq<Event>, id: string): Option<RetryInput> {
    if es == [] then None
    else
      var e := es[|es| - 1];
      if Queues(e) && e.inputId.value == id then Some(RetryOf(e.content, e.attachments))
      else LastAccepted(es[..|es| - 1], id)
  }

  lemma {:induction false} AcceptedKnown(es: seq<Event>, id: string)
    ensures (if id in Project(es).acceptedInputs then Some(Project(es).acceptedInputs[id]) else None) ==
      LastAccepted(es, id)
  {
    hide Step, WellFormed, TurnAfter;
    if es != [] {
      var front, e := es[..|es| - 1], es[|es| - 1];
      assert es == front + [e];
      AcceptedKnown(front, id);
      StepTurn(front, e);
    }
  }

  /** The turn begins after its last start. */
  function TurnFrom(es: seq<Event>): (from: nat)
    ensures from <= |es|
  {
    if es == [] then 0 else if es[|es| - 1].TurnStart? then |es| else TurnFrom(es[..|es| - 1])
  }

  /** The id an event claims for the turn: a shown message's, or that of an accepted input that settled. */
  function ClaimAt(es: seq<Event>, i: nat): Option<string>
    requires i < |es|
  {
    match es[i]
    case UserMessage(_, _, content, id, _) => if content.Some? && Named(id) then id else None
    case InputSettled(_, _, id, _) => if Named(id) && LastAccepted(es[..i], id.value).Some? then id else None
    case _ => None
  }

  /** What the claim at `i` sends again: the input as accepted, or the message itself. */
  function InputAt(es: seq<Event>, i: nat): RetryInput
    requires i < |es| && ClaimAt(es, i).Some?
  {
    var accepted := LastAccepted(es[..i], ClaimAt(es, i).value);
    if accepted.Some? then accepted.value
    else if es[i].UserMessage? then RetryOf(es[i].content, es[i].attachments)
    else RetryOf(None, [])
  }

  /** The first claim of its id since the turn began. */
  ghost predicate FirstClaim(es: seq<Event>, i: nat) {
    && TurnFrom(es) <= i < |es| && ClaimAt(es, i).Some?
    && forall j: nat | TurnFrom(es) <= j < i :: ClaimAt(es, j) != ClaimAt(es, i)
  }

  /** In log order: each id claimed since the turn began, once. */
  ghost predicate FirstClaims(es: seq<Event>, at: seq<nat>) {
    && (forall k | 0 <= k < |at| :: FirstClaim(es, at[k]))
    && (forall i: nat | FirstClaim(es, i) :: i in at)
    && (forall k, l | 0 <= k < l < |at| :: at[k] < at[l])
  }

  /** The first claims of the turn, in log order. */
  ghost function ClaimsSince(es: seq<Event>): seq<nat> {
    if es == [] || es[|es| - 1].TurnStart? then []
    else ClaimsSince(es[..|es| - 1]) + if FirstClaim(es, |es| - 1) then [|es| - 1] else []
  }

  lemma ClaimsSinceSnoc(es: seq<Event>, e: Event)
    ensures ClaimsSince(es + [e]) ==
      if e.TurnStart? then [] else ClaimsSince(es) + if FirstClaim(es + [e], |es|) then [|es|] else []
  {
    hide FirstClaim;
    assert (es + [e])[..|es|] == es;
  }

  lemma ClaimBefore(es: seq<Event>, e: Event, i: nat)
    requires i < |es|
    ensures ClaimAt(es + [e], i) == ClaimAt(es, i)
    ensures ClaimAt(es, i).Some? ==> InputAt(es + [e], i) == InputAt(es, i)
  {
    assert (es + [e])[..i] == es[..i] && (es + [e])[i] == es[i];
  }

  lemma TurnFromSnoc(es: seq<Event>, e: Event)
    ensures TurnFrom(es + [e]) == if e.TurnStart? then |es| + 1 else TurnFrom(es)
  {
    assert (es + [e])[..|es|] == es;
  }

  /** The ids and inputs of these claims. */
  ghost predicate Carries(es: seq<Event>, turn: TurnInputs, at: seq<nat>) {
    && |turn.inputs| == |at|
    && (forall k | 0 <= k < |at| :: at[k] < |es| && ClaimAt(es, at[k]).Some? && turn.inputs[k] == InputAt(es, at[k]))
    && (forall id :: id in turn.ids <==> exists k | 0 <= k < |at| :: ClaimAt(es, at[k]) == Some(id))
  }

  /** What the turn holds, for the first claims of the log. */
  ghost predicate TurnHolds(es: seq<Event>, turn: TurnInputs, at: seq<nat>) {
    FirstClaims(es, at) && Carries(es, turn, at)
  }

  lemma FirstClaimSnoc(es: seq<Event>, e: Event, i: nat)
    requires !e.TurnStart?
    ensures i < |es| ==> (FirstClaim(es + [e], i) <==> FirstClaim(es, i))
  {
    TurnFromSnoc(es, e);
    if i < |es| {
      ClaimBefore(es, e, i);
      forall j: nat | TurnFrom(es) <= j < i ensures ClaimAt(es + [e], j) == ClaimAt(es, j) {
        ClaimBefore(es, e, j);
      }
    }
  }

  /** The messages without an id since the turn began. */
  function Unnamed(es: seq<Event>): seq<RetryInput> {
    if es == [] || es[|es| - 1].TurnStart? then [] else Unnamed(es[..|es| - 1]) + UnnamedIn(es[|es| - 1])
  }

  function UnnamedIn(e: Event): seq<RetryInput> {
    if e.UserMessage? && e.content.Some? && !Named(e.inputId) then [RetryOf(e.content, e.attachments)] else []
  }

  ghost predicate CalledSince(es: seq<Event>) {
    exists i: nat | TurnFrom(es) <= i < |es| :: es[i].CallMade? && es[i].call.Some?
  }

  lemma CalledSnoc(es: seq<Event>, e: Event)
    ensures CalledSince(es + [e]) <==> !e.TurnStart? && (CalledSince(es) || (e.CallMade? && e.call.Some?))
  {
    TurnFromSnoc(es, e);
    var all := es + [e];
    assert all[|es|] == e;
    if CalledSince(es) && !e.TurnStart? {
      var i: nat :| TurnFrom(es) <= i < |es| && es[i].CallMade? && es[i].call.Some?;
      assert all[i] == es[i];
    }
  }

  lemma UnnamedSnoc(es: seq<Event>, e: Event)
    ensures Unnamed(es + [e]) == if e.TurnStart? then [] else Unnamed(es) + UnnamedIn(e)
  {
    assert (es + [e])[..|es|] == es;
  }

  /** The newest event claims what `TurnAfter` adds. */
  lemma ClaimNewest(es: seq<Event>, e: Event)
    requires !e.TurnStart?
    ensures var turn, accepted := Project(es).turn, Project(es).acceptedInputs;
      var all, after := es + [e], TurnAfter(turn, accepted, e);
      var claim := ClaimAt(all, |es|);
      if claim.Some? && claim.value !in turn.ids
      then after.ids == turn.ids + {claim.value} && after.inputs == turn.inputs + [InputAt(all, |es|)]
      else after.ids == turn.ids && after.inputs == turn.inputs
  {
    hide Project;
    var all := es + [e];
    assert all[|es|] == e && all[..|es|] == es;
    if e.UserMessage? && Named(e.inputId) { AcceptedKnown(es, e.inputId.value); }
    if e.InputSettled? && Named(e.inputId) { AcceptedKnown(es, e.inputId.value); }
  }

  lemma FirstClaimsSnoc(es: seq<Event>, e: Event, at: seq<nat>)
    requires !e.TurnStart? && FirstClaims(es, at)
    ensures FirstClaims(es + [e], if FirstClaim(es + [e], |es|) then at + [|es|] else at)
  {
    hide FirstClaim;
    var all, n := es + [e], |es|;
    var at' := if FirstClaim(all, n) then at + [n] else at;
    Earlier(es, at);
    forall i: nat | i <= n ensures i < n ==> (FirstClaim(all, i) <==> FirstClaim(es, i)) {
      FirstClaimSnoc(es, e, i);
    }
    forall i: nat | FirstClaim(all, i) ensures i in at' {
      Within(all, i);
      if i < n { assert i in at; } else { assert at'[|at|] == n; }
    }
  }

  lemma Within(es: seq<Event>, i: nat)
    requires FirstClaim(es, i)
    ensures i < |es|
  {
  }

  lemma Earlier(es: seq<Event>, at: seq<nat>)
    requires FirstClaims(es, at)
    ensures forall k | 0 <= k < |at| :: at[k] < |es|
  {
  }

  lemma CarriesOn(es: seq<Event>, e: Event, turn: TurnInputs, at: seq<nat>)
    requires Carries(es, turn, at)
    ensures Carries(es + [e], turn, at)
  {
    hide ClaimAt, InputAt;
    forall i: nat | i < |es| ensures ClaimAt(es + [e], i) == ClaimAt(es, i) {
      ClaimBefore(es, e, i);
    }
    forall k | 0 <= k < |at| ensures InputAt(es + [e], at[k]) == InputAt(es, at[k]) {
      ClaimBefore(es, e, at[k]);
    }
  }

  lemma CarriesMore(es: seq<Event>, turn: TurnInputs, at: seq<nat>, i: nat, after: TurnInputs)
    requires Carries(es, turn, at) && i < |es| && ClaimAt(es, i).Some?
    requires after.ids == turn.ids + {ClaimAt(es, i).value} && after.inputs == turn.inputs + [InputAt(es, i)]
    ensures Carries(es, after, at + [i])
  {
    hide ClaimAt, InputAt;
    var at' := at + [i];
    forall id ensures id in after.ids <==> exists k | 0 <= k < |at'| :: ClaimAt(es, at'[k]) == Some(id) {
      if id in turn.ids {
        var k :| 0 <= k < |at| && ClaimAt(es, at[k]) == Some(id);
        assert at'[k] == at[k];
      }
      assert at'[|at|] == i;
    }
  }

  lemma HoldsSnoc(es: seq<Event>, e: Event, at: seq<nat>, turn: TurnInputs, after: TurnInputs) returns (at': seq<nat>)
    requires !e.TurnStart? && TurnHolds(es, turn, at)
    requires var claim := ClaimAt(es + [e], |es|);
      if claim.Some? && claim.value !in turn.ids
      then after.ids == turn.ids + {claim.value} && after.inputs == turn.inputs + [InputAt(es + [e], |es|)]
      else after.ids == turn.ids && after.inputs == turn.inputs
    ensures TurnHolds(es + [e], after, at')
    ensures at' == if FirstClaim(es + [e], |es|) then at + [|es|] else at
  {
    var all, n := es + [e], |es|;
    NewClaim(es, e, at, turn);
    FirstClaimsSnoc(es, e, at);
    hide FirstClaim, FirstClaims, ClaimAt, InputAt, Carries;
    CarriesOn(es, e, turn, at);
    at' := if FirstClaim(all, n) then at + [n] else at;
    if FirstClaim(all, n) {
      CarriesMore(all, turn, at, n, after);
    } else {
      CarriesSame(all, turn, after, at);
    }
  }

  lemma CarriesSame(es: seq<Event>, turn: TurnInputs, after: TurnInputs, at: seq<nat>)
    requires Carries(es, turn, at) && after.ids == turn.ids && after.inputs == turn.inputs
    ensures Carries(es, after, at)
  {
  }

  /** A claim is the first of its id exactly when the turn does not know the id. */
  lemma NewClaim(es: seq<Event>, e: Event, at: seq<nat>, turn: TurnInputs)
    requires !e.TurnStart? && TurnHolds(es, turn, at)
    ensures var claim := ClaimAt(es + [e], |es|);
      FirstClaim(es + [e], |es|) <==> claim.Some? && claim.value !in turn.ids
  {
    hide ClaimAt, InputAt, TurnFrom;
    var all, n := es + [e], |es|;
    TurnFromSnoc(es, e);
    forall i: nat | i < n ensures ClaimAt(all, i) == ClaimAt(es, i) {
      ClaimBefore(es, e, i);
    }
    var claim := ClaimAt(all, n);
    if claim.Some? && !FirstClaim(all, n) {
      var j: nat :| TurnFrom(es) <= j < n && ClaimAt(es, j) == claim;
      var first := FirstOf(es, j);
      var k :| 0 <= k < |at| && at[k] == first;
      assert ClaimAt(es, at[k]) == claim;
    }
    if claim.Some? && claim.value in turn.ids {
      var k :| 0 <= k < |at| && ClaimAt(es, at[k]) == claim;
      assert ClaimAt(all, at[k]) == claim;
    }
  }

  /** Every claim has a first one of its id. */
  lemma FirstOf(es: seq<Event>, j: nat) returns (first: nat)
    requires TurnFrom(es) <= j < |es| && ClaimAt(es, j).Some?
    ensures first <= j && FirstClaim(es, first) && ClaimAt(es, first) == ClaimAt(es, j)
    decreases j
  {
    hide ClaimAt, TurnFrom;
    if FirstClaim(es, j) {
      first := j;
    } else {
      var i: nat :| TurnFrom(es) <= i < j && ClaimAt(es, i) == ClaimAt(es, j);
      first := FirstOf(es, i);
    }
  }

  /**
   * For every log the turn holds the inputs claimed since its start, each id once, in the order of their
   * first claims and as they were accepted; besides them the messages without an id; and whether a call
   * was recorded.
   */
  lemma {:induction false} TurnInputsKnown(es: seq<Event>) returns (at: seq<nat>)
    ensures at == ClaimsSince(es) && TurnHolds(es, Project(es).turn, at)
    ensures Project(es).turn.legacy == Unnamed(es)
    ensures Project(es).turn.toolsRan <==> CalledSince(es)
  {
    hide TurnHolds, Project, WellFormed, CalledSince, TurnAfter, AcceptedAfter, FirstClaim;
    if es == [] {
      at := [];
      NothingClaimed(es);
    } else {
      var front, e := es[..|es| - 1], es[|es| - 1];
      assert es == front + [e];
      at := TurnInputsKnown(front);
      StepTurn(front, e);
      UnnamedSnoc(front, e);
      ClaimsSinceSnoc(front, e);
      CalledSnoc(front, e);
      RestAfter(Project(front).turn, Project(front).acceptedInputs, e);
      if e.TurnStart? {
        at := [];
        NothingSince(front, e);
      } else {
        ClaimNewest(front, e);
        at := HoldsSnoc(front, e, at, Project(front).turn, Project(es).turn);
      }
    }
  }

  lemma RestAfter(turn: TurnInputs, accepted: map<string, RetryInput>, e: Event)
    ensures var after := TurnAfter(turn, accepted, e);
      && (e.TurnStart? ==> after == NoInputs)
      && (!e.TurnStart? ==> after.toolsRan == (turn.toolsRan || (e.CallMade? && e.call.Some?)))
      && (!e.TurnStart? ==> after.legacy == turn.legacy + UnnamedIn(e))
  {
  }

  lemma NothingClaimed(es: seq<Event>)
    requires es == []
    ensures Project(es).turn == NoInputs && TurnHolds(es, NoInputs, []) && !CalledSince(es)
  {
  }

  lemma NothingSince(es: seq<Event>, e: Event)
    requires e.TurnStart?
    ensures TurnHolds(es + [e], NoInputs, [])
  {
    TurnFromSnoc(es, e);
  }

  /** The turn's inputs are those of its first claims. */
  lemma ClaimedInputs(es: seq<Event>) returns (at: seq<nat>)
    ensures at == ClaimsSince(es) && FirstClaims(es, at)
    ensures forall k | 0 <= k < |at| :: at[k] < |es| && ClaimAt(es, at[k]).Some?
    ensures Project(es).turn.inputs == seq(|at|, k requires 0 <= k < |at| => InputAt(es, at[k]))
  {
    hide Project, InputAt, ClaimAt, FirstClaims, ClaimsSince, CalledSince;
    at := TurnInputsKnown(es);
  }

  /** What a retry of the failed turn sends: its claimed inputs, or the unnamed ones when it claimed none. */
  lemma RetryCarries(es: seq<Event>, e: Event) returns (at: seq<nat>)
    requires e.TurnError? && e.message.Some?
    ensures at == ClaimsSince(es) && FirstClaims(es, at)
    ensures forall k | 0 <= k < |at| :: at[k] < |es| && ClaimAt(es, at[k]).Some?
    ensures var claimed := seq(|at|, k requires 0 <= k < |at| => InputAt(es, at[k]));
      var inputs := if claimed != [] then claimed else Unnamed(es);
      var shown := ProjectItems(es + [e]);
      && |shown| == |ProjectItems(es)| + 1
      && shown[|shown| - 1] == Status(OrElse(e.kind, "error") + ": " + e.message.value,
           if inputs != [] && e.kind != Some("rejected")
           then Some(RetryTarget(e.seqNo, inputs, CalledSince(es))) else None)
  {
    hide Interrupt, WellFormed, CalledSince, InputAt, ClaimAt, TurnFrom, FirstClaims, TurnHolds, ClaimsSince, Unnamed;
    at := ClaimedInputs(es);
    var again := TurnInputsKnown(es);
    var s := Project(es);
    hide Fold;
    FoldSnoc<State>(Step, Empty, es, e);
    InterruptTurn(s, e);
    InterruptLength(s, e);
  }

  lemma InterruptLength(s: State, e: Event)
    ensures |Interrupt(s, e).items| == |s.items|
  {
  }
}
