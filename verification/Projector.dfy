/**
 * The incremental projector (web/lib/project.ts:168-552): rows are mutable
 * objects, written in place by the handlers, `touch` marks a row for the next
 * copy, and `apply` hands out an array of copies. Every handler is proved against
 * the fold of `Projection.dfy`, the copies against the rows, and what was handed
 * out earlier is never written again. The maps name a row by its position.
 */
module Projector {
  import opened Events
  import P = Projection

  /** The `thinking` array of an answer, appended to in place. */
  class Thoughts {
    var parts: seq<string>

    constructor (parts: seq<string>)
      ensures this.parts == parts
    {
      this.parts := parts;
    }
  }

  /** One row object; an answer's thinking is in `thoughts`, not in `item`. */
  class Row {
    var item: P.ViewItem
    const thoughts: Thoughts

    constructor (item: P.ViewItem)
      ensures Value() == item && fresh(thoughts)
    {
      this.item := item;
      thoughts := new Thoughts(if item.Assistant? then item.thinking else []);
    }

    function Value(): P.ViewItem
      reads this, thoughts
    {
      if item.Assistant? then item.(thinking := thoughts.parts) else item
    }

    // ---------- the handlers' writes ----------

    method Unqueue(outcome: Option<string>)
      modifies `item
      ensures Value() == P.Unqueued(old(Value()), outcome)
    {
      if item.User? {
        item := item.(queued := false, inputId := None, steer := false);
        if outcome == Some("rejected") || outcome == Some("empty") {
          item := item.(notSent := outcome);
        }
      }
    }

    method Stream(delta: string, thinking: bool)
      modifies `item, thoughts
      ensures Value() == P.Streamed(old(Value()), delta, thinking)
    {
      if item.Assistant? {
        if thinking {
          thoughts.parts := thoughts.parts + [delta];
          item := item.(thinkingLive := true);
        } else {
          var grown := item.text + delta;
          item := item.(text := grown, thinkingLive := false);
        }
      }
    }

    method Finish(text: string, toolCalls: Option<seq<ToolCall>>, controls: Option<Controls>)
      modifies `item
      ensures Value() == P.Finished(old(Value()), text, toolCalls, controls)
    {
      if item.Assistant? {
        item := item.(text := if text != "" then text else item.text, live := false, thinkingLive := false);
        if toolCalls.Some? { item := item.(toolCalls := toolCalls); }
        if controls.Some? { item := item.(controls := controls); }
      }
    }

    method Settle(e: Event)
      requires e.CallDone?
      modifies `item
      ensures Value() == P.Settle(old(Value()), e)
    {
      if item.Tool? {
        item := item.(result := Some(P.ToolOutput(e.ok, OrElse(e.output, ""))));
        if e.ts.Some? { item := item.(doneAt := e.ts); }
        if e.recovery { item := item.(recovered := true); }
        if e.outcome.Some? && e.outcome.value in P.MCP_OUTCOMES { item := item.(mcpOutcome := e.outcome); }
        if e.invocationId.Some? { item := item.(invocationId := e.invocationId); }
      }
    }

    method End(outcome: string)
      modifies `item
      ensures Value() == P.Ended(old(Value()), outcome)
    {
      if item.Delegation? { item := item.(outcome := outcome); }
    }

    method Refresh(manifest: string)
      modifies `item
      ensures Value() == P.Refreshed(old(Value()), manifest)
    {
      if item.Context? { item := item.(manifest := manifest, requests := item.requests + 1); }
    }

    method BreakOff()
      requires P.Compressing(Value())
      modifies `item
      ensures Value() == old(Value().(status := "interrupted"))
    {
      item := item.(status := "interrupted");
    }

    method Patch(e: Event)
      requires e.CompactionEnd?
      modifies `item
      ensures Value() == P.Patch(old(Value()), e)
    {
      if item.Compacting? {
        item := item.(status := if e.error.Some? then "failed" else "completed");
        if e.trigger.Some? { item := item.(trigger := e.trigger); }
        if e.model.Some? { item := item.(model := e.model); }
        if e.coversSeq.Some? { item := item.(coversSeq := e.coversSeq); }
        if e.summaryChars.Some? { item := item.(summaryChars := e.summaryChars); }
        if e.durationMs.Some? { item := item.(tookMs := e.durationMs); }
        if e.summary.Some? { item := item.(summary := e.summary); }
        if e.error.Some? { item := item.(error := e.error); }
      }
    }

    method Stop()
      modifies `item
      ensures Value() == P.Stopped(old(Value()))
    {
      if item.Assistant? { item := item.(live := false, thinkingLive := false); }
    }

    method Close()
      modifies `item
      ensures Value() == P.Closed(old(Value()))
    {
      if item.Assistant? { item := item.(turnOpen := false); }
    }
  }

  /** One array handed out by `apply`. */
  class Shown {
    var rows: seq<Row>

    constructor (rows: seq<Row>)
      ensures this.rows == rows
    {
      this.rows := rows;
    }

    ghost function Items(): (items: seq<P.ViewItem>)
      reads this, rows, set r <- rows :: r.thoughts
      ensures |items| == |rows| && forall i | 0 <= i < |rows| :: items[i] == rows[i].Value()
    {
      seq(|rows|, i requires 0 <= i < |rows| reads this, rows, set r <- rows :: r.thoughts => rows[i].Value())
    }
  }

  /** The rows, the dirty set over them, and the array handed out last. */
  class RowList {
    var rows: seq<Row>
    var dirty: set<nat>
    var published: Shown

    /** The objects `apply` and its handlers write, and the objects handed out so far. */
    ghost var Repr: set<object>
    ghost var handed: set<object>

    ghost predicate Owned()
      reads this, Repr
    {
      && this in Repr
      && (forall i | 0 <= i < |rows| :: rows[i] in Repr && rows[i].thoughts in Repr)
      && (forall i, j | 0 <= i < j < |rows| :: rows[i] != rows[j] && rows[i].thoughts != rows[j].thoughts)
    }

    ghost predicate HandedOut()
      reads this, handed
    {
      && published in handed
      && forall i | 0 <= i < |published.rows| :: published.rows[i] in handed && published.rows[i].thoughts in handed
    }

    /** What is not marked dirty has not changed since it was copied. */
    ghost predicate Covered()
      reads this, Repr, handed
      requires Owned() && HandedOut()
    {
      && |published.rows| <= |rows|
      && (forall i | i in dirty :: i < |rows|)
      && (forall i: nat | i < |rows| && i !in dirty ::
            i < |published.rows| && published.rows[i].Value() == rows[i].Value())
    }

    ghost predicate Valid()
      reads this, Repr, handed
    {
      Owned() && HandedOut() && Repr !! handed && Covered()
    }

    ghost function Values(): (values: seq<P.ViewItem>)
      requires Valid()
      reads this, Repr, handed
      ensures |values| == |rows|
    {
      seq(|rows|, i requires 0 <= i < |rows| && Valid() reads this, Repr, handed => rows[i].Value())
    }

    constructor ()
      ensures Valid() && fresh(Repr) && fresh(handed) && Values() == [] && published.Items() == []
    {
      rows, dirty := [], {};
      published := new Shown([]);
      new;
      Repr, handed := {this}, {published};
    }

    function RowAt(at: nat): (row: Row)
      requires Valid() && at < |rows|
      reads this, Repr, handed
      ensures row == rows[at] && row in Repr && row.thoughts in Repr && row.Value() == Values()[at]
    {
      rows[at]
    }

    method Add(item: P.ViewItem) returns (at: nat)
      requires Valid()
      modifies this
      ensures Valid() && old(Repr) <= Repr && fresh(Repr - old(Repr)) && handed == old(handed)
        && published == old(published)
      ensures at == |old(rows)| && Values() == old(Values()) + [item] && rows == old(rows) + [rows[at]]
    {
      var row := new Row(item);
      at := |rows|;
      dirty := dirty + {at};
      rows := rows + [row];
      Repr := Repr + {row, row.thoughts};
    }

    /** Nothing that was handed out is written. */
    lemma Apart()
      requires Valid()
      ensures Repr !! handed && this in Repr && this !in handed
    {
    }

    method Touch(at: nat)
      requires Valid() && at < |rows|
      modifies `dirty
      ensures Valid() && dirty == old(dirty) + {at} && Values() == old(Values())
    {
      dirty := dirty + {at};
    }

    /** A row that was touched may be written: the list is sound again, and stands for the written row. */
    twostate lemma Wrote(at: nat)
      requires old(Valid()) && at < |rows|
      requires rows == old(rows) && Repr == old(Repr) && handed == old(handed) && published == old(published)
      requires dirty == old(dirty) + {at}
      requires forall o | o in Repr :: o == this || o == rows[at] || o == rows[at].thoughts || unchanged(o)
      requires forall o | o in handed :: o == this || o == rows[at] || o == rows[at].thoughts || unchanged(o)
      ensures Valid() && Values() == old(Values())[at := rows[at].Value()]
    {
      assert old(rows[at] in Repr && rows[at].thoughts in Repr);
      forall o | o in handed ensures unchanged(o) {
        assert o != this && o != rows[at] && o != rows[at].thoughts;
      }
      forall i: nat | i < |rows| && i != at ensures rows[i].Value() == old(rows[i].Value()) {
        assert rows[i] in Repr && rows[i].thoughts in Repr;
        assert unchanged(rows[i]) && unchanged(rows[i].thoughts);
      }
      assert unchanged(published);
      assert HandedOut();
      assert Owned();
      forall i: nat | i < |published.rows| ensures published.rows[i].Value() == old(published.rows[i].Value()) {
        assert unchanged(published.rows[i]) && unchanged(published.rows[i].thoughts);
      }
      assert Covered();
    }

    /** Copies of exactly the dirty rows, in a new array; the others stay the objects handed out before. */
    method CopyDirty() returns (next: Shown, ghost given: set<object>)
      requires Valid()
      ensures fresh(next) && fresh(given) && next in given && |next.rows| == |rows|
      ensures forall i: nat | i < |rows| && i !in dirty :: next.rows[i] == published.rows[i]
      ensures forall i: nat | i < |rows| && i in dirty :: next.rows[i] in given && next.rows[i].thoughts in given
      ensures forall i: nat | i < |rows| :: next.rows[i].Value() == rows[i].Value()
    {
      next := new Shown(published.rows);
      given := {next};
      for index := 0 to |rows|
        invariant fresh(next) && fresh(given) && next in given
        invariant |next.rows| == if index < |published.rows| then |published.rows| else index
        invariant forall i: nat | i < |next.rows| && !(i in dirty && i < index) ::
          i < |published.rows| && next.rows[i] == published.rows[i]
        invariant forall i: nat | i < index && i in dirty :: next.rows[i] in given && next.rows[i].thoughts in given
        invariant forall i: nat | i < index && i in dirty :: next.rows[i].Value() == rows[i].Value()
      {
        if index in dirty {
          var copy := new Row(rows[index].Value());
          next.rows := if index < |next.rows| then next.rows[index := copy] else next.rows + [copy];
          given := given + {copy, copy.thoughts};
        }
      }
    }

    /** With nothing dirty the array handed out last shows the rows. */
    lemma NothingDirty()
      requires Valid() && dirty == {}
      ensures published.Items() == Values()
    {
      assert |rows| > 0 ==> |rows| - 1 !in dirty;
    }

    method Publish()
      requires Valid()
      modifies `published, `dirty, `handed
      ensures Valid() && published.Items() == Values() == old(Values()) && dirty == {}
      ensures old(handed) <= handed && fresh(handed - old(handed))
      ensures forall i: nat | i < |rows| && i !in old(dirty) :: published.rows[i] == old(published.rows)[i]
      ensures old(dirty) == {} ==> published == old(published)
    {
      hide Shown.Items, Row.Value;
      if dirty == {} {
        NothingDirty();
        return;
      }
      var next, given := CopyDirty();
      dirty := {};
      published := next;
      handed := handed + given;
      NothingDirty();
    }
  }

  predicate IsWork(e: Event) {
    e.CallMade? || e.CallDone? || e.ApprovalRequest? || e.ApprovalDecision? || e.HookRun?
  }

  class Projector {
    const list: RowList
    var toolItems: map<string, nat>
    var queuedUsers: map<string, nat>
    var delegations: map<string, nat>
    var approvals: map<string, ToolCall>
    var draft: Option<nat>
    var openTurnId: Option<string>
    var turnAssistants: map<string, seq<nat>>
    var turnContexts: map<string, nat>
    var openCompaction: Option<nat>
    var acceptedInputs: map<string, P.RetryInput>
    var turn: P.TurnInputs

    /** The fold state these fields represent. */
    ghost var model: P.State

    ghost predicate Valid()
      reads this, list, list.Repr, list.handed
    {
      && list in list.Repr && list.Valid() && this !in list.Repr && this !in list.handed
      && model == P.Proj(list.Values(), toolItems, queuedUsers, delegations, approvals, draft, openTurnId,
                         turnAssistants, turnContexts, openCompaction, acceptedInputs, turn)
    }

    constructor ()
      ensures Valid() && fresh(list.Repr) && fresh(list.handed) && model == P.Empty && list.published.Items() == []
    {
      list := new RowList();
      toolItems, queuedUsers, delegations, turnContexts := map[], map[], map[], map[];
      approvals, acceptedInputs, turnAssistants := map[], map[], map[];
      draft, openCompaction, openTurnId, turn := None, None, None, P.NoInputs;
      model := P.Empty;
    }

    method Add(item: P.ViewItem) returns (at: nat)
      requires Valid()
      modifies list.Repr, `model
      ensures Valid() && model == P.AddRow(old(model), item) && at == |old(model).items|
      ensures fresh(list.Repr - old(list.Repr)) && list.handed == old(list.handed)
        && list.published == old(list.published)
    {
      hide RowList.Valid, RowList.Values, Row.Value;
      at := list.Add(item);
      model := P.AddRow(model, item);
    }

    // ---------- inputs ----------

    method ClaimMessage(content: Option<string>, inputId: Option<string>, attachments: seq<string>)
      requires Valid()
      modifies `turn, `model
      ensures Valid() && model == P.ClaimMessage(old(model), content, inputId, attachments)
    {
      hide RowList.Valid, RowList.Values, Row.Value;
      if Named(inputId) {
        if inputId.value !in turn.ids {
          var own := P.RetryOf(content, attachments);
          turn := turn.(ids := turn.ids + {inputId.value},
            inputs := turn.inputs + [if inputId.value in acceptedInputs then acceptedInputs[inputId.value] else own]);
        }
      } else {
        turn := turn.(legacy := turn.legacy + [P.RetryOf(content, attachments)]);
      }
      model := P.ClaimMessage(model, content, inputId, attachments);
    }

    /** The bubble of a queued input stops waiting, at the same place. */
    method TakeQueued(id: string, outcome: Option<string>)
      requires Valid() && id in queuedUsers
      modifies this, list.Repr
      ensures Valid()
        && model == P.SetRow(old(model), old(queuedUsers)[id],
                             P.Unqueued(old(model).items[old(queuedUsers)[id]], outcome))
        .(queuedUsers := old(queuedUsers) - {id})
      ensures list.Repr == old(list.Repr) && list.handed == old(list.handed) && list.published == old(list.published)
    {
      hide RowList.Valid, RowList.Values, Row.Value, P.Unqueued;
      var at := queuedUsers[id];
      list.Touch(at);
      var pending := list.RowAt(at);
      pending.Unqueue(outcome);
      list.Wrote(at);
      queuedUsers := queuedUsers - {id};
      model := P.SetRow(model, at, pending.Value()).(queuedUsers := model.queuedUsers - {id});
    }

    method OnUserMessage(ts: Option<nat>, content: Option<string>, inputId: Option<string>, attachments: seq<string>)
      requires Valid()
      modifies this, list.Repr
      ensures Valid() && model == P.OnUserMessage(old(model), ts, content, inputId, attachments)
      ensures fresh(list.Repr - old(list.Repr)) && list.handed == old(list.handed)
        && list.published == old(list.published)
    {
      hide RowList.Valid, RowList.Values, Row.Value;
      if content.None? { return; }
      ClaimMessage(content, inputId, attachments);
      if Named(inputId) && inputId.value in queuedUsers {
        TakeQueued(inputId.value, None);
        return;
      }
      var row := Add(P.User(content.value, ts, attachments, false, None, false, None));
    }

    method OnInputQueued(ts: Option<nat>, content: Option<string>, inputId: Option<string>, attachments: seq<string>,
                         steer: bool)
      requires Valid()
      modifies this, list.Repr
      ensures Valid() && model == P.OnInputQueued(old(model), ts, content, inputId, attachments, steer)
      ensures fresh(list.Repr - old(list.Repr)) && list.handed == old(list.handed)
        && list.published == old(list.published)
    {
      hide RowList.Valid, RowList.Values, Row.Value;
      if !Named(inputId) || content.None? { return; }
      var row := Add(P.User(content.value, ts, attachments, true, inputId, steer, None));
      acceptedInputs := acceptedInputs[inputId.value := P.RetryOf(content, attachments)];
      queuedUsers := queuedUsers[inputId.value := row];
      model := P.OnInputQueued(old(model), ts, content, inputId, attachments, steer);
    }

    method ClaimSettled(id: string)
      requires Valid()
      modifies `turn, `model
      ensures Valid() && model == P.ClaimSettled(old(model), id)
    {
      hide RowList.Valid, RowList.Values, Row.Value;
      if id !in turn.ids && id in acceptedInputs {
        turn := turn.(ids := turn.ids + {id}, inputs := turn.inputs + [acceptedInputs[id]]);
      }
      model := P.ClaimSettled(model, id);
    }

    method OnInputSettled(inputId: Option<string>, outcome: Option<string>)
      requires Valid()
      modifies this, list.Repr
      ensures Valid() && model == P.OnInputSettled(old(model), inputId, outcome)
      ensures fresh(list.Repr - old(list.Repr)) && list.handed == old(list.handed)
        && list.published == old(list.published)
    {
      hide RowList.Valid, RowList.Values, Row.Value;
      if !Named(inputId) { return; }
      var id := inputId.value;
      ClaimSettled(id);
      if id !in queuedUsers { return; }
      TakeQueued(id, outcome);
    }

    // ---------- answers ----------

    method Track(row: nat)
      requires Valid() && row < |model.items|
      modifies `turnAssistants, `model
      ensures Valid() && model == P.Track(old(model), row)
    {
      hide RowList.Valid, RowList.Values, Row.Value;
      var item := list.RowAt(row).Value();
      var id := if item.Assistant? then item.turnId else None;
      if id.None? { return; }
      var tracked := if id.value in turnAssistants then turnAssistants[id.value] else [];
      turnAssistants := turnAssistants[id.value := tracked + [row]];
      model := P.Track(model, row);
    }

    method OpenDraft(ts: Option<nat>)
      requires Valid()
      modifies this, list.Repr
      ensures Valid() && model == P.OpenDraft(old(model), ts) && draft.Some?
      ensures fresh(list.Repr - old(list.Repr)) && list.handed == old(list.handed)
        && list.published == old(list.published)
    {
      hide RowList.Valid, RowList.Values, Row.Value;
      if draft.None? {
        var row := Add(P.Answer("", ts, true, None, None, openTurnId));
        draft := Some(row);
        model := model.(draft := draft);
        Track(row);
      }
    }

    method StreamDraft(delta: string, thinking: bool)
      requires Valid() && draft.Some?
      modifies list.Repr, `model
      ensures Valid()
        && model == P.SetRow(old(model), draft.value, P.Streamed(old(model).items[draft.value], delta, thinking))
      ensures list.Repr == old(list.Repr) && list.handed == old(list.handed) && list.published == old(list.published)
    {
      hide RowList.Valid, RowList.Values, Row.Value, P.Streamed;
      var at := draft.value;
      list.Touch(at);
      var row := list.RowAt(at);
      row.Stream(delta, thinking);
      list.Wrote(at);
      model := P.SetRow(model, at, row.Value());
    }

    method OnChunk(ts: Option<nat>, delta: Option<string>, thinking: bool)
      requires Valid()
      modifies this, list.Repr
      ensures Valid() && model == P.OnChunk(old(model), ts, delta, thinking)
      ensures fresh(list.Repr - old(list.Repr)) && list.handed == old(list.handed)
        && list.published == old(list.published)
    {
      hide RowList.Valid, RowList.Values, Row.Value;
      if delta.None? { return; }
      OpenDraft(ts);
      StreamDraft(delta.value, thinking);
    }

    method FinishDraft(text: string, toolCalls: Option<seq<ToolCall>>, controls: Option<Controls>)
      requires Valid() && draft.Some?
      modifies this, list.Repr
      ensures Valid()
        && model == P.SetRow(old(model), old(draft).value,
                             P.Finished(old(model).items[old(draft).value], text, toolCalls, controls))
        .(draft := None)
      ensures list.Repr == old(list.Repr) && list.handed == old(list.handed) && list.published == old(list.published)
    {
      hide RowList.Valid, RowList.Values, Row.Value, P.Finished;
      var at := draft.value;
      list.Touch(at);
      var row := list.RowAt(at);
      row.Finish(text, toolCalls, controls);
      list.Wrote(at);
      draft := None;
      model := P.SetRow(model, at, row.Value()).(draft := None);
    }

    method OnMessage(ts: Option<nat>, content: Option<string>, toolCalls: Option<seq<ToolCall>>,
                     controls: Option<Controls>)
      requires Valid()
      modifies this, list.Repr
      ensures Valid() && model == P.OnMessage(old(model), ts, content, toolCalls, controls)
      ensures fresh(list.Repr - old(list.Repr)) && list.handed == old(list.handed)
        && list.published == old(list.published)
    {
      hide RowList.Valid, RowList.Values, Row.Value;
      var text := OrElse(content, "");
      if draft.Some? {
        FinishDraft(text, toolCalls, controls);
      } else if text != "" || toolCalls.Some? {
        var row := Add(P.Answer(text, ts, false, toolCalls, controls, openTurnId));
        Track(row);
      }
    }

    // ---------- tools ----------

    method OnCall(ts: Option<nat>, call: Option<ToolCall>)
      requires Valid()
      modifies this, list.Repr
      ensures Valid() && model == P.OnCall(old(model), ts, call)
      ensures fresh(list.Repr - old(list.Repr)) && list.handed == old(list.handed)
        && list.published == old(list.published)
    {
      hide RowList.Valid, RowList.Values, Row.Value;
      if call.None? { return; }
      var row := Add(P.Tool(call.value, ts, None, None, false, P.McpServerOf(call.value.name), None, None));
      turn := turn.(toolsRan := true);
      toolItems := toolItems[call.value.id := row];
      model := P.OnCall(old(model), ts, call);
    }

    method OnResult(e: Event)
      requires Valid() && e.CallDone?
      modifies this, list.Repr
      ensures Valid() && model == P.OnResult(old(model), e)
      ensures fresh(list.Repr - old(list.Repr)) && list.handed == old(list.handed)
        && list.published == old(list.published)
    {
      hide RowList.Valid, RowList.Values, Row.Value;
      if e.callId.None? || e.callId.value !in toolItems { return; }
      var at := toolItems[e.callId.value];
      list.Touch(at);
      var row := list.RowAt(at);
      row.Settle(e);
      list.Wrote(at);
      model := P.SetRow(model, at, row.Value());
    }

    method OnApprovalRequest(id: Option<string>, call: Option<ToolCall>)
      requires Valid()
      modifies `approvals, `model
      ensures Valid() && model == P.OnApprovalRequest(old(model), id, call)
    {
      hide RowList.Valid, RowList.Values, Row.Value;
      if id.Some? && call.Some? {
        approvals := approvals[id.value := call.value];
      }
      model := P.OnApprovalRequest(model, id, call);
    }

    method AddIf(item: Option<P.ViewItem>)
      requires Valid()
      modifies this, list.Repr
      ensures Valid() && model == P.AddIf(old(model), item)
      ensures fresh(list.Repr - old(list.Repr)) && list.handed == old(list.handed)
        && list.published == old(list.published)
    {
      hide RowList.Valid, RowList.Values, Row.Value;
      if item.Some? {
        var _ := Add(item.value);
      }
    }

    // ---------- children, context, compaction ----------

    method Spawn(ts: Option<nat>, id: string, definition: Option<string>, brief: Option<string>,
                 objective: Option<string>)
      requires Valid()
      modifies this, list.Repr
      ensures Valid() && model == P.Spawn(old(model), ts, id, definition, brief, objective)
      ensures fresh(list.Repr - old(list.Repr)) && list.handed == old(list.handed)
        && list.published == old(list.published)
      ensures id in delegations
    {
      hide RowList.Valid, RowList.Values, Row.Value;
      var row := Add(P.Delegation(id, OrElse(definition, ""), OrElse(Later(brief, objective), ""), ts, "running"));
      delegations := delegations[id := row];
      model := P.Spawn(old(model), ts, id, definition, brief, objective);
    }

    /** The child's row is touched whether or not its status says anything. */
    method EndChild(at: nat, status: Option<string>)
      requires Valid() && at < |model.items|
      modifies list.Repr, `model
      ensures Valid() && model == P.SetRow(old(model), at,
        if status.Some? && status.value in P.CHILD_STATUSES then P.Ended(old(model).items[at], status.value)
          else old(model).items[at])
      ensures list.Repr == old(list.Repr) && list.handed == old(list.handed) && list.published == old(list.published)
    {
      hide RowList.Valid, RowList.Values, Row.Value, P.Ended;
      list.Touch(at);
      var row := list.RowAt(at);
      if status.Some? && status.value in P.CHILD_STATUSES { row.End(status.value); }
      list.Wrote(at);
      model := P.SetRow(model, at, row.Value());
    }

    method OnChildResult(e: Event)
      requires Valid() && e.ChildResult?
      modifies this, list.Repr
      ensures Valid() && model == P.OnChildResult(old(model), e)
      ensures fresh(list.Repr - old(list.Repr)) && list.handed == old(list.handed)
        && list.published == old(list.published)
    {
      hide RowList.Valid, RowList.Values, Row.Value;
      if e.childSessionId.None? { return; }
      var id := e.childSessionId.value;
      if id !in delegations {
        Spawn(e.ts, id, e.definition, e.brief, e.objective);
      }
      EndChild(delegations[id], e.status);
    }

    method OnManifest(ts: Option<nat>, manifest: Option<string>)
      requires Valid()
      modifies this, list.Repr
      ensures Valid() && model == P.OnManifest(old(model), ts, manifest)
      ensures fresh(list.Repr - old(list.Repr)) && list.handed == old(list.handed)
        && list.published == old(list.published)
    {
      hide RowList.Valid, RowList.Values, Row.Value;
      if manifest.None? { return; }
      var key := OrElse(openTurnId, "turnless");
      if key in turnContexts {
        var at := turnContexts[key];
        list.Touch(at);
        var existing := list.RowAt(at);
        existing.Refresh(manifest.value);
        list.Wrote(at);
        model := P.SetRow(model, at, existing.Value());
        return;
      }
      var row := Add(P.Context(ts, manifest.value, 1));
      turnContexts := turnContexts[key := row];
      model := P.OnManifest(old(model), ts, manifest);
    }

    method Interrupt(e: Event)
      requires Valid()
      modifies this, list.Repr
      ensures Valid() && model == P.Interrupt(old(model), e)
      ensures list.Repr == old(list.Repr) && list.handed == old(list.handed) && list.published == old(list.published)
    {
      hide RowList.Valid, RowList.Values, Row.Value;
      if openCompaction.Some? {
        var at := openCompaction.value;
        var row := list.RowAt(at);
        if P.Compressing(row.Value()) && !e.CompactionEnd? {
          list.Touch(at);
          row.BreakOff();
          list.Wrote(at);
          model := P.SetRow(model, at, row.Value());
        }
      }
    }

    method OnCompactionStart(ts: Option<nat>, trigger: Option<string>, who: Option<string>)
      requires Valid()
      modifies this, list.Repr
      ensures Valid() && model == P.OnCompactionStart(old(model), ts, trigger, who)
      ensures fresh(list.Repr - old(list.Repr)) && list.handed == old(list.handed)
        && list.published == old(list.published)
    {
      hide RowList.Valid, RowList.Values, Row.Value;
      var row := Add(P.Compacting(ts, "running", trigger, who, None, None, None, None, None));
      openCompaction := Some(row);
      model := P.OnCompactionStart(old(model), ts, trigger, who);
    }

    method OnCompactionEnd(e: Event)
      requires Valid() && e.CompactionEnd?
      modifies this, list.Repr
      ensures Valid() && model == P.OnCompactionEnd(old(model), e)
      ensures fresh(list.Repr - old(list.Repr)) && list.handed == old(list.handed)
        && list.published == old(list.published)
    {
      hide RowList.Valid, RowList.Values, Row.Value;
      if openCompaction.Some? {
        var at := openCompaction.value;
        list.Touch(at);
        var row := list.RowAt(at);
        row.Patch(e);
        list.Wrote(at);
        openCompaction := None;
        model := P.SetRow(model, at, row.Value()).(openCompaction := None);
        return;
      }
      // The unlisted row takes its patch before it is added.
      var row := P.Patch(P.Compacting(e.ts, "running", None, None, None, None, None, None, None), e);
      var _ := Add(row);
    }

    // ---------- turns ----------

    method OnTurnStart(id: Option<string>)
      requires Valid()
      modifies `openTurnId, `turn, `model
      ensures Valid() && model == P.OnTurnStart(old(model), id)
    {
      hide RowList.Valid, RowList.Values, Row.Value;
      if Named(id) { openTurnId := id; }
      turn := P.NoInputs;
      model := P.OnTurnStart(model, id);
    }

    method EndDraft()
      requires Valid()
      modifies this, list.Repr
      ensures Valid() && model == P.EndDraft(old(model))
      ensures list.Repr == old(list.Repr) && list.handed == old(list.handed) && list.published == old(list.published)
    {
      hide RowList.Valid, RowList.Values, Row.Value;
      if draft.Some? {
        var at := draft.value;
        list.Touch(at);
        var row := list.RowAt(at);
        row.Stop();
        list.Wrote(at);
        draft := None;
        model := P.SetRow(model, at, row.Value()).(draft := None);
      }
    }

    method CloseRow(at: nat)
      requires Valid() && at < |model.items|
      modifies list.Repr, `model
      ensures Valid() && model == P.SetRow(old(model), at, P.Closed(old(model).items[at]))
      ensures list.Repr == old(list.Repr) && list.handed == old(list.handed) && list.published == old(list.published)
    {
      hide RowList.Valid, RowList.Values, Row.Value, P.Closed;
      list.Touch(at);
      var row := list.RowAt(at);
      row.Close();
      list.Wrote(at);
      model := P.SetRow(model, at, row.Value());
    }

    method CloseRows(rows: seq<nat>)
      requires Valid() && forall i | 0 <= i < |rows| :: rows[i] < |model.items|
      modifies list.Repr, `model
      ensures Valid() && model == old(model).(items := P.ClosedAt(old(model).items, rows))
      ensures list.Repr == old(list.Repr) && list.handed == old(list.handed) && list.published == old(list.published)
    {
      hide RowList.Valid, RowList.Values, Row.Value;
      ghost var before: P.State := model;
      for i := 0 to |rows|
        invariant Valid() && list.Repr == old(list.Repr) && list.handed == old(list.handed)
          && list.published == old(list.published)
        invariant model == before.(items := P.ClosedAt(before.items, rows[..i]))
      {
        assert rows[..i + 1] == rows[..i] + [rows[i]];
        CloseRow(rows[i]);
        assert model.items == P.ClosedAt(before.items, rows[..i + 1]);
      }
      assert rows[..|rows|] == rows;
    }

    method LeaveTurn(id: Option<string>)
      requires Valid()
      modifies this, list.Repr
      ensures Valid() && model == P.LeaveTurn(old(model), id)
      ensures list.Repr == old(list.Repr) && list.handed == old(list.handed) && list.published == old(list.published)
    {
      hide RowList.Valid, RowList.Values, Row.Value;
      var closing := if Named(id) then id else openTurnId;
      if closing.Some? {
        CloseTurn(closing.value);
      }
      openTurnId := None;
      model := P.LeaveTurn(old(model), id);
    }

    method CloseTurn(id: string)
      requires Valid()
      modifies this, list.Repr
      ensures Valid() && model == P.CloseTurn(old(model), id)
      ensures list.Repr == old(list.Repr) && list.handed == old(list.handed) && list.published == old(list.published)
    {
      hide RowList.Valid, P.ClosedAt;
      CloseRows(if id in turnAssistants then turnAssistants[id] else []);
      turnAssistants := turnAssistants - {id};
      turnContexts := turnContexts - {id};
      model := P.CloseTurn(old(model), id);
    }

    method InterruptChildren()
      requires Valid()
      modifies list.Repr, `model
      ensures Valid() && model == P.InterruptChildren(old(model))
      ensures list.Repr == old(list.Repr) && list.handed == old(list.handed) && list.published == old(list.published)
    {
      hide RowList.Valid, RowList.Values, Row.Value;
      ghost var before: P.State := model;
      ghost var done: set<nat> := {};
      var left := delegations.Keys;
      while left != {}
        invariant Valid() && list.Repr == old(list.Repr) && list.handed == old(list.handed)
          && list.published == old(list.published)
        invariant model == before.(items := model.items)
        invariant left <= delegations.Keys && done <= delegations.Values
        invariant forall k | k in delegations :: k in left || delegations[k] in done
        invariant model.items == P.InterruptedAt(before.items, done)
      {
        var id :| id in left;
        var at := delegations[id];
        var row := list.RowAt(at);
        if row.Value().Delegation? && row.Value().outcome == "running" {
          EndChild(at, Some("interrupted"));
        }
        left, done := left - {id}, done + {at};
      }
      assert done == delegations.Values;
    }

    method OnTurnEnd(id: Option<string>, reason: Option<string>)
      requires Valid()
      modifies this, list.Repr
      ensures Valid() && model == P.OnTurnEnd(old(model), id, reason)
      ensures fresh(list.Repr - old(list.Repr)) && list.handed == old(list.handed)
        && list.published == old(list.published)
    {
      hide RowList.Valid, RowList.Values, Row.Value;
      hide P.WellFormed;
      EndDraft();
      LeaveTurn(id);
      InterruptChildren();
      AddIf(if reason.Some? then Some(P.Status(reason.value, None)) else None);
    }

    // ---------- the event loop ----------

    /** Turns, inputs and answers. */
    method HandleConversation(e: Event)
      requires Valid() && P.IsConversation(e)
      modifies this, list.Repr
      ensures Valid() && model == P.Handle(old(model), e)
      ensures fresh(list.Repr - old(list.Repr)) && list.handed == old(list.handed)
        && list.published == old(list.published)
    {
      hide RowList.Valid, RowList.Values, Row.Value;
      hide P.WellFormed;
      match e {
        case TurnStart(_, _, id) => OnTurnStart(id);
        case TurnEnd(_, _, id, reason) => OnTurnEnd(id, reason);
        case TurnError(_, _, _, _) => AddIf(P.ErrorRow(turn, e));
        case UserMessage(_, ts, content, inputId, attachments) => OnUserMessage(ts, content, inputId, attachments);
        case InputQueued(_, ts, content, inputId, attachments, steer) =>
          OnInputQueued(ts, content, inputId, attachments, steer);
        case InputSettled(_, _, inputId, outcome) => OnInputSettled(inputId, outcome);
        case AssistantChunk(_, ts, _, delta, thinking) => OnChunk(ts, delta, thinking);
        case AssistantMessage(_, ts, _, content, toolCalls, controls) => OnMessage(ts, content, toolCalls, controls);
      }
    }

    /** Tools, approvals and hooks. */
    method HandleWork(e: Event)
      requires Valid() && IsWork(e)
      modifies this, list.Repr
      ensures Valid() && model == P.Handle(old(model), e)
      ensures fresh(list.Repr - old(list.Repr)) && list.handed == old(list.handed)
        && list.published == old(list.published)
    {
      hide RowList.Valid, RowList.Values, Row.Value;
      hide P.WellFormed;
      match e {
        case CallMade(_, ts, call) => OnCall(ts, call);
        case CallDone(_, _, _, _, _, _, _, _) => OnResult(e);
        case ApprovalRequest(_, _, id, call, _) => OnApprovalRequest(id, call);
        case ApprovalDecision(_, ts, id, decision) => AddIf(P.DecisionRow(approvals, ts, id, decision));
        case HookRun(_, _, _, _, _, _) => AddIf(P.HookRow(e));
      }
    }

    method Handle(e: Event)
      requires Valid()
      modifies this, list.Repr
      ensures Valid() && model == P.Handle(old(model), e)
      ensures fresh(list.Repr - old(list.Repr)) && list.handed == old(list.handed)
        && list.published == old(list.published)
    {
      hide RowList.Valid, RowList.Values, Row.Value;
      hide P.WellFormed;
      if P.IsConversation(e) {
        HandleConversation(e);
      } else if IsWork(e) {
        HandleWork(e);
      } else if e.ChildSpawn? && e.childSessionId.Some? {
        Spawn(e.ts, e.childSessionId.value, e.definition, e.brief, e.objective);
      } else if e.ChildResult? {
        OnChildResult(e);
      } else if e.ContextManifest? {
        OnManifest(e.ts, e.manifest);
      } else if e.CompactionStart? {
        OnCompactionStart(e.ts, e.trigger, e.model);
      } else if e.CompactionEnd? {
        OnCompactionEnd(e);
      }
    }

    method Step(e: Event)
      requires Valid()
      modifies this, list.Repr
      ensures Valid() && model == P.Step(old(model), e)
      ensures fresh(list.Repr - old(list.Repr)) && list.handed == old(list.handed)
        && list.published == old(list.published)
    {
      hide RowList.Valid, RowList.Values, Row.Value;
      hide P.WellFormed;
      Interrupt(e);
      Handle(e);
    }

    /** The array handed out shows the whole fold, and nothing handed out earlier has changed. */
    method Apply(events: seq<Event>) returns (shown: Shown)
      requires Valid()
      modifies this, list.Repr
      ensures Valid() && model == Fold<P.State>(P.Step, old(model), events)
      ensures shown == list.published && shown.Items() == model.items
      ensures fresh(list.Repr - old(list.Repr))
      ensures old(list.handed) <= list.handed && fresh(list.handed - old(list.handed))
      ensures forall o | o in old(list.handed) :: unchanged(o)
    {
      hide RowList.Valid, RowList.Values, Shown.Items;
      hide P.WellFormed;
      hide P.Step;
      for i := 0 to |events|
        invariant Valid() && model == Fold<P.State>(P.Step, old(model), events[..i])
        invariant fresh(list.Repr - old(list.Repr)) && list.handed == old(list.handed)
        invariant forall o | o in old(list.handed) :: unchanged(o)
      {
        assert events[..i + 1] == events[..i] + [events[i]];
        FoldSnoc<P.State>(P.Step, old(model), events[..i], events[i]);
        list.Apart();
        Step(events[i]);
      }
      assert events[..|events|] == events;
      list.Apart();
      list.Publish();
      shown := list.published;
    }
  }
}
