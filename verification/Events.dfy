/** The durable session log as the browser sees it (web/lib/types.ts). */
module Events {

  datatype Option<+T> = None | Some(value: T)

  /** The first value when there is one, the default otherwise (`a ?? b`). */
  function OrElse<T>(o: Option<T>, default: T): T {
    if o.Some? then o.value else default
  }

  /** The later value where it says something, the earlier one otherwise. */
  function Later<T>(newer: Option<T>, older: Option<T>): Option<T> {
    if newer.Some? then newer else older
  }

  /** An optional text that is present and not empty. */
  predicate Named(o: Option<string>) {
    o.Some? && o.value != ""
  }

  /** One entry of a tool call's `todos` argument; absent or non-string fields are empty. */
  datatype RawTodo = RawTodo(content: string, activeForm: string, status: string) | NotAnObject

  datatype ArgValue = Text(text: string) | List(entries: seq<RawTodo>) | OtherValue
  datatype Arg = Arg(key: string, value: ArgValue)
  datatype ToolCall = ToolCall(id: string, name: string, args: seq<Arg>)

  /** Why a call is outside the folder grants, and the grant that would cover it. */
  datatype Scope = Scope(warning: Option<string>, grant: Option<string>, access: Option<string>)

  datatype Controls = Controls(model: Option<string>, provider: Option<string>)

  /** One event: one constructor per `type`; `Other` is any type the client has no case for. */
  datatype Event =
    | TurnStart(seqNo: nat, ts: Option<nat>, turnId: Option<string>)
    | TurnEnd(seqNo: nat, ts: Option<nat>, turnId: Option<string>, reason: Option<string>)
    | TurnError(seqNo: nat, ts: Option<nat>, kind: Option<string>, message: Option<string>)
    | UserMessage(seqNo: nat, ts: Option<nat>, content: Option<string>, inputId: Option<string>,
                  attachments: seq<string>)
    | InputQueued(seqNo: nat, ts: Option<nat>, content: Option<string>, inputId: Option<string>,
                  attachments: seq<string>, steer: bool)
    | InputSettled(seqNo: nat, ts: Option<nat>, inputId: Option<string>, outcome: Option<string>)
    | AssistantChunk(seqNo: nat, ts: Option<nat>, stepId: Option<string>, delta: Option<string>, thinking: bool)
    | AssistantMessage(seqNo: nat, ts: Option<nat>, stepId: Option<string>, content: Option<string>,
                       toolCalls: Option<seq<ToolCall>>, controls: Option<Controls>)
    | CallMade(seqNo: nat, ts: Option<nat>, call: Option<ToolCall>)
    | CallDone(seqNo: nat, ts: Option<nat>, callId: Option<string>, ok: bool, output: Option<string>, recovery: bool,
               outcome: Option<string>, invocationId: Option<string>)
    | ApprovalRequest(seqNo: nat, ts: Option<nat>, approvalId: Option<string>, call: Option<ToolCall>, scope: Scope)
    | ApprovalDecision(seqNo: nat, ts: Option<nat>, approvalId: Option<string>, decision: Option<string>)
    | HookRun(seqNo: nat, ts: Option<nat>, decision: Option<string>, hook: Option<string>, matcher: Option<string>,
              durationMs: Option<nat>)
    | ChildSpawn(seqNo: nat, ts: Option<nat>, childSessionId: Option<string>, definition: Option<string>,
                 brief: Option<string>, objective: Option<string>)
    | ChildResult(seqNo: nat, ts: Option<nat>, childSessionId: Option<string>, definition: Option<string>,
                  brief: Option<string>, objective: Option<string>, status: Option<string>)
    | ContextManifest(seqNo: nat, ts: Option<nat>, manifest: Option<string>)
    | ContextBody(seqNo: nat, ts: Option<nat>)
    | CompactionStart(seqNo: nat, ts: Option<nat>, trigger: Option<string>, model: Option<string>)
    | CompactionEnd(seqNo: nat, ts: Option<nat>, trigger: Option<string>, model: Option<string>,
                    coversSeq: Option<nat>, summaryChars: Option<nat>, durationMs: Option<nat>,
                    summary: Option<string>, error: Option<string>)
    | ProcessStart(seqNo: nat, ts: Option<nat>, processId: Option<string>, command: Option<string>)
    | ProcessExit(seqNo: nat, ts: Option<nat>, processId: Option<string>, termination: Option<string>,
                  exitCode: Option<int>, durationMs: Option<nat>)
    | Other(seqNo: nat, ts: Option<nat>)

  /** A left fold over the log, peeling the newest event. */
  function Fold<S>(step: (S, Event) -> S, init: S, es: seq<Event>): S {
    if es == [] then init else step(Fold(step, init, es[..|es| - 1]), es[|es| - 1])
  }

  lemma FoldSnoc<S>(step: (S, Event) -> S, init: S, es: seq<Event>, e: Event)
    ensures Fold(step, init, es + [e]) == step(Fold(step, init, es), e)
  {
    assert (es + [e])[..|es|] == es;
  }

  /** Folding in two batches is folding the whole. */
  lemma {:induction false} FoldAppend<S>(step: (S, Event) -> S, init: S, a: seq<Event>, b: seq<Event>)
    ensures Fold(step, init, a + b) == Fold(step, Fold(step, init, a), b)
    decreases |b|
  {
    if b == [] {
      assert a + b == a;
    } else {
      var front, last := b[..|b| - 1], b[|b| - 1];
      FoldAppend(step, init, a, front);
      assert a + b == (a + front) + [last] && b == front + [last];
      FoldSnoc(step, init, a + front, last);
      FoldSnoc(step, Fold(step, init, a), front, last);
    }
  }

  /** The log's order: positive numbers, strictly increasing. */
  predicate Ordered(es: seq<Event>) {
    && (forall i :: 0 <= i < |es| ==> 0 < es[i].seqNo)
    && (forall i, j :: 0 <= i < j < |es| ==> es[i].seqNo < es[j].seqNo)
  }
}
