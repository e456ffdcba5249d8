/**
 * What the panels read off the event list: the running turn and its phase
 * (web/lib/project.ts), the todo list (web/lib/todos-view.ts) and the process
 * and subagent rows (web/lib/processes-view.ts). Each view is a loop; the fold
 * of its step function is the specification the loop is proved against.
 */
module Views {
  import opened Events

  // ---------- the running turn ----------

  function OpenStep(open: nat, e: Event): nat {
    match e
    case TurnStart(_, _, _) => open + 1
    case TurnEnd(_, _, _, _) => if open == 0 then 0 else open - 1
    case _ => open
  }

  predicate TurnRunning(es: seq<Event>) {
    Fold(OpenStep, 0, es) > 0
  }

  method IsTurnRunning(events: seq<Event>) returns (running: bool)
    ensures running == TurnRunning(events)
  {
    var open: nat := 0;
    for i := 0 to |events|
      invariant open == Fold(OpenStep, 0, events[..i])
    {
      FoldSnoc(OpenStep, 0, events[..i], events[i]);
      assert events[..i + 1] == events[..i] + [events[i]];
      match events[i] {
        case TurnStart(_, _, _) => open := open + 1;
        case TurnEnd(_, _, _, _) => open := if open == 0 then 0 else open - 1;
        case _ =>
      }
    }
    assert events[..|events|] == events;
    running := open > 0;
  }

  /** Starts minus ends. */
  function Net(es: seq<Event>): int {
    if es == [] then 0
    else
      Net(es[..|es| - 1]) + (match es[|es| - 1] case TurnStart(_, _, _) => 1 case TurnEnd(_, _, _, _) => -1 case _ => 0)
  }

  /** The clamped counter is the largest surplus of starts over ends in any suffix. */
  lemma {:induction false} OpenIsMaxSurplus(es: seq<Event>)
    ensures exists i | 0 <= i <= |es| :: Fold(OpenStep, 0, es) == Net(es[i..])
    ensures forall i | 0 <= i <= |es| :: Net(es[i..]) <= Fold(OpenStep, 0, es)
  {
    assert es[|es|..] == [];
    if es == [] {
    } else {
      var front, last := es[..|es| - 1], es[|es| - 1];
      OpenIsMaxSurplus(front);
      forall i | 0 <= i < |es|
        ensures Net(es[i..]) == Net(front[i..]) + Net([last])
      {
        assert es[i..][..|es| - i - 1] == front[i..];
        assert [last][..0] == [];
      }
      var k :| 0 <= k <= |front| && Fold(OpenStep, 0, front) == Net(front[k..]);
      assert Fold(OpenStep, 0, es) == Net(es[k..]) || Fold(OpenStep, 0, es) == Net(es[|es|..]);
    }
  }

  /** A turn runs exactly when some suffix of the log starts more turns than it ends. */
  lemma RunningIffUnmatchedStart(es: seq<Event>)
    ensures TurnRunning(es) <==> exists i | 0 <= i <= |es| :: Net(es[i..]) > 0
  {
    OpenIsMaxSurplus(es);
  }

  // ---------- the task phase ----------

  const TERMINAL_PHASES: set<string> :=
    {"completed", "interrupted", "cancelled", "steered", "rejected", "empty", "limit"}

  datatype Progress = Progress(queued: set<string>, phase: string)

  function ProgressStep(p: Progress, e: Event): Progress {
    match e
    case InputQueued(_, _, _, id, _, _) => if Named(id) then p.(queued := p.queued + {id.value}) else p
    case UserMessage(_, _, _, id, _) => if Named(id) then p.(queued := p.queued - {id.value}) else p
    case InputSettled(_, _, id, _) => if Named(id) then p.(queued := p.queued - {id.value}) else p
    case TurnEnd(_, _, _, reason) =>
      p.(phase := Outcome(reason))
    case _ => p
  }

  function PhaseOf(es: seq<Event>, pendingApprovals: nat, sending: bool): string {
    if TurnRunning(es) then (if pendingApprovals > 0 then "waiting" else "running")
    else if sending then "preparing"
    else
      var p := Fold(ProgressStep, Progress({}, "idle"), es);
      if p.queued != {} then (if p.phase == "cancelled" || p.phase == "interrupted" then "held" else "preparing")
      else p.phase
  }

  method TaskPhase(events: seq<Event>, pendingApprovals: nat, sending: bool) returns (phase: string)
    ensures phase == PhaseOf(events, pendingApprovals, sending)
  {
    var running := IsTurnRunning(events);
    if running {
      return if pendingApprovals > 0 then "waiting" else "running";
    }
    var queued: set<string> := {};
    phase := "idle";
    for i := 0 to |events|
      invariant Progress(queued, phase) == Fold(ProgressStep, Progress({}, "idle"), events[..i])
    {
      FoldSnoc(ProgressStep, Progress({}, "idle"), events[..i], events[i]);
      assert events[..i + 1] == events[..i] + [events[i]];
      match events[i] {
        case InputQueued(_, _, _, id, _, _) => if Named(id) { queued := queued + {id.value}; }
        case UserMessage(_, _, _, id, _) => if Named(id) { queued := queued - {id.value}; }
        case InputSettled(_, _, id, _) => if Named(id) { queued := queued - {id.value}; }
        case TurnEnd(_, _, _, reason) =>
          phase := if reason.Some? && reason.value in TERMINAL_PHASES then reason.value else "failed";
        case _ =>
      }
    }
    assert events[..|events|] == events;
    if sending { return "preparing"; }
    if queued != {} {
      return if phase == "cancelled" || phase == "interrupted" then "held" else "preparing";
    }
  }

  predicate Accepts(e: Event, id: string) {
    e.InputQueued? && e.inputId == Some(id) && id != ""
  }

  /** The message appeared in a turn, or was settled without one. */
  predicate Consumes(e: Event, id: string) {
    (e.UserMessage? || e.InputSettled?) && e.inputId == Some(id) && id != ""
  }

  /** Accepted, and neither shown nor settled since. */
  ghost predicate Outstanding(es: seq<Event>, id: string) {
    exists i | 0 <= i < |es| :: Accepts(es[i], id) && forall j | i < j < |es| :: !Consumes(es[j], id)
  }

  lemma OutstandingSnoc(es: seq<Event>, e: Event, id: string)
    ensures Outstanding(es + [e], id) <==> Accepts(e, id) || (Outstanding(es, id) && !Consumes(e, id))
  {
    var all := es + [e];
    if Outstanding(all, id) && !Accepts(e, id) {
      var i :| 0 <= i < |all| && Accepts(all[i], id) && forall j | i < j < |all| :: !Consumes(all[j], id);
      assert Accepts(es[i], id);
      assert forall j | i < j < |es| :: es[j] == all[j];
      assert !Consumes(all[|es|], id);
    }
    if Outstanding(es, id) && !Consumes(e, id) {
      var i :| 0 <= i < |es| && Accepts(es[i], id) && forall j | i < j < |es| :: !Consumes(es[j], id);
      assert Accepts(all[i], id);
    }
    if Accepts(e, id) {
      assert Accepts(all[|es|], id);
    }
  }

  /** How a turn's end reads as a phase. */
  function Outcome(reason: Option<string>): string {
    if reason.Some? && reason.value in TERMINAL_PHASES then reason.value else "failed"
  }

  /** The last turn's outcome, or idle before any turn ended. */
  ghost predicate LastOutcome(es: seq<Event>, phase: string) {
    || (phase == "idle" && forall i | 0 <= i < |es| :: !es[i].TurnEnd?)
    || exists k | 0 <= k < |es| ::
      es[k].TurnEnd? && phase == Outcome(es[k].reason) && forall j | k < j < |es| :: !es[j].TurnEnd?
  }

  /** What is queued is exactly what is outstanding, and the phase is how the last turn ended. */
  lemma {:induction false} ProgressMeans(es: seq<Event>)
    ensures var p := Fold(ProgressStep, Progress({}, "idle"), es);
      (forall id :: id in p.queued <==> Outstanding(es, id)) && LastOutcome(es, p.phase)
  {
    if es != [] {
      var front, e := es[..|es| - 1], es[|es| - 1];
      assert es == front + [e];
      ProgressMeans(front);
      var before := Fold(ProgressStep, Progress({}, "idle"), front);
      FoldSnoc(ProgressStep, Progress({}, "idle"), front, e);
      forall id ensures id in ProgressStep(before, e).queued <==> Outstanding(es, id) {
        OutstandingSnoc(front, e, id);
      }
      OutcomeSnoc(front, e, before.phase);
    }
  }

  lemma OutcomeSnoc(es: seq<Event>, e: Event, phase: string)
    requires LastOutcome(es, phase)
    ensures LastOutcome(es + [e], if e.TurnEnd? then Outcome(e.reason) else phase)
  {
    var all := es + [e];
    assert all[|es|] == e;
    if !e.TurnEnd? && !(phase == "idle" && forall i | 0 <= i < |es| :: !es[i].TurnEnd?) {
      var k :| 0 <= k < |es| && es[k].TurnEnd? && phase == Outcome(es[k].reason)
        && forall j | k < j < |es| :: !es[j].TurnEnd?;
      assert all[k] == es[k];
    }
  }

  lemma OneOutcome(es: seq<Event>, a: string, b: string)
    requires LastOutcome(es, a) && LastOutcome(es, b)
    ensures a == b
  {
    if exists i | 0 <= i < |es| :: es[i].TurnEnd? {
      var k :| 0 <= k < |es| && es[k].TurnEnd? && a == Outcome(es[k].reason)
        && forall j | k < j < |es| :: !es[j].TurnEnd?;
      var l :| 0 <= l < |es| && es[l].TurnEnd? && b == Outcome(es[l].reason)
        && forall j | l < j < |es| :: !es[j].TurnEnd?;
      assert k == l;
    }
  }

  /**
   * A running turn waits for approvals or runs; otherwise a message being sent
   * prepares; otherwise accepted input that is outstanding is held after a
   * cancelled or interrupted turn and prepares after any other; and with nothing
   * outstanding the phase is how the last turn ended.
   */
  lemma PhaseMeans(es: seq<Event>, pendingApprovals: nat, sending: bool)
    ensures var phase := PhaseOf(es, pendingApprovals, sending);
      if exists i | 0 <= i <= |es| :: Net(es[i..]) > 0 then
        phase == if pendingApprovals > 0 then "waiting" else "running"
      else if sending then phase == "preparing"
      else if exists id :: Outstanding(es, id) then
        phase == if LastOutcome(es, "cancelled") || LastOutcome(es, "interrupted") then "held" else "preparing"
      else LastOutcome(es, phase)
  {
    RunningIffUnmatchedStart(es);
    ProgressMeans(es);
    var p := Fold(ProgressStep, Progress({}, "idle"), es);
    if LastOutcome(es, "cancelled") { OneOutcome(es, p.phase, "cancelled"); }
    if LastOutcome(es, "interrupted") { OneOutcome(es, p.phase, "interrupted"); }
    if p.queued != {} {
      var id :| id in p.queued;
      assert Outstanding(es, id);
    }
  }

  // ---------- the todo list ----------

  datatype Todo = Todo(content: string, activeForm: string, status: string)

  function ParseTodos(entries: seq<RawTodo>): seq<Todo> {
    if entries == [] then []
    else
      var e := entries[0];
      (if e.RawTodo? && e.content != "" && e.activeForm != "" && e.status in {"pending", "in_progress", "completed"}
       then [Todo(e.content, e.activeForm, e.status)] else [])
      + ParseTodos(entries[1..])
  }

  function TodosArg(args: seq<Arg>): seq<Todo> {
    if args == [] then []
    else if args[0].key == "todos" then (if args[0].value.List? then ParseTodos(args[0].value.entries) else [])
    else TodosArg(args[1..])
  }

  predicate WellFormedTodo(e: RawTodo, t: Todo) {
    && e == RawTodo(t.content, t.activeForm, t.status) && t.content != "" && t.activeForm != ""
    && (t.status == "pending" || t.status == "in_progress" || t.status == "completed")
  }

  /** The well-formed entries and no others, in order. */
  ghost predicate WellFormedTodos(entries: seq<RawTodo>, todos: seq<Todo>, at: seq<nat>) {
    && |at| == |todos|
    && (forall k | 0 <= k < |at| :: at[k] < |entries| && WellFormedTodo(entries[at[k]], todos[k]))
    && (forall k, l | 0 <= k < l < |at| :: at[k] < at[l])
    && forall i: nat, t | i < |entries| && WellFormedTodo(entries[i], t) :: i in at
  }

  /** The same of the entries after the first. */
  ghost predicate AfterFirst(entries: seq<RawTodo>, todos: seq<Todo>, at: seq<nat>) {
    && |at| == |todos|
    && (forall k | 0 <= k < |at| :: 0 < at[k] < |entries| && WellFormedTodo(entries[at[k]], todos[k]))
    && (forall k, l | 0 <= k < l < |at| :: at[k] < at[l])
    && forall i: nat, t | 0 < i < |entries| && WellFormedTodo(entries[i], t) :: i in at
  }

  lemma {:induction false} ParseMeans(entries: seq<RawTodo>) returns (at: seq<nat>)
    ensures WellFormedTodos(entries, ParseTodos(entries), at)
  {
    if entries == [] {
      at := [];
    } else {
      var rest := entries[1..];
      var later := ParseMeans(rest);
      var todos := ParseTodos(rest);
      hide ParseTodos, WellFormedTodos, AfterFirst, WellFormedTodo;
      at := Moved(entries, todos, later);
      OneParsed(entries);
      if t :| WellFormedTodo(entries[0], t) && ParseTodos(entries) == [t] + todos {
        WithFirst(entries, t, todos, at);
        at := [0] + at;
      } else {
        WithoutFirst(entries, todos, at);
      }
    }
  }

  lemma WithFirst(entries: seq<RawTodo>, t: Todo, todos: seq<Todo>, at: seq<nat>)
    requires AfterFirst(entries, todos, at) && entries != [] && WellFormedTodo(entries[0], t)
    ensures WellFormedTodos(entries, [t] + todos, [0] + at)
  {
    hide WellFormedTodo;
    var all, kept := [0] + at, [t] + todos;
    forall k | 0 <= k < |all| ensures all[k] < |entries| && WellFormedTodo(entries[all[k]], kept[k]) {
      if k > 0 { assert all[k] == at[k - 1] && kept[k] == todos[k - 1]; }
    }
    Climbs(at);
    forall i: nat, u | i < |entries| && WellFormedTodo(entries[i], u) ensures i in all {
      if i > 0 { Among(i, at); } else { assert all[0] == 0; }
    }
  }

  lemma Climbs(at: seq<nat>)
    requires forall k | 0 <= k < |at| :: at[k] > 0
    requires forall k, l | 0 <= k < l < |at| :: at[k] < at[l]
    ensures forall k, l | 0 <= k < l < |[0] + at| :: ([0] + at)[k] < ([0] + at)[l]
  {
  }

  lemma Among(i: nat, at: seq<nat>)
    requires i in at
    ensures i in [0] + at
  {
  }

  lemma WithoutFirst(entries: seq<RawTodo>, todos: seq<Todo>, at: seq<nat>)
    requires AfterFirst(entries, todos, at) && entries != [] && !exists t :: WellFormedTodo(entries[0], t)
    ensures WellFormedTodos(entries, todos, at)
  {
    hide WellFormedTodo;
  }

  lemma OneParsed(entries: seq<RawTodo>)
    requires entries != []
    ensures if exists t :: WellFormedTodo(entries[0], t)
      then exists t :: WellFormedTodo(entries[0], t) && ParseTodos(entries) == [t] + ParseTodos(entries[1..])
      else ParseTodos(entries) == ParseTodos(entries[1..])
  {
    var e := entries[0];
    assert [] + ParseTodos(entries[1..]) == ParseTodos(entries[1..]);
    if e.RawTodo? { assert forall t :: WellFormedTodo(e, t) ==> t == Todo(e.content, e.activeForm, e.status); }
    if ParseTodos(entries) != ParseTodos(entries[1..]) {
      assert WellFormedTodo(e, Todo(e.content, e.activeForm, e.status));
    }
  }

  lemma Moved(entries: seq<RawTodo>, todos: seq<Todo>, later: seq<nat>) returns (moved: seq<nat>)
    requires entries != [] && WellFormedTodos(entries[1..], todos, later)
    ensures AfterFirst(entries, todos, moved)
  {
    hide WellFormedTodo;
    moved := seq(|later|, k requires 0 <= k < |later| => later[k] + 1);
    var rest := entries[1..];
    assert forall i | 0 <= i < |rest| :: rest[i] == entries[i + 1];
    forall i: nat, t | 0 < i < |entries| && WellFormedTodo(entries[i], t) ensures i in moved {
      assert WellFormedTodo(rest[i - 1], t);
      var k :| 0 <= k < |later| && later[k] == i - 1;
      assert moved[k] == i;
    }
  }

  /** The list is the value of the first argument named `todos`, when that is a list. */
  lemma {:induction false} TodosArgMeans(args: seq<Arg>)
    ensures (forall k | 0 <= k < |args| :: args[k].key != "todos") ==> TodosArg(args) == []
    ensures forall k | 0 <= k < |args| && args[k].key == "todos" && forall j | 0 <= j < k :: args[j].key != "todos" ::
      TodosArg(args) == if args[k].value.List? then ParseTodos(args[k].value.entries) else []
  {
    if args != [] && args[0].key != "todos" {
      var rest := args[1..];
      TodosArgMeans(rest);
      assert forall k | 0 < k < |args| :: args[k] == rest[k - 1];
      forall k | 0 <= k < |args| && args[k].key == "todos" && forall j | 0 <= j < k :: args[j].key != "todos"
        ensures TodosArg(args) == if args[k].value.List? then ParseTodos(args[k].value.entries) else []
      {
        assert forall j | 0 <= j < k - 1 :: rest[j].key == args[j + 1].key;
        assert rest[k - 1].key == "todos";
      }
    }
  }

  datatype TodoState = TodoState(candidates: map<string, seq<Todo>>, todos: seq<Todo>)

  function TodoStep(s: TodoState, e: Event): TodoState {
    if e.CallMade? && e.call.Some? && e.call.value.name == "TodoWrite" && e.call.value.id != "" then
      s.(candidates := s.candidates[e.call.value.id := TodosArg(e.call.value.args)])
    else if e.CallDone? && e.callId.Some? && e.callId.value in s.candidates then
      TodoState(s.candidates - {e.callId.value}, if e.ok && !e.recovery then s.candidates[e.callId.value] else s.todos)
    else s
  }

  predicate IsFirstActive(todos: seq<Todo>, i: nat)
    requires i < |todos|
  {
    todos[i].status == "in_progress" && forall j | 0 <= j < i :: todos[j].status != "in_progress"
  }

  /** The first item in progress. */
  function FirstActive(todos: seq<Todo>): (active: Option<Todo>)
    ensures active.None? <==> forall i | 0 <= i < |todos| :: todos[i].status != "in_progress"
    ensures active.Some? ==> exists i | 0 <= i < |todos| :: todos[i] == active.value && IsFirstActive(todos, i)
  {
    if todos == [] then None
    else if todos[0].status == "in_progress" then
      assert IsFirstActive(todos, 0);
      Some(todos[0])
    else
      var later := FirstActive(todos[1..]);
      assert forall i | 0 < i < |todos| :: IsFirstActive(todos[1..], i - 1) ==> IsFirstActive(todos, i);
      later
  }

  method TodosFromEvents(events: seq<Event>) returns (todos: seq<Todo>, active: Option<Todo>)
    ensures todos == Fold(TodoStep, TodoState(map[], []), events).todos && active == FirstActive(todos)
  {
    var candidates: map<string, seq<Todo>> := map[];
    todos := [];
    for i := 0 to |events|
      invariant TodoState(candidates, todos) == Fold(TodoStep, TodoState(map[], []), events[..i])
    {
      FoldSnoc(TodoStep, TodoState(map[], []), events[..i], events[i]);
      assert events[..i + 1] == events[..i] + [events[i]];
      var e := events[i];
      if e.CallMade? && e.call.Some? && e.call.value.name == "TodoWrite" && e.call.value.id != "" {
        candidates := candidates[e.call.value.id := TodosArg(e.call.value.args)];
      } else if e.CallDone? && e.callId.Some? {
        if e.callId.value !in candidates { continue; }
        var candidate := candidates[e.callId.value];
        candidates := candidates - {e.callId.value};
        if e.ok && !e.recovery { todos := candidate; }
      }
    }
    assert events[..|events|] == events;
    active := FirstActive(todos);
  }

  predicate Writes(e: Event, id: string) {
    e.CallMade? && e.call.Some? && e.call.value.name == "TodoWrite" && e.call.value.id == id && id != ""
  }

  predicate Answers(e: Event, id: string) {
    e.CallDone? && e.callId == Some(id)
  }

  /** The list of a TodoWrite call of that id, not repeated and not answered yet. */
  ghost predicate Candidate(es: seq<Event>, id: string, list: seq<Todo>) {
    exists i | 0 <= i < |es| :: Writes(es[i], id) && list == TodosArg(es[i].call.value.args)
      && forall j | i < j < |es| :: !Writes(es[j], id) && !Answers(es[j], id)
  }

  lemma CandidateSnoc(es: seq<Event>, e: Event, id: string, list: seq<Todo>)
    ensures Candidate(es + [e], id, list)
      <==> if Writes(e, id) then list == TodosArg(e.call.value.args) else Candidate(es, id, list) && !Answers(e, id)
  {
    var all := es + [e];
    assert all[|es|] == e;
    if Candidate(all, id, list) && !Writes(e, id) {
      var i :| 0 <= i < |all| && Writes(all[i], id) && list == TodosArg(all[i].call.value.args)
        && forall j | i < j < |all| :: !Writes(all[j], id) && !Answers(all[j], id);
      assert Writes(es[i], id);
      assert forall j | i < j < |es| :: es[j] == all[j];
      assert !Answers(all[|es|], id);
    }
    if Candidate(es, id, list) && !Writes(e, id) && !Answers(e, id) {
      var i :| 0 <= i < |es| && Writes(es[i], id) && list == TodosArg(es[i].call.value.args)
        && forall j | i < j < |es| :: !Writes(es[j], id) && !Answers(es[j], id);
      assert Writes(all[i], id);
    }
    if Writes(e, id) && list == TodosArg(e.call.value.args) {
      assert Writes(all[|es|], id);
    }
  }

  /** The result at `j` succeeds, is no recovery record, and answers the call that wrote this list. */
  ghost predicate AdoptsAt(es: seq<Event>, j: nat, list: seq<Todo>) {
    j < |es| && es[j].CallDone? && es[j].callId.Some? && es[j].ok && !es[j].recovery
      && Candidate(es[..j], es[j].callId.value, list)
  }

  /** The list of the latest adoption, or none before any. */
  ghost predicate LatestAdopted(es: seq<Event>, todos: seq<Todo>) {
    || (todos == [] && forall j: nat, list :: !AdoptsAt(es, j, list))
    || exists j: nat :: AdoptsAt(es, j, todos) && forall k: nat, list | j < k :: !AdoptsAt(es, k, list)
  }

  lemma AdoptsSnoc(es: seq<Event>, e: Event, j: nat, list: seq<Todo>)
    ensures AdoptsAt(es + [e], j, list)
      <==> AdoptsAt(es, j, list)
           || (j == |es| && e.CallDone? && e.callId.Some? && e.ok && !e.recovery && Candidate(es, e.callId.value, list))
  {
    if j < |es| { assert (es + [e])[..j] == es[..j]; }
    assert (es + [e])[..|es|] == es;
  }

  lemma LatestSnoc(es: seq<Event>, e: Event, s: TodoState)
    requires LatestAdopted(es, s.todos)
    requires forall id, list :: id in s.candidates && s.candidates[id] == list <==> Candidate(es, id, list)
    ensures LatestAdopted(es + [e], TodoStep(s, e).todos)
  {
    hide Candidate, AdoptsAt, TodosArg;
    var todos := TodoStep(s, e).todos;
    forall j: nat, list
      ensures AdoptsAt(es + [e], j, list)
        <==> AdoptsAt(es, j, list)
             || (j == |es| && e.CallDone? && e.callId.Some? && e.ok && !e.recovery
                 && Candidate(es, e.callId.value, list))
    {
      AdoptsSnoc(es, e, j, list);
    }
    forall j: nat, list | AdoptsAt(es, j, list) ensures j < |es| { AdoptsInside(es, j, list); }
    if e.CallDone? && e.callId.Some? && e.ok && !e.recovery && e.callId.value in s.candidates {
      assert Candidate(es, e.callId.value, todos);
      assert AdoptsAt(es + [e], |es|, todos);
      forall k: nat, list | |es| < k ensures !AdoptsAt(es + [e], k, list) {}
    } else {
      assert todos == s.todos;
      if !(todos == [] && forall j: nat, list :: !AdoptsAt(es, j, list)) {
        var j: nat :| AdoptsAt(es, j, todos) && forall k: nat, list | j < k :: !AdoptsAt(es, k, list);
        assert AdoptsAt(es + [e], j, todos);
      }
    }
  }

  lemma AdoptsInside(es: seq<Event>, j: nat, list: seq<Todo>)
    requires AdoptsAt(es, j, list)
    ensures j < |es|
  {
  }

  /** The todo list is the one written by the call the latest successful result answers. */
  lemma {:induction false} TodosMean(es: seq<Event>)
    ensures var s := Fold(TodoStep, TodoState(map[], []), es);
      && (forall id, list :: id in s.candidates && s.candidates[id] == list <==> Candidate(es, id, list))
      && LatestAdopted(es, s.todos)
  {
    hide TodosArg, LatestAdopted;
    if es == [] {
      NothingAdopted(es);
    } else {
      var front, e := es[..|es| - 1], es[|es| - 1];
      assert es == front + [e];
      TodosMean(front);
      var s := Fold(TodoStep, TodoState(map[], []), front);
      FoldSnoc(TodoStep, TodoState(map[], []), front, e);
      LatestSnoc(front, e, s);
      forall id, list
        ensures id in TodoStep(s, e).candidates && TodoStep(s, e).candidates[id] == list <==> Candidate(es, id, list)
      {
        CandidateSnoc(front, e, id, list);
        hide Candidate;
        assert Answers(e, id) && !Writes(e, id) && id !in s.candidates ==> !Candidate(front, id, list);
      }
    }
  }

  lemma NothingAdopted(es: seq<Event>)
    requires es == []
    ensures LatestAdopted(es, [])
  {
  }

  // ---------- process and subagent rows ----------

  /** An insertion-ordered map of rows: `set` replaces in place or appends. */
  datatype Entry<R> = Entry(key: string, row: R)

  function Find<R>(rows: seq<Entry<R>>, key: string): (at: Option<nat>)
    ensures at.Some? ==> at.value < |rows| && rows[at.value].key == key
    ensures at.None? ==> forall i | 0 <= i < |rows| :: rows[i].key != key
  {
    if rows == [] then None
    else if rows[0].key == key then Some(0)
    else match Find(rows[1..], key) case Some(i) => Some(i + 1) case None => None
  }

  function Put<R>(rows: seq<Entry<R>>, key: string, row: R): seq<Entry<R>> {
    match Find(rows, key)
    case Some(i) => rows[i := Entry(key, row)]
    case None => rows + [Entry(key, row)]
  }

  datatype ProcessRow = ProcessRow(command: string, status: string, exitCode: Option<int>, startedAt: nat,
                                   durationMs: nat)

  function ProcessStep(rows: seq<Entry<ProcessRow>>, e: Event): seq<Entry<ProcessRow>> {
    match e
    case ProcessStart(_, ts, Some(id), command) =>
      Put(rows, id, ProcessRow(OrElse(command, ""), "running", None, OrElse(ts, 0), 0))
    case ProcessExit(_, _, Some(id), termination, exitCode, durationMs) =>
      (match Find(rows, id)
       case None => rows
       case Some(i) => Put(rows, id,
                           rows[i].row.(status := OrElse(termination, "exited"), exitCode := exitCode,
                                        durationMs := OrElse(durationMs, 0))))
    case _ => rows
  }

  method ProcessRows(events: seq<Event>) returns (rows: seq<Entry<ProcessRow>>)
    ensures rows == Fold(ProcessStep, [], events)
  {
    hide Put;
    rows := [];
    for i := 0 to |events|
      invariant rows == Fold(ProcessStep, [], events[..i])
    {
      FoldSnoc(ProcessStep, [], events[..i], events[i]);
      assert events[..i + 1] == events[..i] + [events[i]];
      match events[i] {
        case ProcessStart(_, ts, Some(id), command) =>
          rows := Put(rows, id, ProcessRow(OrElse(command, ""), "running", None, OrElse(ts, 0), 0));
        case ProcessExit(_, _, Some(id), termination, exitCode, durationMs) =>
          var at := Find(rows, id);
          if at.None? { continue; }
          var row := rows[at.value].row;
          rows := Put(rows, id,
                      row.(status := OrElse(termination, "exited"), exitCode := exitCode,
                           durationMs := OrElse(durationMs, 0)));
        case _ =>
      }
    }
    assert events[..|events|] == events;
  }

  datatype SubagentRow = SubagentRow(definition: string, running: bool, status: Option<string>)

  function SubagentStep(rows: seq<Entry<SubagentRow>>, e: Event): seq<Entry<SubagentRow>> {
    match e
    case ChildSpawn(_, _, Some(id), definition, _, _) =>
      Put(rows, id, SubagentRow(OrElse(definition, "subagent"), true, None))
    case ChildResult(_, _, Some(id), _, _, _, status) =>
      (match Find(rows, id)
       case None => rows
       case Some(i) => Put(rows, id, rows[i].row.(running := false, status := Some(OrElse(status, "finished")))))
    case _ => rows
  }

  method SubagentRows(events: seq<Event>) returns (rows: seq<Entry<SubagentRow>>)
    ensures rows == Fold(SubagentStep, [], events)
  {
    rows := [];
    for i := 0 to |events|
      invariant rows == Fold(SubagentStep, [], events[..i])
    {
      FoldSnoc(SubagentStep, [], events[..i], events[i]);
      assert events[..i + 1] == events[..i] + [events[i]];
      match events[i] {
        case ChildSpawn(_, _, Some(id), definition, _, _) =>
          rows := Put(rows, id, SubagentRow(OrElse(definition, "subagent"), true, None));
        case ChildResult(_, _, Some(id), _, _, _, status) =>
          var at := Find(rows, id);
          if at.None? { continue; }
          rows := Put(rows, id, rows[at.value].row.(running := false, status := Some(OrElse(status, "finished"))));
        case _ =>
      }
    }
    assert events[..|events|] == events;
  }

  // ---------- what the rows mean ----------

  function Lookup<R>(rows: seq<Entry<R>>, key: string): Option<R> {
    match Find(rows, key)
    case Some(i) => Some(rows[i].row)
    case None => None
  }

  /** Putting a row changes what is found under its key and nothing else. */
  lemma {:induction false} LookupPut<R>(rows: seq<Entry<R>>, key: string, row: R, other: string)
    ensures Lookup(Put(rows, key, row), other) == if other == key then Some(row) else Lookup(rows, other)
  {
    if rows != [] {
      var put := Put(rows, key, row);
      if rows[0].key == key {
        assert put[1..] == rows[1..];
      } else {
        LookupPut(rows[1..], key, row, other);
        assert put[1..] == Put(rows[1..], key, row) && put[0] == rows[0];
      }
    }
  }

  predicate Spawns(e: Event, id: string) {
    e.ChildSpawn? && e.childSessionId == Some(id)
  }

  predicate Returns(e: Event, id: string) {
    e.ChildResult? && e.childSessionId == Some(id)
  }

  predicate Starts(e: Event, id: string) {
    e.ProcessStart? && e.processId == Some(id)
  }

  predicate Exits(e: Event, id: string) {
    e.ProcessExit? && e.processId == Some(id)
  }

  ghost predicate Ever(es: seq<Event>, about: (Event, string) -> bool, id: string) {
    exists i | 0 <= i < |es| :: about(es[i], id)
  }

  /** The last beginning is at `i`, and the last end since then at `k`, if any. */
  ghost predicate Spans(es: seq<Event>, begins: (Event, string) -> bool, ends: (Event, string) -> bool, id: string,
                        i: nat, k: Option<nat>) {
    && i < |es| && begins(es[i], id) && (forall j | i < j < |es| :: !begins(es[j], id))
    && match k
       case None => forall j | i < j < |es| :: !ends(es[j], id)
       case Some(at) => i < at < |es| && ends(es[at], id) && forall j | at < j < |es| :: !ends(es[j], id)
  }

  lemma EverSnoc(es: seq<Event>, e: Event, about: (Event, string) -> bool, id: string)
    ensures Ever(es + [e], about, id) <==> Ever(es, about, id) || about(e, id)
  {
    var all := es + [e];
    assert all[|es|] == e;
    if Ever(es, about, id) {
      var i :| 0 <= i < |es| && about(es[i], id);
      assert about(all[i], id);
    }
  }

  lemma SpansSnoc(es: seq<Event>, e: Event, begins: (Event, string) -> bool, ends: (Event, string) -> bool, id: string,
                  i: nat, k: Option<nat>)
    ensures Spans(es, begins, ends, id, i, k) && !begins(e, id) ==>
      Spans(es + [e], begins, ends, id, i, if ends(e, id) then Some(|es|) else k)
    ensures begins(e, id) ==> Spans(es + [e], begins, ends, id, |es|, None)
  {
    var all := es + [e];
    assert all[|es|] == e && forall j | 0 <= j < |es| :: all[j] == es[j];
  }

  lemma NothingYet(es: seq<Event>, about: (Event, string) -> bool, id: string)
    requires es == []
    ensures !Ever(es, about, id)
  {
  }

  /** The row of a subagent spawned by `e`. */
  function Spawned(e: Event): SubagentRow
    requires e.ChildSpawn?
  {
    SubagentRow(OrElse(e.definition, "subagent"), true, None)
  }

  function Returned(row: SubagentRow, e: Event): SubagentRow
    requires e.ChildResult?
  {
    row.(running := false, status := Some(OrElse(e.status, "finished")))
  }

  /** What the row of a subagent reads: its last spawn, and the last result since, if any. */
  ghost predicate ChildReads(es: seq<Event>, id: string, row: SubagentRow) {
    exists i: nat, k: Option<nat> :: Spans(es, Spawns, Returns, id, i, k)
      && row.definition == (if es[i].definition.Some? then es[i].definition.value else "subagent")
      && (row.running <==> k.None?)
      && match k
         case None => row.status.None?
         case Some(at) => row.status == Some(if es[at].status.Some? then es[at].status.value else "finished")
  }

  lemma ChildSnoc(es: seq<Event>, e: Event, id: string)
    ensures Spawns(e, id) ==> ChildReads(es + [e], id, Spawned(e))
    ensures forall row | ChildReads(es, id, row) && !Spawns(e, id) ::
      ChildReads(es + [e], id, if Returns(e, id) then Returned(row, e) else row)
  {
    SpansSnoc(es, e, Spawns, Returns, id, 0, None);
    forall row | ChildReads(es, id, row) && !Spawns(e, id)
      ensures ChildReads(es + [e], id, if Returns(e, id) then Returned(row, e) else row)
    {
      var i: nat, k: Option<nat> :| Spans(es, Spawns, Returns, id, i, k)
        && row.definition == (if es[i].definition.Some? then es[i].definition.value else "subagent")
        && (row.running <==> k.None?)
        && match k
           case None => row.status.None?
           case Some(at) => row.status == Some(if es[at].status.Some? then es[at].status.value else "finished");
      SpansSnoc(es, e, Spawns, Returns, id, i, k);
      assert (es + [e])[i] == es[i];
    }
  }

  /**
   * A subagent has a row if and only if it was spawned, and the row is its last
   * spawn, still running, or with how the last result since then ended it.
   */
  lemma {:induction false} SubagentsMean(es: seq<Event>, id: string)
    ensures var row := Lookup(Fold(SubagentStep, [], es), id);
      (row.Some? <==> Ever(es, Spawns, id)) && (row.Some? ==> ChildReads(es, id, row.value))
  {
    hide Ever, Put, ChildReads;
    if es == [] {
      NothingYet(es, Spawns, id);
    } else {
      var front, e := es[..|es| - 1], es[|es| - 1];
      assert es == front + [e];
      SubagentsMean(front, id);
      EverSnoc(front, e, Spawns, id);
      ChildSnoc(front, e, id);
      var rows := Fold(SubagentStep, [], front);
      FoldSnoc(SubagentStep, [], front, e);
      match e {
        case ChildSpawn(_, _, Some(child), _, _, _) => LookupPut(rows, child, Spawned(e), id);
        case ChildResult(_, _, Some(child), _, _, _, _) =>
          var at := Find(rows, child);
          if at.Some? { LookupPut(rows, child, Returned(rows[at.value].row, e), id); }
        case _ =>
      }
    }
  }

  /** The row of a process started by `e`. */
  function Started(e: Event): ProcessRow
    requires e.ProcessStart?
  {
    ProcessRow(OrElse(e.command, ""), "running", None, OrElse(e.ts, 0), 0)
  }

  function Exited(row: ProcessRow, e: Event): ProcessRow
    requires e.ProcessExit?
  {
    row.(status := OrElse(e.termination, "exited"), exitCode := e.exitCode, durationMs := OrElse(e.durationMs, 0))
  }

  /** What the row of a process reads: its last start, and the last exit since, if any. */
  ghost predicate ProcessReads(es: seq<Event>, id: string, row: ProcessRow) {
    exists i: nat, k: Option<nat> :: Spans(es, Starts, Exits, id, i, k)
      && row.command == (if es[i].command.Some? then es[i].command.value else "")
      && row.startedAt == (if es[i].ts.Some? then es[i].ts.value else 0)
      && match k
         case None => row.status == "running" && row.exitCode.None? && row.durationMs == 0
         case Some(at) =>
           && row.status == (if es[at].termination.Some? then es[at].termination.value else "exited")
           && row.exitCode == es[at].exitCode
           && row.durationMs == if es[at].durationMs.Some? then es[at].durationMs.value else 0
  }

  lemma ProcessSnoc(es: seq<Event>, e: Event, id: string)
    ensures Starts(e, id) ==> ProcessReads(es + [e], id, Started(e))
    ensures forall row | ProcessReads(es, id, row) && !Starts(e, id) ::
      ProcessReads(es + [e], id, if Exits(e, id) then Exited(row, e) else row)
  {
    SpansSnoc(es, e, Starts, Exits, id, 0, None);
    forall row | ProcessReads(es, id, row) && !Starts(e, id)
      ensures ProcessReads(es + [e], id, if Exits(e, id) then Exited(row, e) else row)
    {
      var i: nat, k: Option<nat> :| Spans(es, Starts, Exits, id, i, k)
        && row.command == (if es[i].command.Some? then es[i].command.value else "")
        && row.startedAt == (if es[i].ts.Some? then es[i].ts.value else 0)
        && match k
           case None => row.status == "running" && row.exitCode.None? && row.durationMs == 0
           case Some(at) =>
             && row.status == (if es[at].termination.Some? then es[at].termination.value else "exited")
             && row.exitCode == es[at].exitCode
             && row.durationMs == if es[at].durationMs.Some? then es[at].durationMs.value else 0;
      SpansSnoc(es, e, Starts, Exits, id, i, k);
      assert (es + [e])[i] == es[i];
    }
  }

  /**
   * A process has a row if and only if it was started, and the row is its last
   * start, still running, or with how the last exit since then ended it.
   */
  lemma {:induction false} ProcessesMean(es: seq<Event>, id: string)
    ensures var row := Lookup(Fold(ProcessStep, [], es), id);
      (row.Some? <==> Ever(es, Starts, id)) && (row.Some? ==> ProcessReads(es, id, row.value))
  {
    hide Ever, Put, ProcessReads;
    if es == [] {
      NothingYet(es, Starts, id);
    } else {
      var front, e := es[..|es| - 1], es[|es| - 1];
      assert es == front + [e];
      ProcessesMean(front, id);
      EverSnoc(front, e, Starts, id);
      ProcessSnoc(front, e, id);
      var rows := Fold(ProcessStep, [], front);
      FoldSnoc(ProcessStep, [], front, e);
      match e {
        case ProcessStart(_, _, Some(process), _) => LookupPut(rows, process, Started(e), id);
        case ProcessExit(_, _, Some(process), _, _, _) =>
          var at := Find(rows, process);
          if at.Some? { LookupPut(rows, process, Exited(rows[at.value].row, e), id); }
        case _ =>
      }
    }
  }
}
