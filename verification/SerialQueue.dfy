/**
 * Tasks chained on a tail promise: each arrival waits for the tail it found and
 * becomes the new tail (src/web/server.ts:842-863 and 2236-2272,
 * web/App.tsx:123-150). A settled tail may be forgotten (server.ts:859,
 * server.ts:849), after which the next arrival waits for nobody.
 */
module SerialQueue {
  import opened Events

  datatype Phase = Waiting | Running | Settled

  /** `pred` is the task whose promise was the tail on arrival. */
  datatype Task = Task(pred: Option<nat>, phase: Phase)

  datatype Queue = Queue(tasks: seq<Task>, tail: Option<nat>)

  const Empty := Queue([], None)

  predicate Is(q: Queue, i: int, phase: Phase) {
    0 <= i < |q.tasks| && q.tasks[i].phase == phase
  }

  /** A waiting task may begin once the promise it awaits has settled; other tasks are not consulted. */
  predicate Ready(q: Queue, i: int) {
    Is(q, i, Waiting) && (q.tasks[i].pred.None? || Is(q, q.tasks[i].pred.value, Settled))
  }

  predicate TailSettled(q: Queue) {
    q.tail.Some? && Is(q, q.tail.value, Settled)
  }

  function Arrive(q: Queue): Queue {
    Queue(q.tasks + [Task(q.tail, Waiting)], Some(|q.tasks|))
  }

  function Mark(q: Queue, i: nat, phase: Phase): Queue
    requires i < |q.tasks|
  {
    q.(tasks := q.tasks[i := q.tasks[i].(phase := phase)])
  }

  function Begin(q: Queue, i: nat): Queue
    requires Ready(q, i)
  {
    Mark(q, i, Running)
  }

  function Settle(q: Queue, i: nat): Queue
    requires Is(q, i, Running)
  {
    Mark(q, i, Settled)
  }

  function Forget(q: Queue): Queue {
    q.(tail := None)
  }

  // ---------- one at a time, in arrival order ----------

  /** `front` tasks have settled; all but the next of the others are still waiting. */
  ghost predicate InLine(q: Queue, front: nat) {
    && front <= |q.tasks|
    && (forall i | 0 <= i < |q.tasks| :: i < front <==> q.tasks[i].phase == Settled)
    && (forall i | front < i < |q.tasks| :: q.tasks[i].phase == Waiting && q.tasks[i].pred == Some(i - 1))
    && (front < |q.tasks| ==> q.tasks[front].pred.None? || (front > 0 && q.tasks[front].pred == Some(front - 1)))
    && (if q.tail.None? then front == |q.tasks| else q.tail.value == |q.tasks| - 1)
  }

  lemma ArriveInLine(q: Queue, front: nat)
    requires InLine(q, front)
    ensures InLine(Arrive(q), front)
  {
  }

  /** Only the front task can begin, and nothing is running when it does. */
  lemma BeginInLine(q: Queue, front: nat, i: nat)
    requires InLine(q, front) && Ready(q, i)
    ensures i == front && (forall j :: !Is(q, j, Running)) && InLine(Begin(q, i), front)
  {
    assert !Is(q, i - 1, Settled) || i <= front;
  }

  /** Only the front task can settle. */
  lemma SettleInLine(q: Queue, front: nat, i: nat)
    requires InLine(q, front) && Is(q, i, Running)
    ensures i == front && InLine(Settle(q, i), front + 1)
  {
  }

  lemma ForgetInLine(q: Queue, front: nat)
    requires InLine(q, front) && TailSettled(q)
    ensures InLine(Forget(q), front)
  {
  }

  /** A task that is not the last in line waits while another one runs; and a queue is never stuck. */
  lemma InLineMeans(q: Queue, front: nat)
    requires InLine(q, front)
    ensures forall i, j | Is(q, i, Running) && Is(q, j, Running) :: i == j
    ensures forall i, j | 0 <= j < i < |q.tasks| && !Is(q, i, Waiting) :: Is(q, j, Settled)
    ensures front < |q.tasks| ==> Is(q, front, Running) || Ready(q, front)
  {
    forall i, j | 0 <= j < i < |q.tasks| && !Is(q, i, Waiting) ensures Is(q, j, Settled) {
      assert q.tasks[j].phase == Settled <==> j < front;
    }
  }

  datatype Action = Comes | Begins(task: nat) | Settles(task: nat) | Forgets

  function Next(q: Queue, a: Action): Queue {
    match a
    case Comes => Arrive(q)
    case Begins(i) => if Ready(q, i) then Begin(q, i) else q
    case Settles(i) => if Is(q, i, Running) then Settle(q, i) else q
    case Forgets => if TailSettled(q) then Forget(q) else q
  }

  function Run(actions: seq<Action>): Queue {
    if actions == [] then Empty else Next(Run(actions[..|actions| - 1]), actions[|actions| - 1])
  }

  lemma {:induction false} RunInLine(actions: seq<Action>) returns (front: nat)
    ensures InLine(Run(actions), front)
  {
    if actions == [] {
      front := 0;
    } else {
      front := RunInLine(actions[..|actions| - 1]);
      var q := Run(actions[..|actions| - 1]);
      match actions[|actions| - 1] {
        case Comes => ArriveInLine(q, front);
        case Begins(i) => if Ready(q, i) { BeginInLine(q, front, i); }
        case Settles(i) => if Is(q, i, Running) { SettleInLine(q, front, i); front := front + 1; }
        case Forgets => if TailSettled(q) { ForgetInLine(q, front); }
      }
    }
  }

  /** Tasks never overlap, run in arrival order, and some task can always move while any is unsettled. */
  lemma TasksRunInTurn(actions: seq<Action>)
    ensures var q := Run(actions);
      && (forall i, j | Is(q, i, Running) && Is(q, j, Running) :: i == j)
      && (forall i, j | 0 <= j < i < |q.tasks| && !Is(q, i, Waiting) :: Is(q, j, Settled))
      && (forall i | 0 <= i < |q.tasks| && !Is(q, i, Settled) :: exists j :: Is(q, j, Running) || Ready(q, j))
  {
    var front := RunInLine(actions);
    var q := Run(actions);
    InLineMeans(q, front);
    forall i | 0 <= i < |q.tasks| && !Is(q, i, Settled) ensures exists j :: Is(q, j, Running) || Ready(q, j) {
      assert front < |q.tasks|;
      assert Is(q, front, Running) || Ready(q, front);
    }
  }
}
