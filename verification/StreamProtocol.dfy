/**
 * One browser following one session log (src/web/server.ts:6475-6524 against
 * web/hooks/useSessionStream.ts:65-156). The server appends, asks and settles
 * questions, frames travel in order on the current connection, the connection
 * may drop and come back with the last event id the browser holds, and frames
 * already seen may be delivered again. Section 9.2, Server-sent events, of the WHATWG HTML Living Standard.
 */
module StreamProtocol {
  import opened Events
  import opened Compaction
  import opened SessionStream
  import A = Approvals
  import P = Projection
  import Transcript
  import Views

  // ---------- the server's side ----------

  function After(log: seq<Event>, cursor: nat): seq<Event> {
    Unseen(log, cursor)
  }

  /** The first frame of a connection: a resume when the cursor still makes sense, the whole log otherwise. */
  function Hello(log: seq<Event>, cursor: Option<nat>): Frame {
    var latest := LastSeq(log);
    var earliest := if log == [] then 1 else log[0].seqNo;
    if cursor.Some? && cursor.value >= earliest - 1 && cursor.value <= latest
      then Resume(After(log, cursor.value), latest)
    else Snapshot(log, latest)
  }

  // ---------- the whole system ----------

  /**
   * The questions of this session and of its children at the server: those it waits for, and those
   * answered whose end envelope is `owed`. `asked` and `lost` are history: every id drawn, and the
   * questions whose end envelope was sent to no connection or was in flight when a connection ended.
   */
  datatype Desk = Desk(waiting: A.Rows, owed: set<string>, asked: set<string>, lost: set<string>)

  /**
   * `wire` is the connection's frames in flight; `lastId` is what the browser would send on reconnect;
   * `heard` is the history behind the client's question rows.
   */
  datatype World = World(
    log: seq<Event>,
    wire: Option<seq<Frame>>,
    lastId: Option<nat>,
    client: Client,
    heard: seq<A.Heard>,
    desk: Desk)

  const Start := World([], None, None, Fresh, [], Desk([], {}, {}, {}))

  /**
   * `Ask` draws a new id. `Answer` is a decision that takes the question off the server's list; `Settle`
   * ends it, answered or not, and sends its end envelope. `Fail` is an error message, `Dismiss` the
   * reader's own answer.
   */
  datatype Action =
    | Append(event: Event)
    | Ask(id: string, question: A.Question)
    | Answer(id: string)
    | Settle(id: string)
    | Fail
    | Connect
    | Drop
    | Redeliver(index: nat)
    | Deliver
    | Animate
    | Dismiss(id: string)

  predicate Enabled(w: World, a: Action) {
    match a
    case Append(e) => LastSeq(w.log) < e.seqNo
    case Ask(id, _) => id !in w.desk.asked
    case Answer(id) => id in A.Keys(w.desk.waiting)
    case Settle(id) => id in A.Keys(w.desk.waiting) || id in w.desk.owed
    case Redeliver(i) => w.wire.Some? && i < |w.log| && w.log[i].seqNo <= w.client.seenSeq
    case Deliver => w.wire.Some? && w.wire.value != []
    case Animate => w.client.scheduled
    case _ => true
  }

  /** The browser remembers the id of every message that carries one. */
  function Remember(lastId: Option<nat>, f: Frame): Option<nat> {
    match f
    case Snapshot(_, id) => Some(id)
    case Resume(_, id) => Some(id)
    case Live(e) => Some(e.seqNo)
    case Notice(_) => lastId
  }

  /** What a frame adds to what the browser has heard about questions; a snapshot starts over. */
  function Hear(heard: seq<A.Heard>, seen: nat, f: Frame): seq<A.Heard> {
    match f
    case Snapshot(es, _) => A.Facts(es)
    case Resume(es, _) => heard + A.Facts(Unseen(es, seen))
    case Live(e) => heard + A.Facts(Unseen([e], seen))
    case Notice(ShowQuestion(id, q)) => heard + [A.Shown(id, q)]
    case Notice(SettleQuestion(id)) => heard + [A.Settled(id)]
    case Notice(ErrorNote) => heard
  }

  function Tell(wire: Option<seq<Frame>>, n: Envelope): Option<seq<Frame>> {
    if wire.Some? then Some(wire.value + [Notice(n)]) else None
  }

  /** After the opening frame, a new connection is shown every question that waits. */
  function Shows(waiting: A.Rows): seq<Frame> {
    if waiting == [] then []
    else
      var last := waiting[|waiting| - 1];
      Shows(waiting[..|waiting| - 1]) + [Notice(ShowQuestion(last.key, last.row))]
  }

  /** The questions whose end is among these frames. */
  function EndsIn(frames: seq<Frame>): set<string> {
    set f | f in frames && f.Notice? && f.envelope.SettleQuestion? :: f.envelope.id
  }

  function LostEnds(wire: Option<seq<Frame>>): set<string> {
    if wire.Some? then EndsIn(wire.value) else {}
  }

  /** The desk of a connection that ends: the ends in flight are lost. */
  function Broken(d: Desk, wire: Option<seq<Frame>>): Desk {
    d.(lost := d.lost + LostEnds(wire))
  }

  function Ended(d: Desk, id: string, connected: bool): Desk {
    d.(waiting := A.Without(d.waiting, id), owed := d.owed - {id}, lost := if connected then d.lost else d.lost + {id})
  }

  function Delivered(w: World, f: Frame, rest: seq<Frame>): World {
    w.(wire := Some(rest), lastId := Remember(w.lastId, f), client := Receive(w.client, f),
       heard := Hear(w.heard, w.client.seenSeq, f))
  }

  function Next(w: World, a: Action): World {
    if !Enabled(w, a) then w
    else match a
      case Append(e) => w.(log := w.log + [e], wire := if w.wire.Some? then Some(w.wire.value + [Live(e)]) else None)
      case Ask(id, q) =>
        w.(desk := w.desk.(waiting := Views.Put(w.desk.waiting, id, q), asked := w.desk.asked + {id}),
           wire := Tell(w.wire, ShowQuestion(id, q)))
      case Answer(id) =>
        w.(desk := w.desk.(waiting := A.Without(w.desk.waiting, id), owed := w.desk.owed + {id}))
      case Settle(id) => w.(desk := Ended(w.desk, id, w.wire.Some?), wire := Tell(w.wire, SettleQuestion(id)))
      case Fail => w.(wire := Tell(w.wire, ErrorNote))
      case Connect =>
        w.(wire := Some([Hello(w.log, w.lastId)] + Shows(w.desk.waiting)), desk := Broken(w.desk, w.wire))
      case Drop => w.(wire := None, desk := Broken(w.desk, w.wire))
      case Redeliver(i) => w.(wire := Some([Live(w.log[i])] + w.wire.value))
      case Deliver =>
        Delivered(w, w.wire.value[0], w.wire.value[1..])
      case Animate => w.(client := Flush(w.client))
      case Dismiss(id) => w.(client := DismissQuestion(w.client, id), heard := w.heard + [A.Dismissed(id)])
  }

  function Run(actions: seq<Action>): World {
    if actions == [] then Start else Next(Run(actions[..|actions| - 1]), actions[|actions| - 1])
  }

  // ---------- positions in the log ----------

  /** How many events are numbered `s` or less. */
  function Upto(log: seq<Event>, s: nat): (n: nat)
    ensures n <= |log|
  {
    if log == [] then 0
    else if log[|log| - 1].seqNo <= s then |log|
    else Upto(log[..|log| - 1], s)
  }

  function SeqAt(log: seq<Event>, n: nat): nat
    requires n <= |log|
  {
    if n == 0 then 0 else log[n - 1].seqNo
  }

  lemma OrderedPrefix(log: seq<Event>, n: nat)
    requires Ordered(log) && n <= |log|
    ensures Ordered(log[..n])
  {
  }

  lemma {:induction false} UptoSplits(log: seq<Event>, s: nat)
    requires Ordered(log)
    ensures forall i | 0 <= i < |log| :: log[i].seqNo <= s <==> i < Upto(log, s)
  {
    if log != [] && log[|log| - 1].seqNo > s {
      OrderedPrefix(log, |log| - 1);
      UptoSplits(log[..|log| - 1], s);
    }
  }

  lemma UptoUnique(log: seq<Event>, s: nat, n: nat)
    requires Ordered(log) && n <= |log|
    requires forall i | 0 <= i < |log| :: log[i].seqNo <= s <==> i < n
    ensures Upto(log, s) == n
  {
    UptoSplits(log, s);
    var m := Upto(log, s);
    assert m < |log| ==> (log[m].seqNo <= s <==> m < n);
    assert n < |log| ==> (log[n].seqNo <= s <==> n < n);
  }

  lemma UptoOfPosition(log: seq<Event>, n: nat)
    requires Ordered(log) && n <= |log|
    ensures Upto(log, SeqAt(log, n)) == n
  {
    UptoUnique(log, SeqAt(log, n), n);
  }

  lemma SeqAtMonotone(log: seq<Event>, i: nat, m: nat)
    requires Ordered(log) && i <= m <= |log|
    ensures SeqAt(log, i) <= SeqAt(log, m) && (i < m ==> SeqAt(log, i) < SeqAt(log, m))
  {
  }

  lemma UptoAppend(log: seq<Event>, e: Event, s: nat)
    requires s < e.seqNo
    ensures Upto(log + [e], s) == Upto(log, s)
  {
    assert (log + [e])[..|log|] == log;
  }

  lemma OrderedAppend(log: seq<Event>, e: Event)
    requires Ordered(log) && LastSeq(log) < e.seqNo
    ensures Ordered(log + [e])
  {
  }

  lemma UnseenSnoc(front: seq<Event>, last: Event, seen: nat)
    ensures Unseen(front + [last], seen) == Unseen(front, seen) + if last.seqNo > seen then [last] else []
  {
    assert (front + [last])[..|front|] == front;
  }

  /** Of a stretch of the log, what is unseen is what lies past the position. */
  lemma {:induction false} UnseenSlice(log: seq<Event>, c: nat, m: nat, n: nat)
    requires Ordered(log) && c <= n <= |log| && c <= m <= |log|
    ensures Unseen(log[c..m], SeqAt(log, n)) == if n <= m then log[n..m] else []
    decreases m - c
  {
    hide Ordered, Unseen;
    if c == m {
      UnseenNone(log[c..m], SeqAt(log, n));
    } else {
      assert log[c..m] == log[c..m - 1] + [log[m - 1]];
      UnseenSnoc(log[c..m - 1], log[m - 1], SeqAt(log, n));
      UnseenSlice(log, c, m - 1, n);
      if n < m {
        SeqAtMonotone(log, n, m);
        assert log[n..m] == log[n..m - 1] + [log[m - 1]];
      } else {
        SeqAtMonotone(log, m, n);
      }
    }
  }

  lemma UnseenNone(es: seq<Event>, seen: nat)
    requires es == []
    ensures Unseen(es, seen) == []
  {
  }

  // ---------- the invariant ----------

  /** A frame that a browser which has seen `n` events can take without a gap. */
  ghost predicate Fits(log: seq<Event>, n: nat, f: Frame) {
    match f
    case Snapshot(es, id) => n <= |es| <= |log| && es == log[..|es|] && id == SeqAt(log, |es|)
    case Resume(es, id) =>
      var m := Upto(log, id);
      |es| <= m && m - |es| <= n <= m && es == log[m - |es|..m] && id == SeqAt(log, m)
    case Live(e) =>
      var i := Upto(log, e.seqNo) - 1;
      0 <= i <= n && log[i] == e
    case Notice(_) => true
  }

  /** How many events the browser has seen after it. */
  ghost function Past(log: seq<Event>, n: nat, f: Frame): nat {
    match f
    case Snapshot(es, _) => |es|
    case Resume(_, id) => Upto(log, id)
    case Live(e) => if Upto(log, e.seqNo) - 1 == n then n + 1 else n
    case Notice(_) => n
  }

  /** These frames take the browser from `n` events to the end of the log. */
  ghost predicate LeadsToEnd(log: seq<Event>, n: nat, frames: seq<Frame>)
    decreases |frames|
  {
    if frames == [] then n == |log|
    else Fits(log, n, frames[0]) && LeadsToEnd(log, Past(log, n, frames[0]), frames[1..])
  }

  /** What the client shows and keeps, for the log it has applied and the batch it holds back. */
  ghost predicate Renders(c: Client, applied: seq<Event>) {
    c.proj == P.Project(applied) && c.items == P.ProjectItems(applied) && c.events == Compact(applied)
  }

  /** The pending batch is the stretch of the log that ends at the last event seen. */
  ghost predicate Placed(log: seq<Event>, seen: nat, pending: seq<Event>) {
    var n := Upto(log, seen);
    seen == SeqAt(log, n) && |pending| <= n && pending == log[n - |pending|..n]
  }

  /** The id a reconnect would send names an event the browser has seen. */
  ghost predicate Remembered(log: seq<Event>, seen: nat, lastId: Option<nat>) {
    lastId.Some? ==> lastId.value <= seen && lastId.value == SeqAt(log, Upto(log, lastId.value))
  }

  /** The question rows are those of what was heard, and of the log exactly the seen part was heard. */
  ghost predicate Questions(log: seq<Event>, seen: nat, rows: A.Rows, heard: seq<A.Heard>) {
    rows == A.RowsOf(heard) && A.LoggedOf(heard) == log[..Upto(log, seen)]
  }

  ghost predicate Inv(w: World) {
    && Ordered(w.log)
    && Placed(w.log, w.client.seenSeq, w.client.pending)
    && Renders(w.client, w.log[..Applied(w)])
    && (w.client.scheduled <==> w.client.pending != [])
    && Questions(w.log, w.client.seenSeq, w.client.approvals, w.heard)
    && Remembered(w.log, w.client.seenSeq, w.lastId)
    && (w.wire.Some? ==> LeadsToEnd(w.log, Seen(w), w.wire.value))
  }

  /** How much of the log the client has seen. */
  ghost function Seen(w: World): nat {
    Upto(w.log, w.client.seenSeq)
  }

  /** How much of it is on screen. */
  ghost function Applied(w: World): nat
    requires Placed(w.log, w.client.seenSeq, w.client.pending)
  {
    Seen(w) - |w.client.pending|
  }

  lemma {:induction false} LeadsToEndAppend(log: seq<Event>, n: nat, frames: seq<Frame>, e: Event)
    requires Ordered(log) && LastSeq(log) < e.seqNo && n <= |log| && LeadsToEnd(log, n, frames)
    ensures LeadsToEnd(log + [e], n, frames + [Live(e)])
    decreases |frames|
  {
    OrderedAppend(log, e);
    if frames == [] {
      UptoOfPosition(log + [e], |log| + 1);
      assert [Live(e)][1..] == [];
    } else {
      assert (frames + [Live(e)])[1..] == frames[1..] + [Live(e)];
      var n' := Past(log, n, frames[0]);
      PastAppend(log, n, frames[0], e);
      LeadsToEndAppend(log, n', frames[1..], e);
    }
  }

  /** One frame, for a longer log: same requirement, same position after it. */
  lemma PastAppend(log: seq<Event>, n: nat, f: Frame, e: Event)
    requires Ordered(log) && LastSeq(log) < e.seqNo && n <= |log| && Fits(log, n, f)
    ensures Fits(log + [e], n, f) && Past(log + [e], n, f) == Past(log, n, f)
  {
    hide Ordered, Upto;
    match f {
      case Snapshot(es, id) =>
        assert (log + [e])[..|es|] == log[..|es|];
      case Resume(es, id) =>
        var m := Upto(log, id);
        SeqAtMonotone(log, m, |log|);
        UptoAppend(log, e, id);
        assert (log + [e])[m - |es|..m] == log[m - |es|..m];
      case Live(live) =>
        SeqAtMonotone(log, Upto(log, live.seqNo), |log|);
        UptoAppend(log, e, live.seqNo);
      case Notice(_) =>
    }
  }

  lemma {:induction false} LeadsToEndNotice(log: seq<Event>, n: nat, frames: seq<Frame>, e: Envelope)
    requires LeadsToEnd(log, n, frames)
    ensures LeadsToEnd(log, n, frames + [Notice(e)])
    decreases |frames|
  {
    if frames == [] {
      assert [Notice(e)][1..] == [];
    } else {
      assert (frames + [Notice(e)])[1..] == frames[1..] + [Notice(e)];
      LeadsToEndNotice(log, Past(log, n, frames[0]), frames[1..], e);
    }
  }

  lemma {:induction false} LeadsToEndShows(log: seq<Event>, n: nat, f: Frame, waiting: A.Rows)
    requires LeadsToEnd(log, n, [f])
    ensures LeadsToEnd(log, n, [f] + Shows(waiting))
  {
    hide LeadsToEnd;
    if waiting == [] {
      assert [f] + Shows(waiting) == [f];
    } else {
      var front, last := waiting[..|waiting| - 1], waiting[|waiting| - 1];
      LeadsToEndShows(log, n, f, front);
      LeadsToEndNotice(log, n, [f] + Shows(front), ShowQuestion(last.key, last.row));
      assert [f] + Shows(waiting) == ([f] + Shows(front)) + [Notice(ShowQuestion(last.key, last.row))];
    }
  }

  /** Whatever the cursor, the opening frame takes the browser to the end of the log. */
  lemma HelloLeadsToEnd(log: seq<Event>, n: nat, lastId: Option<nat>)
    requires Ordered(log) && n <= |log|
    requires lastId.Some? ==> Upto(log, lastId.value) <= n && lastId.value == SeqAt(log, Upto(log, lastId.value))
    ensures LeadsToEnd(log, n, [Hello(log, lastId)])
  {
    var f := Hello(log, lastId);
    assert [f][1..] == [];
    assert LastSeq(log) == SeqAt(log, |log|);
    assert log[..|log|] == log;
    if f.Resume? {
      var c := Upto(log, lastId.value);
      UnseenSlice(log, 0, |log|, c);
      UptoOfPosition(log, |log|);
      assert f.events == log[c..];
    }
  }

  // ---------- every step keeps it ----------

  lemma PlacedAppend(log: seq<Event>, seen: nat, pending: seq<Event>, e: Event)
    requires Ordered(log) && LastSeq(log) < e.seqNo && Placed(log, seen, pending)
    ensures Placed(log + [e], seen, pending) && Upto(log + [e], seen) == Upto(log, seen)
  {
    var n := Upto(log, seen);
    SeqAtMonotone(log, n, |log|);
    UptoAppend(log, e, seen);
    var k := n - |pending|;
    assert (log + [e])[k..n] == log[k..n];
  }

  lemma RememberedAppend(log: seq<Event>, seen: nat, lastId: Option<nat>, e: Event)
    requires seen < e.seqNo && Remembered(log, seen, lastId)
    ensures Remembered(log + [e], seen, lastId)
  {
    if lastId.Some? { UptoAppend(log, e, lastId.value); }
  }

  lemma QuestionsAppend(log: seq<Event>, seen: nat, rows: A.Rows, heard: seq<A.Heard>, e: Event)
    requires Questions(log, seen, rows, heard) && seen < e.seqNo
    ensures Questions(log + [e], seen, rows, heard)
  {
    hide A.RowsOf, A.LoggedOf;
    UptoAppend(log, e, seen);
    assert (log + [e])[..Upto(log, seen)] == log[..Upto(log, seen)];
  }

  lemma QuestionsEnqueue(log: seq<Event>, seen: nat, rows: A.Rows, heard: seq<A.Heard>, m: nat)
    requires Ordered(log) && Questions(log, seen, rows, heard) && Upto(log, seen) <= m <= |log|
    ensures var more := log[Upto(log, seen)..m];
      Questions(log, SeqAt(log, m), Asked(rows, more), heard + A.Facts(more))
  {
    hide Fold, Ordered, A.RowsOf, A.LoggedOf, A.Facts, Upto;
    var n := Upto(log, seen);
    UptoOfPosition(log, m);
    assert log[..n] + log[n..m] == log[..m];
    A.HeardFacts(heard, log[n..m]);
  }

  /** An envelope or a dismissal is heard as it is shown, and is no part of the log. */
  lemma QuestionsHeard(log: seq<Event>, seen: nat, rows: A.Rows, heard: seq<A.Heard>, h: A.Heard)
    requires Questions(log, seen, rows, heard) && !h.Logged?
    ensures Questions(log, seen, A.HeardStep(rows, h), heard + [h])
  {
    hide A.RowsOf, A.LoggedOf, A.HeardStep, Upto;
    A.HeardSnoc(heard, h);
  }

  lemma AppendKeeps(w: World, e: Event)
    requires Inv(w) && Enabled(w, Append(e))
    ensures Inv(Next(w, Append(e))) && Applied(Next(w, Append(e))) == Applied(w)
  {
    hide Renders, LeadsToEnd, Placed, Remembered, Questions;
    var n := Seen(w);
    OrderedAppend(w.log, e);
    PlacedAppend(w.log, w.client.seenSeq, w.client.pending, e);
    SeenIsLogged(w);
    RememberedAppend(w.log, w.client.seenSeq, w.lastId, e);
    QuestionsAppend(w.log, w.client.seenSeq, w.client.approvals, w.heard, e);
    assert (w.log + [e])[..Applied(w)] == w.log[..Applied(w)];
    if w.wire.Some? {
      LeadsToEndAppend(w.log, n, w.wire.value, e);
    }
  }

  lemma SeenIsLogged(w: World)
    requires Inv(w)
    ensures w.client.seenSeq <= LastSeq(w.log)
  {
    hide Renders, LeadsToEnd;
    SeqAtMonotone(w.log, Seen(w), |w.log|);
  }

  lemma ConnectKeeps(w: World)
    requires Inv(w)
    ensures Inv(Next(w, Connect)) && Applied(Next(w, Connect)) == Applied(w)
  {
    hide Renders, Hello, LeadsToEnd, Questions, Shows, Broken, Ended;
    if w.lastId.Some? {
      UptoSplits(w.log, w.lastId.value);
      UptoSplits(w.log, w.client.seenSeq);
      var m := Upto(w.log, w.lastId.value);
      if m > 0 { assert w.log[m - 1].seqNo <= w.client.seenSeq; }
    }
    HelloLeadsToEnd(w.log, Seen(w), w.lastId);
    LeadsToEndShows(w.log, Seen(w), Hello(w.log, w.lastId), w.desk.waiting);
  }

  lemma RedeliverKeeps(w: World, i: nat)
    requires Inv(w) && Enabled(w, Redeliver(i))
    ensures Inv(Next(w, Redeliver(i))) && Applied(Next(w, Redeliver(i))) == Applied(w)
  {
    hide Renders, LeadsToEnd, Ordered, Placed, Questions, Remembered, Upto;
    UptoSplits(w.log, w.client.seenSeq);
    LeadsToEndRepeat(w.log, Seen(w), i, w.wire.value);
  }

  /** A repeated frame in front moves nothing. */
  lemma LeadsToEndRepeat(log: seq<Event>, n: nat, i: nat, frames: seq<Frame>)
    requires Ordered(log) && i < n <= |log| && LeadsToEnd(log, n, frames)
    ensures LeadsToEnd(log, n, [Live(log[i])] + frames)
  {
    hide Ordered, Upto;
    UptoOfPosition(log, i + 1);
    assert ([Live(log[i])] + frames)[1..] == frames;
  }

  lemma PlacedEnqueue(log: seq<Event>, seen: nat, pending: seq<Event>, m: nat)
    requires Ordered(log) && Placed(log, seen, pending) && Upto(log, seen) <= m <= |log|
    ensures var n := Upto(log, seen);
      Upto(log, SeqAt(log, m)) == m && Placed(log, SeqAt(log, m), pending + log[n..m])
  {
    var n := Upto(log, seen);
    UptoOfPosition(log, m);
    var k := n - |pending|;
    assert log[k..n] + log[n..m] == log[k..m];
  }

  lemma EnqueueIs(c: Client, log: seq<Event>, n: nat, m: nat)
    requires n <= m <= |log| && c.seenSeq == SeqAt(log, n) && (c.scheduled <==> c.pending != [])
    ensures var c' := Enqueue(c, log[n..m]);
      && c'.seenSeq == SeqAt(log, m) && c'.pending == c.pending + log[n..m]
      && (c'.scheduled <==> c'.pending != [])
      && c'.proj == c.proj && c'.items == c.items && c'.events == c.events
      && c'.approvals == Asked(c.approvals, log[n..m])
  {
    hide P.WellFormed, A.ApprovalStep;
  }

  /** Receiving the stretch of the log just past the position extends the pending batch by it. */
  lemma EnqueueKeeps(w: World, m: nat, at: nat, rest: seq<Frame>)
    requires Inv(w) && Seen(w) <= m <= |w.log| && at <= m && LeadsToEnd(w.log, m, rest)
    ensures var more := w.log[Seen(w)..m];
      var w' := w.(wire := Some(rest), lastId := Some(SeqAt(w.log, at)), client := Enqueue(w.client, more),
                   heard := w.heard + A.Facts(more));
      Inv(w') && Applied(w') == Applied(w)
  {
    SeenAt(w);
    hide LeadsToEnd, Enqueue, Ordered, Upto, Placed, Remembered, Renders, Questions, Asked, A.Facts, P.WellFormed, Fold;
    var n := Seen(w);
    QuestionsEnqueue(w.log, w.client.seenSeq, w.client.approvals, w.heard, m);
    EnqueueIs(w.client, w.log, n, m);
    PlacedEnqueue(w.log, w.client.seenSeq, w.client.pending, m);
    RememberedAt(w.log, m, at);
    RendersSame(w.client, Enqueue(w.client, w.log[n..m]), w.log[..Applied(w)]);
  }

  lemma SeenAt(w: World)
    requires Inv(w)
    ensures w.client.seenSeq == SeqAt(w.log, Seen(w))
  {
    hide LeadsToEnd, Ordered, Upto, Remembered, Renders, Questions;
  }

  lemma RememberedAt(log: seq<Event>, m: nat, at: nat)
    requires Ordered(log) && at <= m <= |log|
    ensures Remembered(log, SeqAt(log, m), Some(SeqAt(log, at)))
  {
    UptoOfPosition(log, at);
    SeqAtMonotone(log, at, m);
  }

  lemma DeliverKeeps(w: World)
    requires Inv(w) && Enabled(w, Deliver)
    ensures Inv(Next(w, Deliver)) && Applied(w) <= Applied(Next(w, Deliver))
  {
    hide Renders, LeadsToEnd, Enqueue, Placed, Remembered, Questions, Hear, Receive, Ordered;
    var f, rest := w.wire.value[0], w.wire.value[1..];
    HeadFits(w);
    match f {
      case Snapshot(es, id) => SnapshotKeeps(w, es, id, rest);
      case Resume(es, id) => ResumeKeeps(w, es, id, rest);
      case Live(e) => LiveKeeps(w, e, rest);
      case Notice(n) => NoticeKeeps(w, n, rest);
    }
  }

  lemma NoticeKeeps(w: World, n: Envelope, rest: seq<Frame>)
    requires Inv(w) && LeadsToEnd(w.log, Seen(w), rest)
    ensures var w' := Delivered(w, Notice(n), rest);
      Inv(w') && Applied(w') == Applied(w)
  {
    hide Renders, LeadsToEnd, Remembered, Ordered, Upto, Questions, A.HeardStep;
    var h := match n
      case ShowQuestion(id, q) => A.Shown(id, q)
      case SettleQuestion(id) => A.Settled(id)
      case ErrorNote => A.Dismissed("");
    QuestionsHeard(w.log, w.client.seenSeq, w.client.approvals, w.heard, h);
    RendersSame(w.client, Receive(w.client, Notice(n)), w.log[..Applied(w)]);
  }

  lemma RendersSame(c: Client, c': Client, applied: seq<Event>)
    requires Renders(c, applied) && c'.proj == c.proj && c'.items == c.items && c'.events == c.events
    ensures Renders(c', applied)
  {
    hide P.Project, P.ProjectItems, Compact;
  }

  lemma DismissKeeps(w: World, id: string)
    requires Inv(w)
    ensures Inv(Next(w, Dismiss(id))) && Applied(Next(w, Dismiss(id))) == Applied(w)
  {
    hide Renders, LeadsToEnd, Remembered, Ordered, Upto, Questions, A.HeardStep;
    QuestionsHeard(w.log, w.client.seenSeq, w.client.approvals, w.heard, A.Dismissed(id));
    RendersSame(w.client, DismissQuestion(w.client, id), w.log[..Applied(w)]);
  }

  lemma HeadFits(w: World)
    requires Inv(w) && Enabled(w, Deliver)
    ensures Fits(w.log, Seen(w), w.wire.value[0])
    ensures LeadsToEnd(w.log, Past(w.log, Seen(w), w.wire.value[0]), w.wire.value[1..])
  {
    hide Renders, Placed, Remembered, Questions;
  }

  lemma SnapshotKeeps(w: World, es: seq<Event>, id: nat, rest: seq<Frame>)
    requires Inv(w) && Fits(w.log, Seen(w), Snapshot(es, id)) && LeadsToEnd(w.log, |es|, rest)
    ensures var w' := Delivered(w, Snapshot(es, id), rest);
      Inv(w') && Applied(w) <= Applied(w')
  {
    hide LeadsToEnd, Ordered, Receive, Hear, Upto, Renders, Questions;
    SnapshotIs(w.log, w.client, es, id);
    UptoOfPosition(w.log, |es|);
    assert w.log[|es|..|es|] == [];
    SnapshotHeard(w.log, w.heard, w.client.seenSeq, es, id);
  }

  lemma SnapshotIs(log: seq<Event>, c: Client, es: seq<Event>, id: nat)
    requires es <= log
    ensures var c' := Receive(c, Snapshot(es, id));
      c'.seenSeq == SeqAt(log, |es|) && c'.pending == [] && !c'.scheduled && Renders(c', es)
        && c'.approvals == Asked([], es)
  {
    hide Compact, P.Project, P.ProjectItems, P.WellFormed, Asked;
  }

  lemma SnapshotHeard(log: seq<Event>, heard: seq<A.Heard>, seen: nat, es: seq<Event>, id: nat)
    requires Ordered(log) && es <= log
    ensures Questions(log, SeqAt(log, |es|), Asked([], es), Hear(heard, seen, Snapshot(es, id)))
  {
    hide Ordered, A.Facts, A.LoggedOf, A.RowsOf, Asked, Upto;
    FactsHeard(es);
    UptoOfPosition(log, |es|);
  }

  lemma ResumeKeeps(w: World, es: seq<Event>, id: nat, rest: seq<Frame>)
    requires Inv(w) && Fits(w.log, Seen(w), Resume(es, id)) && LeadsToEnd(w.log, Upto(w.log, id), rest)
    ensures var w' := Delivered(w, Resume(es, id), rest);
      Inv(w') && Applied(w) <= Applied(w')
  {
    hide Renders, LeadsToEnd, Remembered, Upto, Questions, Receive, Unseen, Ordered, P.Step, Compact, A.Facts;
    var n, m := Seen(w), Upto(w.log, id);
    UnseenSlice(w.log, m - |es|, m, n);
    ReceiveResume(w.client, es, id, w.log[n..m]);
    EnqueueKeeps(w, m, m, rest);
  }

  /** The frame asked for by a resume with pending events is already asked for. */
  lemma ReceiveResume(c: Client, es: seq<Event>, id: nat, unseen: seq<Event>)
    requires Unseen(es, c.seenSeq) == unseen && (c.scheduled <==> c.pending != [])
    ensures Receive(c, Resume(es, id)) == Enqueue(c, unseen)
  {
    hide Asked, Unseen, LastSeq;
  }

  lemma ReceiveLive(c: Client, e: Event, unseen: seq<Event>)
    requires Unseen([e], c.seenSeq) == unseen
    ensures Receive(c, Live(e)) == Enqueue(c, unseen)
  {
    hide Enqueue, Unseen;
  }

  lemma FactsHeard(es: seq<Event>)
    ensures A.RowsOf(A.Facts(es)) == Asked([], es) && A.LoggedOf(A.Facts(es)) == es
  {
    hide Fold;
    A.HeardFacts([], es);
    assert [] + A.Facts(es) == A.Facts(es) && [] + es == es;
  }

  lemma LiveKeeps(w: World, e: Event, rest: seq<Frame>)
    requires Inv(w) && Fits(w.log, Seen(w), Live(e)) && LeadsToEnd(w.log, Past(w.log, Seen(w), Live(e)), rest)
    ensures var w' := Delivered(w, Live(e), rest);
      Inv(w') && Applied(w) <= Applied(w')
  {
    hide Renders, LeadsToEnd, Remembered, Upto, Questions, Receive, Unseen, Ordered, P.Step, Compact, A.Facts;
    var n, i := Seen(w), Upto(w.log, e.seqNo) - 1;
    var m := if i == n then n + 1 else n;
    assert [e] == w.log[i..i + 1];
    UnseenSlice(w.log, i, i + 1, n);
    assert e.seqNo == SeqAt(w.log, i + 1);
    assert w.log[n..n] == [];
    ReceiveLive(w.client, e, w.log[n..m]);
    EnqueueKeeps(w, m, i + 1, rest);
  }

  lemma AnimateKeeps(w: World)
    requires Inv(w) && Enabled(w, Animate)
    ensures Inv(Next(w, Animate)) && Applied(w) <= Applied(Next(w, Animate))
  {
    hide LeadsToEnd, Renders, Ordered, Upto, Questions;
    var n := Seen(w);
    FlushRenders(w.client, w.log[..Applied(w)]);
    assert w.log[..Applied(w)] + w.client.pending == w.log[..n];
    assert w.log[n..n] == [];
  }

  /** Folding the batch in and compacting again is projecting and compacting the longer log. */
  lemma FlushRenders(c: Client, applied: seq<Event>)
    requires Renders(c, applied) && c.pending != []
    ensures Renders(Flush(c), applied + c.pending)
  {
    hide Compact, P.Step, P.WellFormed;
    FoldAppend<P.State>(P.Step, P.Empty, applied, c.pending);
    CompactIncremental(applied, c.pending);
  }

  lemma NextKeeps(w: World, a: Action)
    requires Inv(w)
    ensures Inv(Next(w, a)) && w.log <= Next(w, a).log && Applied(w) <= Applied(Next(w, a))
  {
    hide Renders, LeadsToEnd, Placed, Remembered, Receive, Flush, Hello, Ordered, Questions, Hear, Shows, Broken, Ended;
    if Enabled(w, a) {
      match a {
        case Append(e) => AppendKeeps(w, e);
        case Ask(id, q) => TellKeeps(w, ShowQuestion(id, q), Next(w, a));
        case Answer(_) =>
        case Settle(id) => TellKeeps(w, SettleQuestion(id), Next(w, a));
        case Fail => TellKeeps(w, ErrorNote, Next(w, a));
        case Connect => ConnectKeeps(w);
        case Drop => DropKeeps(w);
        case Redeliver(i) => RedeliverKeeps(w, i);
        case Deliver => DeliverKeeps(w);
        case Animate => AnimateKeeps(w);
        case Dismiss(id) => DismissKeeps(w, id);
      }
    }
  }

  lemma DropKeeps(w: World)
    requires Inv(w)
    ensures Inv(Next(w, Drop)) && Applied(Next(w, Drop)) == Applied(w)
  {
    hide Renders;
  }

  /** One more envelope on the wire, whatever happens to the server's questions. */
  lemma TellKeeps(w: World, n: Envelope, w': World)
    requires Inv(w) && w' == w.(wire := Tell(w.wire, n), desk := w'.desk)
    ensures Inv(w') && Applied(w') == Applied(w)
  {
    hide Renders, LeadsToEnd, Placed, Remembered, Questions, Ordered;
    if w.wire.Some? { LeadsToEndNotice(w.log, Seen(w), w.wire.value, n); }
  }

  // ---------- for every run ----------

  lemma NothingRendered()
    ensures Renders(Fresh, [])
  {
    hide P.WellFormed, P.Step, Push;
  }

  lemma NothingSeen(log: seq<Event>)
    requires log == []
    ensures Ordered(log) && Upto(log, 0) == 0 && Placed(log, 0, []) && Remembered(log, 0, None)
      && Questions(log, 0, [], [])
  {
    assert log[..0] == [];
  }

  lemma StartHolds(w: World)
    requires w.log == [] && w.wire.None? && w.lastId.None?
    requires w.client.seenSeq == 0 && w.client.pending == [] && !w.client.scheduled && Renders(w.client, [])
      && w.client.approvals == [] && w.heard == []
    ensures Inv(w)
  {
    hide Renders, Ordered, Placed, Remembered, Upto, Questions;
    NothingSeen(w.log);
    assert w.client.pending == [];
    assert Placed(w.log, w.client.seenSeq, w.client.pending);
    assert Applied(w) == 0;
    assert w.log[..0] == [];
    assert Renders(w.client, w.log[..Applied(w)]);
    assert Remembered(w.log, w.client.seenSeq, w.lastId);
    assert w.client.approvals == [];
    assert Questions(w.log, w.client.seenSeq, w.client.approvals, w.heard);
  }

  /**
   * However the log was cut into snapshots, resumes, live and repeated frames,
   * drops and reconnects: what the client has applied, followed by its pending
   * batch, is exactly the log up to the last event it has seen.
   */
  lemma {:induction false} StreamInvariant(actions: seq<Action>)
    ensures Inv(Run(actions))
  {
    hide Inv, Next, Renders;
    if actions == [] {
      NothingRendered();
      StartHolds(Start);
    } else {
      StreamInvariant(actions[..|actions| - 1]);
      NextKeeps(Run(actions[..|actions| - 1]), actions[|actions| - 1]);
    }
  }

  /** With nothing pending, the rows and the kept list are those of the log prefix seen so far. */
  lemma FlushedShowsPrefix(actions: seq<Action>)
    requires Run(actions).client.pending == []
    ensures var w := Run(actions); Renders(w.client, w.log[..Seen(w)])
  {
    hide Run, Renders, LeadsToEnd, Remembered, Ordered, Questions;
    StreamInvariant(actions);
  }

  /** A quiet, connected client shows the whole log, and the panels read the same off its kept list. */
  lemma CaughtUpShowsLog(actions: seq<Action>, pendingApprovals: nat, sending: bool)
    requires Run(actions).wire == Some([]) && !Run(actions).client.scheduled
    ensures var w := Run(actions);
      && Renders(w.client, w.log)
      && Views.TurnRunning(w.client.events) == Views.TurnRunning(w.log)
      && Views.PhaseOf(w.client.events, pendingApprovals, sending) == Views.PhaseOf(w.log, pendingApprovals, sending)
      && Fold(Views.TodoStep, Views.TodoState(map[], []), w.client.events) ==
        Fold(Views.TodoStep, Views.TodoState(map[], []), w.log)
      && Fold(Views.ProcessStep, [], w.client.events) == Fold(Views.ProcessStep, [], w.log)
      && Fold(Views.SubagentStep, [], w.client.events) == Fold(Views.SubagentStep, [], w.log)
  {
    hide P.Project, P.ProjectItems, Run, Next, Compact, Fold, Ordered, Views.PhaseOf, Views.TurnRunning;
    StreamInvariant(actions);
    var w := Run(actions);
    assert w.log[..|w.log|] == w.log;
    ViewsUnchanged(w.log, pendingApprovals, sending);
  }

  function Deliveries(n: nat): seq<Action> {
    seq(n, _ => Deliver)
  }

  lemma RunSnoc(actions: seq<Action>, a: Action)
    ensures Run(actions + [a]) == Next(Run(actions), a)
  {
    hide Next;
    assert (actions + [a])[..|actions|] == actions;
  }

  /** Delivering what is in flight empties the connection and changes nothing at the server. */
  lemma {:induction false} DeliversAll(actions: seq<Action>, n: nat)
    requires Run(actions).wire.Some? && n <= |Run(actions).wire.value|
    ensures var w, w' := Run(actions), Run(actions + Deliveries(n));
      w'.wire == Some(w.wire.value[n..]) && w'.log == w.log && w'.desk == w.desk
  {
    hide Run, Receive, Hear, Flush;
    if n == 0 {
      assert actions + Deliveries(0) == actions;
    } else {
      DeliversAll(actions, n - 1);
      assert actions + Deliveries(n) == (actions + Deliveries(n - 1)) + [Deliver];
      RunSnoc(actions + Deliveries(n - 1), Deliver);
    }
  }

  /** The shortest way up: reconnect, take what comes, and let a frame pass. */
  function WayUp(w: World): seq<Action> {
    [Connect] + Deliveries(1 + |w.desk.waiting|) + [Animate]
  }

  /** From any state a connection that holds brings the whole log, as it is then, on screen. */
  lemma CatchesUp(actions: seq<Action>)
    ensures var w, w' := Run(actions), Run(actions + WayUp(Run(actions)));
      && w'.wire == Some([]) && !w'.client.scheduled && w'.log == w.log && w'.desk.waiting == w.desk.waiting
      && Renders(w'.client, w.log)
  {
    hide Run, Receive, Hear, Renders, Hello, Inv;
    var w := Run(actions);
    var connected := actions + [Connect];
    var n := 1 + |w.desk.waiting|;
    RunSnoc(actions, Connect);
    ShowsLength(w.desk.waiting);
    DeliversAll(connected, n);
    var delivered := connected + Deliveries(n);
    assert Run(connected).wire.value[n..] == [];
    RunSnoc(delivered, Animate);
    assert actions + WayUp(w) == delivered + [Animate];
    FlushRests(Run(delivered));
    StreamInvariant(delivered + [Animate]);
    AtRest(Run(delivered + [Animate]));
  }

  lemma {:induction false} ShowsLength(waiting: A.Rows)
    ensures |Shows(waiting)| == |waiting|
  {
    if waiting != [] { ShowsLength(waiting[..|waiting| - 1]); }
  }

  lemma FlushRests(w: World)
    ensures var w' := Next(w, Animate);
      !w'.client.scheduled && w'.wire == w.wire && w'.log == w.log && w'.desk == w.desk
  {
    hide P.Step, P.WellFormed, Compact, Fold;
  }

  lemma AtRest(w: World)
    requires Inv(w) && w.wire == Some([]) && !w.client.scheduled
    ensures Renders(w.client, w.log)
  {
    hide Renders, Ordered, Questions, Remembered;
    assert w.log[..|w.log|] == w.log;
  }

  /** The transcript on screen never goes back: each step leaves it as it is or moves it forward. */
  lemma TranscriptNeverGoesBack(actions: seq<Action>, a: Action)
    ensures Transcript.Extends(Run(actions).client.items, Run(actions + [a]).client.items)
  {
    hide Next, Transcript.Extends, P.ProjectItems, Renders, LeadsToEnd, Ordered, Remembered;
    var w := Run(actions);
    StreamInvariant(actions);
    assert (actions + [a])[..|actions|] == actions;
    var w' := Next(w, a);
    NextKeeps(w, a);
    OnScreen(w);
    OnScreen(w');
    var k, k' := Applied(w), Applied(w');
    Transcript.TranscriptStable(w'.log[..k], w'.log[k..k']);
    assert w'.log[..k] + w'.log[k..k'] == w'.log[..k'];
    assert w.log[..k] == w'.log[..k];
  }

  lemma OnScreen(w: World)
    requires Inv(w)
    ensures 0 <= Applied(w) <= |w.log| && w.client.items == P.ProjectItems(w.log[..Applied(w)])
  {
    hide LeadsToEnd, Ordered;
  }

  /** What a browser that comes back is sent: the rest of the log, or all of it when its number says nothing. */
  ghost predicate SendsTheRest(log: seq<Event>, lastId: Option<nat>, f: Frame) {
    if lastId.Some? && (lastId.value > 0 || log == [] || log[0].seqNo == 1) then
      exists n | 0 <= n <= |log| ::
        && (forall i | 0 <= i < |log| :: log[i].seqNo <= lastId.value <==> i < n)
        && f == Resume(log[n..], LastSeq(log))
    else f == Snapshot(log, LastSeq(log))
  }

  lemma HelloSends(log: seq<Event>, seen: nat, lastId: Option<nat>)
    requires Ordered(log) && Remembered(log, seen, lastId)
    ensures SendsTheRest(log, lastId, Hello(log, lastId))
  {
    if lastId.Some? {
      var n := Upto(log, lastId.value);
      NumberPlaced(log, n);
      UptoSplits(log, lastId.value);
      UnseenSlice(log, 0, |log|, n);
      assert log[0..|log|] == log;
      hide Unseen, Upto, SeqAt, Ordered, LastSeq;
    }
  }

  /** A number of the log lies between its first and its last. */
  lemma NumberPlaced(log: seq<Event>, n: nat)
    requires Ordered(log) && n <= |log|
    ensures SeqAt(log, n) <= LastSeq(log)
    ensures log != [] ==> (SeqAt(log, n) > 0 ==> log[0].seqNo <= SeqAt(log, n)) && 0 < log[0].seqNo
    ensures log == [] ==> SeqAt(log, n) == 0 == LastSeq(log)
  {
    hide Upto;
  }

  /**
   * In every run a browser that comes back with an event's number is sent exactly what came after that event, and
   * one that has no number, or none the log can place, is sent the whole log.
   */
  lemma ReconnectSendsTheRest(actions: seq<Action>)
    ensures var w := Run(actions); SendsTheRest(w.log, w.lastId, Hello(w.log, w.lastId))
  {
    hide Run, Renders, LeadsToEnd, Questions, Placed, SendsTheRest, Hello, Remembered, Ordered;
    StreamInvariant(actions);
    var w := Run(actions);
    HelloSends(w.log, w.client.seenSeq, w.lastId);
  }
}
