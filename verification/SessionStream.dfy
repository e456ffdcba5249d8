/**
 * The browser's end of a session stream (web/hooks/useSessionStream.ts:66-156):
 * dedup by sequence number, batching per animation frame, the incremental
 * projector, the kept event list and the rows of questions. The class is proved against the value-level
 * transitions, which `StreamProtocol.dfy` runs against the server.
 */
module SessionStream {
  import opened Events
  import opened Compaction
  import opened Projector
  import A = Approvals
  import P = Projection
  import Views

  /** A message that is not part of the log: a question of this session or of a child, its end, or an error. */
  datatype Envelope = ShowQuestion(id: string, question: A.Question) | SettleQuestion(id: string) | ErrorNote

  /** One SSE message; `id` is what the browser remembers for `Last-Event-ID`. */
  datatype Frame =
    | Snapshot(events: seq<Event>, id: nat)
    | Resume(events: seq<Event>, id: nat)
    | Live(event: Event)
    | Notice(envelope: Envelope)

  datatype Client = Client(
    seenSeq: nat,
    pending: seq<Event>,
    scheduled: bool,
    proj: P.State,
    items: seq<P.ViewItem>,
    events: seq<Event>,
    approvals: A.Rows)

  const Fresh := Client(0, [], false, P.Empty, [], [], [])

  function Asked(rows: A.Rows, es: seq<Event>): A.Rows {
    Fold(A.ApprovalStep, rows, es)
  }

  function LastSeq(es: seq<Event>): nat {
    if es == [] then 0 else es[|es| - 1].seqNo
  }

  function Unseen(es: seq<Event>, seen: nat): seq<Event> {
    if es == [] then [] else Unseen(es[..|es| - 1], seen) + (if es[|es| - 1].seqNo > seen then [es[|es| - 1]] else [])
  }

  function OnSnapshot(c: Client, es: seq<Event>): Client {
    Client(LastSeq(es), [], false, P.Project(es), P.ProjectItems(es), Compact(es), Asked([], es))
  }

  function Enqueue(c: Client, es: seq<Event>): Client {
    if es == [] then c
    else c.(seenSeq := LastSeq(es), pending := c.pending + es, scheduled := true, approvals := Asked(c.approvals, es))
  }

  function OnNotice(c: Client, n: Envelope): Client {
    match n
    case ShowQuestion(id, q) => c.(approvals := A.HeardStep(c.approvals, A.Shown(id, q)))
    case SettleQuestion(id) => c.(approvals := A.HeardStep(c.approvals, A.Settled(id)))
    case ErrorNote => c
  }

  function DismissQuestion(c: Client, id: string): Client {
    c.(approvals := A.HeardStep(c.approvals, A.Dismissed(id)))
  }

  function Receive(c: Client, f: Frame): Client {
    match f
    case Snapshot(es, _) => OnSnapshot(c, es)
    case Resume(es, _) =>
      var c1 := Enqueue(c, Unseen(es, c.seenSeq));
      c1.(scheduled := c1.scheduled || c1.pending != [])
    case Live(e) => Enqueue(c, Unseen([e], c.seenSeq))
    case Notice(n) => OnNotice(c, n)
  }

  function Flush(c: Client): Client {
    if c.pending == [] then c.(scheduled := false)
    else
      var proj := Fold<P.State>(P.Step, c.proj, c.pending);
      Client(c.seenSeq, [], false, proj, proj.items, Compact(c.events + c.pending), c.approvals)
  }

  lemma UnseenOne(e: Event, seen: nat)
    ensures Unseen([e], seen) == if e.seqNo > seen then [e] else []
  {
    assert Unseen([e][..0], seen) == [];
  }

  /** No question is touched by any other kind of event. */
  lemma NotAsked(rows: A.Rows, e: Event)
    requires !e.ApprovalRequest? && !e.ApprovalDecision? && !e.CallDone? && !e.TurnEnd?
    ensures Asked(rows, [e]) == rows
  {
    assert [] + [e] == [e];
    FoldSnoc(A.ApprovalStep, rows, [], e);
  }

  /** A resume field by field. */
  lemma ResumeIs(c: Client, es: seq<Event>, unseen: seq<Event>)
    requires unseen == Unseen(es, c.seenSeq)
    ensures Receive(c, Resume(es, LastSeq(es))) == c.(
      seenSeq := if unseen == [] then c.seenSeq else LastSeq(unseen),
      pending := c.pending + unseen,
      scheduled := c.scheduled || c.pending + unseen != [],
      approvals := Asked(c.approvals, unseen))
  {
    hide Unseen, LastSeq;
    assert unseen == [] ==> c.pending + unseen == c.pending;
  }

  /** A live event field by field. */
  lemma LiveIs(c: Client, e: Event)
    ensures Receive(c, Live(e)) == if e.seqNo <= c.seenSeq then c else c.(
      seenSeq := e.seqNo,
      pending := c.pending + [e],
      scheduled := true,
      approvals := Asked(c.approvals, [e]))
  {
    hide Unseen, Asked;
    UnseenOne(e, c.seenSeq);
  }

  /** A flush field by field. */
  lemma FlushIs(c: Client)
    ensures var proj := Fold<P.State>(P.Step, c.proj, c.pending);
      Flush(c) == if c.pending == [] then c.(scheduled := false)
        else Client(c.seenSeq, [], false, proj, proj.items, Compact(c.events + c.pending), c.approvals)
  {
    hide P.Step, P.WellFormed, Compact, Fold;
  }

  method Reconcile(rows: A.Rows, es: seq<Event>) returns (next: A.Rows)
    ensures next == Asked(rows, es)
  {
    next := A.ReconcileApprovals(rows, es);
  }

  method FilterUnseen(es: seq<Event>, seen: nat) returns (unseen: seq<Event>)
    ensures unseen == Unseen(es, seen)
  {
    unseen := [];
    for i := 0 to |es|
      invariant unseen == Unseen(es[..i], seen)
    {
      assert es[..i + 1][..i] == es[..i];
      if es[i].seqNo > seen {
        unseen := unseen + [es[i]];
      }
    }
    assert es[..|es|] == es;
  }

  /** The hook's effect: one instance per opened session. */
  class Stream {
    var seenSeq: nat
    var pending: seq<Event>
    var scheduled: bool
    var projector: Projector
    var items: Shown
    var events: seq<Event>
    var approvals: A.Rows

    ghost var Repr: set<object>

    /** The array on screen is the one the projector handed out last. */
    ghost predicate Valid()
      reads this, projector, projector.list, projector.list.Repr, projector.list.handed
    {
      && Repr == {this, projector, projector.list} + projector.list.Repr
      && this !in projector.list.Repr && this !in projector.list.handed && projector.Valid()
      && items == projector.list.published
    }

    ghost function State(): Client
      requires Valid()
      reads this, projector, projector.list, projector.list.Repr, projector.list.handed
    {
      projector.list.Apart();
      Client(seenSeq, pending, scheduled, projector.model, OnScreen(), events, approvals)
    }

    ghost function OnScreen(): seq<P.ViewItem>
      requires Valid()
      reads this, projector, projector.list, projector.list.Repr, projector.list.handed
    {
      items.Items()
    }

    constructor ()
      ensures Valid() && fresh(Repr) && State() == Fresh
    {
      seenSeq, pending, scheduled, events, approvals := 0, [], false, [], [];
      var empty := new Projector();
      projector, items := empty, empty.list.published;
      new;
      Repr := {this, projector, projector.list} + projector.list.Repr;
    }

    /** Writing the hook's own fields changes nothing of a projector or of what it handed out. */
    twostate lemma Follows(p: Projector)
      requires old(p.Valid() && this !in p.list.Repr && this !in p.list.handed)
      requires projector == p && items == p.list.published && Repr == {this, p, p.list} + p.list.Repr
      requires unchanged(p, p.list)
      requires forall o | o in p.list.Repr :: o == this || unchanged(o)
      requires forall o | o in p.list.handed :: o == this || unchanged(o)
      ensures Valid() && OnScreen() == old(p.list.published.Items()) && p.model == old(p.model)
      ensures old(Valid() && projector == p) ==> OnScreen() == old(OnScreen())
    {
      hide P.WellFormed, RowList.Owned, RowList.Covered, RowList.Values, Shown.Items;
    }

    method OnSnapshot(es: seq<Event>)
      requires Valid()
      modifies Repr
      ensures Valid() && fresh(Repr - old(Repr)) && State() == Receive(old(State()), Snapshot(es, LastSeq(es)))
    {
      hide P.WellFormed, P.Step, P.Project, P.ProjectItems, Compact, RowList.Valid, RowList.Values, Shown.Items;
      hide Fold, Asked;
      var rebuilt, shown := ProjectFresh(es);
      var kept := CompactClientEvents(es);
      var asked := Reconcile([], es);
      Adopt(rebuilt, shown, kept, asked, if es == [] then 0 else es[|es| - 1].seqNo);
    }

    /** A new projector for a whole log. */
    static method ProjectFresh(es: seq<Event>) returns (rebuilt: Projector, shown: Shown)
      ensures rebuilt.Valid() && rebuilt.model == P.Project(es)
      ensures shown == rebuilt.list.published && shown.Items() == P.ProjectItems(es)
      ensures fresh(rebuilt) && fresh(rebuilt.list) && fresh(rebuilt.list.Repr) && fresh(rebuilt.list.handed)
    {
      hide P.WellFormed, P.Step, RowList.Valid, RowList.Values, Shown.Items, Fold;
      rebuilt := new Projector();
      shown := rebuilt.Apply(es);
    }

    /** Drop the pending batch and switch to a projector of our own making. */
    method Adopt(rebuilt: Projector, shown: Shown, kept: seq<Event>, asked: A.Rows, seen: nat)
      requires rebuilt.Valid() && this !in rebuilt.list.Repr && this !in rebuilt.list.handed
      requires shown == rebuilt.list.published
      modifies this
      ensures Valid() && Repr == {this, rebuilt, rebuilt.list} + rebuilt.list.Repr
      ensures projector == rebuilt && projector.list.Repr == old(rebuilt.list.Repr)
      ensures State() == Client(seen, [], false, rebuilt.model, old(shown.Items()), kept, asked)
    {
      hide P.WellFormed, Projector.Valid, RowList.Valid, RowList.Values, Shown.Items, Valid, OnScreen;
      pending, scheduled := [], false;
      projector := rebuilt;
      items, events, approvals, seenSeq := shown, kept, asked, seen;
      Repr := {this, rebuilt, rebuilt.list} + rebuilt.list.Repr;
      Follows(rebuilt);
    }

    /** Queue events for the next animation frame. */
    method Take(unseen: seq<Event>)
      modifies `seenSeq, `pending
      ensures seenSeq == (if unseen == [] then old(seenSeq) else LastSeq(unseen)) && pending == old(pending) + unseen
    {
      for i := 0 to |unseen|
        invariant seenSeq == if i == 0 then old(seenSeq) else unseen[i - 1].seqNo
        invariant pending == old(pending) + unseen[..i]
      {
        seenSeq := unseen[i].seqNo;
        pending := pending + [unseen[i]];
      }
      assert unseen[..|unseen|] == unseen;
    }

    method OnResume(es: seq<Event>)
      requires Valid()
      modifies `seenSeq, `pending, `scheduled, `approvals
      ensures Valid() && State() == Receive(old(State()), Resume(es, LastSeq(es)))
    {
      hide P.WellFormed, P.Step, Compact, RowList.Valid, RowList.Values, Shown.Items, Fold, Asked, Unseen, Receive;
      hide OnScreen;
      var unseen := FilterUnseen(es, seenSeq);
      ResumeIs(State(), es, unseen);
      Take(unseen);
      approvals := Reconcile(approvals, unseen);
      if pending != [] && !scheduled {
        scheduled := true;
      }
      Follows(projector);
    }

    method OnLive(event: Event)
      requires Valid()
      modifies `seenSeq, `pending, `scheduled, `approvals
      ensures Valid() && State() == Receive(old(State()), Live(event))
    {
      hide P.WellFormed, P.Step, Compact, RowList.Valid, RowList.Values, Shown.Items, Fold, Asked, Unseen, Receive;
      LiveIs(State(), event);
      if event.seqNo <= seenSeq { return; }
      seenSeq := event.seqNo;
      pending := pending + [event];
      if event.ApprovalRequest? || event.ApprovalDecision? || event.CallDone? || event.TurnEnd? {
        approvals := Reconcile(approvals, [event]);
      } else {
        NotAsked(approvals, event);
      }
      if !scheduled {
        scheduled := true;
      }
    }

    method OnNotice(n: Envelope)
      requires Valid()
      modifies this`approvals
      ensures Valid() && State() == Receive(old(State()), Notice(n))
    {
      hide P.WellFormed, P.Step, Compact, RowList.Valid, RowList.Values, Shown.Items, Fold;
      match n {
        case ShowQuestion(id, q) =>
          var at := Views.Find(approvals, id);
          if at.Some? {
            approvals := Views.Put(approvals, id, A.Over(Some(approvals[at.value].row), q));
          } else {
            approvals := approvals + [Views.Entry(id, q)];
          }
        case SettleQuestion(id) => approvals := A.Without(approvals, id);
        case ErrorNote =>
      }
    }

    method DismissApproval(id: string)
      requires Valid()
      modifies this`approvals
      ensures Valid() && State() == DismissQuestion(old(State()), id)
    {
      hide P.WellFormed, P.Step, Compact, RowList.Valid, RowList.Values, Shown.Items, Fold;
      approvals := A.Without(approvals, id);
    }

    /** Show the batch; the arrays shown before stay as they are. */
    method OnFrame()
      requires Valid()
      modifies Repr
      ensures Valid() && fresh(Repr - old(Repr)) && State() == Flush(old(State()))
      ensures forall o | o in old(projector.list.handed) :: unchanged(o)
    {
      hide P.WellFormed, P.Step, Compact, RowList.Valid, RowList.Values, Shown.Items, Fold, Flush, OnScreen;
      FlushIs(State());
      scheduled := false;
      if pending == [] {
        Follows(projector);
        return;
      }
      var batch := pending;
      pending := [];
      items := projector.Apply(batch);
      label applied:
      events := CompactClientEvents(events + batch);
      Repr := {this, projector, projector.list} + projector.list.Repr;
      Follows@applied(projector);
    }
  }
}
