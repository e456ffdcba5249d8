/**
 * The questions a page shows against the questions the server waits for
 * (src/web/server.ts:2186-2225, 5391-5431, 6482-6520 and
 * src/harness/approval/policy.ts:203-205 against
 * web/hooks/useSessionStream.ts:72-155): across drops, snapshots and resumes,
 * what each side may rely on about the other.
 */
module QuestionProtocol {
  import opened Events
  import opened SessionStream
  import opened StreamProtocol
  import A = Approvals
  import Views

  /** What the envelopes last said of each question that they did not end. */
  type Told = map<string, A.Question>

  function TellStep(told: Told, f: Frame): Told {
    if f.Snapshot? then map[]
    else if !f.Notice? then told
    else match f.envelope
      case ShowQuestion(id, q) => told[id := q]
      case SettleQuestion(id) => told - {id}
      case ErrorNote => told
  }

  function TellAll(told: Told, frames: seq<Frame>): Told
    decreases |frames|
  {
    if frames == [] then told else TellAll(TellStep(told, frames[0]), frames[1..])
  }

  function ToldOf(heard: seq<A.Heard>): Told {
    if heard == [] then map[]
    else
      var told := ToldOf(heard[..|heard| - 1]);
      match heard[|heard| - 1]
      case Shown(id, q) => told[id := q]
      case Settled(id) => told - {id}
      case _ => told
  }

  lemma {:induction false} TellAllSnoc(told: Told, frames: seq<Frame>, f: Frame)
    ensures TellAll(told, frames + [f]) == TellStep(TellAll(told, frames), f)
    decreases |frames|
  {
    if frames == [] {
      assert [f][1..] == [];
    } else {
      assert (frames + [f])[1..] == frames[1..] + [f];
      TellAllSnoc(TellStep(told, frames[0]), frames[1..], f);
    }
  }

  lemma ToldSnoc(heard: seq<A.Heard>, h: A.Heard)
    ensures ToldOf(heard + [h])
      == if h.Shown? then ToldOf(heard)[h.id := h.question]
         else if h.Settled? then ToldOf(heard) - {h.id}
         else ToldOf(heard)
  {
    assert (heard + [h])[..|heard|] == heard;
  }

  lemma {:induction false} ToldFacts(heard: seq<A.Heard>, es: seq<Event>)
    ensures ToldOf(heard + A.Facts(es)) == ToldOf(heard)
    decreases |es|
  {
    if es == [] {
      assert heard + A.Facts(es) == heard;
    } else {
      var front, e := es[..|es| - 1], es[|es| - 1];
      ToldFacts(heard, front);
      assert heard + A.Facts(es) == (heard + A.Facts(front)) + [A.Logged(e)];
      ToldSnoc(heard + A.Facts(front), A.Logged(e));
    }
  }

  lemma ToldHear(heard: seq<A.Heard>, seen: nat, f: Frame)
    ensures ToldOf(Hear(heard, seen, f)) == TellStep(ToldOf(heard), f)
  {
    hide A.Facts;
    match f {
      case Snapshot(es, _) =>
        ToldFacts([], es);
        assert [] + A.Facts(es) == A.Facts(es);
      case Resume(es, _) => ToldFacts(heard, Unseen(es, seen));
      case Live(e) => ToldFacts(heard, Unseen([e], seen));
      case Notice(ShowQuestion(id, q)) => ToldSnoc(heard, A.Shown(id, q));
      case Notice(SettleQuestion(id)) => ToldSnoc(heard, A.Settled(id));
      case Notice(ErrorNote) =>
    }
  }

  // ---------- the invariant ----------

  /** Once these frames are in, the page has been told every question that waits, as it waits. */
  ghost predicate Informed(told: Told, frames: seq<Frame>, waiting: A.Rows) {
    forall e | e in waiting :: e.key in TellAll(told, frames) && TellAll(told, frames)[e.key] == e.row
  }

  /** Whatever the page has been told at any point of these frames is known, or its end is among those to come. */
  ghost predicate Backed(told: Told, frames: seq<Frame>, known: set<string>)
    decreases |frames|
  {
    && told.Keys <= known + EndsIn(frames)
    && (frames != [] ==> Backed(TellStep(told, frames[0]), frames[1..], known))
  }

  function InFlight(w: World): seq<Frame> {
    OrElse(w.wire, [])
  }

  /** Each question waits, owes its end envelope, or has ended, and was asked once. */
  ghost predicate DeskKept(d: Desk, wire: Option<seq<Frame>>) {
    && A.UniqueKeys(d.waiting)
    && A.Keys(d.waiting) !! d.owed
    && d.lost + LostEnds(wire) !! A.Keys(d.waiting) + d.owed
    && A.Keys(d.waiting) + d.owed + d.lost + LostEnds(wire) <= d.asked
  }

  /** What the page may have been told and not been told the end of. */
  function Known(d: Desk): set<string> {
    A.Keys(d.waiting) + d.owed + d.lost
  }

  ghost predicate Served(w: World) {
    && DeskKept(w.desk, w.wire)
    && (w.wire.Some? ==> Informed(ToldOf(w.heard), w.wire.value, w.desk.waiting))
    && Backed(ToldOf(w.heard), InFlight(w), Known(w.desk))
  }

  lemma {:induction false} BackedMore(told: Told, frames: seq<Frame>, known: set<string>, more: set<string>)
    requires Backed(told, frames, known) && known <= more
    ensures Backed(told, frames, more)
    decreases |frames|
  {
    if frames != [] { BackedMore(TellStep(told, frames[0]), frames[1..], known, more); }
  }

  lemma {:induction false} BackedSnoc(told: Told, frames: seq<Frame>, f: Frame, known: set<string>, known': set<string>)
    requires Backed(told, frames, known) && known <= known' + EndsIn([f])
    requires TellStep(TellAll(told, frames), f).Keys <= known'
    ensures Backed(told, frames + [f], known')
    decreases |frames|
  {
    hide TellStep;
    EndsSnoc(frames, f);
    if frames == [] {
      assert [f][1..] == [];
      assert EndsIn([]) == {};
    } else {
      assert (frames + [f])[1..] == frames[1..] + [f];
      BackedSnoc(TellStep(told, frames[0]), frames[1..], f, known, known');
    }
  }

  lemma EndsSnoc(frames: seq<Frame>, f: Frame)
    ensures EndsIn(frames + [f]) == EndsIn(frames) + EndsIn([f])
  {
    assert forall g :: g in frames + [f] <==> g in frames || g in [f];
  }

  /** At the end of the frames nothing is left to come. */
  lemma {:induction false} BackedEnd(told: Told, frames: seq<Frame>, known: set<string>)
    requires Backed(told, frames, known)
    ensures TellAll(told, frames).Keys <= known
    decreases |frames|
  {
    if frames == [] {
      assert EndsIn([]) == {};
    } else {
      BackedEnd(TellStep(told, frames[0]), frames[1..], known);
    }
  }

  // ---------- every step keeps it ----------

  lemma TellShow(told: Told, frames: seq<Frame>, waiting: A.Rows, known: set<string>, id: string, q: A.Question)
    requires A.UniqueKeys(waiting) && Backed(told, frames, known)
    ensures var f := Notice(ShowQuestion(id, q));
      && A.UniqueKeys(Views.Put(waiting, id, q))
      && (Informed(told, frames, waiting) ==> Informed(told, frames + [f], Views.Put(waiting, id, q)))
      && Backed(told, frames + [f], known + {id})
      && A.Keys(Views.Put(waiting, id, q)) == A.Keys(waiting) + {id}
  {
    hide Views.Put, Backed;
    var f := Notice(ShowQuestion(id, q));
    A.PutMembers(waiting, id, q);
    TellAllSnoc(told, frames, f);
    BackedEnd(told, frames, known);
    BackedSnoc(told, frames, f, known, known + {id});
    KeysPut(waiting, id, q);
  }

  lemma KeysPut(waiting: A.Rows, id: string, q: A.Question)
    requires A.UniqueKeys(waiting)
    ensures A.Keys(Views.Put(waiting, id, q)) == A.Keys(waiting) + {id}
  {
    hide Views.Put;
    A.PutMembers(waiting, id, q);
    var put := Views.Put(waiting, id, q);
    assert Views.Entry(id, q) in put;
    forall k | k in A.Keys(waiting) && k != id ensures k in A.Keys(put) {
      var e :| e in waiting && e.key == k;
      assert e in put;
    }
  }

  lemma KeysWithout(waiting: A.Rows, id: string)
    ensures A.Keys(A.Without(waiting, id)) == A.Keys(waiting) - {id}
  {
    forall k | k in A.Keys(waiting) - {id} ensures k in A.Keys(A.Without(waiting, id)) {
      var e :| e in waiting && e.key == k;
      assert e in A.Without(waiting, id);
    }
  }

  lemma TellSettle(told: Told, frames: seq<Frame>, waiting: A.Rows, known: set<string>, id: string)
    requires Informed(told, frames, waiting) && Backed(told, frames, known)
    ensures var f := Notice(SettleQuestion(id));
      && Informed(told, frames + [f], A.Without(waiting, id))
      && Backed(told, frames + [f], known - {id})
  {
    hide Backed;
    var f := Notice(SettleQuestion(id));
    TellAllSnoc(told, frames, f);
    BackedEnd(told, frames, known);
    assert f in [f];
    BackedSnoc(told, frames, f, known, known - {id});
  }

  /** A frame that says nothing of questions. */
  lemma TellNothing(told: Told, frames: seq<Frame>, waiting: A.Rows, known: set<string>, f: Frame)
    requires f.Live? || f == Notice(ErrorNote)
    requires Informed(told, frames, waiting) && Backed(told, frames, known)
    ensures Informed(told, frames + [f], waiting) && Backed(told, frames + [f], known)
    ensures Informed(told, [f] + frames, waiting) && Backed(told, [f] + frames, known)
  {
    TellAllSnoc(told, frames, f);
    BackedEnd(told, frames, known);
    BackedSnoc(told, frames, f, known, known);
    assert ([f] + frames)[1..] == frames;
    assert EndsIn([f] + frames) == EndsIn(frames) by {
      assert forall g :: g in [f] + frames <==> g == f || g in frames;
    }
  }

  /** The opening frames tell every waiting question, whatever the page was told before. */
  lemma {:induction false} ShowsTell(told: Told, f: Frame, waiting: A.Rows, known: set<string>)
    requires A.UniqueKeys(waiting) && (f.Snapshot? || f.Resume?)
    requires told.Keys <= known && A.Keys(waiting) <= known
    ensures Informed(told, [f] + Shows(waiting), waiting) && Backed(told, [f] + Shows(waiting), known)
  {
    if waiting == [] {
      assert [f] + Shows(waiting) == [f] && [f][1..] == [];
    } else {
      var front, last := waiting[..|waiting| - 1], waiting[|waiting| - 1];
      ShowsTell(told, f, front, known);
      assert [f] + Shows(waiting) == ([f] + Shows(front)) + [Notice(ShowQuestion(last.key, last.row))];
      ShowsTellOne(told, [f] + Shows(front), front, last, known);
    }
  }

  lemma ShowsTellOne(told: Told, frames: seq<Frame>, front: A.Rows, last: Views.Entry<A.Question>, known: set<string>)
    requires A.UniqueKeys(front + [last]) && last.key in known
    requires Informed(told, frames, front) && Backed(told, frames, known)
    ensures var f := Notice(ShowQuestion(last.key, last.row));
      Informed(told, frames + [f], front + [last]) && Backed(told, frames + [f], known)
  {
    hide Backed;
    var f, rows := Notice(ShowQuestion(last.key, last.row)), front + [last];
    TellAllSnoc(told, frames, f);
    BackedEnd(told, frames, known);
    BackedSnoc(told, frames, f, known, known);
    forall e | e in rows ensures e == last || (e in front && e.key != last.key) {
      var i :| 0 <= i < |rows| && rows[i] == e;
      assert rows[|front|] == last;
    }
  }

  /** A connection that ends takes the ends in flight with it. */
  lemma LossBacked(w: World)
    requires Served(w)
    ensures ToldOf(w.heard).Keys <= Known(w.desk) + LostEnds(w.wire) == Known(Broken(w.desk, w.wire))
    ensures Backed(ToldOf(w.heard), [], Known(Broken(w.desk, w.wire)))
    ensures forall wire | LostEnds(wire) == {} :: DeskKept(Broken(w.desk, w.wire), wire)
  {
    hide ToldOf, TellStep, A.Keys, Informed;
  }

  lemma NoEndsIn(frames: seq<Frame>)
    requires forall f | f in frames :: !f.Notice? || !f.envelope.SettleQuestion?
    ensures EndsIn(frames) == {}
  {
  }

  lemma {:induction false} ShowsEndNothing(f: Frame, waiting: A.Rows)
    requires !f.Notice?
    ensures forall g | g in [f] + Shows(waiting) :: !g.Notice? || !g.envelope.SettleQuestion?
  {
    if waiting != [] { ShowsEndNothing(f, waiting[..|waiting| - 1]); }
  }

  lemma ServedKeeps(w: World, a: Action)
    requires Served(w)
    ensures Served(Next(w, a))
  {
    hide Informed, Backed, DeskKept, ToldOf, Hello, Known, Receive, Flush, Hear, Shows, Broken, Ended, LostEnds;
    if Enabled(w, a) {
      match a {
        case Append(e) => if w.wire.Some? { SilentServed(w, Live(e)); }
        case Ask(id, q) => AskServed(w, id, q);
        case Answer(id) => AnswerServed(w, id);
        case Settle(id) => SettleServed(w, id);
        case Fail => if w.wire.Some? { SilentServed(w, Notice(ErrorNote)); }
        case Connect => ConnectServed(w);
        case Drop => DropServed(w);
        case Redeliver(i) => SilentServed(w, Live(w.log[i]));
        case Deliver => DeliverServed(w);
        case Animate =>
        case Dismiss(id) => ToldSnoc(w.heard, A.Dismissed(id));
      }
    }
  }

  /** A frame that says nothing of questions, at either end of those in flight. */
  lemma SilentServed(w: World, f: Frame)
    requires Served(w) && w.wire.Some? && (f.Live? || f == Notice(ErrorNote))
    ensures Served(w.(wire := Some(w.wire.value + [f]))) && Served(w.(wire := Some([f] + w.wire.value)))
    ensures forall log :: Served(w.(log := log, wire := Some(w.wire.value + [f])))
  {
    hide Informed, Backed, ToldOf, Known, A.Keys, EndsIn;
    TellNothing(ToldOf(w.heard), w.wire.value, w.desk.waiting, Known(w.desk), f);
    EndsSnoc(w.wire.value, f);
    EndsCons(f, w.wire.value);
    NoEndsIn([f]);
  }

  lemma EndsCons(f: Frame, frames: seq<Frame>)
    ensures EndsIn([f] + frames) == EndsIn([f]) + EndsIn(frames)
  {
    assert forall g :: g in [f] + frames <==> g in [f] || g in frames;
  }

  lemma ConnectServed(w: World)
    requires Served(w)
    ensures Served(Next(w, Connect))
  {
    hide Informed, Backed, DeskKept, ToldOf, Hello, Known, Shows, LostEnds;
    var d := Broken(w.desk, w.wire);
    LossBacked(w);
    HelloOpens(w.log, w.lastId);
    DeskUnique(w.desk, w.wire);
    WaitingKnown(d);
    ShowsTell(ToldOf(w.heard), Hello(w.log, w.lastId), d.waiting, Known(d));
    ShowsEndNothing(Hello(w.log, w.lastId), d.waiting);
    NothingLost([Hello(w.log, w.lastId)] + Shows(d.waiting));
  }

  lemma DropServed(w: World)
    requires Served(w)
    ensures Served(Next(w, Drop))
  {
    hide Informed, Backed, DeskKept, ToldOf, Known;
    LossBacked(w);
  }

  lemma NothingLost(frames: seq<Frame>)
    requires forall f | f in frames :: !f.Notice? || !f.envelope.SettleQuestion?
    ensures LostEnds(Some(frames)) == {}
  {
  }

  lemma DeskUnique(d: Desk, wire: Option<seq<Frame>>)
    requires DeskKept(d, wire)
    ensures A.UniqueKeys(d.waiting)
  {
  }

  lemma WaitingKnown(d: Desk)
    ensures A.Keys(d.waiting) <= Known(d)
  {
  }

  lemma HelloOpens(log: seq<Event>, lastId: Option<nat>)
    ensures Hello(log, lastId).Snapshot? || Hello(log, lastId).Resume?
  {
  }

  lemma AskServed(w: World, id: string, q: A.Question)
    requires Served(w) && id !in w.desk.asked
    ensures Served(Next(w, Ask(id, q)))
  {
    hide Informed, ToldOf, A.Keys, TellStep, TellAll, Backed, EndsIn;
    var f, known := Notice(ShowQuestion(id, q)), Known(w.desk);
    TellShow(ToldOf(w.heard), InFlight(w), w.desk.waiting, known, id, q);
    assert known + {id} == (A.Keys(w.desk.waiting) + {id}) + w.desk.owed + w.desk.lost;
    BackedMore(ToldOf(w.heard), InFlight(w), known, known + {id});
    EndsSnoc(InFlight(w), f);
    NoEndsIn([f]);
  }

  /** An answered question still owes its end. */
  lemma AnswerServed(w: World, id: string)
    requires Served(w) && id in A.Keys(w.desk.waiting)
    ensures Served(Next(w, Answer(id)))
  {
    hide ToldOf, A.Keys, EndsIn, TellStep, TellAll, Backed;
    A.WithoutUnique(w.desk.waiting, id, None);
    KeysWithout(w.desk.waiting, id);
    assert Known(w.desk) == (A.Keys(w.desk.waiting) - {id}) + (w.desk.owed + {id}) + w.desk.lost;
  }

  lemma SettleServed(w: World, id: string)
    requires Served(w) && Enabled(w, Settle(id))
    ensures Served(Next(w, Settle(id)))
  {
    hide Informed, ToldOf, A.Keys, EndsIn, TellStep, TellAll, Backed;
    var f, d := Notice(SettleQuestion(id)), w.desk;
    A.WithoutUnique(d.waiting, id, None);
    KeysWithout(d.waiting, id);
    if w.wire.None? {
      assert Known(d) == (A.Keys(d.waiting) - {id}) + (d.owed - {id}) + (d.lost + {id});
    } else {
      TellSettle(ToldOf(w.heard), w.wire.value, d.waiting, Known(d), id);
      assert Known(d) - {id} == (A.Keys(d.waiting) - {id}) + (d.owed - {id}) + d.lost;
      EndsSnoc(w.wire.value, f);
      EndsOne(id);
    }
  }

  lemma EndsOne(id: string)
    ensures EndsIn([Notice(SettleQuestion(id))]) == {id}
  {
    var f := Notice(SettleQuestion(id));
    assert f in [f];
  }

  lemma DeliverServed(w: World)
    requires Served(w) && Enabled(w, Deliver)
    ensures Served(Next(w, Deliver))
  {
    hide ToldOf, A.Keys, Known, TellStep, Hear, Receive;
    ToldHear(w.heard, w.client.seenSeq, w.wire.value[0]);
    assert forall f | f in w.wire.value[1..] :: f in w.wire.value;
  }

  lemma {:induction false} ServedInvariant(actions: seq<Action>)
    ensures Served(Run(actions))
  {
    hide Next, Served;
    if actions == [] {
      StartServed(Start);
    } else {
      ServedInvariant(actions[..|actions| - 1]);
      ServedKeeps(Run(actions[..|actions| - 1]), actions[|actions| - 1]);
    }
  }

  lemma StartServed(w: World)
    requires w.wire.None? && w.desk == Desk([], {}, {}, {}) && w.heard == []
    ensures Served(w)
  {
  }

  // ---------- for every run ----------

  /** The envelope that told it, with none about the question since. */
  lemma {:induction false} ToldMeans(heard: seq<A.Heard>, id: string)
    ensures id in ToldOf(heard) ==> exists i: nat | i < |heard| ::
      heard[i] == A.Shown(id, ToldOf(heard)[id]) && forall j | i < j < |heard| :: !EnvelopeAbout(heard[j], id)
  {
    if heard != [] {
      var front, h := heard[..|heard| - 1], heard[|heard| - 1];
      ToldMeans(front, id);
      if id in ToldOf(heard) && !EnvelopeAbout(h, id) {
        var i: nat :| i < |front| && front[i] == A.Shown(id, ToldOf(front)[id])
          && forall j | i < j < |front| :: !EnvelopeAbout(front[j], id);
        assert heard[i] == front[i] && forall j | i < j < |front| :: heard[j] == front[j];
      }
      assert h.Shown? && h.id == id ==> heard[|front|] == A.Shown(id, ToldOf(heard)[id]);
    }
  }

  predicate EnvelopeAbout(h: A.Heard, id: string) {
    (h.Shown? || h.Settled?) && h.id == id
  }

  lemma {:induction false} ShownIsTold(heard: seq<A.Heard>, id: string, call: ToolCall)
    requires A.StillShown(heard, id, call)
    ensures id in ToldOf(heard)
  {
    hide A.StillShown;
    if heard == [] {
      A.NothingPending(id, call);
    } else {
      var front, h := heard[..|heard| - 1], heard[|heard| - 1];
      assert heard == front + [h];
      A.StillOpenSnoc(front, h, id, call);
      ToldSnoc(front, h);
      if A.StillShown(front, id, call) { ShownIsTold(front, id, call); }
    }
  }

  /**
   * In every run the rows are exactly the open questions, one row each: asked in the log or shown by an
   * envelope, and nothing heard since settled, decided, dismissed or replaced them. Of the log, exactly the
   * part seen so far was heard.
   */
  lemma QuestionsAreOpen(actions: seq<Action>)
    ensures var w := Run(actions);
      && A.UniqueKeys(w.client.approvals)
      && (forall id, call :: A.HasRow(w.client.approvals, id, call) <==> A.StillOpen(w.heard, id, call))
      && A.LoggedOf(w.heard) == w.log[..Seen(w)]
  {
    hide Run, A.StillOpen, A.HasRow, Renders, LeadsToEnd, Placed, Remembered, Ordered, A.RowsOf, A.LoggedOf;
    StreamInvariant(actions);
    A.RowsAreOpen(Run(actions).heard);
  }

  /**
   * A row is pending in the log seen so far or was shown by an envelope and not ended since; a question no
   * envelope or dismissal touched has a row exactly when it is pending in the log seen so far.
   */
  lemma QuestionsArePending(actions: seq<Action>, id: string, call: ToolCall)
    ensures var w := Run(actions); var logged := A.StillPending(w.log[..Seen(w)], id, call);
      && (A.HasRow(w.client.approvals, id, call) ==> logged || A.StillShown(w.heard, id, call))
      && (A.StillShown(w.heard, id, call) ==> A.HasRow(w.client.approvals, id, call))
      && (A.Untouched(w.heard, id) ==> (A.HasRow(w.client.approvals, id, call) <==> logged))
  {
    hide Run, A.StillOpen, A.StillShown, A.StillPending, A.HasRow, A.Untouched, Seen, A.LoggedOf;
    QuestionsAreOpen(actions);
    A.OpenMeans(Run(actions).heard, id, call);
  }

  /**
   * However the connection was cut: once nothing is in flight, every question the server waits for is on
   * screen, unless the reader dismissed it or the log ended or asked it anew after it was last shown.
   */
  lemma WaitingIsShown(actions: seq<Action>, id: string, q: A.Question)
    requires Run(actions).wire == Some([]) && Views.Entry(id, q) in Run(actions).desk.waiting
    ensures var w := Run(actions);
      A.HasRow(w.client.approvals, id, q.call) || EndedHere(w.heard, id, q)
  {
    hide Run, A.StillOpen, A.HasRow, A.LoggedOf, ToldOf, Backed, Seen;
    var w := Run(actions);
    ServedInvariant(actions);
    assert TellAll(ToldOf(w.heard), []) == ToldOf(w.heard);
    ToldMeans(w.heard, id);
    QuestionsAreOpen(actions);
    LastWord(w.heard, id, q);
  }

  /** Shown, and since then dismissed by the reader or superseded in the log. */
  ghost predicate EndedHere(heard: seq<A.Heard>, id: string, q: A.Question) {
    exists i: nat, j: nat | i < j < |heard| :: heard[i] == A.Shown(id, q)
      && (heard[j] == A.Dismissed(id) || (heard[j].Logged? && A.Supersedes(heard[j].event, id, q.call)))
  }

  lemma LastWord(heard: seq<A.Heard>, id: string, q: A.Question)
    requires exists i: nat | i < |heard| ::
      heard[i] == A.Shown(id, q) && forall j | i < j < |heard| :: !EnvelopeAbout(heard[j], id)
    ensures A.StillOpen(heard, id, q.call) || EndedHere(heard, id, q)
  {
    hide A.Supersedes;
    var i: nat :| i < |heard| && heard[i] == A.Shown(id, q)
      && forall j | i < j < |heard| :: !EnvelopeAbout(heard[j], id);
    assert A.Opens(heard[i], id, q.call);
    if !A.StillOpen(heard, id, q.call) {
      var j :| i < j < |heard| && A.Ends(heard[j], id, q.call);
      assert !EnvelopeAbout(heard[j], id);
    }
  }

  /**
   * At every moment a row on screen is pending in the log seen so far, or the server waits for it, or its
   * end envelope is owed, or on its way, or was lost with a connection.
   */
  lemma ShownIsWaiting(actions: seq<Action>, id: string, call: ToolCall)
    requires A.HasRow(Run(actions).client.approvals, id, call)
    ensures var w := Run(actions);
      || A.StillPending(w.log[..Seen(w)], id, call)
      || id in A.Keys(w.desk.waiting) || id in w.desk.owed || id in LostEnds(w.wire) || id in w.desk.lost
  {
    hide Run, A.StillShown, A.StillPending, A.HasRow, A.Untouched, ToldOf, Seen, Informed, A.Keys, EndsIn;
    QuestionsArePending(actions, id, call);
    ServedInvariant(actions);
    if A.StillShown(Run(actions).heard, id, call) {
      ShownIsTold(Run(actions).heard, id, call);
      LossBacked(Run(actions));
    }
  }

  /** On screen, though the log seen so far does not ask it and the server does not wait for it. */
  ghost predicate Stale(w: World, id: string, call: ToolCall) {
    && A.HasRow(w.client.approvals, id, call)
    && !A.StillPending(w.log[..Seen(w)], id, call)
    && id !in A.Keys(w.desk.waiting)
  }

  /**
   * With nothing in flight or owed, a row is stale exactly when its end was lost with a connection and the
   * page has heard nothing that ended it since it was shown: no decision, result, turn end, dismissal or
   * snapshot.
   */
  lemma StaleExactlyWhenLost(actions: seq<Action>, id: string, call: ToolCall)
    requires Run(actions).wire == Some([]) && Run(actions).desk.owed == {}
    ensures var w := Run(actions);
      Stale(w, id, call) <==>
        id in w.desk.lost && A.StillShown(w.heard, id, call) && !A.StillPending(w.log[..Seen(w)], id, call)
  {
    hide Run, A.StillShown, A.StillPending, A.HasRow, A.Untouched, ToldOf, Seen, Informed, Backed, A.Keys;
    var w := Run(actions);
    QuestionsArePending(actions, id, call);
    ServedInvariant(actions);
    assert EndsIn([]) == {};
    if Stale(w, id, call) {
      ShownIsWaiting(actions, id, call);
    }
  }

  // ---------- when an end is lost ----------

  /** One connection, opened first and never lost. */
  predicate Unbroken(actions: seq<Action>) {
    && actions != [] && actions[0].Connect?
    && forall i | 1 <= i < |actions| :: !actions[i].Connect? && !actions[i].Drop?
  }

  lemma {:induction false} UnbrokenLosesNothing(actions: seq<Action>)
    requires Unbroken(actions)
    ensures Run(actions).wire.Some? && Run(actions).desk.lost == {}
  {
    hide Receive, Flush, Hear, Hello, Shows;
    var front := actions[..|actions| - 1];
    if front == [] {
      assert Run(front) == Start;
    } else {
      UnbrokenLosesNothing(front);
    }
  }

  /** On a connection that never broke, with nothing in flight or owed, every row is pending or waited for. */
  lemma NoStaleRowUnbroken(actions: seq<Action>, id: string, call: ToolCall)
    requires Unbroken(actions) && Run(actions).wire == Some([]) && Run(actions).desk.owed == {}
    ensures !Stale(Run(actions), id, call)
  {
    hide Run, Stale, Unbroken;
    UnbrokenLosesNothing(actions);
    StaleExactlyWhenLost(actions, id, call);
  }

  /** A child's question is shown, its end is sent and lost with the connection, and the page resumes. */
  function EndLost(q: A.Question): seq<Action> {
    [Connect, Deliver, Ask("q", q), Deliver, Settle("q"), Drop, Connect, Deliver]
  }

  /** The parts of the world that questions depend on. */
  ghost predicate At(w: World, wire: Option<seq<Frame>>, lastId: Option<nat>, heard: seq<A.Heard>, desk: Desk) {
    w.log == [] && w.wire == wire && w.lastId == lastId && w.heard == heard && w.desk == desk
  }

  lemma RunStep(actions: seq<Action>, k: nat)
    requires k < |actions|
    ensures Run(actions[..k + 1]) == Next(Run(actions[..k]), actions[k])
  {
    hide Next;
    assert actions[..k + 1][..k] == actions[..k];
  }

  lemma RunNone(actions: seq<Action>)
    ensures Run(actions[..0]) == Start
  {
  }

  const Nobody := Desk([], {}, {}, {})
  const Gone := Desk([], {}, {"q"}, {})

  function Asking(q: A.Question): Desk {
    Desk([Views.Entry("q", q)], {}, {"q"}, {})
  }

  lemma ConnectAt(w: World, lastId: Option<nat>, heard: seq<A.Heard>, desk: Desk)
    requires At(w, None, lastId, heard, desk) && desk.waiting == [] && (lastId.Some? ==> lastId.value == 0)
    ensures At(Next(w, Connect), Some([if lastId.Some? then Resume([], 0) else Snapshot([], 0)]), lastId, heard, desk)
  {
    assert [Hello([], lastId)] + Shows([]) == [Hello([], lastId)];
  }

  lemma DeliverAt(w: World, f: Frame, heard: seq<A.Heard>, desk: Desk, heard': seq<A.Heard>)
    requires At(w, Some([f]), if f.Snapshot? then None else Some(0), heard, desk)
    requires f == Snapshot([], 0) || f == Resume([], 0) || f.Notice?
    requires heard' == if f.Snapshot? then [] else if f.Notice? then Hear(heard, 0, f) else heard
    ensures At(Next(w, Deliver), Some([]), Some(0), heard', desk)
  {
    hide Receive;
    assert [f][1..] == [];
    assert A.Facts([]) == [] && heard + [] == heard;
  }

  lemma AskAt(w: World, q: A.Question)
    requires At(w, Some([]), Some(0), [], Nobody)
    ensures At(Next(w, Ask("q", q)), Some([Notice(ShowQuestion("q", q))]), Some(0), [], Asking(q))
  {
    assert [] + [Views.Entry("q", q)] == Asking(q).waiting;
    assert [] + [Notice(ShowQuestion("q", q))] == [Notice(ShowQuestion("q", q))];
    assert Next(w, Ask("q", q)).desk.asked == {"q"};
  }

  lemma SettleAt(w: World, q: A.Question)
    requires At(w, Some([]), Some(0), [A.Shown("q", q)], Asking(q))
    ensures At(Next(w, Settle("q")), Some([Notice(SettleQuestion("q"))]), Some(0), [A.Shown("q", q)], Gone)
  {
    assert Views.Entry("q", q) in w.desk.waiting;
    var rest := w.desk.waiting[1..];
    assert rest == [] && A.Without(rest, "q") == [];
    assert "q" in A.Keys(w.desk.waiting);
    assert Next(w, Settle("q")).desk.owed == {};
    assert [] + [Notice(SettleQuestion("q"))] == [Notice(SettleQuestion("q"))];
  }

  lemma DropAt(w: World, q: A.Question)
    requires At(w, Some([Notice(SettleQuestion("q"))]), Some(0), [A.Shown("q", q)], Gone)
    ensures At(Next(w, Drop), None, Some(0), [A.Shown("q", q)], Gone.(lost := {"q"}))
  {
    EndsOne("q");
    assert Next(w, Drop).desk.lost == {"q"};
  }

  lemma EndLostAt(q: A.Question)
    ensures At(Run(EndLost(q)), Some([]), Some(0), [A.Shown("q", q)], Gone.(lost := {"q"}))
  {
    hide Next, Run, At;
    var actions := EndLost(q);
    RunNone(actions);
    forall k | 0 <= k < 8 ensures Run(actions[..k + 1]) == Next(Run(actions[..k]), actions[k]) {
      RunStep(actions, k);
    }
    StartAt();
    ConnectAt(Run(actions[..0]), None, [], Nobody);
    DeliverAt(Run(actions[..1]), Snapshot([], 0), [], Nobody, []);
    AskAt(Run(actions[..2]), q);
    DeliverAt(Run(actions[..3]), Notice(ShowQuestion("q", q)), [], Asking(q), [A.Shown("q", q)]);
    SettleAt(Run(actions[..4]), q);
    DropAt(Run(actions[..5]), q);
    ConnectAt(Run(actions[..6]), Some(0), [A.Shown("q", q)], Gone.(lost := {"q"}));
    DeliverAt(Run(actions[..7]), Resume([], 0), [A.Shown("q", q)], Gone.(lost := {"q"}), [A.Shown("q", q)]);
    assert actions[..8] == actions;
  }

  lemma StartAt()
    ensures At(Start, None, None, [], Nobody)
  {
  }

  /** A resumed page still shows a question whose end was lost with its connection. */
  lemma EndLostStays(q: A.Question)
    ensures var w := Run(EndLost(q));
      w.wire == Some([]) && w.log == [] && w.desk.owed == {} && Stale(w, "q", q.call)
  {
    hide Run, A.HasRow, A.Keys, Upto, Inv;
    EndLostAt(q);
    var w := Run(EndLost(q));
    assert A.Opens(w.heard[0], "q", q.call);
    assert A.StillShown(w.heard, "q", q.call);
    assert w.log[..Seen(w)] == [];
    StaleExactlyWhenLost(EndLost(q), "q", q.call);
  }
}
