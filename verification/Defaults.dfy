/**
 * The global model defaults (web/App.tsx:173-239): reads fenced by an epoch,
 * writes queued one behind the other, and the last record the server confirmed.
 * The class holds the coordinator's fields; the protocol runs its transitions
 * against the server's record with requests and replies in flight.
 */
module Defaults {
  import opened Basics
  import opened Events

  datatype Record = Record(provider: Option<string>, model: Option<string>, thinkingLevel: Option<string>)

  const Blank := Record(None, None, None)

  /** A partial edit: the model menu sets the pair, the thinking menu sets the level. */
  datatype Edit =
    | ChooseModel(provider: string, model: string)
    | ChooseThinking(level: Option<string>)

  /** The edit, and nothing else, carried out on a record. */
  function Apply(edit: Edit, record: Record): Record {
    match edit
    case ChooseModel(provider, model) => record.(provider := Some(provider), model := Some(model))
    case ChooseThinking(level) => record.(thinkingLevel := level)
  }

  /** The complete record a menu sends: the missing fields come from what it last knew, or are blank. */
  function Body(edit: Edit, current: Option<Record>): Record {
    match edit
    case ChooseModel(provider, model) =>
      Record(Some(provider), Some(model), if current.Some? then current.value.thinkingLevel else None)
    case ChooseThinking(level) =>
      Record(if current.Some? then current.value.provider else None,
             if current.Some? then current.value.model else None, level)
  }

  /** The fields the edit does not set are blank. */
  predicate RestBlank(edit: Edit, record: Record) {
    match edit
    case ChooseModel(_, _) => record.thinkingLevel.None?
    case ChooseThinking(_) => record.provider.None? && record.model.None?
  }

  /** A body keeps the fields it does not edit exactly when its base is known or there was nothing to keep. */
  lemma BodyKeepsIff(edit: Edit, server: Record, current: Option<Record>)
    requires current.None? || current == Some(server)
    ensures Body(edit, current) == Apply(edit, server) <==> current.Some? || RestBlank(edit, server)
  {
  }

  // ---------- the coordinator ----------

  datatype LoadState = Loading | Ready(defaults: Record) | Failed

  datatype Coord = Coord(epoch: nat, request: nat, pending: nat, state: LoadState, lastConfirmed: Option<Record>)

  const Idle := Coord(0, 0, 0, Loading, None)

  /** A GET remembers the request number and the epoch it was sent under. */
  datatype Ticket = Ticket(request: nat, epoch: nat)

  function Refreshed(c: Coord): Coord {
    c.(request := c.request + 1, state := Loading)
  }

  predicate Current(c: Coord, t: Ticket) {
    c.request == t.request && c.epoch == t.epoch
  }

  function ReadDone(c: Coord, t: Ticket, outcome: Option<Record>): Coord {
    if !Current(c, t) then c
    else match outcome
      case Some(d) => c.(lastConfirmed := Some(d), state := Ready(d))
      case None => c.(state := Failed)
  }

  function Queued(c: Coord): Coord {
    c.(epoch := c.epoch + 1, pending := c.pending + 1)
  }

  function WriteDone(c: Coord, outcome: Option<Record>): Coord {
    match outcome
    case Some(d) => c.(epoch := c.epoch + 1, lastConfirmed := Some(d), state := Ready(d))
    case None => c.(epoch := c.epoch + 1, state := Failed)
  }

  function Finished(c: Coord): Coord {
    if c.pending == 0 then c else c.(pending := c.pending - 1)
  }

  class ModelDefaultsCoordinator {
    var epoch: nat
    var request: nat
    var pending: nat
    var state: LoadState
    var lastConfirmed: Option<Record>

    ghost function Value(): Coord
      reads this
    {
      Coord(epoch, request, pending, state, lastConfirmed)
    }

    constructor ()
      ensures Value() == Idle
    {
      epoch, request, pending, state, lastConfirmed := 0, 0, 0, Loading, None;
    }

    method Refresh() returns (ticket: Ticket)
      modifies this
      ensures Value() == Refreshed(old(Value()))
      ensures Current(Value(), ticket)
    {
      request := request + 1;
      ticket := Ticket(request, epoch);
      state := Loading;
    }

    method OnRead(ticket: Ticket, outcome: Option<Record>)
      modifies this
      ensures Value() == ReadDone(old(Value()), ticket, outcome)
    {
      match outcome {
        case Some(defaults) =>
          if request == ticket.request && epoch == ticket.epoch {
            lastConfirmed := Some(defaults);
            state := Ready(defaults);
          }
        case None =>
          if request == ticket.request && epoch == ticket.epoch {
            state := Failed;
          }
      }
    }

    method Enqueue()
      modifies this
      ensures Value() == Queued(old(Value()))
    {
      epoch := epoch + 1;
      pending := pending + 1;
    }

    method OnWritten(outcome: Option<Record>)
      modifies this
      ensures Value() == WriteDone(old(Value()), outcome)
    {
      epoch := epoch + 1;
      match outcome {
        case Some(defaults) =>
          lastConfirmed := Some(defaults);
          state := Ready(defaults);
        case None =>
          state := Failed;
      }
    }

    method Finally()
      requires pending > 0
      modifies `pending
      ensures Value() == Finished(old(Value()))
    {
      pending := pending - 1;
    }
  }

  // ---------- the protocol ----------

  /** The one write that has left the queue. */
  datatype Put =
    | Sent(edit: Edit, body: Record)
    | Committed(body: Record)
    | Rejected

  /** A read on its way: `answer` is what the server put in the reply. */
  datatype Get = Get(epoch: nat, answer: Option<Record>)

  /**
   * `menus`: the page was last drawn from a ready state, so both menus are on
   * screen (web/App.tsx:1308 and 1322, web/components/composer/Composer.tsx:459
   * and 539). `finishing` counts settled writes whose `finally` has not run yet.
   * `asked` are all edits made, in order, and `verdicts` what the server did with
   * the first of them.
   */
  datatype World = World(
    server: Record,
    coord: Coord,
    menus: bool,
    queue: seq<Edit>,
    put: Option<Put>,
    finishing: nat,
    gets: map<nat, Get>,
    asked: seq<Edit>,
    verdicts: seq<bool>)

  function Start(server: Record): World {
    World(server, Idle, false, [], None, 0, map[], [], [])
  }

  datatype Action =
    | Refresh
    | Answer(request: nat)
    | ReadReply(request: nat)
    | ReadFails(request: nat)
    | Render
    | Enqueue(edit: Edit)
    | StartWrite
    | Commit
    | Reject
    | WriteReply
    | Finally

  /** An edit comes from a menu on screen, which may have been drawn before the state last changed. */
  predicate Enabled(w: World, a: Action) {
    match a
    case Refresh => true
    case Answer(r) => r in w.gets && w.gets[r].answer.None?
    case ReadReply(r) => r in w.gets && w.gets[r].answer.Some?
    case ReadFails(r) => r in w.gets
    case Render => true
    case Enqueue(_) => w.menus
    case StartWrite => w.put.None? && w.queue != []
    case Commit => w.put.Some? && w.put.value.Sent?
    case Reject => w.put.Some? && w.put.value.Sent?
    case WriteReply => w.put.Some? && !w.put.value.Sent?
    case Finally => w.finishing > 0
  }

  /** `repair` is what the server makes of a record before it stores and returns it (`Providers.RepairGlobal`). */
  function Next(repair: Record -> Record, w: World, a: Action): World {
    if !Enabled(w, a) then w
    else match a
      case Refresh =>
        var c := Refreshed(w.coord);
        w.(coord := c, gets := w.gets[c.request := Get(c.epoch, None)])
      case Answer(r) => w.(gets := w.gets[r := w.gets[r].(answer := Some(w.server))])
      case ReadReply(r) =>
        w.(coord := ReadDone(w.coord, Ticket(r, w.gets[r].epoch), w.gets[r].answer), gets := w.gets - {r})
      case ReadFails(r) =>
        w.(coord := ReadDone(w.coord, Ticket(r, w.gets[r].epoch), None), gets := w.gets - {r})
      case Render => w.(menus := w.coord.state.Ready?)
      case Enqueue(edit) => w.(coord := Queued(w.coord), queue := w.queue + [edit], asked := w.asked + [edit])
      case StartWrite =>
        var edit := w.queue[0];
        w.(queue := w.queue[1..], put := Some(Sent(edit, Body(edit, w.coord.lastConfirmed))))
      case Commit =>
        var p := w.put.value;
        w.(server := repair(p.body), put := Some(Committed(repair(p.body))), verdicts := w.verdicts + [true])
      case Reject => w.(put := Some(Rejected), verdicts := w.verdicts + [false])
      case WriteReply =>
        var outcome := if w.put.value.Committed? then Some(w.put.value.body) else None;
        w.(coord := WriteDone(w.coord, outcome), put := None, finishing := w.finishing + 1)
      case Finally => w.(coord := Finished(w.coord), finishing := w.finishing - 1)
  }

  function Run(repair: Record -> Record, server: Record, actions: seq<Action>): World {
    if actions == [] then Start(server)
    else Next(repair, Run(repair, server, actions[..|actions| - 1]), actions[|actions| - 1])
  }

  // ---------- what every step keeps ----------

  predicate ReplyOwed(w: World) {
    w.put.Some? && w.put.value.Committed?
  }

  /** The known record is missing, right, or about to be replaced by a reply under way. */
  predicate Known(w: World) {
    w.coord.lastConfirmed.None? || w.coord.lastConfirmed == Some(w.server) || ReplyOwed(w)
  }

  /** An answer that would still be accepted is right, unless a write's reply is under way. */
  ghost predicate Fenced(w: World) {
    && (forall r | r in w.gets :: r <= w.coord.request && w.gets[r].epoch <= w.coord.epoch)
    && (forall r | r in w.gets && w.gets[r].epoch == w.coord.epoch && w.gets[r].answer.Some? ::
          w.gets[r].answer == Some(w.server) || ReplyOwed(w))
  }

  /** A record is known from the first time the menus show, and every write follows that. */
  predicate Informed(w: World) {
    w.menus || w.queue != [] || w.put.Some? ==> w.coord.lastConfirmed.Some?
  }

  /** The write under way is the edit carried out on the server's record. */
  predicate WellBased(w: World) {
    match w.put
    case Some(Sent(edit, body)) => body == Apply(edit, w.server)
    case Some(Committed(body)) => body == w.server
    case _ => true
  }

  /** The edits not decided yet: the one under way, then the queue. */
  function Undecided(w: World): seq<Edit> {
    (if w.put.Some? && w.put.value.Sent? then [w.put.value.edit] else []) + w.queue
  }

  /** Edits are decided in the order they were made, and none is skipped. */
  predicate InOrder(w: World) {
    |w.verdicts| <= |w.asked| && w.asked[|w.verdicts|..] == Undecided(w)
  }

  /** All edits carried out, one after the other, on the first record. */
  function Merged(repair: Record -> Record, server: Record, history: seq<Edit>): Record {
    if history == [] then server
    else repair(Apply(history[|history| - 1], Merged(repair, server, history[..|history| - 1])))
  }

  /** While loading, the newest read is under way and would be accepted, or a write has yet to settle. */
  predicate NotStuck(w: World) {
    w.coord.state.Loading? && w.coord.request > 0 ==>
      (w.coord.request in w.gets && w.gets[w.coord.request].epoch == w.coord.epoch) || w.queue != [] || w.put.Some?
  }

  predicate ReadyIsConfirmed(w: World) {
    w.coord.state.Ready? ==> w.coord.lastConfirmed == Some(w.coord.state.defaults)
  }

  predicate Counted(w: World) {
    w.coord.pending == |w.queue| + (if w.put.Some? then 1 else 0) + w.finishing
  }

  ghost predicate Inv(repair: Record -> Record, server: Record, w: World) {
    && Known(w) && Fenced(w) && Informed(w) && WellBased(w) && InOrder(w)
    && w.server == Merged(repair, server, Chosen(w.asked, w.verdicts))
    && NotStuck(w) && ReadyIsConfirmed(w) && Counted(w)
  }

  lemma MergedSnoc(repair: Record -> Record, server: Record, history: seq<Edit>, last: Edit)
    ensures Merged(repair, server, history + [last]) == repair(Apply(last, Merged(repair, server, history)))
  {
    assert (history + [last])[..|history|] == history;
  }

  lemma CommitKeeps(repair: Record -> Record, server: Record, w: World)
    requires Inv(repair, server, w) && Enabled(w, Commit)
    ensures Inv(repair, server, Next(repair, w, Commit))
  {
    hide Merged, Chosen;
    ChosenSnoc(w.asked, w.verdicts, true);
    MergedSnoc(repair, server, Chosen(w.asked, w.verdicts), w.put.value.edit);
  }

  lemma RejectKeeps(repair: Record -> Record, server: Record, w: World)
    requires Inv(repair, server, w) && Enabled(w, Reject)
    ensures Inv(repair, server, Next(repair, w, Reject))
  {
    hide Merged, Chosen;
    ChosenSnoc(w.asked, w.verdicts, false);
    var kept := Chosen(w.asked, w.verdicts);
    assert kept + [] == kept;
    assert w.asked[|w.verdicts| + 1..] == w.asked[|w.verdicts|..][1..];
  }

  lemma EnqueueKeeps(repair: Record -> Record, server: Record, w: World, edit: Edit)
    requires Inv(repair, server, w) && Enabled(w, Enqueue(edit))
    ensures Inv(repair, server, Next(repair, w, Enqueue(edit)))
  {
    hide Merged, Chosen;
    ChosenMore(w.asked, [edit], w.verdicts);
    assert (w.asked + [edit])[|w.verdicts|..] == w.asked[|w.verdicts|..] + [edit];
  }

  lemma StartWriteKeeps(repair: Record -> Record, server: Record, w: World)
    requires Inv(repair, server, w) && Enabled(w, StartWrite)
    ensures Inv(repair, server, Next(repair, w, StartWrite))
  {
    hide Merged, Chosen;
    BodyKeepsIff(w.queue[0], w.server, w.coord.lastConfirmed);
    assert w.queue == [w.queue[0]] + w.queue[1..] && [] + w.queue == w.queue;
  }

  lemma NextKeeps(repair: Record -> Record, server: Record, w: World, a: Action)
    requires Inv(repair, server, w)
    ensures Inv(repair, server, Next(repair, w, a))
  {
    hide Merged, Chosen, Body;
    match a {
      case Commit => if Enabled(w, a) { CommitKeeps(repair, server, w); }
      case Reject => if Enabled(w, a) { RejectKeeps(repair, server, w); }
      case Enqueue(edit) => if Enabled(w, a) { EnqueueKeeps(repair, server, w, edit); }
      case WriteReply =>
      case StartWrite => if Enabled(w, a) { StartWriteKeeps(repair, server, w); }
      case _ =>
    }
  }

  /** Every interleaving of refreshes, answers, failures, queued writes and their replies keeps the invariant. */
  lemma {:induction false} CoordinatorInvariant(repair: Record -> Record, server: Record, actions: seq<Action>)
    ensures Inv(repair, server, Run(repair, server, actions))
  {
    if actions != [] {
      CoordinatorInvariant(repair, server, actions[..|actions| - 1]);
      NextKeeps(repair, server, Run(repair, server, actions[..|actions| - 1]), actions[|actions| - 1]);
    }
  }

  // ---------- fenced reads ----------

  /**
   * This read, sent under an earlier epoch, can no longer be accepted: its number is spent and its epoch has
   * passed.
   */
  predicate Outdated(w: World, r: nat) {
    r <= w.coord.request && (r in w.gets ==> w.gets[r].epoch < w.coord.epoch)
  }

  lemma OutdatedStep(repair: Record -> Record, w: World, a: Action, r: nat)
    requires Outdated(w, r)
    ensures Outdated(Next(repair, w, a), r)
  {
  }

  lemma {:induction false} StaysOutdated(repair: Record -> Record, w: World, later: seq<Action>, r: nat)
    returns (w': World)
    requires Outdated(w, r)
    ensures w' == From(repair, w, later) && Outdated(w', r)
  {
    hide Next, Outdated;
    if later == [] {
      w' := w;
    } else {
      w' := StaysOutdated(repair, w, later[..|later| - 1], r);
      OutdatedStep(repair, w', later[|later| - 1], r);
      w' := Next(repair, w', later[|later| - 1]);
    }
  }

  /** Any continuation of a state. */
  function From(repair: Record -> Record, w: World, later: seq<Action>): World {
    if later == [] then w else Next(repair, From(repair, w, later[..|later| - 1]), later[|later| - 1])
  }

  /**
   * A read under way when a write is queued or settles never reaches the state
   * again: in any continuation its reply, or its failure, leaves the coordinator as it is.
   */
  lemma ReadsAreFenced(repair: Record -> Record, server: Record, before: seq<Action>, a: Action, later: seq<Action>,
                       r: nat)
    requires a.Enqueue? || a.WriteReply?
    requires var w := Run(repair, server, before); r in w.gets && Enabled(w, a)
    ensures var w := From(repair, Next(repair, Run(repair, server, before), a), later);
      && Next(repair, w, ReadReply(r)).coord == w.coord
      && Next(repair, w, ReadFails(r)).coord == w.coord
  {
    CoordinatorInvariant(repair, server, before);
    var _ := StaysOutdated(repair, Next(repair, Run(repair, server, before), a), later, r);
  }

  // ---------- which replies are accepted ----------

  lemma RunSnoc(repair: Record -> Record, server: Record, actions: seq<Action>, a: Action)
    ensures Run(repair, server, actions + [a]) == Next(repair, Run(repair, server, actions), a)
  {
    assert (actions + [a])[..|actions|] == actions;
  }

  /** A write is queued, or settles, at this point of the run. */
  predicate FencesAt(repair: Record -> Record, server: Record, actions: seq<Action>, j: nat)
    requires j < |actions|
  {
    (actions[j].Enqueue? || actions[j].WriteReply?) && Enabled(Run(repair, server, actions[..j]), actions[j])
  }

  /** Read `r` is the `r`-th one of the run, sent at `k`. */
  predicate SentAt(actions: seq<Action>, r: nat, k: nat) {
    k < |actions| && actions[k].Refresh? && r == Reads(actions[..k]) + 1
  }

  function Reads(actions: seq<Action>): nat {
    if actions == [] then 0 else Reads(actions[..|actions| - 1]) + if actions[|actions| - 1].Refresh? then 1 else 0
  }

  /** Nothing has outdated the read sent at `k`: no newer read, and no write queued or settled since. */
  ghost predicate Undisturbed(repair: Record -> Record, server: Record, actions: seq<Action>, k: nat) {
    forall j | k < j < |actions| :: !actions[j].Refresh? && !FencesAt(repair, server, actions, j)
  }

  /** What the coordinator's numbers say of the read sent at `k`. */
  ghost predicate Numbered(repair: Record -> Record, server: Record, actions: seq<Action>, r: nat, k: nat, epoch: nat) {
    var c := Run(repair, server, actions).coord;
    && SentAt(actions, r, k) && r <= c.request && epoch <= c.epoch
    && (r == c.request && epoch == c.epoch <==> Undisturbed(repair, server, actions, k))
  }

  lemma FencesBefore(repair: Record -> Record, server: Record, actions: seq<Action>, a: Action, j: nat)
    requires j < |actions|
    ensures FencesAt(repair, server, actions + [a], j) == FencesAt(repair, server, actions, j)
  {
    assert (actions + [a])[..j] == actions[..j];
  }

  lemma UndisturbedSnoc(repair: Record -> Record, server: Record, actions: seq<Action>, a: Action, k: nat)
    requires k < |actions|
    ensures Undisturbed(repair, server, actions + [a], k) <==>
      && Undisturbed(repair, server, actions, k) && !a.Refresh?
      && !((a.Enqueue? || a.WriteReply?) && Enabled(Run(repair, server, actions), a))
  {
    hide Run, Enabled;
    var all := actions + [a];
    assert all[..|actions|] == actions && all[|actions|] == a;
    forall j: nat | j < |actions| ensures FencesAt(repair, server, all, j) == FencesAt(repair, server, actions, j) {
      FencesBefore(repair, server, actions, a, j);
    }
    assert forall j | 0 <= j < |actions| :: all[j] == actions[j];
    if Undisturbed(repair, server, all, k) {
      assert !FencesAt(repair, server, all, |actions|) && !all[|actions|].Refresh?;
      forall j | k < j < |actions| ensures !actions[j].Refresh? && !FencesAt(repair, server, actions, j) {
        assert !all[j].Refresh? && !FencesAt(repair, server, all, j);
      }
    }
  }

  /** The request number counts the reads, and every read under way knows where it was sent. */
  lemma {:induction false} ReadsNumbered(repair: Record -> Record, server: Record, actions: seq<Action>)
    ensures Run(repair, server, actions).coord.request == Reads(actions)
    ensures forall r | r in Run(repair, server, actions).gets ::
      exists k: nat :: Numbered(repair, server, actions, r, k, Run(repair, server, actions).gets[r].epoch)
  {
    hide Numbered;
    if actions != [] {
      var front, a := actions[..|actions| - 1], actions[|actions| - 1];
      assert actions == front + [a];
      ReadsNumbered(repair, server, front);
      RunSnoc(repair, server, front, a);
      var w, w' := Run(repair, server, front), Run(repair, server, actions);
      hide Run;
      forall r | r in w'.gets ensures exists k: nat :: Numbered(repair, server, actions, r, k, w'.gets[r].epoch) {
        if a.Refresh? && r == w.coord.request + 1 {
          NewestNumbered(repair, server, front);
        } else {
          var k: nat :| Numbered(repair, server, front, r, k, w.gets[r].epoch);
          StaysNumbered(repair, server, front, a, r, k, w.gets[r].epoch);
        }
      }
    }
  }

  lemma NewestNumbered(repair: Record -> Record, server: Record, front: seq<Action>)
    requires Run(repair, server, front).coord.request == Reads(front)
    ensures var c := Run(repair, server, front).coord;
      Numbered(repair, server, front + [Refresh], c.request + 1, |front|, c.epoch)
  {
    RunSnoc(repair, server, front, Refresh);
    assert (front + [Refresh])[..|front|] == front;
  }

  lemma StaysNumbered(repair: Record -> Record, server: Record, front: seq<Action>, a: Action, r: nat, k: nat,
                      epoch: nat)
    requires Numbered(repair, server, front, r, k, epoch)
    ensures Numbered(repair, server, front + [a], r, k, epoch)
  {
    hide Undisturbed;
    RunSnoc(repair, server, front, a);
    UndisturbedSnoc(repair, server, front, a, k);
    assert (front + [a])[..k] == front[..k];
  }

  /**
   * A reply or failure counts exactly when its read is the newest and no write was queued
   * or settled since it was sent: the answer is then ready and confirmed, a failure shows
   * and keeps what was confirmed. Any other reply or failure changes neither.
   */
  lemma RepliesAccepted(repair: Record -> Record, server: Record, actions: seq<Action>, r: nat) returns (k: nat)
    requires r in Run(repair, server, actions).gets
    ensures SentAt(actions, r, k)
    ensures var w := Run(repair, server, actions);
      var replied, failed := Next(repair, w, ReadReply(r)).coord, Next(repair, w, ReadFails(r)).coord;
      if Undisturbed(repair, server, actions, k) then
        && (w.gets[r].answer.Some? ==>
              replied.state == Ready(w.gets[r].answer.value) && replied.lastConfirmed == w.gets[r].answer)
        && failed.state == Failed && failed.lastConfirmed == w.coord.lastConfirmed
      else
        && replied.state == w.coord.state && replied.lastConfirmed == w.coord.lastConfirmed
        && failed.state == w.coord.state && failed.lastConfirmed == w.coord.lastConfirmed
  {
    hide Run, Undisturbed;
    ReadsNumbered(repair, server, actions);
    k :| Numbered(repair, server, actions, r, k, Run(repair, server, actions).gets[r].epoch);
  }

  /** How the write under way ended, if it did, is the last thing the server decided. */
  predicate Decided(w: World) {
    w.put.Some? && !w.put.value.Sent? ==>
      |w.verdicts| > 0 && (w.verdicts[|w.verdicts| - 1] <==> w.put.value.Committed?)
  }

  lemma {:induction false} RunDecided(repair: Record -> Record, server: Record, actions: seq<Action>)
    ensures Decided(Run(repair, server, actions))
  {
    if actions != [] { RunDecided(repair, server, actions[..|actions| - 1]); }
  }

  /** A settled write publishes the server's record, or an error that keeps what was confirmed. */
  lemma WritesPublish(repair: Record -> Record, server: Record, actions: seq<Action>)
    requires Enabled(Run(repair, server, actions), WriteReply)
    ensures var w := Run(repair, server, actions);
      var c := Next(repair, w, WriteReply).coord;
      && |w.verdicts| > 0
      && if w.verdicts[|w.verdicts| - 1]
         then c.state == Ready(w.server) && c.lastConfirmed == Some(w.server)
         else c.state == Failed && c.lastConfirmed == w.coord.lastConfirmed
  {
    CoordinatorInvariant(repair, server, actions);
    RunDecided(repair, server, actions);
  }

  /** With nothing under way, one refresh brings the menus up with the server's record. */
  lemma RefreshShows(repair: Record -> Record, w: World)
    requires w.gets == map[] && w.queue == [] && w.put.None?
    ensures var c := Next(repair, w, Refresh).coord;
      c.state == Loading && c.lastConfirmed == w.coord.lastConfirmed && c.pending == w.coord.pending
    ensures var n := w.coord.request + 1;
      var w' := Next(repair, Next(repair, Next(repair, Next(repair, w, Refresh), Answer(n)), ReadReply(n)), Render);
      w'.menus && w'.coord.state == Ready(w.server) && w'.coord.lastConfirmed == Some(w.server) && w'.gets == map[]
  {
    var n := w.coord.request + 1;
    var w1 := Next(repair, w, Refresh);
    assert w1.gets == map[n := Get(w.coord.epoch, None)];
    var w2 := Next(repair, w1, Answer(n));
    assert w2.gets == map[n := Get(w.coord.epoch, Some(w.server))];
  }

  /** With the menus up and nothing under way, an edit that the server accepts is stored, shown and done. */
  lemma EditGoesThrough(repair: Record -> Record, w: World, edit: Edit)
    requires w.menus && w.queue == [] && w.put.None? && w.finishing == w.coord.pending == 0
    requires w.coord.lastConfirmed == Some(w.server)
    ensures var queued := Next(repair, w, Enqueue(edit));
      var settled := Next(repair, Next(repair, Next(repair, queued, StartWrite), Commit), WriteReply);
      var done := Next(repair, settled, Finally);
      && queued.coord.pending == 1
      && done.server == repair(Apply(edit, w.server)) && done.coord.state == Ready(done.server)
      && done.coord.lastConfirmed == Some(done.server) && done.coord.pending == 0 && done.queue == [] && done.put.None?
  {
    BodyKeepsIff(edit, w.server, w.coord.lastConfirmed);
    assert ([] + [edit])[1..] == [];
  }

  // ---------- what follows for a reader of the menus ----------

  /** Every write that leaves the queue sends the server's current record with its own edit. */
  lemma WritesStartFromServer(repair: Record -> Record, server: Record, actions: seq<Action>)
    requires Enabled(Run(repair, server, actions), StartWrite)
    ensures var w := Run(repair, server, actions);
      Next(repair, w, StartWrite).put == Some(Sent(w.queue[0], Apply(w.queue[0], w.server)))
  {
    CoordinatorInvariant(repair, server, actions);
    var w := Run(repair, server, actions);
    BodyKeepsIff(w.queue[0], w.server, w.coord.lastConfirmed);
  }

  /**
   * Partial edits are never lost: in every run the server holds all edits it
   * accepted, merged in the order they were made, and has decided all of them
   * but the one under way and the queue.
   */
  lemma EditsNeverLost(repair: Record -> Record, server: Record, actions: seq<Action>)
    ensures var w := Run(repair, server, actions);
      InOrder(w) && w.server == Merged(repair, server, Chosen(w.asked, w.verdicts))
  {
    CoordinatorInvariant(repair, server, actions);
  }

  /** The last edit of its sort, if there is one. */
  ghost predicate IsLast(history: seq<Edit>, sort: Edit -> bool, at: Option<nat>) {
    match at
    case None => forall j | 0 <= j < |history| :: !sort(history[j])
    case Some(i) => i < |history| && sort(history[i]) && forall j | i < j < |history| :: !sort(history[j])
  }

  lemma {:induction false} LastBefore(history: seq<Edit>, sort: Edit -> bool, at: Option<nat>)
    returns (before: Option<nat>)
    requires history != [] && IsLast(history, sort, at)
    ensures IsLast(history[..|history| - 1], sort, before)
    ensures !sort(history[|history| - 1]) ==> before == at
  {
    if !sort(history[|history| - 1]) {
      before := at;
    } else {
      before := LastOf(history[..|history| - 1], sort);
    }
  }

  lemma {:induction false} LastOf(history: seq<Edit>, sort: Edit -> bool) returns (at: Option<nat>)
    ensures IsLast(history, sort, at)
  {
    if history == [] {
      at := None;
    } else if sort(history[|history| - 1]) {
      at := Some(|history| - 1);
    } else {
      at := LastOf(history[..|history| - 1], sort);
    }
  }

  /**
   * What the accepted edits come to where the server stores records as they are: the last model choice gives
   * the pair, the last thinking choice the level, and what was never chosen is the first record's.
   */
  lemma {:induction false} LastEditCounts(server: Record, history: seq<Edit>, m: Option<nat>, t: Option<nat>)
    requires IsLast(history, (e: Edit) => e.ChooseModel?, m) && IsLast(history, (e: Edit) => e.ChooseThinking?, t)
    ensures var r := Merged(x => x, server, history);
      && (match m
          case Some(i) => r.provider == Some(history[i].provider) && r.model == Some(history[i].model)
          case None => r.provider == server.provider && r.model == server.model)
      && (match t
          case Some(i) => r.thinkingLevel == history[i].level
          case None => r.thinkingLevel == server.thinkingLevel)
    decreases |history|
  {
    if history != [] {
      var n := |history| - 1;
      var front := history[..n];
      var m' := LastBefore(history, (e: Edit) => e.ChooseModel?, m);
      var t' := LastBefore(history, (e: Edit) => e.ChooseThinking?, t);
      LastEditCounts(server, front, m', t');
    }
  }

  /** Once every request has settled, the menus are not loading, and a record they show is the server's. */
  lemma SettledShowsServer(repair: Record -> Record, server: Record, actions: seq<Action>)
    requires var w := Run(repair, server, actions);
      w.coord.request > 0 && w.gets == map[] && w.queue == [] && w.put.None?
    ensures var w := Run(repair, server, actions);
      !w.coord.state.Loading? && (w.coord.state.Ready? ==> w.coord.state.defaults == w.server)
  {
    CoordinatorInvariant(repair, server, actions);
  }
}
