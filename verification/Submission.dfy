/**
 * Sending a message at most once (web/lib/interaction.ts:14-40,
 * web/lib/composer-store.ts:39-52, web/App.tsx:937-1063,
 * web/components/composer/Composer.tsx:374-380) against a server that dedups by
 * request id (src/web/server.ts:5641-5683). Requests may be lost, delivered late
 * or delivered again, replies may be lost, the draft may be edited while a
 * submit is under way, and a failed turn may be retried.
 */
module Submission {
  import opened Basics
  import opened Events

  /** Whether the draft holds a command the page runs by itself. */
  datatype Builtin = NoBuiltin | OnlyBuiltin | MixedBuiltin

  datatype Message = Message(content: string, attachments: seq<string>)
  datatype Draft = Draft(message: Message, builtin: Builtin)

  const EmptyDraft := Draft(Message("", []), NoBuiltin)

  predicate IsBlank(d: Draft) {
    d.message.attachments == [] && forall i | 0 <= i < |d.message.content| :: IsSpace(d.message.content[i])
  }

  // ---------- one composer ----------

  /** Ids are never drawn twice: for a draft, for an input of a failed turn, or by another page. */
  datatype Id = Ours(number: nat) | Retried(number: nat) | Theirs(number: nat)

  datatype PendingRequest = PendingRequest(id: Id, revision: nat)

  datatype Composer = Composer(draft: Draft, revision: nat, sending: bool, failed: bool,
                               pendingRequest: Option<PendingRequest>)

  const EmptyComposer := Composer(EmptyDraft, 0, false, false, None)

  function Edited(c: Composer, draft: Draft): Composer {
    c.(draft := draft, revision := c.revision + 1)
  }

  /** Accepted: the id is spent, and the draft goes if it is still the one that was sent. */
  function AcceptedDraft(c: Composer, revision: nat): Composer {
    c.(draft := if c.revision == revision then EmptyDraft else c.draft, sending := false, pendingRequest := None)
  }

  function RequestIdFor(c: Composer, drawn: Id): Id {
    if c.pendingRequest.Some? && c.pendingRequest.value.revision == c.revision then c.pendingRequest.value.id else drawn
  }

  function Sending(c: Composer, id: Id): Composer {
    c.(sending := true, failed := false, pendingRequest := Some(PendingRequest(id, c.revision)))
  }

  function FailedSend(c: Composer): Composer {
    c.(sending := false, failed := true)
  }

  /** Every scope's composer; an absent one is the empty composer. */
  class ComposerStore {
    var state: map<string, Composer>

    constructor (drafts: map<string, Draft>)
      ensures state == map scope | scope in drafts :: EmptyComposer.(draft := drafts[scope])
    {
      state := map scope | scope in drafts :: EmptyComposer.(draft := drafts[scope]);
    }

    function Get(scope: string): Composer
      reads this
    {
      if scope in state then state[scope] else EmptyComposer
    }

    method Update(scope: string, update: Composer -> Composer)
      modifies this
      ensures state == old(state)[scope := update(old(Get(scope)))]
    {
      state := state[scope := update(if scope in state then state[scope] else EmptyComposer)];
    }

    method SetDraft(scope: string, draft: Draft)
      modifies this
      ensures state == old(state)[scope := Edited(old(Get(scope)), draft)]
    {
      Update(scope, (c: Composer) => c.(draft := draft, revision := c.revision + 1));
    }

    /** The first message of a new conversation takes the composer with it. */
    method Migrate(source: string, target: string, captured: Composer)
      requires source != target
      modifies this
      ensures var from := if source in old(state) then old(state)[source] else captured;
        state == old(state)[target := from.(sending := true)] - {source}
    {
      var from := if source in state then state[source] else captured;
      state := state[target := from.(sending := true)] - {source};
    }
  }

  // ---------- the protocol ----------

  /** One HTTP request; `attempt` tells apart two requests of the same id. */
  datatype Request = Request(attempt: nat, id: Id, message: Message)

  datatype Reply = Accepted(duplicate: bool) | Refused

  /**
   * Whether the scope's key is in `sendingRef`. A submit that created its session keeps the key of the
   * scope it left: it holds the guard until the page renders the new scope.
   */
  datatype Hold = Held | Moving | Free

  /** A submit under way: what `send` captured. */
  datatype Flight = Flight(id: Id, revision: nat, message: Message, steer: bool, posted: bool, hold: Hold)

  datatype Queued = Queued(id: Option<Id>, message: Message)

  /** The draft each revision set, the revision each id was drawn for, and the input each retry id was drawn for. */
  datatype History = History(written: seq<Draft>, issued: map<Id, nat>, retried: map<nat, Message>)

  /**
   * `shown` is the sending flag as last rendered, `session` whether the conversation exists already;
   * `builtin` is a page command under way with the revision it started from, `retrying` a retry of a
   * failed turn; `sent` are the requests on the network, `replies` what the server answered to which
   * attempt.
   */
  datatype World = World(
    composer: Composer,
    shown: bool,
    session: bool,
    flights: map<nat, Flight>,
    builtin: Option<nat>,
    retrying: bool,
    drawn: nat,
    attempts: nat,
    sent: set<Request>,
    replies: set<(nat, Reply)>,
    log: seq<Queued>,
    past: History)

  function Start(draft: Draft, session: bool): World {
    World(EmptyComposer.(draft := draft), false, session, map[], None, false, 0, 0, {}, {}, [],
          History([draft], map[], map[]))
  }

  datatype Verdict = Refuse | Accept | AppendThenFail

  datatype Action =
    | Edit(draft: Draft)
    | Render
    | Send(steer: bool)
    | Created(attempt: nat)
    | Process(request: Request, verdict: Verdict)
    | Foreign(number: Option<nat>, message: Message)
    | Answered(attempt: nat, reply: Reply, steerFails: bool)
    | Fails(attempt: nat)
    | RunBuiltin
    | BuiltinDone
    | RetryStarts
    | RetryPosts(input: nat, message: Message)
    | RetryEnds(failed: bool)

  predicate Holding(f: Flight) {
    !f.hold.Free?
  }

  /** The scope's key is not in `sendingRef`. */
  predicate Unguarded(w: World) {
    w.builtin.None? && !w.retrying && forall t | t in w.flights :: !Holding(w.flights[t])
  }

  predicate Sendable(d: Draft) {
    d.builtin.NoBuiltin? && !IsBlank(d)
  }

  predicate Logs(log: seq<Queued>, id: Id) {
    exists i | 0 <= i < |log| :: log[i].id == Some(id)
  }

  /** The composer's buttons need the rendered flag down; Retry looks at `sendingRef` alone. */
  predicate Enabled(w: World, a: Action) {
    match a
    case Send(_) => !w.shown && Unguarded(w) && Sendable(w.composer.draft)
    case Created(t) => t in w.flights && !w.flights[t].posted
    case Process(r, _) => r in w.sent
    case Answered(t, reply, _) => t in w.flights && (t, reply) in w.replies
    case Fails(t) => t in w.flights
    case RunBuiltin => !w.shown && Unguarded(w) && w.composer.draft.builtin.OnlyBuiltin?
    case BuiltinDone => w.builtin.Some?
    case RetryStarts => w.session && Unguarded(w)
    case RetryPosts(n, m) => w.retrying && (n in w.past.retried ==> w.past.retried[n] == m)
    case RetryEnds(_) => w.retrying
    case _ => true
  }

  /** The server's check and append are one step: an id in the log is answered, not queued again. */
  function Served(w: World, r: Request, verdict: Verdict): World {
    if verdict.Refuse? then w.(replies := w.replies + {(r.attempt, Refused)})
    else if Logs(w.log, r.id) then w.(replies := w.replies + {(r.attempt, Accepted(true))})
    else
      var appended := w.(log := w.log + [Queued(Some(r.id), r.message)]);
      appended.(replies := w.replies + {(r.attempt, if verdict.Accept? then Accepted(false) else Refused)})
  }

  /** In an open conversation the request goes out at once; a new one is created first. */
  function Submitted(w: World, steer: bool): World {
    var c, t := w.composer, w.attempts;
    var id := RequestIdFor(c, Ours(w.drawn));
    w.(composer := Sending(c, id), drawn := w.drawn + 1, attempts := t + 1,
       flights := w.flights[t := Flight(id, c.revision, c.draft.message, steer, w.session, Held)],
       sent := if w.session then w.sent + {Request(t, id, c.draft.message)} else w.sent,
       past := w.past.(issued := w.past.issued[id := c.revision]))
  }

  /** The created session takes the composer, and the request goes out. */
  function Moved(w: World, t: nat): World
    requires t in w.flights
  {
    var f := w.flights[t];
    w.(flights := w.flights[t := f.(posted := true, hold := Moving)], session := true,
       sent := w.sent + {Request(t, f.id, f.message)}, composer := w.composer.(sending := true))
  }

  /** The answer counts as acceptance: a steer that was a duplicate must also stop the running turn. */
  predicate Lands(f: Flight, reply: Reply, steerFails: bool) {
    reply.Accepted? && !(reply.duplicate && f.steer && steerFails)
  }

  function Next(w: World, a: Action): World {
    if !Enabled(w, a) then w
    else match a
      case Edit(draft) => w.(composer := Edited(w.composer, draft),
                             past := w.past.(written := w.past.written + [draft]))
      case Render =>
        w.(shown := w.composer.sending,
           flights := map t | t in w.flights ::
             if w.flights[t].hold.Moving? then w.flights[t].(hold := Free) else w.flights[t])
      case Send(steer) => Submitted(w, steer)
      case Created(t) => Moved(w, t)
      case Process(r, verdict) => Served(w, r, verdict)
      case Foreign(number, message) =>
        w.(log := w.log + [Queued(if number.Some? then Some(Theirs(number.value)) else None, message)])
      case Answered(t, reply, steerFails) =>
        var f := w.flights[t];
        w.(flights := w.flights - {t},
           composer := if Lands(f, reply, steerFails)
             then AcceptedDraft(w.composer, f.revision) else FailedSend(w.composer))
      case Fails(t) => w.(flights := w.flights - {t}, composer := FailedSend(w.composer))
      case RunBuiltin => w.(builtin := Some(w.composer.revision))
      case BuiltinDone => w.(builtin := None, composer := AcceptedDraft(w.composer, w.builtin.value))
      case RetryStarts => w.(retrying := true, composer := w.composer.(sending := true, failed := false))
      case RetryPosts(n, m) =>
        w.(past := w.past.(retried := w.past.retried[n := m]), attempts := w.attempts + 1,
           sent := w.sent + {Request(w.attempts, Retried(n), m)})
      case RetryEnds(failed) =>
        w.(retrying := false, composer := w.composer.(sending := false, failed := failed || w.composer.failed))
  }

  function RunFrom(w: World, actions: seq<Action>): World
    decreases |actions|
  {
    if actions == [] then w else RunFrom(Next(w, actions[0]), actions[1..])
  }

  /**
   * A landing answer spends the pending id. It finds its own id pending, or none, or one whose revision
   * is gone: not the id of another submit of the draft on screen.
   */
  predicate SpendsOwn(w: World, a: Action) {
    a.Answered? && Enabled(w, a) && Lands(w.flights[a.attempt], a.reply, a.steerFails) ==>
      || w.composer.pendingRequest.None?
      || w.composer.pendingRequest.value.id == w.flights[a.attempt].id
      || w.composer.pendingRequest.value.revision != w.composer.revision
  }

  /** Every landing answer of the run spends its own id. */
  ghost predicate ApartFrom(w: World, actions: seq<Action>)
    decreases |actions|
  {
    actions == [] || (SpendsOwn(w, actions[0]) && ApartFrom(Next(w, actions[0]), actions[1..]))
  }

  /** No retry starts while a submit is still unanswered. */
  ghost predicate CalmFrom(w: World, actions: seq<Action>)
    decreases |actions|
  {
    actions == []
    || ((actions[0].RetryStarts? ==> w.flights == map[]) && CalmFrom(Next(w, actions[0]), actions[1..]))
  }

  // ---------- what every step keeps ----------

  /** The draft is the one this revision set, or it was cleared. */
  ghost predicate DraftKept(draft: Draft, revision: nat, past: History) {
    |past.written| == revision + 1 && (draft == past.written[revision] || draft == EmptyDraft)
  }

  /** Every id was drawn here, once, for one revision. */
  ghost predicate IdsKept(drawn: nat, past: History) {
    && (forall id | id in past.issued :: id.Ours? && id.number < drawn && past.issued[id] < |past.written|)
    && (forall i, j | i in past.issued && j in past.issued && past.issued[i] == past.issued[j] :: i == j)
  }

  /** A revision's id is remembered until its draft is gone. */
  ghost predicate PendingKept(draft: Draft, revision: nat, pending: Option<PendingRequest>, past: History) {
    && (forall id | id in past.issued && past.issued[id] == revision ::
          pending == Some(PendingRequest(id, revision)) || draft == EmptyDraft)
    && (pending.Some? ==>
          && pending.value.id in past.issued && past.issued[pending.value.id] == pending.value.revision
          && (pending.value.revision == revision ==> Sendable(draft)))
  }

  /** One submit, page command or retry holds the guard. */
  ghost predicate GuardKept(flights: map<nat, Flight>, busy: bool) {
    && (busy ==> forall t | t in flights :: !Holding(flights[t]))
    && (forall s, t | s in flights && t in flights && Holding(flights[s]) && Holding(flights[t]) :: s == t)
  }

  /** A page command runs from its own draft, and nothing was submitted since. */
  ghost predicate BuiltinKept(builtin: Option<nat>, retrying: bool, past: History) {
    builtin.Some? ==>
      && !retrying && builtin.value < |past.written| && past.written[builtin.value].builtin.OnlyBuiltin?
      && forall id | id in past.issued :: past.issued[id] <= builtin.value
  }

  ghost predicate Carries(past: History, id: Id, message: Message) {
    match id
    case Ours(_) =>
      id in past.issued && past.issued[id] < |past.written| && past.written[past.issued[id]].message == message
    case Retried(n) => n in past.retried && past.retried[n] == message
    case Theirs(_) => false
  }

  ghost predicate FlightKept(flights: map<nat, Flight>, attempts: nat, past: History) {
    forall t | t in flights ::
      && t < attempts && flights[t].id.Ours? && Carries(past, flights[t].id, flights[t].message)
      && flights[t].id in past.issued && past.issued[flights[t].id] == flights[t].revision
  }

  ghost predicate PostedAs(sent: set<Request>, id: Id) {
    exists r :: r in sent && r.id == id
  }

  /** Before the conversation exists nothing is on the network; after that every submit is. */
  ghost predicate ScopeKept(session: bool, retrying: bool, flights: map<nat, Flight>, sent: set<Request>,
                            pending: Option<PendingRequest>) {
    if session then
      && (forall t | t in flights :: flights[t].posted)
      && (pending.Some? ==> PostedAs(sent, pending.value.id))
    else
      && sent == {} && !retrying
      && forall t | t in flights ::
           flights[t].hold.Held? && !flights[t].posted
             && pending == Some(PendingRequest(flights[t].id, flights[t].revision))
  }

  ghost predicate SentKept(sent: set<Request>, attempts: nat, flights: map<nat, Flight>, past: History) {
    && (forall r | r in sent :: r.attempt < attempts && Carries(past, r.id, r.message))
    && (forall r, s | r in sent && s in sent && r.attempt == s.attempt :: r == s)
    && (forall r | r in sent && r.attempt in flights :: r.id == flights[r.attempt].id && flights[r.attempt].posted)
  }

  ghost predicate RepliesKept(replies: set<(nat, Reply)>, sent: set<Request>, log: seq<Queued>) {
    forall p | p in replies :: (exists r | r in sent :: r.attempt == p.0 && (p.1.Accepted? ==> Logs(log, r.id)))
  }

  predicate FromHere(q: Queued) {
    q.id.Some? && !q.id.value.Theirs?
  }

  ghost predicate LogKept(log: seq<Queued>, past: History) {
    && (forall i | 0 <= i < |log| && FromHere(log[i]) :: Carries(past, log[i].id.value, log[i].message))
    && (forall i, j | 0 <= i < j < |log| && FromHere(log[i]) :: log[i].id != log[j].id)
  }

  /** A draft that is gone was a page command, or its message is in the log. */
  ghost predicate ClearedKept(draft: Draft, revision: nat, past: History, log: seq<Queued>) {
    revision < |past.written| && draft != past.written[revision] ==>
      past.written[revision].builtin.OnlyBuiltin? || Landed(past, log, revision)
  }

  /** The revision's message is queued in the session's log. */
  ghost predicate Landed(past: History, log: seq<Queued>, revision: nat) {
    exists id | id in past.issued && past.issued[id] == revision :: Logs(log, id)
  }

  /** A page command's draft is never submitted. */
  ghost predicate BuiltinsUnsent(past: History) {
    forall id | id in past.issued && past.issued[id] < |past.written| ::
      past.written[past.issued[id]].builtin.NoBuiltin?
  }

  ghost predicate Inv(w: World) {
    var c := w.composer;
    && DraftKept(c.draft, c.revision, w.past)
    && IdsKept(w.drawn, w.past)
    && PendingKept(c.draft, c.revision, c.pendingRequest, w.past)
    && GuardKept(w.flights, w.builtin.Some? || w.retrying)
    && BuiltinKept(w.builtin, w.retrying, w.past)
    && FlightKept(w.flights, w.attempts, w.past)
    && ScopeKept(w.session, w.retrying, w.flights, w.sent, c.pendingRequest)
    && SentKept(w.sent, w.attempts, w.flights, w.past)
    && RepliesKept(w.replies, w.sent, w.log)
    && LogKept(w.log, w.past)
    && ClearedKept(c.draft, c.revision, w.past, w.log)
    && BuiltinsUnsent(w.past)
  }

  // ---------- every step keeps it ----------

  /** What a longer history still carries. */
  ghost predicate Extends(past: History, past': History) {
    && past.written <= past'.written
    && (forall id | id in past.issued :: id in past'.issued && past'.issued[id] == past.issued[id])
    && (forall n | n in past.retried :: n in past'.retried && past'.retried[n] == past.retried[n])
  }

  lemma EditPast(past: History, draft: Draft, drawn: nat, builtin: Option<nat>, retrying: bool, c: Composer,
                 log: seq<Queued>)
    requires DraftKept(c.draft, c.revision, past) && IdsKept(drawn, past)
    requires PendingKept(c.draft, c.revision, c.pendingRequest, past)
    requires BuiltinKept(builtin, retrying, past) && BuiltinsUnsent(past)
    ensures var past' := past.(written := past.written + [draft]);
      && DraftKept(draft, c.revision + 1, past') && IdsKept(drawn, past')
      && PendingKept(draft, c.revision + 1, c.pendingRequest, past')
      && BuiltinKept(builtin, retrying, past') && BuiltinsUnsent(past') && Extends(past, past')
      && ClearedKept(draft, c.revision + 1, past', log)
  {
    hide Sendable, Landed;
    assert forall r | 0 <= r < |past.written| :: (past.written + [draft])[r] == past.written[r];
  }

  lemma CarriesOn(past: History, past': History, flights: map<nat, Flight>, attempts: nat, sent: set<Request>,
                  log: seq<Queued>)
    requires Extends(past, past')
    requires FlightKept(flights, attempts, past) && SentKept(sent, attempts, flights, past) && LogKept(log, past)
    ensures FlightKept(flights, attempts, past') && SentKept(sent, attempts, flights, past') && LogKept(log, past')
  {
    forall id, m | Carries(past, id, m) ensures Carries(past', id, m) {
    }
    hide Carries;
  }

  lemma EditKeeps(w: World, draft: Draft)
    requires Inv(w)
    ensures Inv(Next(w, Edit(draft)))
  {
    hide DraftKept, IdsKept, PendingKept, GuardKept, BuiltinKept, FlightKept;
    hide ScopeKept, SentKept, RepliesKept, LogKept, ClearedKept, BuiltinsUnsent;
    EditPast(w.past, draft, w.drawn, w.builtin, w.retrying, w.composer, w.log);
    CarriesOn(w.past, w.past.(written := w.past.written + [draft]), w.flights, w.attempts, w.sent, w.log);
  }

  // ---------- submits ----------

  lemma RenderKeeps(w: World)
    requires Inv(w)
    ensures Inv(Next(w, Render))
  {
    hide DraftKept, IdsKept, PendingKept, BuiltinKept, RepliesKept, LogKept, ClearedKept, BuiltinsUnsent, Carries;
    hide PostedAs;
  }

  /** The id of a submit: the pending one of this revision, or a new one. */
  lemma SendPast(past: History, drawn: nat, c: Composer, log: seq<Queued>)
    requires DraftKept(c.draft, c.revision, past) && IdsKept(drawn, past)
    requires PendingKept(c.draft, c.revision, c.pendingRequest, past)
    requires BuiltinsUnsent(past) && ClearedKept(c.draft, c.revision, past, log) && Sendable(c.draft)
    ensures var id := RequestIdFor(c, Ours(drawn));
      var past' := past.(issued := past.issued[id := c.revision]);
      && DraftKept(c.draft, c.revision, past') && IdsKept(drawn + 1, past')
      && PendingKept(c.draft, c.revision, Some(PendingRequest(id, c.revision)), past')
      && BuiltinsUnsent(past') && ClearedKept(c.draft, c.revision, past', log)
      && Extends(past, past') && id.Ours? && Carries(past', id, c.draft.message)
  {
    SendableNotEmpty(c.draft);
    hide IsBlank, Landed;
  }

  lemma SendableNotEmpty(d: Draft)
    requires Sendable(d)
    ensures d != EmptyDraft
  {
  }

  lemma FlightAdded(session: bool, flights: map<nat, Flight>, attempts: nat, sent: set<Request>, past: History,
                    pending: Option<PendingRequest>, f: Flight)
    requires GuardKept(flights, false) && FlightKept(flights, attempts, past) && SentKept(sent, attempts, flights, past)
    requires ScopeKept(session, false, flights, sent, pending)
    requires forall t | t in flights :: !Holding(flights[t])
    requires f.hold.Held? && f.posted == session && f.id.Ours? && Carries(past, f.id, f.message)
    requires f.id in past.issued && past.issued[f.id] == f.revision
    ensures var flights' := flights[attempts := f];
      var sent' := if session then sent + {Request(attempts, f.id, f.message)} else sent;
      && GuardKept(flights', false) && FlightKept(flights', attempts + 1, past)
      && SentKept(sent', attempts + 1, flights', past)
      && ScopeKept(session, false, flights', sent', Some(PendingRequest(f.id, f.revision)))
  {
    hide Carries;
    if session {
      assert Request(attempts, f.id, f.message) in sent + {Request(attempts, f.id, f.message)};
    }
  }

  lemma RepliesOn(replies: set<(nat, Reply)>, sent: set<Request>, sent': set<Request>, log: seq<Queued>)
    requires RepliesKept(replies, sent, log) && sent <= sent'
    ensures RepliesKept(replies, sent', log)
  {
    hide Logs;
  }

  lemma SendKeeps(w: World, steer: bool)
    requires Inv(w) && Enabled(w, Send(steer))
    ensures Inv(Next(w, Send(steer)))
  {
    hide DraftKept, IdsKept, PendingKept, GuardKept, BuiltinKept, FlightKept;
    hide ScopeKept, SentKept, RepliesKept, LogKept, ClearedKept, BuiltinsUnsent;
    hide IsBlank, Extends;
    var c, w' := w.composer, Next(w, Send(steer));
    var id := RequestIdFor(c, Ours(w.drawn));
    SendPast(w.past, w.drawn, c, w.log);
    CarriesOn(w.past, w'.past, w.flights, w.attempts, w.sent, w.log);
    FlightAdded(w.session, w.flights, w.attempts, w.sent, w'.past, c.pendingRequest, w'.flights[w.attempts]);
    RepliesOn(w.replies, w.sent, w'.sent, w.log);
    NoCommand(w.builtin, w.retrying, w'.past);
  }

  lemma NoCommand(builtin: Option<nat>, retrying: bool, past: History)
    requires builtin.None?
    ensures BuiltinKept(builtin, retrying, past)
  {
  }

  lemma FlightMoved(session: bool, busy: bool, retrying: bool, flights: map<nat, Flight>, attempts: nat,
                    sent: set<Request>,
                    past: History, pending: Option<PendingRequest>, t: nat)
    requires GuardKept(flights, busy) && FlightKept(flights, attempts, past) && SentKept(sent, attempts, flights, past)
    requires ScopeKept(session, retrying, flights, sent, pending) && t in flights && !flights[t].posted
    ensures var f := flights[t];
      var flights', sent' := flights[t := f.(posted := true, hold := Moving)], sent + {Request(t, f.id, f.message)};
      && GuardKept(flights', busy) && FlightKept(flights', attempts, past) && SentKept(sent', attempts, flights', past)
      && ScopeKept(true, retrying, flights', sent', pending)
  {
    hide Carries;
    assert Request(t, flights[t].id, flights[t].message) in sent + {Request(t, flights[t].id, flights[t].message)};
    assert Holding(flights[t]);
  }

  lemma CreatedKeeps(w: World, t: nat)
    requires Inv(w) && Enabled(w, Created(t))
    ensures Inv(Next(w, Created(t)))
  {
    hide DraftKept, IdsKept, PendingKept, GuardKept, BuiltinKept, FlightKept;
    hide ScopeKept, SentKept, RepliesKept, LogKept, ClearedKept, BuiltinsUnsent;
    var busy := w.builtin.Some? || w.retrying;
    FlightMoved(w.session, busy, w.retrying, w.flights, w.attempts, w.sent, w.past, w.composer.pendingRequest, t);
    RepliesOn(w.replies, w.sent, Next(w, Created(t)).sent, w.log);
  }

  lemma FlightGone(session: bool, busy: bool, retrying: bool, flights: map<nat, Flight>, attempts: nat,
                   sent: set<Request>,
                   past: History, pending: Option<PendingRequest>, t: nat)
    requires GuardKept(flights, busy) && FlightKept(flights, attempts, past) && SentKept(sent, attempts, flights, past)
    requires ScopeKept(session, retrying, flights, sent, pending) && t in flights
    ensures var flights' := flights - {t};
      && GuardKept(flights', busy) && FlightKept(flights', attempts, past) && SentKept(sent, attempts, flights', past)
      && ScopeKept(session, retrying, flights', sent, pending)
      && (session ==> ScopeKept(session, retrying, flights', sent, None))
  {
    hide Carries, PostedAs;
  }

  /** An acceptance that does not spend another submit's id. */
  lemma AcceptPast(c: Composer, past: History, log: seq<Queued>, id: Id, revision: nat)
    requires DraftKept(c.draft, c.revision, past) && PendingKept(c.draft, c.revision, c.pendingRequest, past)
    requires ClearedKept(c.draft, c.revision, past, log)
    requires id in past.issued && past.issued[id] == revision && Logs(log, id)
    requires c.pendingRequest.Some? && c.pendingRequest.value.id != id ==> c.pendingRequest.value.revision != c.revision
    ensures var c' := AcceptedDraft(c, revision);
      && DraftKept(c'.draft, c'.revision, past) && PendingKept(c'.draft, c'.revision, c'.pendingRequest, past)
      && ClearedKept(c'.draft, c'.revision, past, log)
  {
    hide Logs, Sendable;
  }

  lemma AnsweredKeeps(w: World, t: nat, reply: Reply, steerFails: bool)
    requires Inv(w) && Enabled(w, Answered(t, reply, steerFails)) && SpendsOwn(w, Answered(t, reply, steerFails))
    ensures Inv(Next(w, Answered(t, reply, steerFails)))
  {
    hide DraftKept, IdsKept, PendingKept, GuardKept, BuiltinKept, FlightKept;
    hide ScopeKept, SentKept, RepliesKept, LogKept, ClearedKept, BuiltinsUnsent;
    hide Logs;
    var c, f := w.composer, w.flights[t];
    var busy := w.builtin.Some? || w.retrying;
    FlightGone(w.session, busy, w.retrying, w.flights, w.attempts, w.sent, w.past, c.pendingRequest, t);
    if Lands(f, reply, steerFails) {
      AcceptedIsLogged(w, t, reply);
      AcceptPast(c, w.past, w.log, f.id, f.revision);
    }
  }

  lemma AcceptedIsLogged(w: World, t: nat, reply: Reply)
    requires Inv(w) && t in w.flights && (t, reply) in w.replies && reply.Accepted?
    ensures Logs(w.log, w.flights[t].id) && w.session
    ensures w.flights[t].id in w.past.issued && w.past.issued[w.flights[t].id] == w.flights[t].revision
  {
    hide DraftKept, IdsKept, PendingKept, GuardKept, BuiltinKept, LogKept, ClearedKept, BuiltinsUnsent, Logs, Carries;
    var r :| r in w.sent && r.attempt == t && Logs(w.log, r.id);
  }

  lemma FailsKeeps(w: World, t: nat)
    requires Inv(w) && Enabled(w, Fails(t))
    ensures Inv(Next(w, Fails(t)))
  {
    hide DraftKept, IdsKept, PendingKept, GuardKept, BuiltinKept, FlightKept;
    hide ScopeKept, SentKept, RepliesKept, LogKept, ClearedKept, BuiltinsUnsent;
    var busy := w.builtin.Some? || w.retrying;
    FlightGone(w.session, busy, w.retrying, w.flights, w.attempts, w.sent, w.past, w.composer.pendingRequest, t);
  }

  // ---------- the server ----------

  lemma LogsSnoc(log: seq<Queued>, q: Queued, id: Id)
    ensures Logs(log + [q], id) <==> Logs(log, id) || q.id == Some(id)
  {
    if Logs(log, id) {
      var i :| 0 <= i < |log| && log[i].id == Some(id);
      assert (log + [q])[i].id == Some(id);
    }
    assert (log + [q])[|log|] == q;
  }

  /** Appending to the log keeps what it holds. */
  lemma LogGrows(log: seq<Queued>, q: Queued, replies: set<(nat, Reply)>, sent: set<Request>, draft: Draft,
                 revision: nat, past: History)
    requires RepliesKept(replies, sent, log) && ClearedKept(draft, revision, past, log) && LogKept(log, past)
    requires FromHere(q) ==> Carries(past, q.id.value, q.message) && !Logs(log, q.id.value)
    ensures RepliesKept(replies, sent, log + [q]) && ClearedKept(draft, revision, past, log + [q])
      && LogKept(log + [q], past)
  {
    hide Carries;
    forall p | p in replies
      ensures exists r | r in sent :: r.attempt == p.0 && (p.1.Accepted? ==> Logs(log + [q], r.id))
    {
      var r :| r in sent && r.attempt == p.0 && (p.1.Accepted? ==> Logs(log, r.id));
      LogsSnoc(log, q, r.id);
    }
    if Landed(past, log, revision) {
      var id :| id in past.issued && past.issued[id] == revision && Logs(log, id);
      LogsSnoc(log, q, id);
    }
    LogGains(log, q, past);
  }

  lemma LogGains(log: seq<Queued>, q: Queued, past: History)
    requires LogKept(log, past) && (FromHere(q) ==> Carries(past, q.id.value, q.message) && !Logs(log, q.id.value))
    ensures LogKept(log + [q], past)
  {
    hide Carries;
    assert FromHere(q) ==> forall i | 0 <= i < |log| :: log[i].id != q.id;
  }

  lemma ForeignKeeps(w: World, number: Option<nat>, message: Message)
    requires Inv(w)
    ensures Inv(Next(w, Foreign(number, message)))
  {
    hide DraftKept, IdsKept, PendingKept, GuardKept, BuiltinKept, FlightKept;
    hide ScopeKept, SentKept, RepliesKept, LogKept, ClearedKept, BuiltinsUnsent;
    var q := Queued(if number.Some? then Some(Theirs(number.value)) else None, message);
    LogGrows(w.log, q, w.replies, w.sent, w.composer.draft, w.composer.revision, w.past);
  }

  lemma RepliesGrow(replies: set<(nat, Reply)>, sent: set<Request>, log: seq<Queued>, r: Request, reply: Reply)
    requires RepliesKept(replies, sent, log) && r in sent && (reply.Accepted? ==> Logs(log, r.id))
    ensures RepliesKept(replies + {(r.attempt, reply)}, sent, log)
  {
    hide Logs;
  }

  lemma SentCarries(sent: set<Request>, attempts: nat, flights: map<nat, Flight>, past: History, r: Request)
    requires SentKept(sent, attempts, flights, past) && r in sent
    ensures Carries(past, r.id, r.message)
  {
  }

  lemma ProcessKeeps(w: World, r: Request, verdict: Verdict)
    requires Inv(w) && Enabled(w, Process(r, verdict))
    ensures Inv(Next(w, Process(r, verdict)))
  {
    hide DraftKept, IdsKept, PendingKept, GuardKept, BuiltinKept, FlightKept;
    hide ScopeKept, SentKept, RepliesKept, LogKept, ClearedKept, BuiltinsUnsent;
    hide Carries, Logs;
    SentCarries(w.sent, w.attempts, w.flights, w.past, r);
    if verdict.Refuse? {
      RepliesGrow(w.replies, w.sent, w.log, r, Refused);
    } else if Logs(w.log, r.id) {
      RepliesGrow(w.replies, w.sent, w.log, r, Accepted(true));
    } else {
      var q := Queued(Some(r.id), r.message);
      LogGrows(w.log, q, w.replies, w.sent, w.composer.draft, w.composer.revision, w.past);
      LogsSnoc(w.log, q, r.id);
      RepliesGrow(w.replies, w.sent, w.log + [q], r, if verdict.Accept? then Accepted(false) else Refused);
    }
  }

  // ---------- page commands and retries ----------

  lemma BuiltinKeeps(w: World, a: Action)
    requires Inv(w) && Enabled(w, a) && (a.RunBuiltin? || a.BuiltinDone?)
    ensures Inv(Next(w, a))
  {
    hide FlightKept, SentKept, RepliesKept, LogKept, Carries, Logs, IsBlank, PostedAs;
  }

  lemma RetryKeeps(w: World, a: Action)
    requires Inv(w) && Enabled(w, a) && (a.RetryStarts? || a.RetryEnds?)
    ensures Inv(Next(w, a))
  {
    hide DraftKept, IdsKept, PendingKept, FlightKept, SentKept, RepliesKept, LogKept, ClearedKept, BuiltinsUnsent;
    hide PostedAs;
  }

  lemma RetryPast(w: World, input: nat, message: Message)
    requires Inv(w) && (input in w.past.retried ==> w.past.retried[input] == message)
    ensures var past, c := w.past.(retried := w.past.retried[input := message]), w.composer;
      && DraftKept(c.draft, c.revision, past) && IdsKept(w.drawn, past)
      && PendingKept(c.draft, c.revision, c.pendingRequest, past)
      && BuiltinKept(w.builtin, w.retrying, past) && ClearedKept(c.draft, c.revision, past, w.log)
      && BuiltinsUnsent(past)
      && Extends(w.past, past)
  {
    hide GuardKept, FlightKept, SentKept, ScopeKept, RepliesKept, LogKept, Logs, IsBlank;
  }

  lemma SentAdded(session: bool, retrying: bool, sent: set<Request>, attempts: nat, flights: map<nat, Flight>,
                  past: History,
                  pending: Option<PendingRequest>, r: Request)
    requires SentKept(sent, attempts, flights, past) && FlightKept(flights, attempts, past)
    requires ScopeKept(session, retrying, flights, sent, pending) && retrying
    requires r.attempt == attempts && Carries(past, r.id, r.message)
    ensures SentKept(sent + {r}, attempts + 1, flights, past) && FlightKept(flights, attempts + 1, past)
    ensures ScopeKept(session, retrying, flights, sent + {r}, pending)
  {
    hide Carries;
  }

  lemma RetryPostsKeeps(w: World, input: nat, message: Message)
    requires Inv(w) && Enabled(w, RetryPosts(input, message))
    ensures Inv(Next(w, RetryPosts(input, message)))
  {
    var w', r := Next(w, RetryPosts(input, message)), Request(w.attempts, Retried(input), message);
    RetryPast(w, input, message);
    hide DraftKept, IdsKept, PendingKept, GuardKept, BuiltinKept, FlightKept;
    hide ScopeKept, SentKept, RepliesKept, LogKept, ClearedKept, BuiltinsUnsent;
    hide Extends;
    CarriesOn(w.past, w'.past, w.flights, w.attempts, w.sent, w.log);
    SentAdded(w.session, w.retrying, w.sent, w.attempts, w.flights, w'.past, w.composer.pendingRequest, r);
    RepliesOn(w.replies, w.sent, w'.sent, w.log);
  }

  lemma NextKeeps(w: World, a: Action)
    requires Inv(w) && SpendsOwn(w, a)
    ensures Inv(Next(w, a))
  {
    if Enabled(w, a) {
      hide Inv, Enabled, Next, SpendsOwn;
      match a {
        case Edit(draft) => EditKeeps(w, draft);
        case Render => RenderKeeps(w);
        case Send(steer) => SendKeeps(w, steer);
        case Created(t) => CreatedKeeps(w, t);
        case Process(r, verdict) => ProcessKeeps(w, r, verdict);
        case Foreign(number, message) => ForeignKeeps(w, number, message);
        case Answered(t, reply, steerFails) => AnsweredKeeps(w, t, reply, steerFails);
        case Fails(t) => FailsKeeps(w, t);
        case RunBuiltin => BuiltinKeeps(w, a);
        case BuiltinDone => BuiltinKeeps(w, a);
        case RetryStarts => RetryKeeps(w, a);
        case RetryPosts(input, message) => RetryPostsKeeps(w, input, message);
        case RetryEnds(_) => RetryKeeps(w, a);
      }
    }
  }

  lemma {:induction false} RunKeeps(w: World, actions: seq<Action>)
    requires Inv(w) && ApartFrom(w, actions)
    ensures Inv(RunFrom(w, actions))
    decreases |actions|
  {
    hide Inv, Next, SpendsOwn;
    if actions != [] {
      NextKeeps(w, actions[0]);
      RunKeeps(Next(w, actions[0]), actions[1..]);
    }
  }

  lemma StartHolds(draft: Draft, session: bool)
    ensures Inv(Start(draft, session))
  {
  }

  function Run(draft: Draft, session: bool, actions: seq<Action>): World {
    RunFrom(Start(draft, session), actions)
  }

  ghost predicate Apart(draft: Draft, session: bool, actions: seq<Action>) {
    ApartFrom(Start(draft, session), actions)
  }

  lemma SubmissionInvariant(draft: Draft, session: bool, actions: seq<Action>)
    requires Apart(draft, session, actions)
    ensures Inv(Run(draft, session, actions))
  {
    hide Inv;
    StartHolds(draft, session);
    RunKeeps(Start(draft, session), actions);
  }

  // ---------- which runs are apart ----------

  /** One submit at a time, and the flag shows it as soon as its guard is gone. */
  ghost predicate Single(w: World) {
    && (forall s, t | s in w.flights && t in w.flights :: s == t)
    && (w.flights != map[] ==> w.builtin.None? && !w.retrying && w.composer.sending)
    && (forall t | t in w.flights ::
          && w.composer.pendingRequest == Some(PendingRequest(w.flights[t].id, w.flights[t].revision))
          && (w.flights[t].hold.Free? ==> w.shown))
  }

  lemma SingleKeeps(w: World, a: Action)
    requires Single(w) && (a.RetryStarts? ==> w.flights == map[])
    ensures SpendsOwn(w, a) && Single(Next(w, a))
  {
    hide Logs, Sendable;
    assert w.flights != map[] <==> exists t :: t in w.flights;
  }

  lemma {:induction false} SingleRun(w: World, actions: seq<Action>)
    requires Single(w) && CalmFrom(w, actions)
    ensures ApartFrom(w, actions)
    decreases |actions|
  {
    hide Single, Next, SpendsOwn;
    if actions != [] {
      SingleKeeps(w, actions[0]);
      SingleRun(Next(w, actions[0]), actions[1..]);
    }
  }

  /** While no retry starts over an unanswered submit, the guard and the sending flag keep submits apart. */
  lemma CalmRunsAreApart(draft: Draft, session: bool, actions: seq<Action>)
    requires CalmFrom(Start(draft, session), actions)
    ensures Apart(draft, session, actions)
  {
    SingleRun(Start(draft, session), actions);
  }

  lemma {:induction false} RetryFreeIsCalm(w: World, actions: seq<Action>)
    requires forall i | 0 <= i < |actions| :: !actions[i].RetryStarts?
    ensures CalmFrom(w, actions)
    decreases |actions|
  {
    hide Next;
    if actions != [] {
      assert forall i | 0 <= i < |actions[1..]| :: actions[1..][i] == actions[i + 1];
      RetryFreeIsCalm(Next(w, actions[0]), actions[1..]);
    }
  }

  // ---------- for every run ----------

  /** A request id never names two messages, on the network or in the log, and is queued at most once. */
  lemma OneIdOneMessage(draft: Draft, session: bool, actions: seq<Action>)
    requires Apart(draft, session, actions)
    ensures var w := Run(draft, session, actions);
      && (forall r, s | r in w.sent && s in w.sent && r.id == s.id :: r.message == s.message)
      && (forall r, i | r in w.sent && 0 <= i < |w.log| && w.log[i].id == Some(r.id) :: w.log[i].message == r.message)
      && (forall r, i, j | r in w.sent && 0 <= i < j < |w.log| && w.log[i].id == Some(r.id) ::
          w.log[j].id != Some(r.id))
  {
    hide Run, Apart, DraftKept, IdsKept, PendingKept, GuardKept, BuiltinKept, FlightKept, ScopeKept, RepliesKept;
    hide ClearedKept;
    SubmissionInvariant(draft, session, actions);
  }

  /** An entry this page's composer caused. */
  predicate OursAt(w: World, i: nat)
    requires i < |w.log|
  {
    w.log[i].id.Some? && w.log[i].id.value in w.past.issued && w.past.issued[w.log[i].id.value] < |w.past.written|
  }

  function RevisionAt(w: World, i: nat): nat
    requires i < |w.log| && OursAt(w, i)
  {
    w.past.issued[w.log[i].id.value]
  }

  /** No draft revision was queued twice. */
  ghost predicate Once(w: World) {
    forall i, j | 0 <= i < j < |w.log| && OursAt(w, i) && OursAt(w, j) :: RevisionAt(w, i) != RevisionAt(w, j)
  }

  lemma InvOnce(w: World)
    requires Inv(w)
    ensures Once(w)
    ensures forall i | 0 <= i < |w.log| && OursAt(w, i) :: w.log[i].message == w.past.written[RevisionAt(w, i)].message
  {
    hide DraftKept, PendingKept, GuardKept, BuiltinKept, FlightKept, ScopeKept, RepliesKept, ClearedKept, SentKept;
    forall i, j | 0 <= i < j < |w.log| && OursAt(w, i) && OursAt(w, j)
      ensures RevisionAt(w, i) != RevisionAt(w, j)
    {
      assert w.log[i].id != w.log[j].id;
    }
  }

  /** Each draft revision adds at most one input to the session, and it is that revision's message. */
  lemma EachRevisionOnce(draft: Draft, session: bool, actions: seq<Action>)
    requires Apart(draft, session, actions)
    ensures var w := Run(draft, session, actions);
      Once(w) && forall i | 0 <= i < |w.log| && OursAt(w, i) ::
        w.log[i].message == w.past.written[RevisionAt(w, i)].message
  {
    hide Inv, Run, Apart;
    SubmissionInvariant(draft, session, actions);
    InvOnce(Run(draft, session, actions));
  }

  /** A draft is cleared only once its message is in the log, or it was a page command. */
  lemma ClearedOnlyWhenLogged(draft: Draft, session: bool, actions: seq<Action>)
    requires Apart(draft, session, actions)
    ensures var w := Run(draft, session, actions); var r := w.composer.revision;
      && |w.past.written| == r + 1
      && (w.composer.draft == w.past.written[r] || w.past.written[r].builtin.OnlyBuiltin?
          || exists i | 0 <= i < |w.log| ::
            OursAt(w, i) && RevisionAt(w, i) == r && w.log[i].message == w.past.written[r].message)
  {
    hide Run, Apart, PendingKept, GuardKept, BuiltinKept, FlightKept, ScopeKept, RepliesKept, SentKept, IdsKept;
    SubmissionInvariant(draft, session, actions);
    var w := Run(draft, session, actions);
    var r := w.composer.revision;
    if w.composer.draft != w.past.written[r] && !w.past.written[r].builtin.OnlyBuiltin? {
      var id :| id in w.past.issued && w.past.issued[id] == r && Logs(w.log, id);
      var i :| 0 <= i < |w.log| && w.log[i].id == Some(id);
      assert OursAt(w, i);
      InvOnce(w);
    }
  }

  /** A resend of a message that already landed changes nothing on the server. */
  lemma ResendAddsNothing(draft: Draft, session: bool, actions: seq<Action>, steer: bool, verdict: Verdict)
    requires Apart(draft, session, actions)
    requires var w := Run(draft, session, actions);
      Enabled(w, Send(steer)) && Landed(w.past, w.log, w.composer.revision)
    ensures var w := Run(draft, session, actions);
      var posted := Next(w, Send(steer));
      forall r | r in posted.sent && r.attempt == w.attempts :: Next(posted, Process(r, verdict)).log == w.log
  {
    hide Run, Apart, GuardKept, BuiltinKept, FlightKept, ScopeKept, RepliesKept, LogKept, ClearedKept, IdsKept;
    hide BuiltinsUnsent, Carries;
    SubmissionInvariant(draft, session, actions);
    var w := Run(draft, session, actions);
    SendableNotEmpty(w.composer.draft);
    var id :| id in w.past.issued && w.past.issued[id] == w.composer.revision && Logs(w.log, id);
    assert RequestIdFor(w.composer, Ours(w.drawn)) == id;
    var posted := Next(w, Send(steer));
    forall r | r in posted.sent && r.attempt == w.attempts ensures r.id == id {
      assert r !in w.sent;
    }
  }

  // ---------- what the reader gets ----------

  /** The server's last word on an attempt. */
  predicate Answers(w: World, w': World, attempt: nat, reply: Reply) {
    w'.replies == w.replies + {(attempt, reply)}
  }

  /**
   * A request is answered once. One whose id is in the log already adds nothing and is accepted as a
   * duplicate; any other that is not refused adds its message, and is accepted as new unless the answer
   * fails after that.
   */
  lemma ProcessAnswers(w: World, r: Request, verdict: Verdict)
    requires r in w.sent
    ensures var w' := Next(w, Process(r, verdict));
      var known := exists i | 0 <= i < |w.log| :: w.log[i].id == Some(r.id);
      && (verdict.Refuse? ==> w'.log == w.log && Answers(w, w', r.attempt, Refused))
      && (!verdict.Refuse? && known ==> w'.log == w.log && Answers(w, w', r.attempt, Accepted(true)))
      && (!verdict.Refuse? && !known ==>
            && w'.log == w.log + [Queued(Some(r.id), r.message)]
            && Answers(w, w', r.attempt, if verdict.Accept? then Accepted(false) else Refused))
      && w'.composer == w.composer && w'.flights == w.flights
  {
  }

  /** However a submit ends: acceptance of the draft on screen clears it, anything else keeps it and says so. */
  lemma SubmitEnds(w: World, t: nat, reply: Reply, steerFails: bool)
    requires t in w.flights && w.flights[t].revision == w.composer.revision && (t, reply) in w.replies
    ensures var c, lost := Next(w, Answered(t, reply, steerFails)).composer, Next(w, Fails(t)).composer;
      && !c.sending && !lost.sending && lost.draft == w.composer.draft && lost.failed
      && (if reply.Accepted? && !(reply.duplicate && w.flights[t].steer && steerFails)
          then c.draft == EmptyDraft && c.pendingRequest.None? && c.failed == w.composer.failed
          else c.draft == w.composer.draft && c.failed && c.pendingRequest == w.composer.pendingRequest)
  {
  }

  /**
   * A message in an open conversation, sent and not refused, is in the log under its own words, once, and its
   * answer leaves an empty composer that neither sends nor complains. Sent again after it had landed it adds
   * nothing and ends the same way.
   */
  lemma SendDelivers(draft: Draft, session: bool, actions: seq<Action>, steer: bool)
    requires Apart(draft, session, actions)
    requires var w := Run(draft, session, actions); w.session && Enabled(w, Send(steer))
    ensures var w := Run(draft, session, actions);
      var t, message, landed := w.attempts, w.composer.draft.message, Landed(w.past, w.log, w.composer.revision);
      var sent := Next(w, Send(steer));
      sent.composer.sending && !sent.composer.failed && sent.composer.draft == w.composer.draft
      && t in sent.flights
      && var r := Request(t, sent.flights[t].id, message);
         r in sent.sent
         && var served := Next(sent, Process(r, Accept));
            && served.log == (if landed then w.log else w.log + [Queued(Some(r.id), message)])
            && (t, Accepted(landed)) in served.replies
            && var c := Next(served, Answered(t, Accepted(landed), false)).composer;
               c.draft == EmptyDraft && !c.sending && !c.failed && c.pendingRequest.None?
  {
    hide Run, Apart, GuardKept, BuiltinKept, FlightKept, ScopeKept, RepliesKept, LogKept, ClearedKept, BuiltinsUnsent;
    hide Carries, SentKept, DraftKept, IsBlank;
    SubmissionInvariant(draft, session, actions);
    var w := Run(draft, session, actions);
    SendableNotEmpty(w.composer.draft);
    var sent := Next(w, Send(steer));
    var r := Request(w.attempts, sent.flights[w.attempts].id, w.composer.draft.message);
    SentIdLanded(w);
    ProcessAnswers(sent, r, Accept);
    var served := Next(sent, Process(r, Accept));
    assert (w.attempts, Accepted(Landed(w.past, w.log, w.composer.revision))) in served.replies;
    SubmitEnds(served, w.attempts, Accepted(Landed(w.past, w.log, w.composer.revision)), false);
  }

  /** The id of the next submit is in the log exactly when the draft's message has landed. */
  lemma SentIdLanded(w: World)
    requires Inv(w) && w.composer.draft != EmptyDraft
    ensures Logs(w.log, RequestIdFor(w.composer, Ours(w.drawn))) <==> Landed(w.past, w.log, w.composer.revision)
  {
    hide GuardKept, BuiltinKept, FlightKept, ScopeKept, RepliesKept, ClearedKept, SentKept, DraftKept;
    hide BuiltinsUnsent, Sendable;
    NewIdUnlogged(w.drawn, w.past, w.log);
  }

  /** Whatever of this page's is in the log was on the network. */
  ghost predicate SentFirst(w: World) {
    forall i | 0 <= i < |w.log| && FromHere(w.log[i]) :: PostedAs(w.sent, w.log[i].id.value)
  }

  lemma SentFirstKeeps(w: World, a: Action)
    requires SentFirst(w)
    ensures SentFirst(Next(w, a))
  {
    hide PostedAs;
    var w' := Next(w, a);
    forall id | PostedAs(w.sent, id) ensures PostedAs(w'.sent, id) {
      PostedOn(w.sent, w'.sent, id);
    }
    if a.Process? && a.request in w.sent { PostedSelf(w.sent, a.request); }
  }

  lemma PostedOn(sent: set<Request>, sent': set<Request>, id: Id)
    requires sent <= sent' && PostedAs(sent, id)
    ensures PostedAs(sent', id)
  {
  }

  lemma PostedSelf(sent: set<Request>, r: Request)
    requires r in sent
    ensures PostedAs(sent, r.id)
  {
  }

  lemma {:induction false} OnlySentIsLogged(w: World, actions: seq<Action>)
    requires SentFirst(w)
    ensures SentFirst(RunFrom(w, actions))
    decreases |actions|
  {
    hide SentFirst, Next;
    if actions != [] {
      SentFirstKeeps(w, actions[0]);
      OnlySentIsLogged(Next(w, actions[0]), actions[1..]);
    }
  }

  /** The first message of a new conversation is delivered the same way, once the conversation exists. */
  lemma OpeningDelivers(draft: Draft, actions: seq<Action>, steer: bool)
    requires Apart(draft, false, actions)
    requires var w := Run(draft, false, actions); !w.session && Enabled(w, Send(steer))
    ensures var w := Run(draft, false, actions);
      var t, message := w.attempts, w.composer.draft.message;
      var begun := Next(Next(w, Send(steer)), Created(t));
      begun.session && t in begun.flights
      && var r := Request(t, begun.flights[t].id, message);
         begun.sent == {r}
         && var served := Next(begun, Process(r, Accept));
            && served.log == w.log + [Queued(Some(r.id), message)]
            && (t, Accepted(false)) in served.replies
            && var c := Next(served, Answered(t, Accepted(false), false)).composer;
               c.draft == EmptyDraft && !c.sending && !c.failed && c.pendingRequest.None?
  {
    hide RunFrom, Apart, GuardKept, BuiltinKept, FlightKept, ClearedKept, BuiltinsUnsent, DraftKept, IsBlank, Carries;
    SubmissionInvariant(draft, false, actions);
    var w := Run(draft, false, actions);
    SendableNotEmpty(w.composer.draft);
    var sent := Next(w, Send(steer));
    var id := sent.flights[w.attempts].id;
    OnlySentIsLogged(Start(draft, false), actions);
    assert w.sent == {} && id.Ours?;
    forall i | 0 <= i < |w.log| ensures w.log[i].id != Some(id) {
      assert FromHere(w.log[i]) ==> PostedAs(w.sent, w.log[i].id.value);
    }
    var begun := Next(sent, Created(w.attempts));
    ProcessAnswers(begun, Request(w.attempts, id, w.composer.draft.message), Accept);
    SubmitEnds(Next(begun, Process(Request(w.attempts, id, w.composer.draft.message), Accept)), w.attempts,
               Accepted(false), false);
  }
  /** A command the page runs itself sends nothing, and its end empties the composer unless the reader wrote on. */
  lemma BuiltinEnds(w: World, next: Draft)
    requires Enabled(w, RunBuiltin)
    ensures var ran := Next(w, RunBuiltin);
      && Enabled(ran, BuiltinDone) && ran.composer == w.composer && ran.sent == w.sent && ran.log == w.log
      && (var done := Next(ran, BuiltinDone);
          done.composer.draft == EmptyDraft && !done.composer.sending && done.builtin.None?)
      && Next(Next(ran, Edit(next)), BuiltinDone).composer.draft == next
  {
  }

  /** A retry shows itself as sending while it lasts, keeps the draft, and ends with an error if it failed. */
  lemma RetryShows(w: World, failed: bool)
    requires Enabled(w, RetryStarts)
    ensures var during := Next(w, RetryStarts);
      && during.composer.sending && !during.composer.failed && during.composer.draft == w.composer.draft
      && Enabled(during, RetryEnds(failed)) && !Enabled(during, RetryStarts)
      && var ended := Next(during, RetryEnds(failed)).composer;
         !ended.sending && ended.failed == failed && ended.draft == w.composer.draft
  {
  }

  // ---------- exactly when ----------

  /** The pending id of the draft on screen was spent, though its request is on the network. */
  ghost predicate Spent(w: World, r: Request) {
    var c := w.composer;
    && w.session && r in w.sent && r.id in w.past.issued && w.past.issued[r.id] == c.revision
    && c.pendingRequest.None? && !c.sending && Sendable(c.draft) && c.revision < |w.past.written|
    && GuardKept(w.flights, w.builtin.Some? || w.retrying) && !(w.builtin.Some? && w.retrying)
    && w.builtin != Some(c.revision)
    && IdsKept(w.drawn, w.past) && LogKept(w.log, w.past) && Carries(w.past, r.id, r.message)
  }

  /** An answer that spends another submit's id leaves that submit's draft on screen with no id. */
  lemma SpendLeaves(w: World, a: Action) returns (r: Request)
    requires Inv(w) && a.Answered? && Enabled(w, a) && !SpendsOwn(w, a)
    ensures Spent(Next(w, a), r)
  {
    hide Logs, IsBlank, Carries, Landed;
    var c, f := w.composer, w.flights[a.attempt];
    AcceptedIsLogged(w, a.attempt, a.reply);
    assert PostedAs(w.sent, c.pendingRequest.value.id);
    r :| r in w.sent && r.id == c.pendingRequest.value.id;
    assert w.past.issued[f.id] != w.past.issued[r.id];
  }

  /** The one holder of the guard lets go. */
  lemma LetGo(w: World, r: Request) returns (a: Action)
    requires Spent(w, r)
    ensures !a.Answered? && Spent(Next(w, a), r) && Unguarded(Next(w, a)) && Next(w, a).log == w.log
  {
    hide IdsKept, LogKept, Carries, Sendable;
    if w.retrying {
      a := RetryEnds(false);
    } else if w.builtin.Some? {
      a := BuiltinDone;
    } else if t :| t in w.flights && Holding(w.flights[t]) {
      a := Fails(t);
    } else {
      a := RetryEnds(false);
    }
  }

  lemma ShownDown(w: World, r: Request)
    requires Spent(w, r) && Unguarded(w)
    ensures var w' := Next(w, Render); Spent(w', r) && Unguarded(w') && !w'.shown
  {
    hide IdsKept, LogKept, Carries, Sendable;
  }

  lemma FirstLands(w: World, r: Request)
    requires Spent(w, r) && Unguarded(w) && !w.shown
    ensures var w' := Next(w, Process(r, Accept)); Spent(w', r) && Unguarded(w') && !w'.shown && Logs(w'.log, r.id)
  {
    hide IdsKept, LogKept, Carries, Logs, Sendable;
    var q := Queued(Some(r.id), r.message);
    LogsSnoc(w.log, q, r.id);
    if !Logs(w.log, r.id) { LogGains(w.log, q, w.past); }
  }

  lemma NewIdUnlogged(drawn: nat, past: History, log: seq<Queued>)
    requires IdsKept(drawn, past) && LogKept(log, past)
    ensures !Logs(log, Ours(drawn))
  {
    forall i | 0 <= i < |log| ensures log[i].id != Some(Ours(drawn)) {
      assert FromHere(log[i]) ==> Carries(past, log[i].id.value, log[i].message);
    }
  }

  /** Sent again, the same draft has a new id, and the server queues it again. */
  lemma SecondLands(w: World, r: Request)
    requires Spent(w, r) && Unguarded(w) && !w.shown && Logs(w.log, r.id)
    ensures var sent := Next(w, Send(false));
      var again := Request(w.attempts, Ours(w.drawn), w.composer.draft.message);
      !Once(Next(sent, Process(again, Accept)))
  {
    hide Sendable;
    var sent, again := Next(w, Send(false)), Request(w.attempts, Ours(w.drawn), w.composer.draft.message);
    assert again in sent.sent;
    NewIdUnlogged(w.drawn, w.past, w.log);
    var w' := Next(sent, Process(again, Accept));
    var i :| 0 <= i < |w.log| && w.log[i].id == Some(r.id);
    assert w'.log[i] == w.log[i] && w'.log[|w.log|].id == Some(again.id);
    assert OursAt(w', i) && OursAt(w', |w.log|) && RevisionAt(w', i) == RevisionAt(w', |w.log|);
  }

  /** From there a run in which no answer spends a foreign id queues the draft twice. */
  lemma SpentQueuesTwice(w: World, r: Request) returns (more: seq<Action>)
    requires Spent(w, r)
    ensures ApartFrom(w, more) && !Once(RunFrom(w, more))
  {
    hide Spent, Unguarded, Next, Once, Logs;
    var a := LetGo(w, r);
    var w1 := Next(w, a);
    ShownDown(w1, r);
    var w2 := Next(w1, Render);
    FirstLands(w2, r);
    var w3 := Next(w2, Process(r, Accept));
    SecondLands(w3, r);
    var again := Process(Request(w3.attempts, Ours(w3.drawn), w3.composer.draft.message), Accept);
    more := [a, Render, Process(r, Accept), Send(false), again];
    FiveSteps(w, more);
  }

  lemma Unfold(w: World, actions: seq<Action>, k: nat)
    requires k < |actions|
    ensures RunFrom(w, actions[k..]) == RunFrom(Next(w, actions[k]), actions[k + 1..])
    ensures ApartFrom(w, actions[k..]) <==> SpendsOwn(w, actions[k]) && ApartFrom(Next(w, actions[k]), actions[k + 1..])
  {
    hide Next, SpendsOwn;
    assert actions[k..][1..] == actions[k + 1..];
  }

  lemma NoneLeft(w: World, actions: seq<Action>)
    ensures RunFrom(w, actions[|actions|..]) == w && ApartFrom(w, actions[|actions|..])
  {
  }

  lemma FiveSteps(w: World, more: seq<Action>)
    requires |more| == 5 && forall i | 0 <= i < 5 :: !more[i].Answered?
    ensures RunFrom(w, more) == Next(Next(Next(Next(Next(w, more[0]), more[1]), more[2]), more[3]), more[4])
    ensures ApartFrom(w, more)
  {
    hide Next, RunFrom, ApartFrom;
    var w1 := Next(w, more[0]);
    var w2 := Next(w1, more[1]);
    var w3 := Next(w2, more[2]);
    var w4 := Next(w3, more[3]);
    Unfold(w, more, 0);
    Unfold(w1, more, 1);
    Unfold(w2, more, 2);
    Unfold(w3, more, 3);
    Unfold(w4, more, 4);
    NoneLeft(Next(w4, more[4]), more);
    assert more[0..] == more;
  }

  /** The ways a run can go on with every landing answer spending its own id. */
  ghost predicate GoesOnOnce(w: World) {
    forall more | ApartFrom(w, more) :: Once(RunFrom(w, more))
  }

  /**
   * After any run in which landing answers spent their own ids, one more answer is safe exactly when it
   * does too: otherwise the draft it leaves without an id can be queued twice, however well the rest behaves.
   */
  lemma OnceExactlyWhenApart(draft: Draft, session: bool, actions: seq<Action>, a: Action)
    requires Apart(draft, session, actions) && a.Answered? && Enabled(Run(draft, session, actions), a)
    ensures SpendsOwn(Run(draft, session, actions), a) <==> GoesOnOnce(Next(Run(draft, session, actions), a))
  {
    hide Inv, Next, Run, Once, SpendsOwn, Enabled, Apart;
    SubmissionInvariant(draft, session, actions);
    var w := Run(draft, session, actions);
    if SpendsOwn(w, a) {
      NextKeeps(w, a);
      forall more | ApartFrom(Next(w, a), more) ensures Once(RunFrom(Next(w, a), more)) {
        RunKeeps(Next(w, a), more);
        InvOnce(RunFrom(Next(w, a), more));
      }
    } else {
      var r := SpendLeaves(w, a);
      var more := SpentQueuesTwice(Next(w, a), r);
      assert ApartFrom(Next(w, a), more);
    }
  }

  // ---------- a retry can bring it about ----------

  lemma {:induction false} RunAppend(w: World, front: seq<Action>, rest: seq<Action>)
    ensures RunFrom(w, front + rest) == RunFrom(RunFrom(w, front), rest)
    ensures ApartFrom(w, front) && ApartFrom(RunFrom(w, front), rest) ==> ApartFrom(w, front + rest)
    decreases |front|
  {
    hide Next, SpendsOwn;
    if front == [] {
      assert front + rest == rest;
    } else {
      assert (front + rest)[1..] == front[1..] + rest;
      RunAppend(Next(w, front[0]), front[1..], rest);
    }
  }

  lemma FewSteps(w: World, steps: seq<Action>)
    requires |steps| <= 3 && forall i | 0 <= i < |steps| :: !steps[i].Answered?
    ensures ApartFrom(w, steps)
    ensures RunFrom(w, steps) ==
      if |steps| == 0 then w
      else if |steps| == 1 then Next(w, steps[0])
      else if |steps| == 2 then Next(Next(w, steps[0]), steps[1])
      else Next(Next(Next(w, steps[0]), steps[1]), steps[2])
  {
    hide Next, RunFrom, ApartFrom;
    var at, k := w, 0;
    assert steps[0..] == steps;
    while k < |steps|
      invariant 0 <= k <= |steps| && RunFrom(w, steps) == RunFrom(at, steps[k..])
      invariant ApartFrom(at, steps[k..]) ==> ApartFrom(w, steps)
      invariant at == if k == 0 then w else if k == 1 then Next(w, steps[0])
        else if k == 2 then Next(Next(w, steps[0]), steps[1]) else Next(Next(Next(w, steps[0]), steps[1]), steps[2])
    {
      Unfold(at, steps, k);
      at, k := Next(at, steps[k]), k + 1;
    }
    NoneLeft(at, steps);
  }

  function Text(content: string): Draft {
    Draft(Message(content, []), NoBuiltin)
  }

  lemma NotBlank(content: string)
    requires |content| > 0 && !IsSpace(content[0])
    ensures Sendable(Text(content))
  {
    assert Text(content).message.content[0] == content[0];
  }

  const A := Message("a", [])

  /** A first message creates its conversation; the page shows it while the answer is still out. */
  const Opens: seq<Action> := [Send(false), Created(0), Render]

  /** The server queues it, its turn fails, and the reader retries that turn. */
  const Retries: seq<Action> := [Process(Request(0, Ours(0), A), Accept), RetryStarts, RetryPosts(0, A)]

  /** The retry is done and the flag is down. */
  const Done: seq<Action> := [Process(Request(1, Retried(0), A), Accept), RetryEnds(false), Render]

  /** A second message goes out before the first one's answer is in. */
  const Overtakes: seq<Action> := [Edit(Text("b")), Send(false)]

  const First := Flight(Ours(0), 0, A, false, true, Free)
  const Opened := World(Composer(Text("a"), 0, true, false, Some(PendingRequest(Ours(0), 0))), true, true,
                        map[0 := First],
    None, false, 1, 1, {Request(0, Ours(0), A)}, {}, [], History([Text("a")], map[Ours(0) := 0], map[]))
  const Retrying := Opened.(retrying := true, attempts := 2,
                            sent := {Request(0, Ours(0), A), Request(1, Retried(0), A)},
    replies := {(0, Accepted(false))}, log := [Queued(Some(Ours(0)), A)], past := Opened.past.(retried := map[0 := A]))
  const Retried1 := Retrying.(retrying := false, shown := false, composer := Opened.composer.(sending := false),
    replies := {(0, Accepted(false)), (1, Accepted(false))},
    log := [Queued(Some(Ours(0)), A), Queued(Some(Retried(0)), A)])

  lemma OpensIs()
    ensures RunFrom(Start(Text("a"), false), Opens) == Opened && ApartFrom(Start(Text("a"), false), Opens)
  {
    hide Next;
    FewSteps(Start(Text("a"), false), Opens);
    SentIs();
    ShownIs();
  }

  const Sent1 := Opened.(shown := false, session := false,
                         flights := map[0 := First.(posted := false, hold := Held)], sent := {})

  lemma SentIs()
    ensures Next(Start(Text("a"), false), Send(false)) == Sent1
  {
    NotBlank("a");
    assert Next(Start(Text("a"), false), Send(false)).flights == Sent1.flights;
  }

  lemma ShownIs()
    ensures Next(Next(Sent1, Created(0)), Render) == Opened
  {
    var w := Next(Sent1, Created(0));
    assert w.flights == map[0 := First.(hold := Moving)];
    assert Next(w, Render).flights == map[0 := First];
  }

  lemma RetriesIs()
    ensures RunFrom(Opened, Retries) == Retrying && ApartFrom(Opened, Retries)
  {
    FewSteps(Opened, Retries);
    var w := Next(Opened, Retries[0]);
    assert !Logs(Opened.log, Ours(0));
    assert w.log == Retrying.log && w.replies == Retrying.replies;
  }

  lemma DoneIs()
    ensures RunFrom(Retrying, Done) == Retried1 && ApartFrom(Retrying, Done)
  {
    FewSteps(Retrying, Done);
    var w := Next(Retrying, Done[0]);
    assert !Logs(Retrying.log, Retried(0));
    assert w.log == Retried1.log && w.replies == Retried1.replies;
    assert Next(Next(w, Done[1]), Done[2]).flights == map[0 := First];
  }

  lemma OvertakesIs()
    ensures ApartFrom(Retried1, Overtakes)
    ensures var w := RunFrom(Retried1, Overtakes);
      w.composer.revision == 1 && w.composer.pendingRequest == Some(PendingRequest(Ours(1), 1))
      && 0 in w.flights && w.flights[0] == First && w.replies == Retried1.replies
  {
    NotBlank("b");
    FewSteps(Retried1, Overtakes);
  }

  /** Each step of this run keeps ids apart, and the answer it waits for does not. */
  lemma RetryLetsAnswersOvertake()
    ensures var actions, late := Opens + Retries + Done + Overtakes, Answered(0, Accepted(false), false);
      && Apart(Text("a"), false, actions)
      && Enabled(Run(Text("a"), false, actions), late) && !SpendsOwn(Run(Text("a"), false, actions), late)
  {
    hide Next, ApartFrom, RunFrom;
    OpensIs();
    RetriesIs();
    DoneIs();
    OvertakesIs();
    var w := Start(Text("a"), false);
    RunAppend(w, Opens, Retries);
    RunAppend(w, Opens + Retries, Done);
    RunAppend(w, Opens + Retries + Done, Overtakes);
  }
}
