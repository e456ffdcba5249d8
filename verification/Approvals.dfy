/**
 * The pending questions (web/hooks/useSessionStream.ts:7-31, 72-75, 108-155):
 * rows rebuilt from durable facts, and the live envelopes and dismissals that
 * also write them.
 */
module Approvals {
  import opened Events
  import opened Views

  /** One question; `interactive` ones are asked again every time. */
  datatype Question = Question(
    call: ToolCall,
    interactive: bool,
    childSessionId: Option<string>,
    definitionName: Option<string>,
    expiresAt: Option<nat>,
    guardWarning: Option<string>,
    scope: Scope)

  type Rows = seq<Entry<Question>>

  function Without(rows: Rows, key: string): (r: Rows)
    ensures forall e :: e in r <==> e in rows && e.key != key
  {
    if rows == [] then [] else (if rows[0].key == key then [] else [rows[0]]) + Without(rows[1..], key)
  }

  function WithoutCall(rows: Rows, callId: Option<string>): (r: Rows)
    ensures forall e :: e in r <==> e in rows && Some(e.row.call.id) != callId
  {
    if rows == [] then []
    else (if Some(rows[0].row.call.id) == callId then [] else [rows[0]]) + WithoutCall(rows[1..], callId)
  }

  function Keys(rows: Rows): set<string> {
    set e | e in rows :: e.key
  }

  function LaterScope(newer: Scope, older: Scope): Scope {
    Scope(Later(newer.warning, older.warning), Later(newer.grant, older.grant), Later(newer.access, older.access))
  }

  /** The durable request over what is on screen: a live row keeps its extras. */
  function Requested(row: Option<Question>, call: ToolCall, scope: Scope): Question {
    match row
    case None => Question(call, false, None, None, None, None, scope)
    case Some(q) => q.(call := call, scope := LaterScope(scope, q.scope))
  }

  /** An envelope over what is on screen: what it carries replaces the row's. */
  function Over(row: Option<Question>, next: Question): Question {
    match row
    case None => next
    case Some(q) =>
      Question(next.call, next.interactive || q.interactive, Later(next.childSessionId, q.childSessionId),
               Later(next.definitionName, q.definitionName), Later(next.expiresAt, q.expiresAt),
               Later(next.guardWarning, q.guardWarning), LaterScope(next.scope, q.scope))
  }

  function ApprovalStep(rows: Rows, e: Event): Rows {
    match e
    case ApprovalRequest(_, _, id, call, scope) =>
      if Named(id) && call.Some? then Put(rows, id.value, Requested(Lookup(rows, id.value), call.value, scope))
        else rows
    case ApprovalDecision(_, _, id, _) => if Named(id) then Without(rows, id.value) else rows
    case CallDone(_, _, callId, _, _, _, _, _) => WithoutCall(rows, callId)
    case TurnEnd(_, _, _, _) => []
    case _ => rows
  }

  method ReconcileApprovals(pending: Rows, events: seq<Event>) returns (next: Rows)
    ensures next == Fold(ApprovalStep, pending, events)
  {
    next := pending;
    for i := 0 to |events|
      invariant next == Fold(ApprovalStep, pending, events[..i])
    {
      FoldSnoc(ApprovalStep, pending, events[..i], events[i]);
      assert events[..i + 1] == events[..i] + [events[i]];
      var event := events[i];
      if event.ApprovalRequest? && Named(event.approvalId) && event.call.Some? {
        var id := event.approvalId.value;
        next := Put(next, id, Requested(Lookup(next, id), event.call.value, event.scope));
      } else if event.ApprovalDecision? && Named(event.approvalId) {
        next := Without(next, event.approvalId.value);
      } else if event.CallDone? {
        next := WithoutCall(next, event.callId);
      } else if event.TurnEnd? {
        next := [];
      }
    }
    assert events[..|events|] == events;
  }

  // ---------- everything that writes the rows ----------

  /** What a page hears about questions: a logged event, an envelope, or its own dismissal. */
  datatype Heard =
    | Logged(event: Event)
    | Shown(id: string, question: Question)
    | Settled(id: string)
    | Dismissed(id: string)

  function HeardStep(rows: Rows, h: Heard): Rows {
    match h
    case Logged(e) => ApprovalStep(rows, e)
    case Shown(id, q) => Put(rows, id, Over(Lookup(rows, id), q))
    case Settled(id) => Without(rows, id)
    case Dismissed(id) => Without(rows, id)
  }

  function RowsOf(heard: seq<Heard>): Rows {
    if heard == [] then [] else HeardStep(RowsOf(heard[..|heard| - 1]), heard[|heard| - 1])
  }

  function LoggedOf(heard: seq<Heard>): seq<Event> {
    if heard == [] then []
    else LoggedOf(heard[..|heard| - 1]) + (match heard[|heard| - 1] case Logged(e) => [e] case _ => [])
  }

  function Facts(es: seq<Event>): seq<Heard> {
    seq(|es|, i requires 0 <= i < |es| => Logged(es[i]))
  }

  lemma HeardSnoc(heard: seq<Heard>, h: Heard)
    ensures RowsOf(heard + [h]) == HeardStep(RowsOf(heard), h)
    ensures LoggedOf(heard + [h]) == LoggedOf(heard) + match h case Logged(e) => [e] case _ => []
  {
    assert (heard + [h])[..|heard|] == heard;
  }

  /** Hearing a batch of the log is reconciling with it. */
  lemma {:induction false} HeardFacts(heard: seq<Heard>, es: seq<Event>)
    ensures RowsOf(heard + Facts(es)) == Fold(ApprovalStep, RowsOf(heard), es)
    ensures LoggedOf(heard + Facts(es)) == LoggedOf(heard) + es
    decreases |es|
  {
    hide ApprovalStep;
    if es == [] {
      assert heard + Facts(es) == heard;
    } else {
      var front, e := es[..|es| - 1], es[|es| - 1];
      HeardFacts(heard, front);
      assert heard + Facts(es) == (heard + Facts(front)) + [Logged(e)] && es == front + [e];
      HeardSnoc(heard + Facts(front), Logged(e));
      FoldSnoc(ApprovalStep, RowsOf(heard), front, e);
    }
  }

  // ---------- what the rows mean ----------

  predicate Asks(e: Event, id: string, call: ToolCall) {
    e.ApprovalRequest? && Named(e.approvalId) && e.approvalId.value == id && e.call == Some(call)
  }

  /** The event asks the same question again, answers it, or ends what it was about. */
  predicate Supersedes(e: Event, id: string, call: ToolCall) {
    match e
    case ApprovalRequest(_, _, other, again, _) => Named(other) && other.value == id && again.Some?
    case ApprovalDecision(_, _, other, _) => Named(other) && other.value == id
    case CallDone(_, _, callId, _, _, _, _, _) => callId == Some(call.id)
    case TurnEnd(_, _, _, _) => true
    case _ => false
  }

  /** Asked in the log, and nothing after it superseded the question. */
  ghost predicate StillPending(es: seq<Event>, id: string, call: ToolCall) {
    exists i | 0 <= i < |es| :: Asks(es[i], id, call) && forall j | i < j < |es| :: !Supersedes(es[j], id, call)
  }

  predicate Opens(h: Heard, id: string, call: ToolCall) {
    match h
    case Logged(e) => Asks(e, id, call)
    case Shown(other, q) => other == id && q.call == call
    case _ => false
  }

  predicate Ends(h: Heard, id: string, call: ToolCall) {
    match h
    case Logged(e) => Supersedes(e, id, call)
    case Shown(other, _) => other == id
    case Settled(other) => other == id
    case Dismissed(other) => other == id
  }

  /** Asked in the log or shown by an envelope, and nothing heard since ended or replaced it. */
  ghost predicate StillOpen(heard: seq<Heard>, id: string, call: ToolCall) {
    exists i | 0 <= i < |heard| :: Opens(heard[i], id, call) && forall j | i < j < |heard| :: !Ends(heard[j], id, call)
  }

  /** Shown by an envelope, and nothing heard since ended or replaced it. */
  ghost predicate StillShown(heard: seq<Heard>, id: string, call: ToolCall) {
    exists i | 0 <= i < |heard| ::
      heard[i].Shown? && Opens(heard[i], id, call) && forall j | i < j < |heard| :: !Ends(heard[j], id, call)
  }

  ghost predicate HasRow(rows: Rows, id: string, call: ToolCall) {
    exists q :: Entry(id, q) in rows && q.call == call
  }

  ghost predicate UniqueKeys(rows: Rows) {
    forall i, j | 0 <= i < j < |rows| :: rows[i].key != rows[j].key
  }

  lemma WithoutUnique(rows: Rows, key: string, callId: Option<string>)
    ensures UniqueKeys(rows) ==> UniqueKeys(Without(rows, key)) && UniqueKeys(WithoutCall(rows, callId))
  {
    if UniqueKeys(rows) {
      OneKeyFewer(rows, key);
      OneCallFewer(rows, callId);
    }
  }

  lemma {:induction false} OneKeyFewer(rows: Rows, key: string)
    requires UniqueKeys(rows)
    ensures UniqueKeys(Without(rows, key))
  {
    if rows != [] {
      OneKeyFewer(rows[1..], key);
      UniqueCons(rows, Without(rows[1..], key));
    }
  }

  lemma {:induction false} OneCallFewer(rows: Rows, callId: Option<string>)
    requires UniqueKeys(rows)
    ensures UniqueKeys(WithoutCall(rows, callId))
  {
    if rows != [] {
      OneCallFewer(rows[1..], callId);
      UniqueCons(rows, WithoutCall(rows[1..], callId));
    }
  }

  lemma UniqueCons(rows: Rows, rest: Rows)
    requires rows != [] && UniqueKeys(rows) && UniqueKeys(rest) && forall e | e in rest :: e in rows[1..]
    ensures UniqueKeys([] + rest) && UniqueKeys([rows[0]] + rest)
  {
    assert [] + rest == rest;
    forall e | e in rest ensures e.key != rows[0].key {
      var i :| 0 <= i < |rows[1..]| && rows[1..][i] == e;
      assert rows[i + 1] == e;
    }
  }

  lemma PutMembers(rows: Rows, key: string, row: Question)
    requires UniqueKeys(rows)
    ensures UniqueKeys(Put(rows, key, row))
    ensures forall e :: e in Put(rows, key, row) <==> e == Entry(key, row) || (e in rows && e.key != key)
  {
    var r := Put(rows, key, row);
    match Find(rows, key) {
      case Some(at) =>
        forall e | e in rows && e.key != key ensures e in r {
          var i :| 0 <= i < |rows| && rows[i] == e;
          assert r[i] == e;
        }
        assert r[at] == Entry(key, row);
      case None =>
        assert r[|rows|] == Entry(key, row);
    }
  }

  lemma StillOpenSnoc(heard: seq<Heard>, h: Heard, id: string, call: ToolCall)
    ensures StillOpen(heard + [h], id, call)
      <==> Opens(h, id, call) || (StillOpen(heard, id, call) && !Ends(h, id, call))
    ensures StillShown(heard + [h], id, call)
      <==> (h.Shown? && Opens(h, id, call)) || (StillShown(heard, id, call) && !Ends(h, id, call))
  {
    hide Opens, Ends;
    var all := heard + [h];
    assert all[|heard|] == h && forall j | 0 <= j < |heard| :: all[j] == heard[j];
    if StillOpen(all, id, call) && !Opens(h, id, call) {
      var i :| 0 <= i < |all| && Opens(all[i], id, call) && forall j | i < j < |all| :: !Ends(all[j], id, call);
      assert Opens(heard[i], id, call);
    }
    if StillShown(all, id, call) && !(h.Shown? && Opens(h, id, call)) {
      var i :| 0 <= i < |all| && all[i].Shown? && Opens(all[i], id, call)
        && forall j | i < j < |all| :: !Ends(all[j], id, call);
      assert Opens(heard[i], id, call);
    }
    if StillOpen(heard, id, call) && !Ends(h, id, call) {
      var i :| 0 <= i < |heard| && Opens(heard[i], id, call) && forall j | i < j < |heard| :: !Ends(heard[j], id, call);
      assert Opens(all[i], id, call);
    }
    if StillShown(heard, id, call) && !Ends(h, id, call) {
      var i :| 0 <= i < |heard| && heard[i].Shown? && Opens(heard[i], id, call)
        && forall j | i < j < |heard| :: !Ends(heard[j], id, call);
      assert Opens(all[i], id, call);
    }
  }

  lemma StillPendingSnoc(es: seq<Event>, e: Event, id: string, call: ToolCall)
    ensures StillPending(es + [e], id, call)
      <==> Asks(e, id, call) || (StillPending(es, id, call) && !Supersedes(e, id, call))
  {
    var all := es + [e];
    if StillPending(all, id, call) && !Asks(e, id, call) {
      var i :| 0 <= i < |all| && Asks(all[i], id, call) && forall j | i < j < |all| :: !Supersedes(all[j], id, call);
      assert Asks(es[i], id, call);
      assert forall j | i < j < |es| :: es[j] == all[j];
      assert !Supersedes(all[|es|], id, call);
    }
    if StillPending(es, id, call) && !Supersedes(e, id, call) {
      var i :| 0 <= i < |es| && Asks(es[i], id, call) && forall j | i < j < |es| :: !Supersedes(es[j], id, call);
      assert Asks(all[i], id, call);
    }
    if Asks(e, id, call) {
      assert Asks(all[|es|], id, call);
    }
  }

  /** One thing heard adds the row it opens and takes away the rows it ends. */
  lemma HeardStepMeans(rows: Rows, h: Heard)
    requires UniqueKeys(rows)
    ensures UniqueKeys(HeardStep(rows, h))
    ensures forall id, call ::
      HasRow(HeardStep(rows, h), id, call) <==> Opens(h, id, call) || (HasRow(rows, id, call) && !Ends(h, id, call))
  {
    hide Put, Lookup;
    match h {
      case Logged(e) =>
        match e {
          case ApprovalRequest(_, _, id, call, scope) =>
            if Named(id) && call.Some? {
              PutShows(rows, id.value, Requested(Lookup(rows, id.value), call.value, scope));
            }
          case ApprovalDecision(_, _, id, _) => WithoutUnique(rows, OrElse(id, ""), None);
          case CallDone(_, _, callId, _, _, _, _, _) => WithoutUnique(rows, "", callId);
          case _ =>
        }
      case Shown(id, q) => PutShows(rows, id, Over(Lookup(rows, id), q));
      case Settled(id) => WithoutUnique(rows, id, None);
      case Dismissed(id) => WithoutUnique(rows, id, None);
    }
  }

  lemma PutShows(rows: Rows, key: string, row: Question)
    requires UniqueKeys(rows)
    ensures UniqueKeys(Put(rows, key, row))
    ensures forall id, call ::
      HasRow(Put(rows, key, row), id, call) <==> if id == key then row.call == call else HasRow(rows, id, call)
  {
    hide Put;
    PutMembers(rows, key, row);
    assert Entry(key, row) in Put(rows, key, row);
  }

  /** The rows are exactly the open questions, one row per question. */
  lemma {:induction false} RowsAreOpen(heard: seq<Heard>)
    ensures UniqueKeys(RowsOf(heard))
    ensures forall id, call :: HasRow(RowsOf(heard), id, call) <==> StillOpen(heard, id, call)
  {
    hide HasRow, StillOpen, HeardStep, Opens, Ends;
    if heard == [] {
      NothingOpen(heard);
    } else {
      var front, h := heard[..|heard| - 1], heard[|heard| - 1];
      assert heard == front + [h];
      RowsAreOpen(front);
      HeardStepMeans(RowsOf(front), h);
      forall id, call ensures HasRow(RowsOf(heard), id, call) <==> StillOpen(heard, id, call) {
        StillOpenSnoc(front, h, id, call);
      }
    }
  }

  lemma NothingOpen(heard: seq<Heard>)
    requires heard == []
    ensures forall id, call :: !StillOpen(heard, id, call) && !HasRow([], id, call)
  {
  }

  /** No envelope and no dismissal was about this question. */
  ghost predicate Untouched(heard: seq<Heard>, id: string) {
    forall h | h in heard :: h.Logged? || h.id != id
  }

  /**
   * Whatever is open is pending in the log or was shown; what only the log spoke of is open just when it is
   * pending there.
   */
  lemma {:induction false} OpenMeans(heard: seq<Heard>, id: string, call: ToolCall)
    ensures StillOpen(heard, id, call) ==> StillPending(LoggedOf(heard), id, call) || StillShown(heard, id, call)
    ensures StillShown(heard, id, call) ==> StillOpen(heard, id, call)
    ensures Untouched(heard, id) ==> (StillOpen(heard, id, call) <==> StillPending(LoggedOf(heard), id, call))
  {
    hide StillOpen, StillPending, StillShown;
    if heard == [] {
      NothingOpen(heard);
      NothingPending(id, call);
    } else {
      var front, h := heard[..|heard| - 1], heard[|heard| - 1];
      assert heard == front + [h];
      OpenMeans(front, id, call);
      StillOpenSnoc(front, h, id, call);
      HeardSnoc(front, h);
      if h.Logged? {
        StillPendingSnoc(LoggedOf(front), h.event, id, call);
      } else {
        assert LoggedOf(heard) == LoggedOf(front);
      }
      assert Untouched(heard, id) ==> Untouched(front, id) && h in heard;
    }
  }

  lemma NothingPending(id: string, call: ToolCall)
    ensures !StillPending([], id, call) && !StillShown([], id, call)
  {
  }

  /** The list rebuilt from a log holds exactly the questions still pending in it, one row per question. */
  lemma RowsAreStillPending(es: seq<Event>)
    ensures UniqueKeys(Fold(ApprovalStep, [], es))
    ensures forall id, call :: HasRow(Fold(ApprovalStep, [], es), id, call) <==> StillPending(es, id, call)
  {
    hide StillPending, StillOpen, HasRow;
    HeardFacts([], es);
    assert [] + Facts(es) == Facts(es);
    RowsAreOpen(Facts(es));
    forall id, call ensures HasRow(Fold(ApprovalStep, [], es), id, call) <==> StillPending(es, id, call) {
      OpenMeans(Facts(es), id, call);
      assert [] + es == es;
    }
  }

  // ---------- the request and its envelope may race ----------

  predicate AgreeOn<T(==)>(a: Option<T>, b: Option<T>) {
    a.None? || b.None? || a == b
  }

  predicate SameScope(a: Scope, b: Scope) {
    AgreeOn(a.warning, b.warning) && AgreeOn(a.grant, b.grant) && AgreeOn(a.access, b.access)
  }

  /** A durable request and the envelope of the same question leave the same rows in either order. */
  lemma RequestAndEnvelopeRace(rows: Rows, e: Event, id: string, q: Question)
    requires Asks(e, id, q.call) && SameScope(e.scope, q.scope)
    ensures HeardStep(HeardStep(rows, Logged(e)), Shown(id, q)) == HeardStep(HeardStep(rows, Shown(id, q)), Logged(e))
  {
    hide Put, Lookup, Find;
    var row := Lookup(rows, id);
    var first, shown := Requested(row, q.call, e.scope), Over(row, q);
    LookupPut(rows, id, first, id);
    LookupPut(rows, id, shown, id);
    assert Over(Some(first), q) == Requested(Some(shown), q.call, e.scope);
    PutTwice(rows, id, first, Over(Some(first), q));
    PutTwice(rows, id, shown, Over(Some(first), q));
  }

  lemma {:induction false} PutTwice(rows: Rows, key: string, a: Question, b: Question)
    ensures Put(Put(rows, key, a), key, b) == Put(rows, key, b)
  {
    if rows == [] {
      assert Put(rows, key, a) == [Entry(key, a)];
    } else if rows[0].key != key {
      PutTwice(rows[1..], key, a, b);
      PutCons(rows, key, a);
      PutCons(rows, key, b);
      PutCons(Put(rows, key, a), key, b);
    }
  }

  lemma PutCons(rows: Rows, key: string, row: Question)
    requires rows != [] && rows[0].key != key
    ensures Put(rows, key, row)[0] == rows[0] && Put(rows, key, row)[1..] == Put(rows[1..], key, row)
    ensures Put(rows, key, row) == [rows[0]] + Put(rows[1..], key, row)
  {
  }

  // ---------- what a row says ----------

  /** A request or an envelope of this question. */
  predicate Tells(h: Heard, id: string) {
    match h
    case Logged(e) => e.ApprovalRequest? && Named(e.approvalId) && e.approvalId.value == id && e.call.Some?
    case Shown(other, _) => other == id
    case _ => false
  }

  predicate Telling(h: Heard) {
    h.Shown? || (h.Logged? && h.event.ApprovalRequest? && h.event.call.Some?)
  }

  function CallIn(h: Heard): ToolCall
    requires Telling(h)
  {
    match h
    case Logged(e) => e.call.value
    case Shown(_, q) => q.call
  }

  /** What was heard of the question since its row came up; nothing while there is none. */
  function Told(heard: seq<Heard>, id: string): (told: seq<Heard>)
    ensures forall k | 0 <= k < |told| :: Telling(told[k])
  {
    if heard == [] then []
    else
      var front, h := heard[..|heard| - 1], heard[|heard| - 1];
      var before := Told(front, id);
      if Tells(h, id) then before + [h]
      else if before != [] && Ends(h, id, CallIn(before[|before| - 1])) then []
      else before
  }

  /** The last of these values that is there. */
  function Last<T>(told: seq<Heard>, part: Heard -> Option<T>): Option<T> {
    if told == [] then None else Later(part(told[|told| - 1]), Last(told[..|told| - 1], part))
  }

  lemma LastSnoc<T>(told: seq<Heard>, h: Heard, part: Heard -> Option<T>)
    ensures Last(told + [h], part) == Later(part(h), Last(told, part))
  {
    assert (told + [h])[..|told|] == told;
  }

  function Child(h: Heard): Option<string> {
    if h.Shown? then h.question.childSessionId else None
  }

  function Definition(h: Heard): Option<string> {
    if h.Shown? then h.question.definitionName else None
  }

  function Expiry(h: Heard): Option<nat> {
    if h.Shown? then h.question.expiresAt else None
  }

  function Guard(h: Heard): Option<string> {
    if h.Shown? then h.question.guardWarning else None
  }

  function Scoped(h: Heard): Scope {
    match h
    case Logged(e) => if e.ApprovalRequest? then e.scope else Scope(None, None, None)
    case Shown(_, q) => q.scope
    case _ => Scope(None, None, None)
  }

  function Warning(h: Heard): Option<string> {
    Scoped(h).warning
  }

  function Proposed(h: Heard): Option<string> {
    Scoped(h).grant
  }

  function Access(h: Heard): Option<string> {
    Scoped(h).access
  }

  /** The latest call, and of every other fact the latest that was told. */
  ghost predicate Says(q: Question, told: seq<Heard>)
    requires told != [] && forall k | 0 <= k < |told| :: Telling(told[k])
  {
    && q.call == CallIn(told[|told| - 1]) && (q.interactive <==> EverInteractive(told))
    && q.childSessionId == Last(told, Child) && q.definitionName == Last(told, Definition)
    && q.expiresAt == Last(told, Expiry) && q.guardWarning == Last(told, Guard)
    && q.scope == Scope(Last(told, Warning), Last(told, Proposed), Last(told, Access))
  }

  ghost predicate EverInteractive(told: seq<Heard>) {
    exists k | 0 <= k < |told| :: told[k].Shown? && told[k].question.interactive
  }

  lemma LastOne<T>(h: Heard, part: Heard -> Option<T>)
    ensures Last([h], part) == part(h)
  {
    assert [h] == [] + [h];
    LastSnoc([], h, part);
  }

  lemma SaysNew(h: Heard)
    requires Telling(h)
    ensures Says(match h case Logged(e) => Requested(None, e.call.value, e.scope) case Shown(_, q) => q, [h])
  {
    hide Last, EverInteractive;
    LastOne(h, Child);
    LastOne(h, Definition);
    LastOne(h, Expiry);
    LastOne(h, Guard);
    LastOne(h, Warning);
    LastOne(h, Proposed);
    LastOne(h, Access);
    InteractiveSnoc([], h);
    assert [] + [h] == [h];
  }

  lemma SaysMore(q: Question, told: seq<Heard>, h: Heard)
    requires Telling(h) && told != [] && (forall k | 0 <= k < |told| :: Telling(told[k])) && Says(q, told)
    ensures Says(match h case Logged(e) => Requested(Some(q), e.call.value, e.scope) case Shown(_, n) =>
                 Over(Some(q), n),
                 told + [h])
  {
    hide Last, EverInteractive;
    LastSnoc(told, h, Child);
    LastSnoc(told, h, Definition);
    LastSnoc(told, h, Expiry);
    LastSnoc(told, h, Guard);
    LastSnoc(told, h, Warning);
    LastSnoc(told, h, Proposed);
    LastSnoc(told, h, Access);
    InteractiveSnoc(told, h);
    assert (told + [h])[|told|] == h;
  }

  lemma InteractiveSnoc(told: seq<Heard>, h: Heard)
    ensures EverInteractive(told + [h]) <==> EverInteractive(told) || (h.Shown? && h.question.interactive)
    ensures !EverInteractive([])
  {
    var all := told + [h];
    assert all[|told|] == h;
    if k :| 0 <= k < |told| && told[k].Shown? && told[k].question.interactive { assert all[k] == told[k]; }
  }

  lemma LookupCons(row: Entry<Question>, rest: Rows, key: string)
    ensures Lookup([row] + rest, key) == if row.key == key then Some(row.row) else Lookup(rest, key)
    ensures [] + rest == rest
  {
    assert ([row] + rest)[1..] == rest;
  }

  lemma {:induction false} LookupWithout(rows: Rows, key: string, other: string)
    ensures Lookup(Without(rows, key), other) == if other == key then None else Lookup(rows, other)
  {
    if rows != [] {
      LookupWithout(rows[1..], key, other);
      assert rows == [rows[0]] + rows[1..];
      hide Lookup;
      LookupCons(rows[0], rows[1..], other);
      LookupCons(rows[0], Without(rows[1..], key), other);
    }
  }

  lemma {:induction false} LookupWithoutCall(rows: Rows, callId: Option<string>, id: string)
    requires UniqueKeys(rows)
    ensures var row := Lookup(rows, id);
      Lookup(WithoutCall(rows, callId), id) == if row.Some? && Some(row.value.call.id) == callId then None else row
  {
    hide Lookup, UniqueKeys;
    if rows == [] {
      NoRow(id);
    } else {
      UniqueRest(rows);
      LookupWithoutCall(rows[1..], callId, id);
      if rows[0].key == id { NotAgain(rows, callId); }
      assert rows == [rows[0]] + rows[1..];
      LookupCons(rows[0], rows[1..], id);
      LookupCons(rows[0], WithoutCall(rows[1..], callId), id);
    }
  }

  lemma UniqueRest(rows: Rows)
    requires UniqueKeys(rows) && rows != []
    ensures UniqueKeys(rows[1..])
  {
    assert forall i | 0 <= i < |rows[1..]| :: rows[1..][i] == rows[i + 1];
  }

  lemma NotAgain(rows: Rows, callId: Option<string>)
    requires UniqueKeys(rows) && rows != []
    ensures Lookup(rows[1..], rows[0].key).None? && Lookup(WithoutCall(rows[1..], callId), rows[0].key).None?
  {
    var rest := rows[1..];
    forall e | e in rest ensures e.key != rows[0].key {
      var i :| 0 <= i < |rest| && rest[i] == e;
      assert rows[i + 1] == e;
    }
    NoSuchKey(rest, rows[0].key);
    NoSuchKey(WithoutCall(rest, callId), rows[0].key);
  }

  lemma {:induction false} NoSuchKey(rows: Rows, key: string)
    requires forall e | e in rows :: e.key != key
    ensures Lookup(rows, key).None?
  {
    if rows != [] {
      assert rows[0] in rows;
      NoSuchKey(rows[1..], key);
    }
  }

  /** The row of a question, whatever was heard: there is one exactly while something is told, and it says that. */
  lemma {:induction false} RowReads(heard: seq<Heard>, id: string)
    ensures var told, row := Told(heard, id), Lookup(RowsOf(heard), id);
      (row.Some? <==> told != []) && (row.Some? ==> Says(row.value, told))
  {
    hide Says, HeardStep, UniqueKeys, HasRow, StillOpen;
    if heard != [] {
      var front, h := heard[..|heard| - 1], heard[|heard| - 1];
      assert heard == front + [h];
      RowReads(front, id);
      RowsAreOpen(front);
      StepReads(RowsOf(front), Told(front, id), h, id);
    }
  }

  lemma StepReads(rows: Rows, told: seq<Heard>, h: Heard, id: string)
    requires UniqueKeys(rows) && forall k | 0 <= k < |told| :: Telling(told[k])
    requires Lookup(rows, id).Some? <==> told != []
    requires told != [] ==> Says(Lookup(rows, id).value, told)
    ensures var after := Lookup(HeardStep(rows, h), id);
      if Tells(h, id) then after.Some? && Telling(h) && Says(after.value, told + [h])
      else after == if told != [] && Ends(h, id, CallIn(told[|told| - 1])) then None else Lookup(rows, id)
  {
    hide UniqueKeys, Find, Put;
    var before := Lookup(rows, id);
    if told != [] { assert before.value.call == CallIn(told[|told| - 1]); }
    hide Says, Lookup;
    if Tells(h, id) {
      SaysNew(h);
      if told != [] { SaysMore(before.value, told, h); } else { assert told + [h] == [h]; }
    }
    match h {
      case Logged(e) =>
        match e {
          case ApprovalRequest(_, _, other, call, scope) =>
            if Named(other) && call.Some? {
              LookupPut(rows, other.value, Requested(Lookup(rows, other.value), call.value, scope), id);
            }
          case ApprovalDecision(_, _, other, _) => if Named(other) { LookupWithout(rows, other.value, id); }
          case CallDone(_, _, callId, _, _, _, _, _) => LookupWithoutCall(rows, callId, id);
          case TurnEnd(_, _, _, _) => NoRow(id);
          case _ =>
        }
      case Shown(other, q) => LookupPut(rows, other, Over(Lookup(rows, other), q), id);
      case Settled(other) => LookupWithout(rows, other, id);
      case Dismissed(other) => LookupWithout(rows, other, id);
    }
  }

  lemma NoRow(id: string)
    ensures Lookup<Question>([], id).None?
  {
  }
}
