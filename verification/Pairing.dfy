/**
 * Pairing codes, browser sessions and bearers (src/web/control-plane-auth.ts:
 * 20-23, 105-256). Random values are numbers never drawn before, the keyed
 * verifier is injective, and every call reads the clock once.
 */
module Pairing {
  import opened Events

  const SESSION_TTL_MS: nat := 12 * 60 * 60 * 1000
  const PAIRING_TTL_MS: nat := 5 * 60 * 1000
  const MAX_PAIRING_FAILURES: nat := 8
  const PAIRING_LOCK_MS: nat := 60000

  datatype Session = Session(generation: nat, expiresAt: nat)
  datatype Challenge = Challenge(code: nat, expiresAt: nat)
  datatype Bearer = Bearer(secret: nat, revoked: bool)

  datatype Auth = Auth(
    sessions: map<nat, Session>,
    bearers: map<nat, Bearer>,
    pairing: Option<Challenge>,
    pairingFailures: nat,
    pairingLockedUntil: nat,
    generation: nat)

  const Locked := Auth(map[], map[], None, 0, 0, 1)

  datatype Outcome = Opened(session: nat) | Rejected | LockedOut

  // ---------- the value of each call ----------

  function Issued(a: Auth, now: nat, code: nat): Auth {
    a.(pairing := Some(Challenge(code, now + PAIRING_TTL_MS)))
  }

  predicate Matches(a: Auth, now: nat, code: nat) {
    a.pairing.Some? && a.pairing.value.expiresAt > now && a.pairing.value.code == code
  }

  function RedeemOutcome(a: Auth, now: nat, code: nat, session: nat): Outcome {
    if a.pairingLockedUntil > now then LockedOut
    else if Matches(a, now, code) then Opened(session)
    else Rejected
  }

  function Redeemed(a: Auth, now: nat, code: nat, session: nat): Auth {
    match RedeemOutcome(a, now, code, session)
    case LockedOut => a
    case Rejected =>
      if a.pairingFailures + 1 >= MAX_PAIRING_FAILURES
        then a.(pairingFailures := 0, pairingLockedUntil := now + PAIRING_LOCK_MS)
      else a.(pairingFailures := a.pairingFailures + 1)
    case Opened(id) =>
      a.(pairing := None, pairingFailures := 0, generation := a.generation + 1,
         sessions := a.sessions[id := Session(a.generation + 1, now + SESSION_TTL_MS)])
  }

  function Revoked(a: Auth, id: nat): Auth {
    if id in a.sessions then a.(sessions := a.sessions - {id}, generation := a.generation + 1) else a
  }

  function LoggedOut(a: Auth): Auth {
    a.(sessions := map[], generation := a.generation + 1)
  }

  function BearerIssued(a: Auth, id: nat, secret: nat): Auth {
    a.(bearers := a.bearers[id := Bearer(secret, false)])
  }

  function BearerRevoked(a: Auth, id: nat): Auth {
    if id !in a.bearers then a
    else a.(bearers := a.bearers[id := a.bearers[id].(revoked := true)], generation := a.generation + 1)
  }

  /** A session the cookie still opens at this moment. */
  predicate Live(a: Auth, now: nat, id: nat) {
    id in a.sessions && a.sessions[id].expiresAt > now && a.sessions[id].generation == a.generation
  }

  /** `trusted`: the method is safe, or the origin and the CSRF token are right. */
  function CookieUsed(a: Auth, now: nat, id: nat, trusted: bool): Auth {
    if id !in a.sessions || a.sessions[id].expiresAt <= now then a.(sessions := a.sessions - {id})
    else if a.sessions[id].generation != a.generation || !trusted then a
    else a.(sessions := a.sessions[id := a.sessions[id].(expiresAt := now + SESSION_TTL_MS)])
  }

  predicate BearerAccepted(a: Auth, id: nat, secret: nat) {
    id in a.bearers && !a.bearers[id].revoked && a.bearers[id].secret == secret
  }

  // ---------- the service ----------

  class ControlPlaneAuthService {
    var sessions: map<nat, Session>
    var bearers: map<nat, Bearer>
    var pairing: Option<Challenge>
    var pairingFailures: nat
    var pairingLockedUntil: nat
    var generation: nat

    ghost function Value(): Auth
      reads this
    {
      Auth(sessions, bearers, pairing, pairingFailures, pairingLockedUntil, generation)
    }

    constructor ()
      ensures Value() == Locked
    {
      sessions, bearers, pairing, pairingFailures, pairingLockedUntil, generation := map[], map[], None, 0, 0, 1;
    }

    method IssuePairingCode(now: nat, code: nat) returns (expiresAt: nat)
      modifies this
      ensures Value() == Issued(old(Value()), now, code) && expiresAt == now + PAIRING_TTL_MS
    {
      expiresAt := now + PAIRING_TTL_MS;
      pairing := Some(Challenge(code, expiresAt));
    }

    method RedeemPairingCode(now: nat, code: nat, session: nat) returns (outcome: Outcome)
      modifies this
      ensures outcome == RedeemOutcome(old(Value()), now, code, session)
      ensures Value() == Redeemed(old(Value()), now, code, session)
    {
      if pairingLockedUntil > now { return LockedOut; }
      var pending := pairing;
      var matches := pending.Some? && pending.value.expiresAt > now && pending.value.code == code;
      if !matches {
        pairingFailures := pairingFailures + 1;
        if pairingFailures >= MAX_PAIRING_FAILURES {
          pairingLockedUntil := now + PAIRING_LOCK_MS;
          pairingFailures := 0;
        }
        return Rejected;
      }
      pairing := None;
      pairingFailures := 0;
      generation := generation + 1;
      sessions := sessions[session := Session(generation, now + SESSION_TTL_MS)];
      outcome := Opened(session);
    }

    method RevokeBrowserSession(id: nat)
      modifies this
      ensures Value() == Revoked(old(Value()), id)
    {
      if id !in sessions { return; }
      sessions := sessions - {id};
      generation := generation + 1;
    }

    method LogoutAll()
      modifies this
      ensures Value() == LoggedOut(old(Value()))
    {
      sessions := map[];
      generation := generation + 1;
    }

    method IssueBearer(id: nat, secret: nat)
      modifies this
      ensures Value() == BearerIssued(old(Value()), id, secret)
    {
      bearers := bearers[id := Bearer(secret, false)];
    }

    method RevokeBearer(id: nat)
      modifies this
      ensures Value() == BearerRevoked(old(Value()), id)
    {
      if id !in bearers { return; }
      bearers := bearers[id := bearers[id].(revoked := true)];
      generation := generation + 1;
    }

    method AuthenticateCookie(now: nat, id: nat, trusted: bool) returns (ok: bool)
      modifies this
      ensures ok <==> Live(old(Value()), now, id) && trusted
      ensures Value() == CookieUsed(old(Value()), now, id, trusted)
    {
      if id !in sessions || sessions[id].expiresAt <= now {
        sessions := sessions - {id};
        return false;
      }
      if sessions[id].generation != generation { return false; }
      if !trusted { return false; }
      sessions := sessions[id := sessions[id].(expiresAt := now + SESSION_TTL_MS)];
      ok := true;
    }
  }

  // ---------- whole runs ----------

  datatype Call =
    | IssueCode
    | Redeem(code: nat)
    | Revoke(id: nat)
    | LogoutAll
    | IssueBearer
    | RevokeBearer(id: nat)
    | UseCookie(id: nat, trusted: bool)

  /** A call made `after` milliseconds after the previous one. */
  datatype Action = Action(after: nat, call: Call)

  /** `drawn` counts the random values so far; `spent` lists the codes that opened a session. */
  datatype World = World(auth: Auth, clock: nat, drawn: nat, issued: set<nat>, spent: seq<nat>)

  const Start := World(Locked, 0, 0, {}, [])

  function Next(w: World, a: Action): World {
    var now, n := w.clock + a.after, w.drawn;
    var w1 := w.(clock := now, drawn := n + 1);
    match a.call
    case IssueCode => w1.(auth := Issued(w.auth, now, n), issued := w.issued + {n})
    case Redeem(code) =>
      w1.(auth := Redeemed(w.auth, now, code, n),
          spent := if RedeemOutcome(w.auth, now, code, n).Opened? then w.spent + [code] else w.spent)
    case Revoke(id) => w1.(auth := Revoked(w.auth, id))
    case LogoutAll => w1.(auth := LoggedOut(w.auth))
    case IssueBearer => w1.(auth := BearerIssued(w.auth, n, n))
    case RevokeBearer(id) => w1.(auth := BearerRevoked(w.auth, id))
    case UseCookie(id, trusted) => w1.(auth := CookieUsed(w.auth, now, id, trusted))
  }

  function RunFrom(w: World, actions: seq<Action>): World {
    if actions == [] then w else Next(RunFrom(w, actions[..|actions| - 1]), actions[|actions| - 1])
  }

  function OutcomeOf(w: World, a: Action): Option<Outcome> {
    if a.call.Redeem? then Some(RedeemOutcome(w.auth, w.clock + a.after, a.call.code, w.drawn)) else None
  }

  ghost predicate Inv(w: World) {
    && w.auth.pairingFailures < MAX_PAIRING_FAILURES
    && (forall c | c in w.issued :: c < w.drawn)
    && (w.auth.pairing.Some? ==> w.auth.pairing.value.code in w.issued && w.auth.pairing.value.code !in w.spent)
    && (forall i | 0 <= i < |w.spent| :: w.spent[i] in w.issued)
    && (forall i, j | 0 <= i < j < |w.spent| :: w.spent[i] != w.spent[j])
    && (forall id | id in w.auth.sessions :: id < w.drawn && w.auth.sessions[id].generation <= w.auth.generation)
    && (forall i, j | i in w.auth.sessions && j in w.auth.sessions
          && w.auth.sessions[i].generation == w.auth.sessions[j].generation :: i == j)
  }

  lemma NextKeeps(w: World, a: Action)
    requires Inv(w)
    ensures Inv(Next(w, a))
  {
    match a.call {
      case IssueCode => assert w.drawn !in w.spent;
      case Redeem(code) =>
      case UseCookie(id, trusted) =>
      case _ =>
    }
  }

  lemma {:induction false} RunKeeps(w: World, actions: seq<Action>)
    requires Inv(w)
    ensures Inv(RunFrom(w, actions))
  {
    if actions != [] {
      RunKeeps(w, actions[..|actions| - 1]);
      NextKeeps(RunFrom(w, actions[..|actions| - 1]), actions[|actions| - 1]);
    }
  }

  /** Each issued code opens at most one session, and only an issued one opens any. */
  lemma CodesOpenOnce(actions: seq<Action>)
    ensures var w := RunFrom(Start, actions);
      && (forall i | 0 <= i < |w.spent| :: w.spent[i] in w.issued)
      && (forall i, j | 0 <= i < j < |w.spent| :: w.spent[i] != w.spent[j])
  {
    RunKeeps(Start, actions);
  }

  /** At any moment at most one browser session opens the host. */
  lemma OneLiveSession(actions: seq<Action>, now: nat, i: nat, j: nat)
    requires Live(RunFrom(Start, actions).auth, now, i) && Live(RunFrom(Start, actions).auth, now, j)
    ensures i == j
  {
    RunKeeps(Start, actions);
  }

  // ---------- a session that is gone stays gone ----------

  lemma StaysDead(w: World, a: Action, id: nat)
    requires Inv(w) && id < w.drawn && !Live(w.auth, w.clock, id)
    ensures !Live(Next(w, a).auth, Next(w, a).clock, id) && id < Next(w, a).drawn
  {
    match a.call {
      case Redeem(code) => assert w.drawn !in w.auth.sessions;
      case Revoke(other) =>
      case UseCookie(other, trusted) =>
      case _ =>
    }
  }

  /**
   * A session that was logged out, revoked, superseded by a new pairing or a
   * bearer's revocation, or left to expire, is never accepted again.
   */
  lemma {:induction false} OnceDeadAlwaysDead(before: seq<Action>, after: seq<Action>, id: nat)
    requires var w := RunFrom(Start, before); id < w.drawn && !Live(w.auth, w.clock, id)
    ensures var w := RunFrom(RunFrom(Start, before), after);
      id < w.drawn && !Live(w.auth, w.clock, id)
    decreases |after|
  {
    if after != [] {
      var front := after[..|after| - 1];
      OnceDeadAlwaysDead(before, front, id);
      RunKeeps(Start, before);
      RunKeeps(RunFrom(Start, before), front);
      StaysDead(RunFrom(RunFrom(Start, before), front), after[|after| - 1], id);
    }
  }

  /** What ends every session at once; a revoked session ends, and so do all others. */
  lemma EndsAllSessions(w: World, a: Action, id: nat)
    requires Inv(w)
    requires a.call.LogoutAll? || (a.call.Revoke? && a.call.id in w.auth.sessions)
      || (a.call.RevokeBearer? && a.call.id in w.auth.bearers)
          || OutcomeOf(w, a) == Some(Opened(w.drawn))
    requires id < w.drawn
    ensures !Live(Next(w, a).auth, Next(w, a).clock, id)
  {
  }

  /** A revoked bearer is never accepted again, whatever secret comes with it. */
  lemma {:induction false} RevokedBearerStaysRevoked(w: World, actions: seq<Action>, id: nat, secret: nat)
    requires id < w.drawn && id in w.auth.bearers && w.auth.bearers[id].revoked
    ensures var w' := RunFrom(w, actions);
      id < w'.drawn && id in w'.auth.bearers && w'.auth.bearers[id].revoked && !BearerAccepted(w'.auth, id, secret)
  {
    if actions != [] {
      RevokedBearerStaysRevoked(w, actions[..|actions| - 1], id, secret);
    }
  }

  // ---------- how many codes can be tried ----------

  /** Codes evaluated and rejected along the way. */
  function Rejections(w: World, actions: seq<Action>): nat {
    if actions == [] then 0
    else
      var front := actions[..|actions| - 1];
      Rejections(w, front) + if OutcomeOf(RunFrom(w, front), actions[|actions| - 1]) == Some(Rejected) then 1 else 0
  }

  ghost predicate NoneOpened(w: World, actions: seq<Action>) {
    actions == []
    || (var front := actions[..|actions| - 1];
        var outcome := OutcomeOf(RunFrom(w, front), actions[|actions| - 1]);
        NoneOpened(w, front) && !(outcome.Some? && outcome.value.Opened?))
  }

  /** What one call does to the failure count and the lock, when it opens nothing. */
  lemma StepCounts(w: World, a: Action)
    requires Inv(w) && !(OutcomeOf(w, a).Some? && OutcomeOf(w, a).value.Opened?)
    ensures var w', now := Next(w, a), w.clock + a.after;
      && w'.clock == now
      && if OutcomeOf(w, a) == Some(Rejected) then
           && w.auth.pairingLockedUntil <= now
           && (if w.auth.pairingFailures == 7
               then w'.auth.pairingFailures == 0 && w'.auth.pairingLockedUntil == now + 60000
               else
                 && w'.auth.pairingFailures == w.auth.pairingFailures + 1
                 && w'.auth.pairingLockedUntil == w.auth.pairingLockedUntil)
         else
           w'.auth.pairingFailures == w.auth.pairingFailures && w'.auth.pairingLockedUntil == w.auth.pairingLockedUntil
  {
  }

  /** Every eight failures make a lock, a minute long; between two rejections of a block nothing has to pass. */
  lemma {:induction false} LocksCount(w: World, actions: seq<Action>) returns (locks: nat, minutes: nat)
    requires Inv(w) && NoneOpened(w, actions)
    ensures var w' := RunFrom(w, actions);
      && Rejections(w, actions) + w.auth.pairingFailures == 8 * locks + w'.auth.pairingFailures
      && (locks > 0 ==> w'.auth.pairingLockedUntil >= w.clock + 60000 * locks)
      && w.clock + 60000 * minutes <= w'.clock
      && Rejections(w, actions) <= 8 * minutes + 8
  {
    if actions == [] {
      locks, minutes := 0, 0;
    } else {
      var front, a := actions[..|actions| - 1], actions[|actions| - 1];
      locks, minutes := LocksCount(w, front);
      RunKeeps(w, front);
      hide Inv, Next, OutcomeOf;
      var before := RunFrom(w, front);
      CountsInRange(before);
      StepCounts(before, a);
      if OutcomeOf(before, a) == Some(Rejected) {
        minutes := locks;
        if before.auth.pairingFailures == 7 {
          locks := locks + 1;
        }
      }
    }
  }

  lemma MinutesFit(span: nat, minutes: nat)
    requires 60000 * minutes <= span
    ensures 8 * minutes + 8 <= 8 * (span / 60000 + 1)
  {
  }

  lemma CountsInRange(w: World)
    requires Inv(w)
    ensures w.auth.pairingFailures < 8
  {
  }

  /**
   * Between two successful pairings, any span of T ms of any run sees at most
   * 8 * (T / 60000 + 1) codes evaluated and rejected.
   */
  lemma GuessesAreBounded(before: seq<Action>, span: seq<Action>)
    requires NoneOpened(RunFrom(Start, before), span)
    ensures var w := RunFrom(Start, before);
      Rejections(w, span) <= 8 * ((RunFrom(w, span).clock - w.clock) / 60000 + 1)
  {
    RunKeeps(Start, before);
    hide *;
    var w := RunFrom(Start, before);
    var _, minutes := LocksCount(w, span);
    MinutesFit(RunFrom(w, span).clock - w.clock, minutes);
  }

  // ---------- what each call answers, read off the calls before it ----------

  /** Milliseconds passed. Call number `i` draws the random value `i`. */
  function Elapsed(actions: seq<Action>): nat {
    if actions == [] then 0 else Elapsed(actions[..|actions| - 1]) + actions[|actions| - 1].after
  }

  function AnswerAt(actions: seq<Action>, i: nat): Option<Outcome>
    requires i < |actions|
  {
    OutcomeOf(RunFrom(Start, actions[..i]), actions[i])
  }

  predicate Opens(actions: seq<Action>, i: nat)
    requires i < |actions|
  {
    AnswerAt(actions, i) == Some(Opened(i))
  }

  predicate Rejects(actions: seq<Action>, i: nat)
    requires i < |actions|
  {
    AnswerAt(actions, i) == Some(Rejected)
  }

  /** Rejections since the last opening. */
  function Failed(actions: seq<Action>): nat {
    if actions == [] then 0
    else
      var n := |actions| - 1;
      if Opens(actions, n) then 0 else Failed(actions[..n]) + if Rejects(actions, n) then 1 else 0
  }

  /** Every eighth rejection since the last opening locks. */
  predicate Locks(actions: seq<Action>, i: nat)
    requires i < |actions|
  {
    Rejects(actions, i) && Failed(actions[..i + 1]) % 8 == 0
  }

  ghost predicate LockInForce(before: seq<Action>, now: nat) {
    exists i: nat :: i < |before| && Locks(before, i) && now < Elapsed(before[..i + 1]) + 60000
  }

  /** The code that call `k` issued is the one last issued, and nothing opened since. */
  ghost predicate Pending(before: seq<Action>, k: nat) {
    && k < |before| && before[k].call.IssueCode?
    && forall j | k < j < |before| :: !before[j].call.IssueCode? && !Opens(before, j)
  }

  lemma AnswerBefore(actions: seq<Action>, a: Action, i: nat)
    requires i < |actions|
    ensures AnswerAt(actions + [a], i) == AnswerAt(actions, i)
  {
    assert (actions + [a])[..i] == actions[..i];
  }

  lemma AnswerNow(actions: seq<Action>, a: Action)
    ensures AnswerAt(actions + [a], |actions|) == OutcomeOf(RunFrom(Start, actions), a)
    ensures RunFrom(Start, actions + [a]) == Next(RunFrom(Start, actions), a)
    ensures Elapsed(actions + [a]) == Elapsed(actions) + a.after
  {
    hide Next, OutcomeOf;
    assert (actions + [a])[..|actions|] == actions;
  }

  lemma {:induction false} ElapsedGrows(actions: seq<Action>, i: nat)
    requires i <= |actions|
    ensures Elapsed(actions[..i]) <= Elapsed(actions)
  {
    if i == |actions| {
      assert actions[..i] == actions;
    } else {
      ElapsedGrows(actions[..|actions| - 1], i);
      assert actions[..|actions| - 1][..i] == actions[..i];
    }
  }

  // The service's counters as functions of the calls.

  function LastCode(actions: seq<Action>): Option<nat> {
    if actions == [] then None
    else
      var n := |actions| - 1;
      if actions[n].call.IssueCode? then Some(n) else if Opens(actions, n) then None else LastCode(actions[..n])
  }

  function LockEnd(actions: seq<Action>): nat {
    if actions == [] then 0
    else
      var n := |actions| - 1;
      if Locks(actions, n) then Elapsed(actions) + 60000 else LockEnd(actions[..n])
  }

  /** The code that waits, the failure count and the lock hold just what the calls say. */
  ghost predicate Kept(w: World, actions: seq<Action>) {
    && w.drawn == |actions| && w.clock == Elapsed(actions)
    && (match LastCode(actions)
        case Some(k) => k < |actions| && w.auth.pairing == Some(Challenge(k, Elapsed(actions[..k + 1]) + 300000))
        case None => w.auth.pairing == None)
    && w.auth.pairingFailures == Failed(actions) % 8
    && w.auth.pairingLockedUntil == LockEnd(actions)
  }

  lemma {:induction false} CallsKept(actions: seq<Action>)
    ensures Kept(RunFrom(Start, actions), actions)
  {
    if actions == [] {
      assert LastCode(actions) == None;
    } else {
      var front, a := actions[..|actions| - 1], actions[|actions| - 1];
      assert actions == front + [a];
      CallsKept(front);
      AnswerNow(front, a);
      hide RunFrom;
      CallKept(RunFrom(Start, front), front, a);
    }
  }

  lemma CallKept(w: World, front: seq<Action>, a: Action)
    requires Kept(w, front) && w == RunFrom(Start, front)
    ensures Kept(Next(w, a), front + [a])
  {
    hide RunFrom;
    var actions, n := front + [a], |front|;
    assert actions[..n] == front && actions[..n + 1] == actions;
    AnswerNow(front, a);
    CountersAfter(w, a);
    hide Next, OutcomeOf, Elapsed;
    CodeKept(w, front, a);
    LockKept(w, front, a);
  }

  lemma CodeKept(w: World, front: seq<Action>, a: Action)
    requires Kept(w, front) && w == RunFrom(Start, front)
    ensures var actions := front + [a];
      match LastCode(actions)
      case Some(k) => k < |actions| && Next(w, a).auth.pairing == Some(Challenge(k, Elapsed(actions[..k + 1]) + 300000))
      case None => Next(w, a).auth.pairing == None
  {
    hide RunFrom, LockEnd, Failed;
    var actions, n := front + [a], |front|;
    assert actions[..n] == front && actions[..n + 1] == actions;
    AnswerNow(front, a);
    CountersAfter(w, a);
    hide Next, OutcomeOf;
    if LastCode(front).Some? {
      assert actions[..LastCode(front).value + 1] == front[..LastCode(front).value + 1];
    }
  }

  lemma LockKept(w: World, front: seq<Action>, a: Action)
    requires Kept(w, front) && w == RunFrom(Start, front)
    ensures var actions, auth := front + [a], Next(w, a).auth;
      auth.pairingFailures == Failed(actions) % 8 && auth.pairingLockedUntil == LockEnd(actions)
  {
    hide RunFrom, LastCode;
    var actions, n := front + [a], |front|;
    assert actions[..n] == front && actions[..n + 1] == actions;
    AnswerNow(front, a);
    CountersAfter(w, a);
    hide Next, OutcomeOf, AnswerAt;
    assert Failed(actions) == if Opens(actions, n) then 0 else Failed(front) + if Rejects(actions, n) then 1 else 0;
  }

  /** What one call does to the counters. */
  lemma CountersAfter(w: World, a: Action)
    ensures var w', now, answer := Next(w, a), w.clock + a.after, OutcomeOf(w, a);
      && w'.clock == now && w'.drawn == w.drawn + 1
      && w'.auth.pairing == (if a.call.IssueCode? then Some(Challenge(w.drawn, now + 300000))
                             else if answer == Some(Opened(w.drawn)) then None else w.auth.pairing)
      && (answer == Some(Opened(w.drawn))
          ==> w'.auth.pairingFailures == 0 && w'.auth.pairingLockedUntil == w.auth.pairingLockedUntil)
      && (answer == Some(Rejected) && w.auth.pairingFailures < 7 ==>
            w'.auth.pairingFailures == w.auth.pairingFailures + 1
              && w'.auth.pairingLockedUntil == w.auth.pairingLockedUntil)
      && (answer == Some(Rejected) && w.auth.pairingFailures >= 7 ==>
            w'.auth.pairingFailures == 0 && w'.auth.pairingLockedUntil == now + 60000)
      && (answer == None || answer == Some(LockedOut) ==>
            w'.auth.pairingFailures == w.auth.pairingFailures
              && w'.auth.pairingLockedUntil == w.auth.pairingLockedUntil)
  {
  }

  lemma {:induction false} LastCodeMeans(actions: seq<Action>, k: nat)
    ensures LastCode(actions) == Some(k) <==> Pending(actions, k)
  {
    hide AnswerAt;
    if actions != [] {
      var n := |actions| - 1;
      var front := actions[..n];
      assert actions == front + [actions[n]];
      LastCodeMeans(front, k);
      forall j: nat | j < n ensures Opens(actions, j) == Opens(front, j) {
        AnswerBefore(front, actions[n], j);
      }
      if k < n {
        assert Pending(actions, k) ==> !Opens(actions, n);
        assert forall j | k < j < n :: front[j] == actions[j];
      }
    }
  }

  lemma LocksBefore(front: seq<Action>, a: Action, i: nat)
    requires i < |front|
    ensures Locks(front + [a], i) == Locks(front, i)
  {
    hide AnswerAt, Failed;
    AnswerBefore(front, a, i);
    assert (front + [a])[..i + 1] == front[..i + 1];
  }

  lemma {:induction false} LockMeans(actions: seq<Action>, now: nat)
    requires now >= Elapsed(actions)
    ensures now < LockEnd(actions) <==> LockInForce(actions, now)
  {
    hide Locks;
    if actions != [] {
      var n := |actions| - 1;
      var front := actions[..n];
      assert actions == front + [actions[n]] && actions[..n + 1] == actions;
      LockMeans(front, now);
      forall i: nat | i < n ensures Locks(actions, i) == Locks(front, i) && actions[..i + 1] == front[..i + 1] {
        LocksBefore(front, actions[n], i);
      }
      if LockInForce(actions, now) && !Locks(actions, n) {
        var i: nat :| i < |actions| && Locks(actions, i) && now < Elapsed(actions[..i + 1]) + 60000;
        assert LockInForce(front, now);
      }
      if LockInForce(front, now) {
        var i: nat :| i < |front| && Locks(front, i) && now < Elapsed(front[..i + 1]) + 60000;
        assert Locks(actions, i);
        ElapsedGrows(actions, i + 1);
      }
    }
  }

  /**
   * Every redemption of every run: locked exactly while an eighth rejection is less than a minute old;
   * otherwise it opens a session exactly when the code is the one last issued, nothing opened since and
   * less than five minutes passed; otherwise it is rejected.
   */
  lemma RedeemedExactly(before: seq<Action>, after: nat, code: nat)
    ensures var answer := OutcomeOf(RunFrom(Start, before), Action(after, Redeem(code)));
      var now := Elapsed(before) + after;
      && (answer == Some(LockedOut) <==> LockInForce(before, now))
      && (answer == Some(Opened(|before|)) <==>
            !LockInForce(before, now) && Pending(before, code) && now < Elapsed(before[..code + 1]) + 300000)
      && (answer == Some(LockedOut) || answer == Some(Opened(|before|)) || answer == Some(Rejected))
  {
    hide RunFrom, LockInForce, Pending, LockEnd, Failed, OutcomeOf, LastCode, Elapsed;
    CallsKept(before);
    LockMeans(before, Elapsed(before) + after);
    LastCodeMeans(before, code);
    AnswerIs(RunFrom(Start, before), after, code);
  }

  lemma AnswerIs(w: World, after: nat, code: nat)
    ensures var answer, now := OutcomeOf(w, Action(after, Redeem(code))), w.clock + after;
      && (answer == Some(LockedOut) <==> now < w.auth.pairingLockedUntil)
      && (answer == Some(Opened(w.drawn)) <==>
            && now >= w.auth.pairingLockedUntil && w.auth.pairing.Some?
            && w.auth.pairing.value.code == code && now < w.auth.pairing.value.expiresAt)
      && (answer == Some(LockedOut) || answer == Some(Opened(w.drawn)) || answer == Some(Rejected))
  {
  }

  // ---------- which cookies and bearers are accepted ----------

  /** What `AuthenticateCookie` answers. */
  predicate CookieOk(w: World, a: Action)
    requires a.call.UseCookie?
  {
    Live(w.auth, w.clock + a.after, a.call.id) && a.call.trusted
  }

  /** Session `id` opens here, or is used and accepted here. */
  predicate Renews(actions: seq<Action>, i: nat, id: nat)
    requires i < |actions|
  {
    (i == id && Opens(actions, i))
    || (actions[i].call.UseCookie? && actions[i].call.id == id && CookieOk(RunFrom(Start, actions[..i]), actions[i]))
  }

  /** A call that ends every session there is: a revocation counts when it names something. */
  predicate EndsAt(actions: seq<Action>, i: nat)
    requires i < |actions|
  {
    var auth := RunFrom(Start, actions[..i]).auth;
    match actions[i].call
    case LogoutAll => true
    case Revoke(id) => id in auth.sessions
    case RevokeBearer(id) => id in auth.bearers
    case _ => Opens(actions, i)
  }

  /** Opened, and nothing has ended it since. */
  ghost predicate Unended(actions: seq<Action>, id: nat) {
    && id < |actions| && Opens(actions, id)
    && forall i | id < i < |actions| :: !EndsAt(actions, i)
  }

  /** When the session was last opened or used. */
  function LastUse(actions: seq<Action>, id: nat): nat {
    if actions == [] then 0
    else if Renews(actions, |actions| - 1, id) then Elapsed(actions)
    else LastUse(actions[..|actions| - 1], id)
  }

  lemma RenewsBefore(front: seq<Action>, a: Action, i: nat, id: nat)
    requires i < |front|
    ensures Renews(front + [a], i, id) == Renews(front, i, id) && EndsAt(front + [a], i) == EndsAt(front, i)
  {
    hide RunFrom, OutcomeOf;
    AnswerBefore(front, a, i);
    assert (front + [a])[..i] == front[..i];
  }

  lemma RenewsNow(front: seq<Action>, a: Action, id: nat)
    ensures Renews(front + [a], |front|, id) <==>
      || (id == |front| && OutcomeOf(RunFrom(Start, front), a) == Some(Opened(id)))
      || (a.call.UseCookie? && a.call.id == id && CookieOk(RunFrom(Start, front), a))
    ensures EndsAt(front + [a], |front|) <==> Ends(RunFrom(Start, front), a, |front|)
  {
    hide RunFrom, OutcomeOf, Live;
    AnswerNow(front, a);
    assert (front + [a])[..|front|] == front;
  }

  predicate Ends(w: World, a: Action, n: nat) {
    match a.call
    case LogoutAll => true
    case Revoke(id) => id in w.auth.sessions
    case RevokeBearer(id) => id in w.auth.bearers
    case _ => OutcomeOf(w, a) == Some(Opened(n))
  }

  /** The session is as its last use left it, or was cleared away after it had expired. */
  ghost predicate SessionKept(w: World, id: nat, unended: bool, lastUse: nat) {
    var fits := id in w.auth.sessions && w.auth.sessions[id].generation == w.auth.generation;
    && (unended ==>
          if id in w.auth.sessions then fits && w.auth.sessions[id].expiresAt == lastUse + 43200000
          else lastUse + 43200000 <= w.clock)
    && (!unended ==> !fits)
    && lastUse <= w.clock
  }

  /** One call, for a session opened before it or by it. */
  lemma SessionStep(w: World, a: Action, id: nat, unended: bool, lastUse: nat)
    requires Inv(w) && SessionKept(w, id, unended, lastUse) && (unended ==> id < w.drawn)
    ensures var opens := id == w.drawn && OutcomeOf(w, a) == Some(Opened(id));
      var uses := a.call.UseCookie? && a.call.id == id && CookieOk(w, a);
      SessionKept(Next(w, a), id, opens || (unended && !Ends(w, a, w.drawn)), if opens || uses then w.clock + a.after
                  else lastUse)
  {
    match a.call {
      case Revoke(other) =>
      case RevokeBearer(_) =>
      case Redeem(_) =>
      case UseCookie(other, _) =>
      case _ =>
    }
  }

  lemma UnendedSnoc(front: seq<Action>, a: Action, id: nat)
    ensures Unended(front + [a], id) <==>
      || (id == |front| && OutcomeOf(RunFrom(Start, front), a) == Some(Opened(id)))
      || (Unended(front, id) && !Ends(RunFrom(Start, front), a, |front|))
  {
    hide RunFrom, OutcomeOf, EndsAt, Ends, Renews;
    var actions, n := front + [a], |front|;
    AnswerNow(front, a);
    RenewsNow(front, a, id);
    if id < n {
      AnswerBefore(front, a, id);
      hide AnswerAt;
      UnendedOld(front, a, id);
    }
  }

  lemma UnendedOld(front: seq<Action>, a: Action, id: nat)
    requires id < |front| && AnswerAt(front + [a], id) == AnswerAt(front, id)
    ensures Unended(front + [a], id) <==> Unended(front, id) && !EndsAt(front + [a], |front|)
  {
    hide AnswerAt, EndsAt, Renews;
    var actions, n := front + [a], |front|;
    forall i: nat | i < n ensures EndsAt(actions, i) == EndsAt(front, i) {
      RenewsBefore(front, a, i, id);
    }
  }

  lemma {:induction false} SessionsKept(actions: seq<Action>, id: nat)
    ensures SessionKept(RunFrom(Start, actions), id, Unended(actions, id), LastUse(actions, id))
  {
    if actions != [] {
      var front, a := actions[..|actions| - 1], actions[|actions| - 1];
      assert actions == front + [a];
      SessionsKept(front, id);
      RunKeeps(Start, front);
      CallsKept(front);
      AnswerNow(front, a);
      RenewsNow(front, a, id);
      UnendedSnoc(front, a, id);
      var w := RunFrom(Start, front);
      hide RunFrom, Next, Inv, OutcomeOf, Ends, Renews, SessionKept, Unended, EndsAt;
      UnendedBound(front, id);
      SessionStep(w, a, id, Unended(front, id), LastUse(front, id));
    }
  }

  lemma UnendedBound(actions: seq<Action>, id: nat)
    ensures Unended(actions, id) ==> id < |actions|
  {
  }

  lemma {:induction false} LastUseMeans(actions: seq<Action>, id: nat, now: nat)
    requires now >= Elapsed(actions) && id < |actions| && Opens(actions, id)
    ensures now < LastUse(actions, id) + 43200000 <==>
      exists i: nat :: i < |actions| && Renews(actions, i, id) && now < Elapsed(actions[..i + 1]) + 43200000
  {
    hide Renews, AnswerAt;
    var n := |actions| - 1;
    var front := actions[..n];
    assert actions == front + [actions[n]] && actions[..n + 1] == actions;
    forall i: nat | i < n ensures Renews(actions, i, id) == Renews(front, i, id) && actions[..i + 1] == front[..i + 1] {
      RenewsBefore(front, actions[n], i, id);
    }
    OpeningRenews(actions, id);
    if !Renews(actions, n, id) {
      AnswerBefore(front, actions[n], id);
      LastUseMeans(front, id, now);
      if i: nat :| i < |front| && Renews(front, i, id) && now < Elapsed(front[..i + 1]) + 43200000 {
        assert Renews(actions, i, id);
      }
    } else {
      forall i: nat | i < |actions| && Renews(actions, i, id) ensures Elapsed(actions[..i + 1]) <= Elapsed(actions) {
        ElapsedGrows(actions, i + 1);
      }
    }
  }

  lemma OpeningRenews(actions: seq<Action>, id: nat)
    requires id < |actions| && Opens(actions, id)
    ensures Renews(actions, id, id)
  {
  }

  /**
   * Every cookie of every run: accepted exactly when the request is trusted, the session was opened, nothing
   * has ended it since, and it was opened, or last accepted, less than twelve hours ago.
   */
  lemma CookieAcceptedExactly(before: seq<Action>, after: nat, id: nat, trusted: bool)
    ensures var now := Elapsed(before) + after;
      CookieOk(RunFrom(Start, before), Action(after, UseCookie(id, trusted))) <==>
        && trusted && Unended(before, id)
        && exists i: nat :: i < |before| && Renews(before, i, id) && now < Elapsed(before[..i + 1]) + 43200000
  {
    hide RunFrom, Unended, Renews, LastUse, Elapsed, Inv, OutcomeOf;
    CallsKept(before);
    SessionsKept(before, id);
    if Unended(before, id) {
      UnendedOpens(before, id);
      LastUseMeans(before, id, Elapsed(before) + after);
    }
  }

  lemma UnendedOpens(actions: seq<Action>, id: nat)
    requires Unended(actions, id)
    ensures id < |actions| && Opens(actions, id)
  {
  }

  /** A bearer is accepted exactly with the secret it was issued with, until it is revoked. */
  lemma {:induction false} BearerAcceptedExactly(actions: seq<Action>, id: nat, secret: nat)
    ensures BearerAccepted(RunFrom(Start, actions).auth, id, secret) <==>
      && id < |actions| && actions[id].call.IssueBearer? && secret == id
      && forall i | id < i < |actions| :: actions[i].call != RevokeBearer(id)
    ensures forall b | b in RunFrom(Start, actions).auth.bearers :: b < |actions| && actions[b].call.IssueBearer?
  {
    if actions != [] {
      var front, a := actions[..|actions| - 1], actions[|actions| - 1];
      assert actions == front + [a];
      BearerAcceptedExactly(front, id, secret);
      CallsKept(front);
      AnswerNow(front, a);
      BearerStep(RunFrom(Start, front), a, id, secret);
      hide RunFrom, Next;
      assert forall i | 0 <= i < |front| :: actions[i] == front[i];
    }
  }

  lemma BearerStep(w: World, a: Action, id: nat, secret: nat)
    ensures BearerAccepted(Next(w, a).auth, id, secret) <==>
      if a.call.IssueBearer? && id == w.drawn then secret == id
      else BearerAccepted(w.auth, id, secret) && a.call != RevokeBearer(id)
    ensures Next(w, a).auth.bearers.Keys == w.auth.bearers.Keys + if a.call.IssueBearer? then {w.drawn} else {}
  {
  }
}
