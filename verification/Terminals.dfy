/**
 * Terminal output (src/web/terminals.ts:23-31, 219-285, 322-378, 397-434):
 * chunks gathered into bounded windows, a bounded scrollback, one exit per
 * terminal, and a late subscriber's snapshot (src/web/server.ts:6381-6391).
 */
module Terminals {
  import opened Basics

  const FLUSH_CEILING_CHARS: nat := 1000000
  const TRUNCATED := "\r\n[output truncated: too fast]\r\n"

  datatype Reason = ExitedByItself | Killed | Idle

  datatype TerminalEvent = Data(data: string) | Exit(exitCode: int, reason: Reason)

  /** The last `n` characters, or all of them. */
  function Last(n: nat, s: string): (r: string)
    ensures |r| <= n && |r| <= |s| && s[|s| - |r|..] == r
    ensures |s| <= n ==> r == s
  {
    if |s| <= n then s else s[|s| - n..]
  }

  /**
   * One terminal, from creation to past its end. `window` (everything received since the last flush), `gone` (the
   * windows flushed before) and `out` (what subscribers were sent) are history.
   */
  datatype Term = Term(
    workspace: string,
    scrollback: string,
    pending: string,
    flooded: bool,
    scheduled: bool,
    closed: bool,
    window: string,
    gone: seq<string>,
    out: seq<TerminalEvent>)

  function Opened(workspace: string): Term {
    Term(workspace, "", "", false, false, false, "", [], [])
  }

  function Received(t: Term, chunk: string): Term {
    if t.closed then t
    else
      var over := |t.pending| + |chunk| > FLUSH_CEILING_CHARS;
      var room := if FLUSH_CEILING_CHARS >= |t.pending| then FLUSH_CEILING_CHARS - |t.pending| else 0;
      t.(pending := t.pending + if over && room <= |chunk| then chunk[..room] else chunk,
         flooded := t.flooded || over, scheduled := true, window := t.window + chunk)
  }

  function Payload(t: Term): string {
    t.pending + if t.flooded then TRUNCATED else ""
  }

  function Flushed(keep: nat, t: Term): Term {
    if t.pending == "" then t.(scheduled := false)
    else t.(scheduled := false, pending := "", flooded := false, window := "", gone := t.gone + [t.window],
            scrollback := Last(keep, t.scrollback + Payload(t)), out := t.out + [Data(Payload(t))])
  }

  function Closed(keep: nat, t: Term, exitCode: int, reason: Reason): Term {
    if t.closed then t
    else
      var flushed := Flushed(keep, t.(closed := true));
      flushed.(out := flushed.out + [Exit(exitCode, reason)])
  }

  /** The record a PTY's callbacks hold on to, even after the service forgot it. */
  class LiveTerminal {
    const workspace: string
    const scrollbackChars: nat
    var scrollback: string
    var pending: string
    var flooded: bool
    var flushTimer: bool
    var closed: bool
    var emitted: seq<TerminalEvent>
    ghost var window: string
    ghost var gone: seq<string>

    ghost function Value(): Term
      reads this
    {
      Term(workspace, scrollback, pending, flooded, flushTimer, closed, window, gone, emitted)
    }

    constructor (workspace: string, scrollbackChars: nat)
      ensures this.scrollbackChars == scrollbackChars && Value() == Opened(workspace)
    {
      this.workspace, this.scrollbackChars := workspace, scrollbackChars;
      scrollback, pending, flooded, flushTimer, closed, emitted, window := "", "", false, false, false, [], "";
      gone := [];
    }

    method OnData(chunk: string)
      modifies this
      ensures Value() == Received(old(Value()), chunk)
    {
      if closed { return; }
      if |pending| + |chunk| > FLUSH_CEILING_CHARS {
        var room := if FLUSH_CEILING_CHARS >= |pending| then FLUSH_CEILING_CHARS - |pending| else 0;
        pending := pending + chunk[..if room <= |chunk| then room else |chunk|];
        flooded := true;
      } else {
        pending := pending + chunk;
      }
      window := window + chunk;
      flushTimer := true;
    }

    method Retain(payload: string)
      modifies `scrollback
      ensures scrollback == Last(scrollbackChars, old(scrollback) + payload)
    {
      scrollback := scrollback + payload;
      if |scrollback| > scrollbackChars {
        scrollback := scrollback[|scrollback| - scrollbackChars..];
      }
    }

    method Flush()
      modifies this
      ensures Value() == Flushed(scrollbackChars, old(Value()))
    {
      hide Last;
      ghost var t := Value();
      flushTimer := false;
      if pending == "" { return; }
      var payload := pending;
      pending := "";
      if flooded {
        flooded := false;
        payload := payload + TRUNCATED;
      }
      assert payload == Payload(t);
      Retain(payload);
      emitted := emitted + [Data(payload)];
      gone := gone + [window];
      window := "";
    }

    method Close(exitCode: int, reason: Reason)
      modifies this
      ensures Value() == Closed(scrollbackChars, old(Value()), exitCode, reason)
    {
      if closed { return; }
      closed := true;
      flushTimer := false;
      Flush();
      emitted := emitted + [Exit(exitCode, reason)];
    }
  }

  // ---------- the service ----------

  /** Every terminal ever created, and those the service still lists. */
  datatype Service = Service(terms: seq<Term>, open: set<nat>)

  datatype Action =
    | Create(workspace: string)
    | Chunk(terminal: nat, data: string)
    | Timer(terminal: nat)
    | PtyExit(terminal: nat, exitCode: int)
    | Kill(terminal: nat)
    | Reap(terminal: nat)

  function OpenIn(s: Service, workspace: string): set<nat> {
    set i | i in s.open && i < |s.terms| && s.terms[i].workspace == workspace
  }

  function CloseAt(keep: nat, s: Service, i: nat, exitCode: int, reason: Reason): Service
    requires i < |s.terms|
  {
    if s.terms[i].closed then s
    else Service(s.terms[i := Closed(keep, s.terms[i], exitCode, reason)], s.open - {i})
  }

  /** A callback may come for any terminal ever created; killing and reaping only reach listed ones. */
  function Next(keep: nat, cap: nat, s: Service, a: Action): Service {
    match a
    case Create(workspace) =>
      if |OpenIn(s, workspace)| >= cap then s
      else Service(s.terms + [Opened(workspace)], s.open + {|s.terms|})
    case Chunk(i, data) => if i < |s.terms| then s.(terms := s.terms[i := Received(s.terms[i], data)]) else s
    case Timer(i) =>
      if i < |s.terms| && s.terms[i].scheduled then s.(terms := s.terms[i := Flushed(keep, s.terms[i])]) else s
    case PtyExit(i, exitCode) => if i < |s.terms| then CloseAt(keep, s, i, exitCode, ExitedByItself) else s
    case Kill(i) => if i < |s.terms| && i in s.open then CloseAt(keep, s, i, 0, Killed) else s
    case Reap(i) => if i < |s.terms| && i in s.open then CloseAt(keep, s, i, 0, Idle) else s
  }

  function RunFrom(keep: nat, cap: nat, s: Service, actions: seq<Action>): Service {
    if actions == [] then s
    else Next(keep, cap, RunFrom(keep, cap, s, actions[..|actions| - 1]), actions[|actions| - 1])
  }

  const Start := Service([], {})

  /** All output sent. */
  function Output(out: seq<TerminalEvent>): string {
    if out == [] then ""
    else Output(out[..|out| - 1]) + match out[|out| - 1] { case Data(data) => data case Exit(_, _) => "" }
  }

  lemma OutputSnoc(out: seq<TerminalEvent>, e: TerminalEvent)
    ensures Output(out + [e]) == Output(out) + match e { case Data(data) => data case Exit(_, _) => "" }
  {
    assert (out + [e])[..|out|] == out;
  }

  lemma {:induction false} OutputAppend(a: seq<TerminalEvent>, b: seq<TerminalEvent>)
    ensures Output(a + b) == Output(a) + Output(b)
    decreases |b|
  {
    if b == [] {
      assert a + b == a;
    } else {
      var front, last := b[..|b| - 1], b[|b| - 1];
      assert a + b == (a + front) + [last] && b == front + [last];
      OutputAppend(a, front);
      OutputSnoc(a + front, last);
      OutputSnoc(front, last);
    }
  }

  lemma LastOfLast(n: nat, a: string, b: string)
    ensures Last(n, Last(n, a) + b) == Last(n, a + b)
  {
    var kept := Last(n, a);
    assert a == a[..|a| - |kept|] + kept;
    assert a + b == a[..|a| - |kept|] + (kept + b);
  }

  // ---------- what holds of each terminal ----------

  /** What is pending is the head of the window; the mark is set exactly when something was cut. */
  predicate Windowed(t: Term) {
    && t.pending == (if |t.window| <= FLUSH_CEILING_CHARS then t.window else t.window[..FLUSH_CEILING_CHARS])
    && (t.flooded <==> |t.window| > FLUSH_CEILING_CHARS)
  }

  /** An open terminal sent only output; a closed one sent one exit, last, and holds nothing back. */
  predicate EndsOnce(t: Term) {
    && (forall i | 0 <= i < |t.out| - (if t.closed then 1 else 0) :: t.out[i].Data?)
    && (t.closed ==> t.out != [] && t.out[|t.out| - 1].Exit? && t.pending == "" && !t.scheduled)
    && (t.pending != "" ==> t.scheduled)
  }

  predicate Sound(keep: nat, t: Term) {
    Windowed(t) && EndsOnce(t) && t.scrollback == Last(keep, Output(t.out))
  }

  lemma ReceivedSound(keep: nat, t: Term, chunk: string)
    requires Sound(keep, t)
    ensures Sound(keep, Received(t, chunk))
  {
    hide Output, Last;
    if !t.closed {
      assert |t.window + chunk| <= FLUSH_CEILING_CHARS ==> t.pending + chunk == t.window + chunk;
    }
  }

  lemma FlushedSound(keep: nat, t: Term)
    requires Windowed(t) && t.scrollback == Last(keep, Output(t.out)) && t.pending != ""
    ensures Windowed(Flushed(keep, t)) && Flushed(keep, t).scrollback == Last(keep, Output(Flushed(keep, t).out))
  {
    hide Output, Last;
    OutputSnoc(t.out, Data(Payload(t)));
    LastOfLast(keep, Output(t.out), Payload(t));
  }

  lemma TimerSound(keep: nat, t: Term)
    requires Sound(keep, t) && t.scheduled
    ensures Sound(keep, Flushed(keep, t))
  {
    hide Output, Last;
    if t.pending != "" { FlushedSound(keep, t); }
  }

  lemma ClosedSound(keep: nat, t: Term, exitCode: int, reason: Reason)
    requires Sound(keep, t)
    ensures Sound(keep, Closed(keep, t, exitCode, reason))
  {
    hide Output, Last;
    if !t.closed {
      var flushed := Flushed(keep, t.(closed := true));
      if t.pending != "" { FlushedSound(keep, t.(closed := true)); }
      OutputSnoc(flushed.out, Exit(exitCode, reason));
      assert Output(flushed.out) + "" == Output(flushed.out);
    }
  }

  ghost predicate Inv(keep: nat, cap: nat, s: Service) {
    && (forall i | 0 <= i < |s.terms| :: Sound(keep, s.terms[i]))
    && (forall i | i in s.open :: i < |s.terms|)
    && (forall i | 0 <= i < |s.terms| :: i in s.open <==> !s.terms[i].closed)
    && (forall workspace :: |OpenIn(s, workspace)| <= cap)
  }

  /** Where a step leaves every terminal's workspace and opens none, the counts do not rise. */
  lemma CapKept(cap: nat, s: Service, s': Service)
    requires forall workspace :: |OpenIn(s, workspace)| <= cap
    requires |s'.terms| == |s.terms| && s'.open <= s.open
    requires forall i | 0 <= i < |s.terms| :: s'.terms[i].workspace == s.terms[i].workspace
    ensures forall workspace :: |OpenIn(s', workspace)| <= cap
  {
    forall workspace ensures |OpenIn(s', workspace)| <= cap {
      SubsetSize(OpenIn(s', workspace), OpenIn(s, workspace));
    }
  }

  lemma OpenedSound(keep: nat, workspace: string)
    ensures Sound(keep, Opened(workspace))
  {
    hide Payload;
    assert Last(keep, "") == "";
  }

  lemma CreateCount(cap: nat, s: Service, workspace: string, w: string)
    requires |OpenIn(s, w)| <= cap
    requires |s.terms| !in s.open && |OpenIn(s, workspace)| < cap
    ensures |OpenIn(Service(s.terms + [Opened(workspace)], s.open + {|s.terms|}), w)| <= cap
  {
    var n := |s.terms|;
    var s' := Service(s.terms + [Opened(workspace)], s.open + {n});
    var more := if w == workspace then OpenIn(s, w) + {n} else OpenIn(s, w);
    assert s'.terms[n].workspace == workspace;
    forall i | i in OpenIn(s', w) ensures i in more {
      if i < n { assert s'.terms[i] == s.terms[i]; }
    }
    SubsetSize(OpenIn(s', w), more);
  }

  lemma CreateKeeps(keep: nat, cap: nat, s: Service, workspace: string)
    requires Inv(keep, cap, s)
    ensures Inv(keep, cap, Next(keep, cap, s, Create(workspace)))
  {
    hide Sound, OpenIn;
    if |OpenIn(s, workspace)| < cap {
      OpenedSound(keep, workspace);
      forall w { CreateCount(cap, s, workspace, w); }
    }
  }

  /** One terminal changes, and leaves the list if it is closed. */
  lemma ReplaceKeeps(keep: nat, cap: nat, s: Service, i: nat, t: Term)
    requires Inv(keep, cap, s) && i < |s.terms| && Sound(keep, t)
    requires t.workspace == s.terms[i].workspace && (s.terms[i].closed ==> t.closed)
    ensures Inv(keep, cap, Service(s.terms[i := t], if t.closed then s.open - {i} else s.open))
  {
    hide Sound;
    CapKept(cap, s, Service(s.terms[i := t], if t.closed then s.open - {i} else s.open));
  }

  lemma CloseKeeps(keep: nat, cap: nat, s: Service, i: nat, exitCode: int, reason: Reason)
    requires Inv(keep, cap, s) && i < |s.terms|
    ensures Inv(keep, cap, CloseAt(keep, s, i, exitCode, reason))
  {
    hide Inv, Sound, Payload;
    AllSound(keep, cap, s, i);
    ClosedSound(keep, s.terms[i], exitCode, reason);
    ReplaceKeeps(keep, cap, s, i, Closed(keep, s.terms[i], exitCode, reason));
  }

  lemma AllSound(keep: nat, cap: nat, s: Service, i: nat)
    requires Inv(keep, cap, s) && i < |s.terms|
    ensures Sound(keep, s.terms[i]) && (i in s.open <==> !s.terms[i].closed)
  {
    hide Sound;
  }

  lemma NextKeeps(keep: nat, cap: nat, s: Service, a: Action)
    requires Inv(keep, cap, s)
    ensures Inv(keep, cap, Next(keep, cap, s, a))
  {
    hide Inv, Sound, Payload, CloseAt;
    match a {
      case Create(workspace) => CreateKeeps(keep, cap, s, workspace);
      case Chunk(i, data) =>
        if i < |s.terms| {
          AllSound(keep, cap, s, i);
          ReceivedSound(keep, s.terms[i], data);
          assert s.terms[i].closed ==> s.open - {i} == s.open;
          ReplaceKeeps(keep, cap, s, i, Received(s.terms[i], data));
        }
      case Timer(i) =>
        if i < |s.terms| && s.terms[i].scheduled {
          AllSound(keep, cap, s, i);
          TimerSound(keep, s.terms[i]);
          assert s.terms[i].closed ==> s.open - {i} == s.open;
          ReplaceKeeps(keep, cap, s, i, Flushed(keep, s.terms[i]));
        }
      case PtyExit(i, exitCode) => if i < |s.terms| { CloseKeeps(keep, cap, s, i, exitCode, ExitedByItself); }
      case Kill(i) => if i < |s.terms| { CloseKeeps(keep, cap, s, i, 0, Killed); }
      case Reap(i) => if i < |s.terms| { CloseKeeps(keep, cap, s, i, 0, Idle); }
    }
  }

  lemma {:induction false} RunKeeps(keep: nat, cap: nat, s: Service, actions: seq<Action>)
    requires Inv(keep, cap, s)
    ensures Inv(keep, cap, RunFrom(keep, cap, s, actions))
  {
    hide Inv, Next;
    if actions != [] {
      RunKeeps(keep, cap, s, actions[..|actions| - 1]);
      NextKeeps(keep, cap, RunFrom(keep, cap, s, actions[..|actions| - 1]), actions[|actions| - 1]);
    }
  }

  /**
   * In every run, for every terminal: scrollback is exactly the last `keep`
   * characters sent, what is held back is the head of the window and never above
   * the ceiling, output is never stranded, and there is one exit with nothing
   * after it; and no workspace has more than `cap` open.
   */
  lemma TerminalsSound(keep: nat, cap: nat, actions: seq<Action>)
    ensures Inv(keep, cap, RunFrom(keep, cap, Start, actions))
  {
    assert forall workspace :: OpenIn(Start, workspace) == {};
    RunKeeps(keep, cap, Start, actions);
  }

  /** Whatever a killed shell still prints, nothing is sent after the exit. */
  lemma ExitIsFinal(keep: nat, cap: nat, before: seq<Action>, after: seq<Action>, i: nat)
    requires var s := RunFrom(keep, cap, Start, before); i < |s.terms| && s.terms[i].closed
    ensures var s := RunFrom(keep, cap, Start, before);
      var s' := RunFrom(keep, cap, s, after);
      i < |s'.terms| && s'.terms[i].out == s.terms[i].out
  {
    var s := RunFrom(keep, cap, Start, before);
    var s' := RunFrom(keep, cap, s, after);
    TerminalsSound(keep, cap, before);
    RunKeeps(keep, cap, s, after);
    OutGrows(keep, cap, s, after, i);
    AllSound(keep, cap, s, i);
    AllSound(keep, cap, s', i);
    var last := s.terms[i].out[|s.terms[i].out| - 1];
    assert s'.terms[i].out[|s.terms[i].out| - 1] == last && last.Exit?;
  }

  lemma {:induction false} OutGrows(keep: nat, cap: nat, s: Service, actions: seq<Action>, i: nat)
    requires i < |s.terms|
    ensures var s' := RunFrom(keep, cap, s, actions); i < |s'.terms| && s.terms[i].out <= s'.terms[i].out
  {
    if actions != [] {
      OutGrows(keep, cap, s, actions[..|actions| - 1], i);
    }
  }

  /**
   * A subscriber that joins late, given the scrollback and then every frame sent
   * after it, holds one unbroken suffix of the terminal's whole output.
   */
  lemma LateSubscriber(keep: nat, cap: nat, before: seq<Action>, after: seq<Action>, i: nat)
    requires i < |RunFrom(keep, cap, Start, before).terms|
    ensures var joined := RunFrom(keep, cap, Start, before);
      var now := RunFrom(keep, cap, joined, after);
      && i < |now.terms| && joined.terms[i].out <= now.terms[i].out
      && var total, seen := Output(now.terms[i].out),
        joined.terms[i].scrollback + Output(now.terms[i].out[|joined.terms[i].out|..]);
         |seen| <= |total| && total[|total| - |seen|..] == seen
  {
    hide RunFrom, Windowed, EndsOnce, Output;
    TerminalsSound(keep, cap, before);
    var joined := RunFrom(keep, cap, Start, before);
    OutGrows(keep, cap, joined, after, i);
    var now := RunFrom(keep, cap, joined, after);
    var old', new' := joined.terms[i].out, now.terms[i].out;
    assert new' == old' + new'[|old'|..];
    OutputAppend(old', new'[|old'|..]);
    assert Sound(keep, joined.terms[i]);
  }

  // ---------- what is sent is what was received ----------

  function Flat(windows: seq<string>): string {
    if windows == [] then "" else Flat(windows[..|windows| - 1]) + windows[|windows| - 1]
  }

  /** A window as subscribers see it: its head, and a mark when that is not all. */
  function Shown(window: string): string {
    if |window| <= 1000000 then window else window[..1000000] + "\r\n[output truncated: too fast]\r\n"
  }

  function Rendered(windows: seq<string>): string {
    if windows == [] then "" else Rendered(windows[..|windows| - 1]) + Shown(windows[|windows| - 1])
  }

  lemma WindowsSnoc(windows: seq<string>, window: string)
    ensures Flat(windows + [window]) == Flat(windows) + window
    ensures Rendered(windows + [window]) == Rendered(windows) + Shown(window)
  {
    assert (windows + [window])[..|windows|] == windows;
  }

  /** What the shell printed while the terminal was open. */
  function Fed(keep: nat, cap: nat, actions: seq<Action>, i: nat): string {
    if actions == [] then ""
    else
      var front, a := actions[..|actions| - 1], actions[|actions| - 1];
      var s := RunFrom(keep, cap, Start, front);
      Fed(keep, cap, front, i)
      + if a.Chunk? && a.terminal == i && i < |s.terms| && !s.terms[i].closed then a.data else ""
  }

  /** Nothing received is lost but the tail of an overfull window, and nothing is sent that was not received. */
  predicate Faithful(t: Term, fed: string) {
    && Output(t.out) == Rendered(t.gone) && Flat(t.gone) + t.window == fed
    && (t.closed ==> t.window == "")
  }

  lemma FlushFaithful(keep: nat, t: Term, fed: string)
    requires Windowed(t) && Faithful(t, fed) && t.pending != ""
    ensures Faithful(Flushed(keep, t), fed)
  {
    hide Output, Last;
    WindowsSnoc(t.gone, t.window);
    OutputSnoc(t.out, Data(Payload(t)));
    hide Flat, Rendered;
    assert Payload(t) == Shown(t.window);
    assert (Flat(t.gone) + t.window) + "" == Flat(t.gone) + t.window;
  }

  lemma CloseFaithful(keep: nat, t: Term, fed: string, exitCode: int, reason: Reason)
    requires Windowed(t) && Faithful(t, fed)
    ensures Faithful(Closed(keep, t, exitCode, reason), fed)
  {
    if !t.closed {
      hide Output, Last, Flat, Rendered, Payload;
      var open := t.(closed := true);
      var flushed := Flushed(keep, open);
      if t.pending != "" {
        FlushFaithful(keep, t, fed);
        assert Flushed(keep, t).(closed := true) == flushed;
      }
      OutputSnoc(flushed.out, Exit(exitCode, reason));
      assert Output(flushed.out) + "" == Output(flushed.out);
    }
  }

  lemma ReceiveFaithful(t: Term, fed: string, chunk: string)
    requires Faithful(t, fed)
    ensures Faithful(Received(t, chunk), if t.closed then fed else fed + chunk)
  {
    hide Output, Flat, Rendered;
    assert (Flat(t.gone) + t.window) + chunk == Flat(t.gone) + (t.window + chunk);
  }

  lemma NextFaithful(keep: nat, cap: nat, s: Service, a: Action, i: nat, fed: string)
    requires Inv(keep, cap, s) && i < |Next(keep, cap, s, a).terms|
    requires if i < |s.terms| then Faithful(s.terms[i], fed) else fed == ""
    ensures var t := Next(keep, cap, s, a).terms[i];
      Faithful(t, if a.Chunk? && a.terminal == i && i < |s.terms| && !s.terms[i].closed then fed + a.data else fed)
  {
    hide Sound, OpenIn, Received, Flushed, Closed, Faithful;
    if i < |s.terms| {
      SoundWindow(keep, s.terms[i]);
      match a {
        case Chunk(j, data) => if j == i { ReceiveFaithful(s.terms[i], fed, data); }
        case Timer(j) => if j == i { TimerFaithful(keep, s.terms[i], fed); }
        case PtyExit(j, exitCode) => if j == i { CloseFaithful(keep, s.terms[i], fed, exitCode, ExitedByItself); }
        case Kill(j) => if j == i { CloseFaithful(keep, s.terms[i], fed, 0, Killed); }
        case Reap(j) => if j == i { CloseFaithful(keep, s.terms[i], fed, 0, Idle); }
        case _ =>
      }
    } else if a.Create? {
      NewFaithful(a.workspace);
    }
  }

  lemma SoundWindow(keep: nat, t: Term)
    requires Sound(keep, t)
    ensures Windowed(t)
  {
    hide Windowed;
  }

  lemma NewFaithful(workspace: string)
    ensures Faithful(Opened(workspace), "")
  {
  }

  lemma TimerFaithful(keep: nat, t: Term, fed: string)
    requires Windowed(t) && Faithful(t, fed)
    ensures Faithful(Flushed(keep, t), fed)
  {
    if t.pending != "" { FlushFaithful(keep, t, fed); }
  }

  /**
   * In every run, for every terminal: what subscribers were sent is what its shell printed, window by window, each
   * whole or cut at the ceiling with the mark; what is not sent yet is the open window.
   */
  lemma {:induction false} OutputIsInput(keep: nat, cap: nat, actions: seq<Action>, i: nat)
    requires i < |RunFrom(keep, cap, Start, actions).terms|
    ensures Faithful(RunFrom(keep, cap, Start, actions).terms[i], Fed(keep, cap, actions, i))
  {
    hide Inv, Faithful, Next;
    var front, a := actions[..|actions| - 1], actions[|actions| - 1];
    var s := RunFrom(keep, cap, Start, front);
    TerminalsSound(keep, cap, front);
    if i < |s.terms| { OutputIsInput(keep, cap, front, i); } else { FedNothing(keep, cap, front, i); }
    NextFaithful(keep, cap, s, a, i, Fed(keep, cap, front, i));
    assert Fed(keep, cap, front, i) + "" == Fed(keep, cap, front, i);
  }

  lemma {:induction false} FedNothing(keep: nat, cap: nat, actions: seq<Action>, i: nat)
    requires i >= |RunFrom(keep, cap, Start, actions).terms|
    ensures Fed(keep, cap, actions, i) == ""
  {
    if actions != [] {
      var front := actions[..|actions| - 1];
      TermsGrow(keep, cap, RunFrom(keep, cap, Start, front), actions[|actions| - 1]);
      FedNothing(keep, cap, front, i);
    }
  }

  lemma TermsGrow(keep: nat, cap: nat, s: Service, a: Action)
    ensures |s.terms| <= |Next(keep, cap, s, a).terms|
  {
  }

  lemma ClosedExits(keep: nat, cap: nat, s: Service, a: Action, i: nat)
    requires i < |s.terms| && !s.terms[i].closed && Next(keep, cap, s, a).terms[i].closed
    ensures var out := Next(keep, cap, s, a).terms[i].out;
      out != [] && out[|out| - 1] ==
           match a
           case PtyExit(_, exitCode) => Exit(exitCode, ExitedByItself)
           case Reap(_) => Exit(0, Idle)
           case _ => Exit(0, Killed)
  {
    hide Last, Payload;
  }

  /** The exit says what ended the terminal, whatever comes after it. */
  lemma ExitSaysWhy(keep: nat, cap: nat, before: seq<Action>, a: Action, after: seq<Action>, i: nat)
    requires var s := RunFrom(keep, cap, Start, before);
      i < |s.terms| && !s.terms[i].closed && Next(keep, cap, s, a).terms[i].closed
    ensures var s := RunFrom(keep, cap, RunFrom(keep, cap, Start, before + [a]), after);
      && i < |s.terms| && s.terms[i].out != []
      && s.terms[i].out[|s.terms[i].out| - 1] ==
           match a
           case PtyExit(_, exitCode) => Exit(exitCode, ExitedByItself)
           case Reap(_) => Exit(0, Idle)
           case _ => Exit(0, Killed)
  {
    assert (before + [a])[..|before|] == before && (before + [a])[|before|] == a;
    var s := RunFrom(keep, cap, Start, before);
    assert RunFrom(keep, cap, Start, before + [a]) == Next(keep, cap, s, a);
    hide RunFrom, Last, Payload;
    ExitIsFinal(keep, cap, before + [a], after, i);
    ClosedExits(keep, cap, s, a, i);
  }

  /** In every run an exit, a kill or the reaper closes a listed terminal, and it is listed no more. */
  lemma ListedCloses(keep: nat, cap: nat, actions: seq<Action>, a: Action, i: nat)
    requires i in RunFrom(keep, cap, Start, actions).open
    requires a == Kill(i) || a == Reap(i) || (a.PtyExit? && a.terminal == i)
    ensures var s := RunFrom(keep, cap, Start, actions + [a]);
      i < |s.terms| && s.terms[i].closed && i !in s.open
  {
    TerminalsSound(keep, cap, actions);
    assert (actions + [a])[..|actions|] == actions;
    hide Last, Payload, Sound;
  }
}
