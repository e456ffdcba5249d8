/**
 * The bounded parent context a delegated child receives
 * (src/web/agent-delegation.ts:24-64): recent user and assistant messages,
 * newest first until the budget is spent.
 */
module InheritedContext {
  import opened Basics
  import opened Events

  function TrimStart(s: string): string {
    if s != "" && IsSpace(s[0]) then TrimStart(s[1..]) else s
  }

  function TrimEnd(s: string): string {
    if s != "" && IsSpace(s[|s| - 1]) then TrimEnd(s[..|s| - 1]) else s
  }

  function Trim(s: string): string {
    TrimEnd(TrimStart(s))
  }

  /** The line an event contributes, or none. */
  function LineOf(e: Event): Option<string> {
    match e
    case UserMessage(_, _, Some(content), _, _) => if Trim(content) != "" then Some("User: " + Trim(content)) else None
    case AssistantMessage(_, _, _, Some(content), toolCalls, _) =>
      if (toolCalls.None? || toolCalls.value == []) && Trim(content) != "" then Some("Assistant: " + Trim(content))
        else None
    case _ => None
  }

  /** Every eligible line, oldest first. */
  function Lines(es: seq<Event>): seq<string> {
    if es == [] then []
    else Lines(es[..|es| - 1]) + match LineOf(es[|es| - 1]) { case Some(line) => [line] case None => [] }
  }

  /** The first place of `": "`. */
  function LabelEnd(line: string): (at: Option<nat>)
    ensures at.Some? ==> at.value + 2 <= |line| && line[at.value..at.value + 2] == ": "
  {
    if |line| < 2 then None
    else if line[0] == ':' && line[1] == ' ' then Some(0)
    else
      var later := LabelEnd(line[1..]);
      if later.Some? then
        assert line[1..][later.value..later.value + 2] == line[later.value + 1..later.value + 3];
        Some(later.value + 1)
      else None
  }

  const Truncated := ": [truncated] "

  /** `line.slice(-n)`: for 0 that is the whole line. */
  function SliceFromEnd(line: string, n: nat): string {
    if n == 0 || n > |line| then line else line[|line| - n..]
  }

  function Truncate(line: string, maxChars: int): Option<string> {
    if |line| <= maxChars then Some(line)
    else
      match LabelEnd(line)
      case None => None
      case Some(end) =>
        var marker := line[..end] + Truncated;
        if |marker| > maxChars then None else Some(marker + SliceFromEnd(line, maxChars - |marker|))
  }

  // ---------- the projection ----------

  datatype Kept = Kept(texts: seq<string>, used: nat)

  function Separator(texts: seq<string>): nat {
    if texts == [] then 0 else 2
  }

  /** The scan from event `n - 1` down; `texts` is newest first. */
  function Scan(es: seq<Event>, n: nat, k: Kept, maxChars: nat): Kept
    requires n <= |es|
  {
    if n == 0 || k.used >= maxChars then k
    else
      match LineOf(es[n - 1])
      case None => Scan(es, n - 1, k, maxChars)
      case Some(line) =>
        var text := Truncate(line, maxChars - k.used - Separator(k.texts));
        if text.None? then k
        else Scan(es, n - 1, Kept(k.texts + [text.value], k.used + Separator(k.texts) + |text.value|), maxChars)
  }

  function Reversed(texts: seq<string>): (r: seq<string>)
    ensures |r| == |texts| && forall i | 0 <= i < |r| :: r[i] == texts[|texts| - 1 - i]
  {
    if texts == [] then [] else [texts[|texts| - 1]] + Reversed(texts[..|texts| - 1])
  }

  /** `join('\n\n')` */
  function Join(texts: seq<string>): string {
    if texts == [] then "" else if |texts| == 1 then texts[0] else texts[0] + "\n\n" + Join(texts[1..])
  }

  function Project(es: seq<Event>, maxChars: nat): string {
    Join(Reversed(Scan(es, |es|, Kept([], 0), maxChars).texts))
  }

  lemma ScanStep(es: seq<Event>, n: nat, k: Kept, maxChars: nat)
    requires 0 < n <= |es| && k.used < maxChars
    ensures var line := LineOf(es[n - 1]);
      Scan(es, n, k, maxChars) ==
        if line.None? then Scan(es, n - 1, k, maxChars)
        else
          var text := Truncate(line.value, maxChars - k.used - Separator(k.texts));
          if text.None? then k
          else Scan(es, n - 1, Kept(k.texts + [text.value], k.used + Separator(k.texts) + |text.value|), maxChars)
  {
    hide LineOf, Truncate;
  }

  method ProjectInheritedMessages(es: seq<Event>, maxChars: nat) returns (text: string)
    ensures text == Project(es, maxChars)
  {
    var kept := Collect(es, maxChars);
    text := Join(Reversed(kept));
  }

  method Collect(es: seq<Event>, maxChars: nat) returns (kept: seq<string>)
    ensures kept == Scan(es, |es|, Kept([], 0), maxChars).texts
  {
    hide LineOf, Truncate;
    kept := [];
    var used: nat := 0;
    var i := |es|;
    while i > 0 && used < maxChars
      invariant 0 <= i <= |es|
      invariant Scan(es, |es|, Kept([], 0), maxChars) == Scan(es, i, Kept(kept, used), maxChars)
    {
      ScanStep(es, i, Kept(kept, used), maxChars);
      i := i - 1;
      var line := LineOf(es[i]);
      if line.None? { continue; }
      var separatorChars := if |kept| > 0 then 2 else 0;
      var truncated := Truncate(line.value, maxChars - used - separatorChars);
      if truncated.None? { return; }
      kept := kept + [truncated.value];
      used := used + separatorChars + |truncated.value|;
    }
  }

  // ---------- what it keeps ----------

  /** A whole line, or its label, the mark and a true suffix of it. */
  predicate Abridged(line: string, text: string) {
    exists end, n | 0 <= end <= |line| && 0 <= n <= |line| ::
      LabelEnd(line) == Some(end) && text == line[..end] + ": [truncated] " + line[n..]
  }

  /** The texts, newest first, are the last lines; all whole except possibly the oldest kept. */
  ghost predicate Newest(lines: seq<string>, texts: seq<string>) {
    && |texts| <= |lines|
    && forall i | 0 <= i < |texts| ::
         texts[i] == lines[|lines| - 1 - i] || (i == |texts| - 1 && Abridged(lines[|lines| - 1 - i], texts[i]))
  }

  function Total(texts: seq<string>): nat {
    if texts == [] then 0 else Total(texts[..|texts| - 1]) + Separator(texts[..|texts| - 1]) + |texts[|texts| - 1]|
  }

  /** The room is exactly the label and the mark: nothing of the line fits, and `slice(-0)` brings all of it. */
  predicate NoRoomLeft(line: string, room: int) {
    |line| > room && LabelEnd(line).Some? && LabelEnd(line).value + |Truncated| == room
  }

  lemma TruncateMeans(line: string, room: int)
    ensures match Truncate(line, room)
      case None => |line| > room && (LabelEnd(line).None? || LabelEnd(line).value + |Truncated| > room)
      case Some(text) =>
        if |line| <= room then text == line
        else Abridged(line, text) && |text| == if NoRoomLeft(line, room) then room + |line| else room
  {
    var end := LabelEnd(line);
    if |line| > room && end.Some? && end.value + |Truncated| <= room {
      var marker := line[..end.value] + Truncated;
      var n := room - |marker|;
      var from := if n == 0 then 0 else |line| - n;
      assert line[0..] == line;
      assert SliceFromEnd(line, n) == line[from..];
      hide SliceFromEnd, LabelEnd;
      assert Abridged(line, line[..end.value] + Truncated + line[from..]);
    }
  }

  lemma LinesSplit(es: seq<Event>, n: nat)
    requires 0 < n <= |es|
    ensures Lines(es[..n]) == Lines(es[..n - 1]) + match LineOf(es[n - 1]) { case Some(line) => [line] case None => [] }
  {
    hide LineOf;
    assert es[..n][..n - 1] == es[..n - 1];
  }

  /** The joined length of the newest `k` lines, all whole. */
  function Whole(lines: seq<string>, k: nat): nat
    requires k <= |lines|
  {
    if k == 0 then 0 else Whole(lines, k - 1) + (if k == 1 then 0 else 2) + |lines[|lines| - k]|
  }

  /**
   * After the `k` newest lines, their separators and the next line's label and
   * mark the budget is exactly used up, and that line is longer than its mark.
   */
  predicate BareMark(lines: seq<string>, k: nat, maxChars: nat) {
    && k < |lines|
    && var line := lines[|lines| - 1 - k];
       && LabelEnd(line).Some?
       && var mark := LabelEnd(line).value + |Truncated|;
          Whole(lines, k) + (if k == 0 then 0 else 2) + mark == maxChars && |line| > mark
  }

  lemma {:induction false} WholeGrows(lines: seq<string>, j: nat, k: nat)
    requires j <= k <= |lines|
    ensures Whole(lines, j) <= Whole(lines, k)
  {
    if j < k { WholeGrows(lines, j, k - 1); }
  }

  /** With `j` lines kept and the next one at or past the budget, no later line is met. */
  lemma NoneLater(lines: seq<string>, j: nat, maxChars: nat)
    requires j <= |lines| && Whole(lines, j) >= maxChars
    ensures forall k: nat | j <= k :: !BareMark(lines, k, maxChars)
  {
    forall k: nat | j <= k ensures !BareMark(lines, k, maxChars) {
      if k < |lines| { WholeGrows(lines, j, k); }
    }
  }

  lemma OneMore(lines: seq<string>, j: nat, maxChars: nat)
    ensures (exists k: nat :: j <= k && BareMark(lines, k, maxChars))
       <==> BareMark(lines, j, maxChars) || exists k: nat :: j + 1 <= k && BareMark(lines, k, maxChars)
  {
  }

  /** Lines `texts` were made of, then the lines still ahead. */
  ghost predicate Progress(lines: seq<string>, ahead: seq<string>, k: Kept, maxChars: nat) {
    && |ahead| + |k.texts| == |lines| && ahead <= lines
    && Newest(lines, k.texts) && k.used == Total(k.texts)
    && (k.used < maxChars ==> forall i | 0 <= i < |k.texts| :: k.texts[i] == lines[|lines| - 1 - i])
  }

  lemma ProgressStep(lines: seq<string>, ahead: seq<string>, k: Kept, line: string, maxChars: nat)
    requires Progress(lines, ahead + [line], k, maxChars) && k.used < maxChars
    requires Truncate(line, maxChars - k.used - Separator(k.texts)).Some?
    ensures var text := Truncate(line, maxChars - k.used - Separator(k.texts)).value;
      Progress(lines, ahead, Kept(k.texts + [text], k.used + Separator(k.texts) + |text|), maxChars)
  {
    hide Truncate, Abridged, LabelEnd, Newest, Total;
    var room := maxChars - k.used - Separator(k.texts);
    TruncateMeans(line, room);
    var text := Truncate(line, room).value;
    TotalSnoc(k.texts, text);
    assert (ahead + [line])[|ahead|] == lines[|ahead|] == line;
    assert ahead <= ahead + [line];
    NewestSnoc(lines, k.texts, text);
  }

  lemma TotalSnoc(texts: seq<string>, text: string)
    ensures Total(texts + [text]) == Total(texts) + Separator(texts) + |text|
  {
    assert (texts + [text])[..|texts|] == texts;
  }

  lemma NewestSnoc(lines: seq<string>, texts: seq<string>, text: string)
    requires |texts| < |lines| && forall i | 0 <= i < |texts| :: texts[i] == lines[|lines| - 1 - i]
    requires var line := lines[|lines| - 1 - |texts|]; text == line || Abridged(line, text)
    ensures Newest(lines, texts + [text])
  {
    hide Abridged;
  }

  /** The scan keeps the newest eligible lines, whole except possibly the oldest, and counts their joined length. */
  lemma {:induction false} ScanMeans(es: seq<Event>, n: nat, k: Kept, maxChars: nat, lines: seq<string>)
    requires n <= |es| && Progress(lines, Lines(es[..n]), k, maxChars)
    ensures var r := Scan(es, n, k, maxChars);
      && Newest(lines, r.texts) && r.used == Total(r.texts)
      && (|r.texts| < |lines| ==>
            r.used >= maxChars || Truncate(lines[|lines| - 1 - |r.texts|],
                                           maxChars - r.used - Separator(r.texts)).None?)
  {
    hide Truncate, LineOf, Lines, Newest, Total;
    if n == 0 {
      LinesNone(es[..n]);
      ProgressMeans(lines, [], k, maxChars);
    } else if k.used >= maxChars {
      ProgressMeans(lines, Lines(es[..n]), k, maxChars);
    } else {
      LinesSplit(es, n);
      ScanStep(es, n, k, maxChars);
      match LineOf(es[n - 1]) {
        case None =>
          assert Lines(es[..n - 1]) + [] == Lines(es[..n - 1]);
          ScanMeans(es, n - 1, k, maxChars, lines);
        case Some(line) =>
          var text := Truncate(line, maxChars - k.used - Separator(k.texts));
          ProgressMeans(lines, Lines(es[..n]), k, maxChars);
          if text.Some? {
            ProgressStep(lines, Lines(es[..n - 1]), k, line, maxChars);
            ScanMeans(es, n - 1, Kept(k.texts + [text.value], k.used + Separator(k.texts) + |text.value|), maxChars,
                      lines);
          } else {
            assert lines[|Lines(es[..n - 1])|] == line;
          }
      }
    }
  }

  lemma LinesNone(es: seq<Event>)
    requires es == []
    ensures Lines(es) == []
  {
  }

  lemma ProgressMeans(lines: seq<string>, ahead: seq<string>, k: Kept, maxChars: nat)
    requires Progress(lines, ahead, k, maxChars)
    ensures Newest(lines, k.texts) && k.used == Total(k.texts) && |ahead| + |k.texts| == |lines| && ahead <= lines
  {
  }

  /** From `j` whole lines on, the budget holds exactly when no further line meets a bare mark. */
  lemma {:induction false} ScanFits(es: seq<Event>, n: nat, k: Kept, maxChars: nat, lines: seq<string>)
    requires n <= |es| && k.used <= maxChars && |k.texts| <= |lines|
    requires Lines(es[..n]) == lines[..|lines| - |k.texts|] && k.used == Whole(lines, |k.texts|)
    ensures Scan(es, n, k, maxChars).used <= maxChars
      <==> !exists at: nat :: |k.texts| <= at && BareMark(lines, at, maxChars)
    decreases n, 1
  {
    hide Truncate, LineOf, Lines, BareMark, Whole, NoRoomLeft;
    var j := |k.texts|;
    if n == 0 {
      LinesNone(es[..n]);
      PastTheEnd(lines, maxChars);
    } else if k.used >= maxChars {
      NoneLater(lines, j, maxChars);
    } else {
      ScanStep(es, n, k, maxChars);
      LinesSplit(es, n);
      match LineOf(es[n - 1]) {
        case None =>
          assert Lines(es[..n - 1]) + [] == Lines(es[..n - 1]);
          ScanFits(es, n - 1, k, maxChars, lines);
        case Some(line) =>
          NextLine(lines, Lines(es[..n - 1]), line, j);
          LineFits(es, n, k, maxChars, lines, line);
      }
    }
  }

  lemma PastTheEnd(lines: seq<string>, maxChars: nat)
    ensures forall k: nat | |lines| <= k :: !BareMark(lines, k, maxChars)
  {
  }

  lemma NextLine(lines: seq<string>, ahead: seq<string>, line: string, j: nat)
    requires j <= |lines| && ahead + [line] == lines[..|lines| - j]
    ensures j < |lines| && lines[|lines| - 1 - j] == line && ahead == lines[..|lines| - j - 1]
    ensures Whole(lines, j + 1) == Whole(lines, j) + (if j == 0 then 0 else 2) + |line|
  {
    hide Whole;
    assert (ahead + [line])[|ahead|] == lines[|ahead|];
    assert (ahead + [line])[..|ahead|] == ahead;
    WholeNext(lines, j);
  }

  lemma WholeNext(lines: seq<string>, j: nat)
    requires j < |lines|
    ensures Whole(lines, j + 1) == Whole(lines, j) + (if j == 0 then 0 else 2) + |lines[|lines| - 1 - j]|
  {
  }

  /** What one eligible line does to the budget. */
  lemma LineFits(es: seq<Event>, n: nat, k: Kept, maxChars: nat, lines: seq<string>, line: string)
    requires 0 < n <= |es| && k.used < maxChars && |k.texts| < |lines| && LineOf(es[n - 1]) == Some(line)
    requires lines[|lines| - 1 - |k.texts|] == line && Lines(es[..n - 1]) == lines[..|lines| - |k.texts| - 1]
    requires k.used == Whole(lines, |k.texts|) && Whole(lines, |k.texts| + 1) == k.used + Separator(k.texts) + |line|
    ensures Scan(es, n, k, maxChars).used <= maxChars
      <==> !exists at: nat :: |k.texts| <= at && BareMark(lines, at, maxChars)
    decreases n, 0
  {
    hide Truncate, LineOf, Lines, Whole;
    var j, room := |k.texts|, maxChars - k.used - Separator(k.texts);
    ScanStep(es, n, k, maxChars);
    TruncateMeans(line, room);
    OneMore(lines, j, maxChars);
    assert BareMark(lines, j, maxChars) <==> NoRoomLeft(line, room);
    if |line| <= room {
      ScanFits(es, n - 1, Kept(k.texts + [line], k.used + Separator(k.texts) + |line|), maxChars, lines);
    } else {
      NoneLater(lines, j + 1, maxChars);
      hide BareMark, NoRoomLeft;
      var text := Truncate(line, room);
      if text.Some? {
        var k' := Kept(k.texts + [text.value], k.used + Separator(k.texts) + |text.value|);
        assert k'.used >= maxChars;
        assert Scan(es, n - 1, k', maxChars) == k';
      }
    }
  }

  lemma JoinFront(text: string, texts: seq<string>)
    ensures |Join([text] + texts)| == |Join(texts)| + Separator(texts) + |text|
  {
    assert texts != [] ==> ([text] + texts)[1..] == texts;
  }

  lemma {:induction false} JoinedLength(texts: seq<string>)
    ensures |Join(Reversed(texts))| == Total(texts)
  {
    if texts != [] {
      JoinedLength(texts[..|texts| - 1]);
      JoinFront(texts[|texts| - 1], Reversed(texts[..|texts| - 1]));
    }
  }

  /**
   * The projection is the newest eligible messages in chronological order, whole
   * except possibly the oldest, and no further one would have fitted; it is
   * longer than `maxChars` exactly when some line meets a bare mark.
   */
  lemma ProjectionMeans(es: seq<Event>, maxChars: nat)
    ensures var r := Scan(es, |es|, Kept([], 0), maxChars);
      && Project(es, maxChars) == Join(Reversed(r.texts)) && Newest(Lines(es), r.texts)
      && |Project(es, maxChars)| == r.used
      && (|r.texts| < |Lines(es)| ==>
            r.used >= maxChars || Truncate(Lines(es)[|Lines(es)| - 1 - |r.texts|],
                                           maxChars - r.used - Separator(r.texts)).None?)
      && (|Project(es, maxChars)| <= maxChars <==> !exists k: nat :: BareMark(Lines(es), k, maxChars))
  {
    hide Scan, Lines, LineOf, Truncate, BareMark;
    assert es[..|es|] == es;
    assert Lines(es) <= Lines(es);
    ScanMeans(es, |es|, Kept([], 0), maxChars, Lines(es));
    assert Lines(es)[..|Lines(es)|] == Lines(es);
    ScanFits(es, |es|, Kept([], 0), maxChars, Lines(es));
    JoinedLength(Scan(es, |es|, Kept([], 0), maxChars).texts);
  }

  // ---------- whose words they are ----------

  predicate Blank(s: string, from: nat, to: nat)
    requires to <= |s|
  {
    forall k | from <= k < to :: IsSpace(s[k])
  }

  predicate BlankAround(s: string, from: nat, to: nat, text: string) {
    from <= to <= |s| && text == s[from..to] && Blank(s, 0, from) && Blank(s, to, |s|)
  }

  /** What is left between the blanks around it. */
  ghost predicate TrimsTo(s: string, text: string) {
    && (text != "" ==> !IsSpace(text[0]) && !IsSpace(text[|text| - 1]))
    && exists from: nat, to: nat :: BlankAround(s, from, to, text)
  }

  lemma {:induction false} TrimStartMeans(s: string) returns (from: nat)
    ensures from <= |s| && TrimStart(s) == s[from..] && Blank(s, 0, from)
    ensures TrimStart(s) != "" ==> !IsSpace(TrimStart(s)[0])
  {
    hide IsSpace;
    from := 0;
    if s != "" && IsSpace(s[0]) {
      var rest := s[1..];
      var later := TrimStartMeans(rest);
      assert forall k | 0 < k <= later :: s[k] == rest[k - 1];
      from := later + 1;
    }
  }

  lemma {:induction false} TrimEndMeans(s: string) returns (to: nat)
    ensures to <= |s| && TrimEnd(s) == s[..to] && Blank(s, to, |s|)
    ensures TrimEnd(s) != "" ==> !IsSpace(TrimEnd(s)[|TrimEnd(s)| - 1])
  {
    hide IsSpace;
    to := |s|;
    if s != "" && IsSpace(s[|s| - 1]) {
      var front := s[..|s| - 1];
      to := TrimEndMeans(front);
      assert forall k | 0 <= k < |front| :: s[k] == front[k];
    }
  }

  lemma TrimMeans(s: string)
    ensures TrimsTo(s, Trim(s))
    ensures forall text | TrimsTo(s, text) :: text == Trim(s)
  {
    hide IsSpace;
    var from := TrimStartMeans(s);
    var rest := s[from..];
    var length := TrimEndMeans(rest);
    assert forall k | from <= k < |s| :: s[k] == rest[k - from];
    assert BlankAround(s, from, from + length, Trim(s));
    if Trim(s) != "" { assert Trim(s)[0] == rest[0]; }
    hide Trim, TrimsTo;
    forall text | TrimsTo(s, text) ensures text == Trim(s) {
      TrimUnique(s, text, Trim(s));
    }
  }

  lemma TrimUnique(s: string, a: string, b: string)
    requires TrimsTo(s, a) && TrimsTo(s, b)
    ensures a == b
  {
    hide IsSpace, BlankAround;
    var f: nat, t: nat :| BlankAround(s, f, t, a);
    var g: nat, u: nat :| BlankAround(s, g, u, b);
    Edges(s, f, t, a, g, u, b);
    Edges(s, g, u, b, f, t, a);
    assert |a| == t - f && |b| == u - g;
    if a != "" || b != "" { assert f == g && t == u; }
  }

  /** A text with visible ends lies between the blanks around any other. */
  lemma Edges(s: string, f: nat, t: nat, a: string, g: nat, u: nat, b: string)
    requires BlankAround(s, f, t, a) && BlankAround(s, g, u, b)
    requires a != "" ==> !IsSpace(a[0]) && !IsSpace(a[|a| - 1])
    ensures a != "" ==> g <= f && t <= u
    ensures f <= t <= |s| && g <= u <= |s| && a == s[f..t] && b == s[g..u]
  {
    hide IsSpace;
    if a != "" { assert a[0] == s[f] && a[|a| - 1] == s[t - 1]; }
  }

  /** The event says this line: a user's words, or an answer's that calls no tool; blank ones say nothing. */
  ghost predicate SaysLine(e: Event, line: string) {
    exists text | text != "" && line == (if e.UserMessage? then "User: " else "Assistant: ") + text ::
      && (e.UserMessage? || (e.AssistantMessage? && (e.toolCalls.None? || |e.toolCalls.value| == 0)))
      && e.content.Some? && TrimsTo(e.content.value, text)
  }

  lemma LineMeans(e: Event, line: string)
    ensures LineOf(e) == Some(line) <==> SaysLine(e, line)
  {
    hide IsSpace, Trim, TrimsTo;
    if (e.UserMessage? || e.AssistantMessage?) && e.content.Some? { TrimMeans(e.content.value); }
    if LineOf(e) == Some(line) {
      assert line == (if e.UserMessage? then "User: " else "Assistant: ") + Trim(e.content.value);
    }
  }

  ghost predicate Speaks(e: Event) {
    exists line :: SaysLine(e, line)
  }

  /** The lines come from these events, in log order, and no other event says one. */
  ghost predicate Spoken(es: seq<Event>, lines: seq<string>, at: seq<nat>) {
    && |at| == |lines|
    && (forall k | 0 <= k < |at| :: at[k] < |es| && SaysLine(es[at[k]], lines[k]))
    && (forall k, l | 0 <= k < l < |at| :: at[k] < at[l])
    && forall i: nat | i < |es| && Speaks(es[i]) :: i in at
  }

  /** For every log, the lines are exactly what its messages say, one each, in order. */
  lemma {:induction false} LinesAreSpoken(es: seq<Event>) returns (at: seq<nat>)
    ensures Spoken(es, Lines(es), at)
  {
    hide LineOf, SaysLine, Speaks, Lines, Spoken;
    if es == [] {
      at := [];
      NobodySpoke(es);
    } else {
      var front, e := es[..|es| - 1], es[|es| - 1];
      at := LinesAreSpoken(front);
      SpeaksLine(e);
      LinesSnoc(front, e);
      assert es == front + [e];
      SpokenSnoc(front, e, Lines(front), at);
      if LineOf(e).Some? { at := at + [|front|]; }
    }
  }

  lemma NobodySpoke(es: seq<Event>)
    requires es == []
    ensures Spoken(es, Lines(es), [])
  {
  }

  lemma SpeaksLine(e: Event)
    ensures Speaks(e) <==> LineOf(e).Some?
    ensures LineOf(e).Some? ==> SaysLine(e, LineOf(e).value)
  {
    hide LineOf, SaysLine;
    forall line ensures LineOf(e) == Some(line) <==> SaysLine(e, line) { LineMeans(e, line); }
    if LineOf(e).Some? { assert SaysLine(e, LineOf(e).value); }
  }

  lemma LinesSnoc(es: seq<Event>, e: Event)
    ensures Lines(es + [e]) == if LineOf(e).Some? then Lines(es) + [LineOf(e).value] else Lines(es)
  {
    hide LineOf;
    assert (es + [e])[..|es|] == es;
  }

  lemma SpokenSnoc(es: seq<Event>, e: Event, lines: seq<string>, at: seq<nat>)
    requires Spoken(es, lines, at)
    ensures !Speaks(e) ==> Spoken(es + [e], lines, at)
    ensures forall line | SaysLine(e, line) :: Spoken(es + [e], lines + [line], at + [|es|])
  {
    hide SaysLine;
    var all, n := es + [e], |es|;
    assert forall i: nat | i < n :: all[i] == es[i];
    forall line | SaysLine(e, line) ensures Spoken(all, lines + [line], at + [n]) {
      assert (at + [n])[|at|] == n && Speaks(e);
      forall i: nat | i < |all| && Speaks(all[i]) ensures i in at + [n] {
        if i < n { assert Speaks(es[i]); }
      }
    }
    if !Speaks(e) {
      forall i: nat | i < |all| && Speaks(all[i]) ensures i in at {
        assert i < n;
      }
    }
  }

  /** The texts are set apart by one empty line. */
  lemma {:induction false} JoinSnoc(texts: seq<string>, text: string)
    ensures Join([]) == "" && Join([text]) == text
    ensures texts != [] ==> Join(texts + [text]) == Join(texts) + "\n\n" + text
  {
    if |texts| > 1 {
      JoinSnoc(texts[1..], text);
      assert (texts + [text])[1..] == texts[1..] + [text];
      assert texts[0] + "\n\n" + (Join(texts[1..]) + "\n\n" + text)
          == texts[0] + "\n\n" + Join(texts[1..]) + "\n\n" + text;
    } else if |texts| == 1 {
      assert (texts + [text])[1..] == [text];
    }
  }

  /** The label is always one of two, so the bare mark is 18 or 23 characters. */
  lemma LabelKnown(e: Event)
    requires LineOf(e).Some?
    ensures var end := LabelEnd(LineOf(e).value); end == Some(4) || end == Some(9)
  {
    var line := LineOf(e).value;
    if e.UserMessage? {
      LabelAt(line, 4);
    } else {
      LabelAt(line, 9);
    }
  }

  lemma {:induction false} LabelAt(line: string, at: nat)
    requires at + 2 <= |line| && line[at] == ':' && line[at + 1] == ' ' && forall i | 0 <= i < at :: line[i] != ':'
    ensures LabelEnd(line) == Some(at)
  {
    if at > 0 { LabelAt(line[1..], at - 1); }
  }

  const MAX_INHERITED_CHARS: nat := 12000

  /**
   * The budget both callers use is exceeded: a newest message of 11974 characters
   * leaves an older, longer one exactly its bare mark, and all of it comes along.
   */
  lemma BareMarkOverruns(newer: string, older: string)
    requires |newer| == 11974 && Trim(newer) == newer && |older| > 12 && Trim(older) == older
    ensures |Project([UserMessage(1, None, Some(older), None, []), UserMessage(2, None, Some(newer), None, [])],
                     MAX_INHERITED_CHARS)| > MAX_INHERITED_CHARS
  {
    hide IsSpace, TrimStart, TrimEnd, Trim, Project;
    var a, b := UserMessage(1, None, Some(older), None, []), UserMessage(2, None, Some(newer), None, []);
    var es := [a, b];
    var first, last := "User: " + older, "User: " + newer;
    assert LineOf(a) == Some(first) && LineOf(b) == Some(last);
    assert es[..2] == es && es[..1] == [a] && es[..0] == [];
    LinesSplit(es, 2);
    LinesSplit(es, 1);
    LinesNone(es[..0]);
    hide Lines;
    assert Lines(es) == [first, last];
    LabelAt(first, 4);
    BareAt(first, last);
    ProjectionMeans(es, MAX_INHERITED_CHARS);
  }

  lemma BareAt(first: string, last: string)
    requires LabelEnd(first) == Some(4) && |first| > 18 && |last| == 11980
    ensures BareMark([first, last], 1, MAX_INHERITED_CHARS)
  {
    hide LabelEnd;
    WholeNext([first, last], 0);
  }
}
