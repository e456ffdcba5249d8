/**
 * Inline chips in a message (web/lib/inline-chips.ts:20-97) and drafts
 * (web/lib/composer-draft.ts:23-90). The two patterns are written out as
 * matching functions with JavaScript's leftmost, greedy reading.
 */
module Chips {
  import opened Basics
  import opened Events

  datatype Segment =
    | Plain(text: string)
    | Mention(path: string)
    | Command(name: string)

  // ---------- characters ----------

  predicate IsPunctuation(c: char) {
    c in ".,;:!?)]"
  }

  predicate IsNameStart(c: char) {
    'a' <= c <= 'z' || '0' <= c <= '9'
  }

  predicate IsNameChar(c: char) {
    IsNameStart(c) || c == '-'
  }

  predicate IsBare(c: char) {
    !IsSpace(c) && c != '"'
  }

  predicate IsQuotable(c: char) {
    c != '"' && c != '\n'
  }

  /** The end of the longest stretch of such characters from `at`. */
  function RunEnd(t: string, at: nat, ok: char -> bool): (end: nat)
    requires at <= |t|
    ensures at <= end <= |t|
    ensures forall i | at <= i < end :: ok(t[i])
    ensures end < |t| ==> !ok(t[end])
    decreases |t| - at
  {
    if at < |t| && ok(t[at]) then RunEnd(t, at + 1, ok) else at
  }

  lemma {:induction false} RunEndIs(t: string, at: nat, ok: char -> bool, end: nat)
    requires at <= end <= |t|
    requires forall i | at <= i < end :: ok(t[i])
    requires end < |t| ==> !ok(t[end])
    ensures RunEnd(t, at, ok) == end
    decreases end - at
  {
    if at < end { RunEndIs(t, at + 1, ok, end); }
  }

  // ---------- printing ----------

  /** Where a path's trailing punctuation begins. */
  function TailStart(path: string): (n: nat)
    ensures n <= |path|
    ensures forall i | n <= i < |path| :: IsPunctuation(path[i])
    ensures n > 0 ==> !IsPunctuation(path[n - 1])
  {
    if path != "" && IsPunctuation(path[|path| - 1]) then TailStart(path[..|path| - 1]) else |path|
  }

  predicate PlainPath(path: string) {
    && path != ""
    && (forall i | 0 <= i < |path| :: IsBare(path[i]))
    && TailStart(path) == |path|
  }

  function ChipWireText(s: Segment): string
    requires !s.Plain?
  {
    match s
    case Command(name) => "Use the " + name + " skill:"
    case Mention(path) => if PlainPath(path) then "@" + path else "@\"" + path + "\""
  }

  function Wire(s: Segment): string {
    if s.Plain? then s.text else ChipWireText(s)
  }

  function MessageText(segments: seq<Segment>): string {
    if segments == [] then "" else Wire(segments[0]) + MessageText(segments[1..])
  }

  lemma {:induction false} MessageTextAppend(a: seq<Segment>, b: seq<Segment>)
    ensures MessageText(a + b) == MessageText(a) + MessageText(b)
  {
    if a == [] {
      assert a + b == b;
    } else {
      assert (a + b)[1..] == a[1..] + b;
      MessageTextAppend(a[1..], b);
    }
  }

  // ---------- the patterns ----------

  const Lead := "Use the "
  const Trail := " skill:"

  predicate At(t: string, i: nat, part: string) {
    i + |part| <= |t| && t[i..i + |part|] == part
  }

  /** `^[a-z0-9][a-z0-9-]{0,63}$` */
  predicate IsSkillName(name: string) {
    0 < |name| <= 64 && IsNameStart(name[0]) && forall i | 0 <= i < |name| :: IsNameChar(name[i])
  }

  /** `^Use the ([a-z0-9][a-z0-9-]{0,63}) skill:` gives the name. */
  function CommandPrefix(t: string): (name: Option<string>)
    ensures name.Some? ==> IsSkillName(name.value) && Wire(Command(name.value)) <= t
  {
    if !At(t, 0, Lead) then None
    else
      var end := RunEnd(t, |Lead|, IsNameChar);
      var name := t[|Lead|..end];
      if 0 < |name| <= 64 && IsNameStart(name[0]) && At(t, end, Trail) then
        assert t[..end + |Trail|] == Lead + name + Trail;
        Some(name)
      else None
  }

  /** One match of `(^|\s)@(?:"([^"\n]+)"|([^\s"]+))`: `start` is the `@`, `path` the group that matched. */
  datatype Match = Match(start: nat, end: nat, path: string, quoted: bool)

  predicate Spells(t: string, m: Match) {
    && m.start + 1 < m.end <= |t|
    && t[m.start..m.end] == if m.quoted then "@\"" + m.path + "\"" else "@" + m.path
  }

  /** The part from the `@` on. */
  function MentionAt(t: string, start: nat): (m: Option<Match>)
    ensures m.Some? ==> m.value.start == start && Spells(t, m.value)
  {
    if start + 1 >= |t| || t[start] != '@' then None
    else if t[start + 1] == '"' then
      var end := RunEnd(t, start + 2, IsQuotable);
      if start + 2 < end < |t| && t[end] == '"' then Some(Match(start, end + 1, t[start + 2..end], true)) else None
    else
      var end := RunEnd(t, start + 1, IsBare);
      if start + 1 < end then Some(Match(start, end, t[start + 1..end], false)) else None
  }

  /** A match that begins at `p`: at the very start, or on a white space. */
  function MatchAt(t: string, p: nat): (m: Option<Match>)
    ensures m.Some? ==> p <= m.value.start <= p + 1 && Spells(t, m.value)
  {
    var first := if p == 0 then MentionAt(t, 0) else None;
    if first.Some? then first
    else if p < |t| && IsSpace(t[p]) then MentionAt(t, p + 1)
    else None
  }

  /** The leftmost match from `from` on. */
  function FindMatch(t: string, from: nat): (m: Option<Match>)
    requires from <= |t|
    ensures m.Some? ==> from <= m.value.start && Spells(t, m.value)
    decreases |t| - from
  {
    if from == |t| then None
    else
      var here := MatchAt(t, from);
      if here.Some? then here else FindMatch(t, from + 1)
  }

  /** The search gives the leftmost match, and none only where none begins. */
  lemma {:induction false} FindMatchIsLeftmost(t: string, from: nat)
    requires from <= |t|
    ensures match FindMatch(t, from)
      case None => forall p | from <= p < |t| :: MatchAt(t, p).None?
      case Some(m) =>
        exists p | from <= p < |t| :: MatchAt(t, p) == Some(m) && forall q | from <= q < p :: MatchAt(t, q).None?
    decreases |t| - from
  {
    hide MatchAt;
    if from < |t| && MatchAt(t, from).None? {
      FindMatchIsLeftmost(t, from + 1);
    }
  }

  // ---------- parsing ----------

  /** What a match makes: the path without glued punctuation, and where the chip ends. */
  function ChipPath(m: Match): string {
    if m.quoted then m.path else m.path[..TailStart(m.path)]
  }

  function ChipEnd(m: Match): int {
    if m.quoted then m.end else m.end - (|m.path| - TailStart(m.path))
  }

  /** Only the canonical spelling is a chip. */
  predicate IsChip(t: string, m: Match)
    requires m.start < m.end <= |t|
  {
    && ChipPath(m) != "" && m.start <= ChipEnd(m) <= m.end
    && t[m.start..ChipEnd(m)] == ChipWireText(Mention(ChipPath(m)))
  }

  function TextIfAny(t: string, from: nat, to: nat): seq<Segment>
    requires from <= to <= |t|
  {
    if from < to then [Plain(t[from..to])] else []
  }

  function Mentions(t: string, from: nat, cursor: nat): seq<Segment>
    requires cursor <= from <= |t|
    decreases |t| - from
  {
    match FindMatch(t, from)
    case None => TextIfAny(t, cursor, |t|)
    case Some(m) =>
      if !IsChip(t, m) then Mentions(t, m.end, cursor)
      else TextIfAny(t, cursor, m.start) + [Mention(ChipPath(m))] + Mentions(t, m.end, ChipEnd(m))
  }

  function Parse(text: string): seq<Segment> {
    match CommandPrefix(text)
    case Some(name) => [Command(name)] + Mentions(text[|Wire(Command(name))|..], 0, 0)
    case None => Mentions(text, 0, 0)
  }

  method ParseMessageText(text: string) returns (segments: seq<Segment>)
    ensures segments == Parse(text)
  {
    hide CommandPrefix, Wire, Mentions;
    segments := [];
    var rest := text;
    var command := CommandPrefix(rest);
    if command.Some? {
      segments := segments + [Command(command.value)];
      rest := rest[|Wire(Command(command.value))|..];
    }
    ghost var head := segments;
    assert Parse(text) == head + Mentions(rest, 0, 0);
    var mentions := ParseMentions(rest);
    segments := segments + mentions;
  }

  method ParseMentions(rest: string) returns (segments: seq<Segment>)
    ensures segments == Mentions(rest, 0, 0)
  {
    hide IsChip, ChipPath, ChipEnd, FindMatch, Mentions, Spells;
    segments := [];
    var cursor: nat, from: nat := 0, 0;
    var next := FindMatch(rest, from);
    while next.Some?
      invariant cursor <= from <= |rest|
      invariant next == FindMatch(rest, from)
      invariant Mentions(rest, 0, 0) == segments + Mentions(rest, from, cursor)
      decreases |rest| - from
    {
      var m := next.value;
      MentionsStep(rest, from, cursor);
      if IsChip(rest, m) {
        if m.start > cursor {
          segments := segments + [Plain(rest[cursor..m.start])];
        }
        segments := segments + [Mention(ChipPath(m))];
        cursor := ChipEnd(m);
      }
      from := m.end;
      next := FindMatch(rest, from);
    }
    MentionsStep(rest, from, cursor);
    assert rest[cursor..] == rest[cursor..|rest|] && segments + [] == segments;
    if cursor < |rest| {
      segments := segments + [Plain(rest[cursor..])];
    }
  }

  lemma MentionsStep(t: string, from: nat, cursor: nat)
    requires cursor <= from <= |t|
    ensures var next := FindMatch(t, from);
      if next.None? then Mentions(t, from, cursor) == TextIfAny(t, cursor, |t|)
      else
        var m := next.value;
        && from <= m.start < m.end <= |t|
        && (IsChip(t, m) ==>
              && m.start <= ChipEnd(m) <= m.end
              && Mentions(t, from, cursor) == TextIfAny(t, cursor, m.start) + [Mention(ChipPath(m))]
                + Mentions(t, m.end, ChipEnd(m)))
        && (!IsChip(t, m) ==> Mentions(t, from, cursor) == Mentions(t, m.end, cursor))
  {
  }

  // ---------- printing what was parsed ----------

  lemma {:induction false} MentionsPrintBack(t: string, from: nat, cursor: nat)
    requires cursor <= from <= |t|
    ensures MessageText(Mentions(t, from, cursor)) == t[cursor..]
    decreases |t| - from
  {
    hide IsChip, ChipPath, ChipEnd, FindMatch, Mentions, Spells, MessageText;
    MentionsStep(t, from, cursor);
    match FindMatch(t, from) {
      case None =>
        NothingPrinted([]);
        assert t[cursor..] == t[cursor..|t|];
        if cursor < |t| { MessageTextOne(Plain(t[cursor..])); }
      case Some(m) =>
        if !IsChip(t, m) {
          MentionsPrintBack(t, m.end, cursor);
        } else {
          MentionsPrintBack(t, m.end, ChipEnd(m));
          PrintChip(t, cursor, m);
          MessageTextAppend(TextIfAny(t, cursor, m.start) + [Mention(ChipPath(m))], Mentions(t, m.end, ChipEnd(m)));
          assert t[cursor..] == t[cursor..ChipEnd(m)] + t[ChipEnd(m)..];
        }
    }
  }

  lemma NothingPrinted(segments: seq<Segment>)
    requires segments == []
    ensures MessageText(segments) == ""
  {
  }

  lemma MessageTextOne(s: Segment)
    ensures MessageText([s]) == Wire(s)
  {
    assert MessageText([s]) == Wire(s) + MessageText([s][1..]);
  }

  lemma PrintChip(t: string, cursor: nat, m: Match)
    requires cursor <= m.start < m.end <= |t| && IsChip(t, m)
    ensures MessageText(TextIfAny(t, cursor, m.start) + [Mention(ChipPath(m))]) == t[cursor..ChipEnd(m)]
  {
    var chip := Mention(ChipPath(m));
    MessageTextOne(chip);
    assert t[cursor..ChipEnd(m)] == t[cursor..m.start] + t[m.start..ChipEnd(m)];
    if cursor < m.start {
      MessageTextOne(Plain(t[cursor..m.start]));
      MessageTextAppend([Plain(t[cursor..m.start])], [chip]);
    } else {
      assert TextIfAny(t, cursor, m.start) + [chip] == [chip];
    }
  }

  /** For every string, printing the parsed message gives the string back. */
  lemma PrintParsed(text: string)
    ensures MessageText(Parse(text)) == text
  {
    match CommandPrefix(text) {
      case Some(name) =>
        var wire := Wire(Command(name));
        MentionsPrintBack(text[|wire|..], 0, 0);
        assert text == wire + text[|wire|..];
        MessageTextOne(Command(name));
        MessageTextAppend([Command(name)], Mentions(text[|wire|..], 0, 0));
      case None => MentionsPrintBack(text, 0, 0);
    }
  }

  // ---------- parsing what was printed ----------

  predicate NoAt(s: string) {
    forall i | 0 <= i < |s| :: s[i] != '@'
  }

  /** An `@` that starts a word, so that a mention could begin there. */
  predicate WordAt(t: string, i: nat)
    requires i < |t|
  {
    t[i] == '@' && (i == 0 || IsSpace(t[i - 1]))
  }

  predicate NoWordAt(s: string) {
    forall i | 0 <= i < |s| :: !WordAt(s, i)
  }

  /** A path the quoted form can hold. */
  predicate GoodPath(path: string) {
    path != "" && forall i | 0 <= i < |path| :: IsQuotable(path[i])
  }

  /**
   * Texts are merged and start no word with `@`; a mention opens the message or follows white space, and white
   * space follows it.
   */
  ghost predicate Spaced(segs: seq<Segment>) {
    && (forall i | 0 <= i < |segs| :: !segs[i].Command?)
    && (forall i | 0 <= i < |segs| && segs[i].Plain? ::
          segs[i].text != "" && NoWordAt(segs[i].text) && (i + 1 < |segs| ==> segs[i + 1].Mention?))
    && (forall i | 0 <= i < |segs| && segs[i].Mention? ::
          && GoodPath(segs[i].path)
          && (i > 0
              ==> segs[i - 1].Plain? && segs[i - 1].text != "" && IsSpace(segs[i - 1].text[|segs[i - 1].text| - 1]))
          && (i + 1 < |segs| ==> segs[i + 1].Plain? && segs[i + 1].text != "" && IsSpace(segs[i + 1].text[0])))
  }

  /**
   * A draft whose wire text says exactly what it holds: at most one command, in front, and no text that reads as
   * one.
   */
  ghost predicate Readable(segs: seq<Segment>) {
    if segs != [] && segs[0].Command? then IsSkillName(segs[0].name) && Spaced(segs[1..])
    else Spaced(segs) && (segs != [] && segs[0].Plain? ==> CommandPrefix(segs[0].text).None?)
  }

  lemma {:induction false} NothingToFind(t: string, from: nat)
    requires from <= |t| && forall k | from <= k < |t| :: !WordAt(t, k)
    ensures FindMatch(t, from) == None
    decreases |t| - from
  {
    hide MatchAt, WordAt;
    if from < |t| {
      NoMatchHere(t, from);
      NothingToFind(t, from + 1);
    }
  }

  /** No match begins where neither that place nor the next starts a word with `@`. */
  lemma {:induction false} SkipTo(t: string, from: nat, to: nat)
    requires from <= to < |t| && forall k | from <= k <= to :: !WordAt(t, k)
    ensures FindMatch(t, from) == FindMatch(t, to)
    decreases |t| - from
  {
    hide MatchAt, WordAt;
    if from < to {
      NoMatchHere(t, from);
      SkipTo(t, from + 1, to);
    }
  }

  lemma NoMatchHere(t: string, p: nat)
    requires p < |t| && !WordAt(t, p) && (p + 1 < |t| ==> !WordAt(t, p + 1))
    ensures MatchAt(t, p) == None
  {
  }

  lemma PlainMatched(t: string, start: nat, path: string)
    requires PlainPath(path) && At(t, start, "@" + path)
    requires var end := start + 1 + |path|; end == |t| || IsSpace(t[end])
    ensures MentionAt(t, start) == Some(Match(start, start + 1 + |path|, path, false))
  {
    hide IsSpace;
    var wire := "@" + path;
    var end := start + |wire|;
    assert forall i | 0 <= i < |wire| :: t[start + i] == t[start..end][i];
    assert forall i | start + 1 <= i < end :: t[i] == path[i - start - 1];
    RunEndIs(t, start + 1, IsBare, end);
    assert t[start + 1..end] == path;
    assert IsBare(path[0]);
  }

  lemma QuotedMatched(t: string, start: nat, path: string)
    requires GoodPath(path) && At(t, start, "@\"" + path + "\"")
    ensures MentionAt(t, start) == Some(Match(start, start + 3 + |path|, path, true))
  {
    var wire := "@\"" + path + "\"";
    var end := start + |wire|;
    assert t[start..end] == wire;
    assert t[start] == wire[0] && t[start + 1] == wire[1] && t[end - 1] == wire[|wire| - 1];
    forall i | start + 2 <= i < end - 1 ensures t[i] == path[i - start - 2] && IsQuotable(t[i]) {
      assert t[i] == t[start..end][i - start] == wire[i - start];
    }
    RunEndIs(t, start + 2, IsQuotable, end - 1);
    assert t[start + 2..end - 1] == path;
  }

  /** The chip's wire text is matched whole, as that chip, when white space or the end follows. */
  lemma WireIsMatched(t: string, start: nat, path: string)
    requires GoodPath(path) && At(t, start, Wire(Mention(path)))
    requires var end := start + |Wire(Mention(path))|; end == |t| || IsSpace(t[end])
    ensures var m := MentionAt(t, start);
      && m.Some? && m.value.start == start && m.value.end == start + |Wire(Mention(path))|
      && IsChip(t, m.value) && ChipPath(m.value) == path && ChipEnd(m.value) == m.value.end
  {
    hide MentionAt, IsSpace;
    if PlainPath(path) {
      PlainMatched(t, start, path);
      assert path[..TailStart(path)] == path;
    } else {
      QuotedMatched(t, start, path);
    }
  }

  lemma SpacedRest(segs: seq<Segment>, n: nat)
    requires Spaced(segs) && n <= |segs|
    ensures Spaced(segs[n..])
  {
  }

  lemma PrintSplits(segs: seq<Segment>)
    requires segs != []
    ensures MessageText(segs) == Wire(segs[0]) + MessageText(segs[1..])
    ensures segs[1..] != [] ==> MessageText(segs) == Wire(segs[0]) + (Wire(segs[1]) + MessageText(segs[2..]))
  {
    assert segs[1..] != [] ==> segs[1..][0] == segs[1] && segs[1..][1..] == segs[2..];
  }

  /** What follows a mention begins with white space, if there is anything. */
  lemma SpaceFollows(segs: seq<Segment>)
    requires Spaced(segs)
    requires segs != [] ==> segs[0].Plain? && segs[0].text != "" && IsSpace(segs[0].text[0])
    ensures SpaceLeads(MessageText(segs))
  {
  }

  /** A text that starts no word with `@` starts none inside a longer string either. */
  lemma TextInside(pre: string, text: string, rest: string)
    requires NoWordAt(text)
    ensures forall k | |pre| <= k < |pre| + |text| :: !WordAt(pre + text + rest, k)
  {
    var t := pre + text + rest;
    forall k | |pre| <= k < |pre| + |text| ensures !WordAt(t, k) {
      assert t[k] == text[k - |pre|] && !WordAt(text, k - |pre|);
      if k > |pre| { assert t[k - 1] == text[k - |pre| - 1]; }
    }
  }

  lemma LastTextParses(pre: string, text: string)
    requires text != "" && NoWordAt(text)
    ensures Mentions(pre + text, |pre|, |pre|) == [Plain(text)]
  {
    hide WordAt, NoWordAt;
    var t := pre + text;
    TextInside(pre, text, "");
    assert pre + text + "" == t;
    NothingToFind(t, |pre|);
    MentionsStep(t, |pre|, |pre|);
    assert t[|pre|..|t|] == text;
  }

  lemma MentionFirst(path: string, rest: string)
    requires GoodPath(path) && (rest == "" || IsSpace(rest[0]))
    ensures var wire := Wire(Mention(path));
      Mentions(wire + rest, 0, 0) == [Mention(path)] + Mentions(wire + rest, |wire|, |wire|)
  {
    var wire := Wire(Mention(path));
    var t := wire + rest;
    WireIsMatched(t, 0, path);
    assert FindMatch(t, 0) == MentionAt(t, 0);
    MentionsStep(t, 0, 0);
  }

  lemma TextThenMention(pre: string, text: string, path: string, rest: string)
    requires text != "" && NoWordAt(text) && IsSpace(text[|text| - 1])
    requires GoodPath(path) && (rest == "" || IsSpace(rest[0]))
    ensures var wire := Wire(Mention(path));
      var t := pre + text + wire + rest;
      var end := |pre + text + wire|;
      Mentions(t, |pre|, |pre|) == [Plain(text), Mention(path)] + Mentions(t, end, end)
  {
    hide Wire, IsChip, ChipPath, ChipEnd, MentionAt, FindMatch, GoodPath, Mentions, NoWordAt, WordAt, IsSpace;
    hide Spells, At;
    var wire := Wire(Mention(path));
    var t := pre + text + wire + rest;
    var c, q := |pre|, |pre| + |text| - 1;
    TextThenWire(pre, text, wire, rest);
    WireIsMatched(t, q + 1, path);
    SkipTo(t, c, q);
    LeadBefore(t, q);
    MentionsStep(t, c, c);
  }

  lemma TextThenWire(pre: string, text: string, wire: string, rest: string)
    requires text != "" && NoWordAt(text) && IsSpace(text[|text| - 1])
    ensures var t := pre + text + wire + rest; var q := |pre| + |text| - 1;
      && (forall k | |pre| <= k <= q :: !WordAt(t, k)) && IsSpace(t[q]) && t[|pre|..q + 1] == text
      && At(t, q + 1, wire) && (rest != "" ==> t[q + 1 + |wire|] == rest[0])
  {
    hide IsSpace, WordAt, NoWordAt;
    var t := pre + text + wire + rest;
    assert t == pre + text + (wire + rest);
    TextInside(pre, text, wire + rest);
    assert forall k | |pre| <= k < |pre| + |text| :: t[k] == text[k - |pre|];
  }

  lemma LeadBefore(t: string, q: nat)
    requires q < |t| && IsSpace(t[q]) && MentionAt(t, q + 1).Some?
    ensures FindMatch(t, q) == MentionAt(t, q + 1)
  {
  }

  /** The first segment or two of a spaced draft, and what follows them. */
  lemma SpacedHead(segs: seq<Segment>)
    requires Spaced(segs) && segs != []
    ensures Spaced(segs[1..]) && (segs[0].Mention? || segs[0].Plain?)
    ensures segs[0].Mention? ==> GoodPath(segs[0].path) && SpaceLeads(MessageText(segs[1..]))
    ensures segs[0].Plain? ==> segs[0].text != "" && NoWordAt(segs[0].text)
    ensures segs[0].Plain? && |segs| > 1 ==>
      && segs[1].Mention? && GoodPath(segs[1].path) && IsSpace(segs[0].text[|segs[0].text| - 1])
      && Spaced(segs[2..]) && (segs[2..] != [] ==> !segs[2].Mention?) && SpaceLeads(MessageText(segs[2..]))
  {
    hide IsSpace;
    SpacedRest(segs, 1);
    if segs[0].Mention? {
      SpaceFollows(segs[1..]);
    } else if |segs| > 1 {
      SpacedRest(segs, 2);
      assert segs[1].Mention?;
      assert 1 + 1 < |segs| ==> segs[1 + 1].Plain? && segs[1 + 1].text != "" && IsSpace(segs[1 + 1].text[0]);
      assert segs[2..] != [] ==> segs[2..][0] == segs[2];
      SpaceFollows(segs[2..]);
    }
  }

  predicate SpaceLeads(text: string) {
    text == "" || IsSpace(text[0])
  }

  /** Parsing from a boundary gives the segments printed from there. */
  lemma {:induction false} BodyParses(pre: string, segs: seq<Segment>)
    requires Spaced(segs) && (segs != [] && segs[0].Mention? ==> pre == "")
    ensures Mentions(pre + MessageText(segs), |pre|, |pre|) == segs
    decreases |segs|
  {
    hide Wire, FindMatch, IsChip, Mentions, MessageText, Spaced, IsSpace, NoWordAt, GoodPath;
    if segs == [] {
      EmptyParses(pre, segs);
    } else {
      SpacedHead(segs);
      PrintSplits(segs);
      if segs[0].Mention? {
        var wire, rest := Wire(segs[0]), MessageText(segs[1..]);
        FirstIsPlain(segs);
        MentionFirst(segs[0].path, rest);
        BodyParses(wire, segs[1..]);
        assert segs == [segs[0]] + segs[1..] && pre + MessageText(segs) == wire + rest;
      } else if |segs| == 1 {
        assert segs == [segs[0]];
        MessageTextOne(segs[0]);
        PlainWire(segs[0]);
        LastTextParses(pre, segs[0].text);
      } else {
        var text, wire, rest := segs[0].text, Wire(segs[1]), MessageText(segs[2..]);
        PlainWire(segs[0]);
        TextThenMention(pre, text, segs[1].path, rest);
        BodyParses(pre + text + wire, segs[2..]);
        assert pre + (text + (wire + rest)) == pre + text + wire + rest;
        assert segs == [segs[0], segs[1]] + segs[2..];
      }
    }
  }

  lemma FirstIsPlain(segs: seq<Segment>)
    requires Spaced(segs) && segs != [] && segs[0].Mention?
    ensures segs[1..] != [] ==> !segs[1..][0].Mention?
  {
  }

  lemma PlainWire(s: Segment)
    requires s.Plain?
    ensures Wire(s) == s.text
  {
  }

  lemma EmptyParses(pre: string, segs: seq<Segment>)
    requires segs == []
    ensures Mentions(pre + MessageText(segs), |pre|, |pre|) == segs
  {
    assert pre + "" == pre;
    NothingToFind(pre, |pre|);
  }

  // ---------- the command in front ----------

  lemma CommandParses(t: string, name: string)
    requires IsSkillName(name) && Wire(Command(name)) <= t
    ensures CommandPrefix(t) == Some(name)
  {
    var wire := Wire(Command(name));
    assert wire == Lead + name + Trail;
    var end := |Lead| + |name|;
    assert t[..|wire|] == wire;
    assert forall i | 0 <= i < |wire| :: t[i] == wire[i];
    assert t[0..|Lead|] == Lead && t[|Lead|..end] == name && t[end..end + |Trail|] == Trail;
    assert forall i | |Lead| <= i < end :: t[i] == name[i - |Lead|];
    assert t[end] == Trail[0];
    RunEndIs(t, |Lead|, IsNameChar, end);
  }

  /** The prefix is read exactly when the message begins with the wire text of a valid skill name. */
  lemma CommandPrefixIff(t: string, name: string)
    ensures CommandPrefix(t) == Some(name) <==> IsSkillName(name) && Wire(Command(name)) <= t
  {
    if IsSkillName(name) && Wire(Command(name)) <= t { CommandParses(t, name); }
  }

  lemma CommandHasNoAt(name: string)
    requires IsSkillName(name)
    ensures NoAt(Wire(Command(name)))
  {
    var wire := Wire(Command(name));
    assert wire == Lead + name + Trail;
    forall i | 0 <= i < |wire| ensures wire[i] != '@' {
      if |Lead| <= i < |Lead| + |name| { assert IsNameChar(name[i - |Lead|]); }
    }
  }

  /** A text that does not read as a command still does not when a mention, or nothing, follows. */
  lemma StillNoCommand(text: string, rest: string)
    requires CommandPrefix(text).None? && (rest == "" || rest[0] == '@')
    ensures CommandPrefix(text + rest).None?
  {
    var found := CommandPrefix(text + rest);
    if found.Some? {
      var wire := Wire(Command(found.value));
      assert |wire| > |text| ==> wire[|text|] == '@';
      CommandHasNoAt(found.value);
      assert wire <= text by { assert (text + rest)[..|wire|] == text[..|wire|]; }
      CommandParses(text, found.value);
    }
  }

  lemma MentionStartsAt(path: string)
    ensures Wire(Mention(path)) != "" && Wire(Mention(path))[0] == '@'
  {
  }

  /** Parsing the printed draft gives back its segments, whenever the draft can be read back at all. */
  lemma ParsePrinted(segs: seq<Segment>)
    requires Readable(segs)
    ensures Parse(MessageText(segs)) == segs
  {
    hide Wire, Mentions, CommandPrefix;
    var t := MessageText(segs);
    assert "" + MessageText(segs) == MessageText(segs);
    if segs != [] && segs[0].Command? {
      PrintSplits(segs);
      var wire, body := Wire(segs[0]), MessageText(segs[1..]);
      CommandParses(t, segs[0].name);
      assert t[|wire|..] == body && "" + body == body;
      BodyParses("", segs[1..]);
      assert segs == [segs[0]] + segs[1..];
    } else {
      BodyParses("", segs);
      NoCommandRead(segs);
    }
  }

  lemma NoCommandRead(segs: seq<Segment>)
    requires Spaced(segs) && (segs != [] && segs[0].Plain? ==> CommandPrefix(segs[0].text).None?)
    ensures CommandPrefix(MessageText(segs)).None?
  {
    if segs != [] {
      PrintSplits(segs);
      if segs[0].Mention? {
        MentionStartsAt(segs[0].path);
        StillNoCommand("", MessageText(segs));
        assert "" + MessageText(segs) == MessageText(segs);
      } else {
        if |segs| > 1 { MentionStartsAt(segs[1].path); }
        StillNoCommand(segs[0].text, MessageText(segs[1..]));
      }
    }
  }

  // ---------- drafts ----------

  function Joined(merged: seq<Segment>, s: Segment): seq<Segment> {
    if !s.Plain? then merged + [s]
    else if s.text == "" then merged
    else if merged != [] && merged[|merged| - 1].Plain?
      then merged[..|merged| - 1] + [Plain(merged[|merged| - 1].text + s.text)]
    else merged + [s]
  }

  function Normalized(segs: seq<Segment>): seq<Segment> {
    if segs == [] then [] else Joined(Normalized(segs[..|segs| - 1]), segs[|segs| - 1])
  }

  method NormalizeDraft(segs: seq<Segment>) returns (merged: seq<Segment>)
    ensures merged == Normalized(segs)
  {
    merged := [];
    for i := 0 to |segs|
      invariant merged == Normalized(segs[..i])
    {
      var segment := segs[i];
      assert segs[..i + 1][..i] == segs[..i];
      if !segment.Plain? { merged := merged + [segment]; continue; }
      if segment.text == "" { continue; }
      if |merged| > 0 && merged[|merged| - 1].Plain? {
        merged := merged[|merged| - 1 := Plain(merged[|merged| - 1].text + segment.text)];
        continue;
      }
      merged := merged + [segment];
    }
    assert segs[..|segs|] == segs;
  }

  /** No empty text, and no two texts side by side. */
  predicate IsNormal(segs: seq<Segment>) {
    && (forall i | 0 <= i < |segs| && segs[i].Plain? :: segs[i].text != "")
    && (forall i | 0 < i < |segs| :: !(segs[i - 1].Plain? && segs[i].Plain?))
  }

  lemma JoinedKeeps(merged: seq<Segment>, s: Segment)
    requires IsNormal(merged)
    ensures IsNormal(Joined(merged, s)) && MessageText(Joined(merged, s)) == MessageText(merged) + Wire(s)
  {
    JoinedNormal(merged, s);
    hide Wire, IsNormal, MessageText;
    if s.Plain? {
      PlainWire(s);
    }
    if s.Plain? && s.text == "" {
      assert MessageText(merged) + "" == MessageText(merged);
    } else if s.Plain? && merged != [] && merged[|merged| - 1].Plain? {
      var front, last := merged[..|merged| - 1], merged[|merged| - 1];
      assert merged == front + [last];
      TextsJoin(front, last.text, s.text);
    } else {
      MessageTextOne(s);
      MessageTextAppend(merged, [s]);
    }
  }

  lemma TextsJoin(front: seq<Segment>, a: string, b: string)
    ensures MessageText(front + [Plain(a + b)]) == MessageText(front + [Plain(a)]) + b
  {
    hide MessageText;
    MessageTextAppend(front, [Plain(a)]);
    MessageTextOne(Plain(a));
    MessageTextAppend(front, [Plain(a + b)]);
    MessageTextOne(Plain(a + b));
    assert MessageText(front) + (a + b) == MessageText(front) + a + b;
  }

  lemma JoinedNormal(merged: seq<Segment>, s: Segment)
    requires IsNormal(merged)
    ensures IsNormal(Joined(merged, s))
  {
  }

  /** Normalizing merges texts and says the same; a normal draft is left as it is. */
  lemma {:induction false} NormalizedMeans(segs: seq<Segment>)
    ensures IsNormal(Normalized(segs)) && MessageText(Normalized(segs)) == MessageText(segs)
    ensures IsNormal(segs) ==> Normalized(segs) == segs
  {
    hide MessageText, Wire;
    if segs == [] {
    } else {
      var front, last := segs[..|segs| - 1], segs[|segs| - 1];
      assert segs == front + [last];
      NormalizedMeans(front);
      JoinedKeeps(Normalized(front), last);
      MessageTextAppend(front, [last]);
      MessageTextOne(last);
      assert IsNormal(segs) ==> IsNormal(front);
    }
  }

  /** A sent message reused as a draft still says what was sent. */
  lemma ReusedDraftSaysTheSame(text: string)
    ensures MessageText(Normalized(Parse(text))) == text
  {
    PrintParsed(text);
    NormalizedMeans(Parse(text));
  }

  datatype Attachment = Attachment(id: string, name: string)

  function FirstSeen(refs: seq<Attachment>): seq<Attachment> {
    if refs == [] then []
    else
      var front, last := FirstSeen(refs[..|refs| - 1]), refs[|refs| - 1];
      if exists i | 0 <= i < |refs| - 1 :: refs[i].id == last.id then front else front + [last]
  }

  method DraftAttachments(attachments: seq<Attachment>) returns (refs: seq<Attachment>)
    ensures refs == FirstSeen(attachments)
  {
    refs := [];
    var seen: set<string> := {};
    for k := 0 to |attachments|
      invariant refs == FirstSeen(attachments[..k])
      invariant forall id :: id in seen <==> exists i | 0 <= i < k :: attachments[i].id == id
    {
      var ref := attachments[k];
      assert attachments[..k + 1][..k] == attachments[..k];
      if ref.id !in seen {
        seen := seen + {ref.id};
        refs := refs + [ref];
      }
    }
    assert attachments[..|attachments|] == attachments;
  }

  predicate IsFirst(refs: seq<Attachment>, i: nat)
    requires i < |refs|
  {
    forall j | 0 <= j < i :: refs[j].id != refs[i].id
  }

  /** It is the first with its id somewhere in the list. */
  predicate LeadsItsId(refs: seq<Attachment>, a: Attachment) {
    exists i | 0 <= i < |refs| :: refs[i] == a && IsFirst(refs, i)
  }

  lemma LeadsSnoc(front: seq<Attachment>, last: Attachment, a: Attachment)
    ensures LeadsItsId(front + [last], a) <==> LeadsItsId(front, a) || (a == last && IsFirst(front + [last], |front|))
  {
    var refs := front + [last];
    assert forall i | 0 <= i < |front| :: refs[i] == front[i];
    forall i | 0 <= i < |front| ensures IsFirst(refs, i) == IsFirst(front, i) {}
    if LeadsItsId(front, a) {
      var i :| 0 <= i < |front| && front[i] == a && IsFirst(front, i);
      assert refs[i] == a;
    }
    assert refs[|front|] == last;
  }

  /** One entry per id, and the first one given with it. */
  lemma {:induction false} FirstSeenMeans(refs: seq<Attachment>)
    ensures var kept := FirstSeen(refs);
      && (forall i, j | 0 <= i < j < |kept| :: kept[i].id != kept[j].id)
      && (forall a :: a in kept <==> LeadsItsId(refs, a))
  {
    if refs != [] {
      var front, last := refs[..|refs| - 1], refs[|refs| - 1];
      assert refs == front + [last];
      FirstSeenMeans(front);
      forall a ensures LeadsItsId(refs, a) <==> LeadsItsId(front, a) || (a == last && IsFirst(refs, |front|)) {
        LeadsSnoc(front, last, a);
      }
      var before := FirstSeen(front);
      if IsFirst(refs, |front|) {
        forall i | 0 <= i < |before| ensures before[i].id != last.id {
          assert LeadsItsId(front, before[i]);
          var k :| 0 <= k < |front| && front[k] == before[i] && IsFirst(front, k);
          assert refs[k] == front[k];
        }
      }
    }
  }
}
