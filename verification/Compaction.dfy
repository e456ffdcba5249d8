/**
 * Client-side compaction of the event list (web/hooks/useSessionStream.ts:37-63):
 * context bodies go, answer chunks go once their step has its durable message,
 * and a step's thinking chunks fold into the first of them.
 */
module Compaction {
  import opened Events
  import opened Views

  // ---------- the simple form: no index map, the output itself is searched ----------

  predicate IsThinking(e: Event, step: string) {
    e.AssistantChunk? && e.thinking && e.stepId == Some(step)
  }

  function Finalized(es: seq<Event>): set<string> {
    set e | e in es && e.AssistantMessage? && e.stepId.Some? :: e.stepId.value
  }

  function ThinkingAt(out: seq<Event>, step: string): (at: Option<nat>)
    ensures at.Some? ==> at.value < |out| && IsThinking(out[at.value], step)
    ensures at.None? ==> forall i | 0 <= i < |out| :: !IsThinking(out[i], step)
  {
    if out == [] then None
    else if IsThinking(out[|out| - 1], step) then Some(|out| - 1)
    else ThinkingAt(out[..|out| - 1], step)
  }

  function Merge(previous: Event, e: Event): (m: Event)
    requires previous.AssistantChunk? && e.AssistantChunk?
    ensures m.AssistantChunk?
  {
    previous.(delta := Some(OrElse(previous.delta, "") + OrElse(e.delta, "")))
  }

  /** An answer chunk whose step already has its durable message. */
  predicate Superseded(final: set<string>, e: Event) {
    e.AssistantChunk? && !e.thinking && e.stepId.Some? && e.stepId.value in final
  }

  function Push(final: set<string>, out: seq<Event>, e: Event): seq<Event> {
    if e.ContextBody? || Superseded(final, e) then out
    else if e.AssistantChunk? && e.thinking && e.stepId.Some? && ThinkingAt(out, e.stepId.value).Some? then
      var at := ThinkingAt(out, e.stepId.value).value;
      out[at := Merge(out[at], e)]
    else out + [e]
  }

  function Run(final: set<string>, es: seq<Event>): seq<Event> {
    if es == [] then [] else Push(final, Run(final, es[..|es| - 1]), es[|es| - 1])
  }

  function Compact(es: seq<Event>): seq<Event> {
    Run(Finalized(es), es)
  }

  method FinalizedSteps(events: seq<Event>) returns (steps: set<string>)
    ensures steps == Finalized(events)
  {
    steps := {};
    for i := 0 to |events|
      invariant steps == Finalized(events[..i])
    {
      var event := events[i];
      assert events[..i + 1] == events[..i] + [event];
      if event.AssistantMessage? && event.stepId.Some? {
        steps := steps + {event.stepId.value};
      }
    }
    assert events[..|events|] == events;
  }

  /** The index map names every step's thinking chunk in the output. */
  ghost predicate Indexed(thinkingByStep: map<string, nat>, out: seq<Event>) {
    && AtMostOneThinking(out)
    && (forall s :: s in thinkingByStep <==> ThinkingAt(out, s).Some?)
    && (forall s :: s in thinkingByStep ==> ThinkingAt(out, s) == Some(thinkingByStep[s]))
  }

  lemma IndexedAppend(index: map<string, nat>, out: seq<Event>, e: Event)
    requires Indexed(index, out)
    requires e.AssistantChunk? && e.thinking && e.stepId.Some? ==> e.stepId.value !in index
    ensures var named := e.AssistantChunk? && e.thinking && e.stepId.Some?;
      Indexed(if named then index[e.stepId.value := |out|] else index, out + [e])
  {
    assert (out + [e])[..|out|] == out;
  }

  lemma IndexedMerge(index: map<string, nat>, out: seq<Event>, e: Event)
    requires Indexed(index, out) && e.AssistantChunk? && e.thinking && e.stepId.Some? && e.stepId.value in index
    ensures var at := index[e.stepId.value]; at < |out| && Indexed(index, out[at := Merge(out[at], e)])
  {
    var step := e.stepId.value;
    var at := ThinkingAt(out, step).value;
    var up := out[at := Merge(out[at], e)];
    assert forall i, s | 0 <= i < |out| :: IsThinking(up[i], s) <==> IsThinking(out[i], s);
    forall s ensures ThinkingAt(up, s) == ThinkingAt(out, s) {
      ThinkingAtUpdate(out, at, Merge(out[at], e), s);
    }
  }

  /** The loop of the source, with its index map from steps to output positions. */
  method CompactClientEvents(events: seq<Event>) returns (compacted: seq<Event>)
    ensures compacted == Compact(events)
  {
    hide AtMostOneThinking, ThinkingAt, Finalized;
    var finalizedSteps := FinalizedSteps(events);
    compacted := [];
    var thinkingByStep: map<string, nat> := map[];
    NoneIndexed(compacted);
    for i := 0 to |events|
      invariant compacted == Run(finalizedSteps, events[..i])
      invariant Indexed(thinkingByStep, compacted)
    {
      var event := events[i];
      assert events[..i + 1][..i] == events[..i];
      if event.ContextBody? { continue; }
      if event.AssistantChunk? && event.stepId.Some? {
        if event.stepId.value in finalizedSteps && !event.thinking { continue; }
        if event.thinking {
          if event.stepId.value in thinkingByStep {
            IndexedMerge(thinkingByStep, compacted, event);
            var at := thinkingByStep[event.stepId.value];
            var previous := compacted[at];
            compacted := compacted[at := Merge(previous, event)];
            continue;
          }
          IndexedAppend(thinkingByStep, compacted, event);
          thinkingByStep := thinkingByStep[event.stepId.value := |compacted|];
          compacted := compacted + [event];
          continue;
        }
      }
      IndexedAppend(thinkingByStep, compacted, event);
      compacted := compacted + [event];
    }
    assert events[..|events|] == events;
  }

  lemma NoneIndexed(out: seq<Event>)
    requires out == []
    ensures Indexed(map[], out)
  {
  }

  // ---------- at most one thinking chunk per step ----------

  ghost predicate AtMostOneThinking(out: seq<Event>) {
    forall i, j, s :: 0 <= i < j < |out| && IsThinking(out[i], s) ==> !IsThinking(out[j], s)
  }

  lemma {:induction false} ThinkingAtUnique(out: seq<Event>, step: string, k: nat)
    requires AtMostOneThinking(out) && k < |out| && IsThinking(out[k], step)
    ensures ThinkingAt(out, step) == Some(k)
  {
    var at := ThinkingAt(out, step).value;
    assert IsThinking(out[at], step);
  }

  /** Overwriting a chunk by one of the same step and kind moves no index. */
  lemma {:induction false} ThinkingAtUpdate(out: seq<Event>, k: nat, e: Event, step: string)
    requires k < |out| && (IsThinking(out[k], step) <==> IsThinking(e, step))
    ensures ThinkingAt(out[k := e], step) == ThinkingAt(out, step)
  {
    var up := out[k := e];
    if k == |out| - 1 {
      assert up[..|out| - 1] == out[..|out| - 1];
    } else {
      assert up[..|out| - 1] == out[..|out| - 1][k := e];
      ThinkingAtUpdate(out[..|out| - 1], k, e, step);
    }
  }

  lemma PushKeepsOne(final: set<string>, out: seq<Event>, e: Event)
    requires AtMostOneThinking(out)
    ensures AtMostOneThinking(Push(final, out, e))
  {
    if e.AssistantChunk? && e.thinking && e.stepId.Some? && ThinkingAt(out, e.stepId.value).Some? {
      var at := ThinkingAt(out, e.stepId.value).value;
      assert forall i, s | 0 <= i < |out| :: IsThinking(out[at := Merge(out[at], e)][i], s) <==> IsThinking(out[i], s);
    }
  }

  lemma {:induction false} RunKeepsOne(final: set<string>, es: seq<Event>)
    ensures AtMostOneThinking(Run(final, es))
  {
    if es != [] {
      RunKeepsOne(final, es[..|es| - 1]);
      PushKeepsOne(final, Run(final, es[..|es| - 1]), es[|es| - 1]);
    }
  }

  // ---------- compaction is incremental ----------

  lemma RunSnoc(final: set<string>, es: seq<Event>, e: Event)
    ensures Run(final, es + [e]) == Push(final, Run(final, es), e)
  {
    assert (es + [e])[..|es|] == es;
  }

  /** Two prefixes with equal runs have equal runs after any common suffix. */
  lemma {:induction false} RunAppend(final: set<string>, a: seq<Event>, a': seq<Event>, b: seq<Event>)
    requires Run(final, a) == Run(final, a')
    ensures Run(final, a + b) == Run(final, a' + b)
    decreases |b|
  {
    if b == [] {
      assert a + b == a && a' + b == a';
    } else {
      var front, last := b[..|b| - 1], b[|b| - 1];
      RunAppend(final, a, a', front);
      assert a + b == (a + front) + [last] && a' + b == (a' + front) + [last];
      RunSnoc(final, a + front, last);
      RunSnoc(final, a' + front, last);
    }
  }

  /**
   * The step's only thinking chunk survives a run as it is, so rewriting it
   * before the run or after the run is the same.
   */
  lemma {:induction false} RunRewrite(final: set<string>, out: seq<Event>, k: nat, m: Event, step: string)
    requires AtMostOneThinking(out) && k < |out| && IsThinking(out[k], step) && IsThinking(m, step)
    ensures ThinkingAt(Run(final, out), step).Some?
    ensures var at := ThinkingAt(Run(final, out), step).value;
      Run(final, out)[at] == out[k] && Run(final, out[k := m]) == Run(final, out)[at := m]
    decreases |out|
  {
    var front, last := out[..|out| - 1], out[|out| - 1];
    var up := out[k := m];
    RunKeepsOne(final, front);
    if k == |out| - 1 {
      assert up[..|out| - 1] == front;
      NoThinkingNoRun(final, front, step);
      assert Run(final, out) == Run(final, front) + [last];
    } else {
      assert up[..|out| - 1] == front[k := m];
      RunRewrite(final, front, k, m, step);
      assert !IsThinking(last, step);
      PushRewrite(final, Run(final, front), ThinkingAt(Run(final, front), step).value, m, step, last);
    }
  }

  lemma PushRewrite(final: set<string>, r: seq<Event>, at: nat, m: Event, step: string, e: Event)
    requires AtMostOneThinking(r) && at < |r| && IsThinking(r[at], step) && IsThinking(m, step) && !IsThinking(e, step)
    ensures ThinkingAt(Push(final, r, e), step) == Some(at) && Push(final, r, e)[at] == r[at]
    ensures Push(final, r[at := m], e) == Push(final, r, e)[at := m]
  {
    ThinkingAtUnique(r, step, at);
    if e.AssistantChunk? && e.thinking && e.stepId.Some? && !Superseded(final, e) {
      var s := e.stepId.value;
      assert IsThinking(e, s) && s != step;
      ThinkingAtUpdate(r, at, m, s);
      if ThinkingAt(r, s).Some? {
        var at' := ThinkingAt(r, s).value;
        assert at' != at;
        ThinkingAtUpdate(r, at', Merge(r[at'], e), step);
        assert r[at := m][at' := Merge(r[at'], e)] == r[at' := Merge(r[at'], e)][at := m];
        return;
      }
    }
    if Push(final, r, e) == r + [e] {
      assert (r + [e])[..|r|] == r;
      assert r[at := m] + [e] == (r + [e])[at := m];
    }
  }

  lemma {:induction false} NoThinkingNoRun(final: set<string>, es: seq<Event>, step: string)
    requires forall i | 0 <= i < |es| :: !IsThinking(es[i], step)
    ensures forall i | 0 <= i < |Run(final, es)| :: !IsThinking(Run(final, es)[i], step)
  {
    if es != [] {
      NoThinkingNoRun(final, es[..|es| - 1], step);
    }
  }

  /** Running again with at least the same finalized steps absorbs the first run. */
  lemma {:induction false} RunAbsorbs(small: set<string>, final: set<string>, es: seq<Event>)
    requires small <= final
    ensures Run(final, Run(small, es)) == Run(final, es)
  {
    if es != [] {
      var front, e := es[..|es| - 1], es[|es| - 1];
      var out := Run(small, front);
      RunAbsorbs(small, final, front);
      RunKeepsOne(small, front);
      if Push(small, out, e) == out + [e] {
        RunSnoc(final, out, e);
      } else if !e.ContextBody? && !Superseded(small, e) {
        var at := ThinkingAt(out, e.stepId.value).value;
        RunRewrite(final, out, at, Merge(out[at], e), e.stepId.value);
      }
    }
  }

  lemma {:induction false} RunKeepsFinalized(final: set<string>, es: seq<Event>)
    ensures Finalized(Run(final, es)) == Finalized(es)
  {
    if es != [] {
      var front, e := es[..|es| - 1], es[|es| - 1];
      RunKeepsFinalized(final, front);
      var out := Run(final, front);
      assert es == front + [e];
      assert Finalized(es) == Finalized(front) + Finalized([e]);
      if Push(final, out, e) == out + [e] {
        assert Finalized(out + [e]) == Finalized(out) + Finalized([e]);
      } else if !e.ContextBody? && !Superseded(final, e) {
        var at := ThinkingAt(out, e.stepId.value).value;
        FinalizedUpdate(out, at, Merge(out[at], e));
      }
    }
  }

  lemma FinalizedUpdate(out: seq<Event>, k: nat, e: Event)
    requires k < |out| && !out[k].AssistantMessage? && !e.AssistantMessage?
    ensures Finalized(out[k := e]) == Finalized(out)
  {
    var up := out[k := e];
    forall x | x in out && x.AssistantMessage? ensures x in up {
      var i :| 0 <= i < |out| && out[i] == x;
      assert up[i] == x;
    }
  }

  /** Compacting batch by batch gives what compacting the whole list gives. */
  lemma CompactIncremental(a: seq<Event>, b: seq<Event>)
    ensures Compact(Compact(a) + b) == Compact(a + b)
  {
    var final := Finalized(a + b);
    assert final == Finalized(a) + Finalized(b);
    RunKeepsFinalized(Finalized(a), a);
    assert Finalized(Compact(a) + b) == Finalized(Compact(a)) + Finalized(b);
    RunAbsorbs(Finalized(a), final, a);
    RunAppend(final, Compact(a), a, b);
  }

  lemma CompactIdempotent(es: seq<Event>)
    ensures Compact(Compact(es)) == Compact(es)
  {
    CompactIncremental(es, []);
    assert Compact(es) + [] == Compact(es) && es + [] == es;
  }

  // ---------- compaction keeps the meaning ----------

  /** The payloads compaction may touch. */
  predicate IsPayload(e: Event) {
    e.AssistantChunk? || e.ContextBody?
  }

  /** Everything else, in log order. */
  function Facts(es: seq<Event>): seq<Event> {
    if es == [] then []
    else Facts(es[..|es| - 1]) + (if IsPayload(es[|es| - 1]) then [] else [es[|es| - 1]])
  }

  /** Answer chunks no durable message supersedes. */
  function LiveChunks(final: set<string>, es: seq<Event>): seq<Event> {
    if es == [] then []
    else
      var e := es[|es| - 1];
      LiveChunks(final, es[..|es| - 1])
      + (if e.AssistantChunk? && !(e.thinking && e.stepId.Some?) && !Superseded(final, e) then [e] else [])
  }

  /** One step's whole train of thought. */
  function ThinkingText(es: seq<Event>, step: string): string {
    if es == [] then ""
    else
      ThinkingText(es[..|es| - 1], step)
      + (if IsThinking(es[|es| - 1], step) then OrElse(es[|es| - 1].delta, "") else "")
  }

  lemma {:induction false} FactsUpdate(out: seq<Event>, k: nat, e: Event, final: set<string>)
    requires k < |out| && out[k].AssistantChunk? && e.AssistantChunk?
    requires out[k].thinking && e.thinking && out[k].stepId.Some? && e.stepId == out[k].stepId
    ensures Facts(out[k := e]) == Facts(out)
    ensures LiveChunks(final, out[k := e]) == LiveChunks(final, out)
  {
    var up := out[k := e];
    if k == |out| - 1 {
      assert up[..|out| - 1] == out[..|out| - 1];
    } else {
      assert up[..|out| - 1] == out[..|out| - 1][k := e];
      FactsUpdate(out[..|out| - 1], k, e, final);
    }
  }

  lemma {:induction false} ThinkingTextUpdate(out: seq<Event>, k: nat, e: Event, step: string)
    requires AtMostOneThinking(out) && k < |out| && IsThinking(out[k], step) && e.AssistantChunk?
    ensures ThinkingText(out[k := Merge(out[k], e)], step) == ThinkingText(out, step) + OrElse(e.delta, "")
  {
    var up := out[k := Merge(out[k], e)];
    if k == |out| - 1 {
      assert up[..|out| - 1] == out[..|out| - 1];
    } else {
      assert up[..|out| - 1] == out[..|out| - 1][k := Merge(out[k], e)];
      ThinkingTextUpdate(out[..|out| - 1], k, e, step);
      assert !IsThinking(out[|out| - 1], step);
    }
  }

  lemma {:induction false} ThinkingTextOther(out: seq<Event>, k: nat, e: Event, step: string)
    requires k < |out| && !IsThinking(out[k], step) && !IsThinking(e, step)
    ensures ThinkingText(out[k := e], step) == ThinkingText(out, step)
  {
    var up := out[k := e];
    if k == |out| - 1 {
      assert up[..|out| - 1] == out[..|out| - 1];
    } else {
      assert up[..|out| - 1] == out[..|out| - 1][k := e];
      ThinkingTextOther(out[..|out| - 1], k, e, step);
    }
  }

  lemma {:induction false} RunKeeps(final: set<string>, es: seq<Event>, step: string)
    ensures Facts(Run(final, es)) == Facts(es)
    ensures LiveChunks(final, Run(final, es)) == LiveChunks(final, es)
    ensures ThinkingText(Run(final, es), step) == ThinkingText(es, step)
  {
    if es != [] {
      var front, e := es[..|es| - 1], es[|es| - 1];
      var out := Run(final, front);
      RunKeeps(final, front, step);
      RunKeepsOne(final, front);
      if Push(final, out, e) == out + [e] {
        assert (out + [e])[..|out|] == out;
      } else if !e.ContextBody? && !Superseded(final, e) {
        var at := ThinkingAt(out, e.stepId.value).value;
        FactsUpdate(out, at, Merge(out[at], e), final);
        if e.stepId.value == step {
          ThinkingTextUpdate(out, at, e, step);
        } else {
          ThinkingTextOther(out, at, Merge(out[at], e), step);
        }
      }
    }
  }

  /**
   * What compaction keeps, exactly: every fact in order, every answer chunk that
   * is not superseded, each step's thinking text, and one chunk to hold it; the
   * payloads it promises to remove are gone.
   */
  lemma CompactKeepsMeaning(es: seq<Event>, step: string)
    ensures Facts(Compact(es)) == Facts(es)
    ensures LiveChunks(Finalized(es), Compact(es)) == LiveChunks(Finalized(es), es)
    ensures ThinkingText(Compact(es), step) == ThinkingText(es, step)
    ensures AtMostOneThinking(Compact(es))
    ensures forall i | 0 <= i < |Compact(es)| ::
      !Compact(es)[i].ContextBody? && !Superseded(Finalized(es), Compact(es)[i])
  {
    RunKeeps(Finalized(es), es, step);
    RunKeepsOne(Finalized(es), es);
    RunDrops(Finalized(es), es);
  }

  lemma {:induction false} RunDrops(final: set<string>, es: seq<Event>)
    ensures forall i | 0 <= i < |Run(final, es)| ::
      !Run(final, es)[i].ContextBody? && !Superseded(final, Run(final, es)[i])
  {
    if es != [] {
      RunDrops(final, es[..|es| - 1]);
    }
  }

  function Numbers(es: seq<Event>): set<nat> {
    set e | e in es :: e.seqNo
  }

  lemma PushOrdered(final: set<string>, out: seq<Event>, e: Event)
    requires Ordered(out + [e])
    ensures Ordered(Push(final, out, e))
    ensures Numbers(Push(final, out, e)) <= Numbers(out) + {e.seqNo}
  {
    assert forall i | 0 <= i < |out| :: (out + [e])[i] == out[i];
    assert (out + [e])[|out|] == e;
    var r := Push(final, out, e);
    if |r| == |out| {
      assert forall i | 0 <= i < |out| :: r[i].seqNo == out[i].seqNo && out[i] in out;
    }
  }

  lemma {:induction false} RunOrdered(final: set<string>, es: seq<Event>)
    requires Ordered(es)
    ensures Ordered(Run(final, es))
    ensures Numbers(Run(final, es)) <= Numbers(es)
  {
    if es != [] {
      var front, e := es[..|es| - 1], es[|es| - 1];
      var out := Run(final, front);
      RunOrdered(final, front);
      forall i | 0 <= i < |out| ensures out[i].seqNo < e.seqNo {
        assert out[i].seqNo in Numbers(front);
      }
      PushOrdered(final, out, e);
      assert Numbers(front) + {e.seqNo} <= Numbers(es);
    }
  }

  /** Sequence numbers stay in strictly increasing order, and none is invented. */
  lemma CompactOrdered(es: seq<Event>)
    requires Ordered(es)
    ensures Ordered(Compact(es))
    ensures Numbers(Compact(es)) <= Numbers(es)
  {
    RunOrdered(Finalized(es), es);
  }

  // ---------- what is left, event by event ----------

  /** The event stays: no body, no superseded answer chunk, and of a step's thinking chunks the first. */
  predicate Stays(final: set<string>, es: seq<Event>, e: Event) {
    && !e.ContextBody? && !(e.AssistantChunk? && !e.thinking && e.stepId.Some? && e.stepId.value in final)
    && !(e.AssistantChunk? && e.thinking && e.stepId.Some? && Thought(es, e.stepId.value))
  }

  predicate Thought(es: seq<Event>, step: string) {
    exists i | 0 <= i < |es| :: IsThinking(es[i], step)
  }

  /** The events that stay, in log order. */
  function Kept(final: set<string>, es: seq<Event>): (at: seq<nat>)
    ensures |at| <= |es| && forall k | 0 <= k < |at| :: at[k] < |es|
  {
    if es == [] then []
    else
      var front, e := es[..|es| - 1], es[|es| - 1];
      Kept(final, front) + if Stays(final, front, e) then [|front|] else []
  }

  /** An event that stays reads as it was; the thinking chunk of a step that thought on holds all its text. */
  predicate ReadsAs(es: seq<Event>, i: nat, r: Event)
    requires i < |es|
  {
    if es[i].AssistantChunk? && es[i].thinking && es[i].stepId.Some? && Thought(es[i + 1..], es[i].stepId.value)
    then r == es[i].(delta := Some(ThinkingText(es, es[i].stepId.value)))
    else r == es[i]
  }

  lemma ThoughtSnoc(es: seq<Event>, e: Event, step: string)
    ensures Thought(es + [e], step) <==> Thought(es, step) || IsThinking(e, step)
  {
    var all := es + [e];
    assert all[|es|] == e;
    if i :| 0 <= i < |es| && IsThinking(es[i], step) { assert IsThinking(all[i], step); }
  }

  lemma TextSnoc(es: seq<Event>, e: Event, step: string)
    ensures ThinkingText(es + [e], step) ==
      if IsThinking(e, step) then ThinkingText(es, step) + OrElse(e.delta, "") else ThinkingText(es, step)
  {
    assert (es + [e])[..|es|] == es;
  }

  lemma {:induction false} NoThoughtNoText(es: seq<Event>, step: string)
    requires !Thought(es, step)
    ensures ThinkingText(es, step) == ""
  {
    if es != [] {
      var front, e := es[..|es| - 1], es[|es| - 1];
      assert es == front + [e];
      ThoughtSnoc(front, e, step);
      NoThoughtNoText(front, step);
      TextSnoc(front, e, step);
    }
  }

  lemma KeptSnoc(final: set<string>, es: seq<Event>, e: Event)
    ensures Kept(final, es + [e]) == if Stays(final, es, e) then Kept(final, es) + [|es|] else Kept(final, es)
  {
    assert (es + [e])[..|es|] == es;
  }

  /** The output of a run, event by event. */
  ghost predicate RunReads(final: set<string>, es: seq<Event>, out: seq<Event>) {
    var at := Kept(final, es);
    |out| == |at| && forall k | 0 <= k < |at| :: ReadsAs(es, at[k], out[k])
  }

  /** A step that has thought has its first chunk kept. */
  lemma {:induction false} FirstThought(final: set<string>, es: seq<Event>, step: string) returns (k: nat)
    requires Thought(es, step)
    ensures k < |Kept(final, es)| && IsThinking(es[Kept(final, es)[k]], step)
  {
    assert es != [];
    hide Stays, Thought, IsThinking;
    var front, e := es[..|es| - 1], es[|es| - 1];
    assert es == front + [e];
    ThoughtSnoc(front, e, step);
    KeptSnoc(final, front, e);
    if Thought(front, step) {
      k := FirstThought(final, front, step);
    } else {
      FirstStays(final, front, e, step);
      k := |Kept(final, front)|;
    }
  }

  lemma FirstStays(final: set<string>, es: seq<Event>, e: Event, step: string)
    requires IsThinking(e, step) && !Thought(es, step)
    ensures Stays(final, es, e)
  {
  }

  /** Kept thinking chunks are their step's first. */
  lemma {:induction false} KeptFirst(final: set<string>, es: seq<Event>, k: nat, step: string)
    requires k < |Kept(final, es)| && IsThinking(es[Kept(final, es)[k]], step)
    ensures !Thought(es[..Kept(final, es)[k]], step)
  {
    assert es != [];
    var front, e := es[..|es| - 1], es[|es| - 1];
    if k < |Kept(final, front)| {
      KeptFirst(final, front, k, step);
      assert es[..Kept(final, front)[k]] == front[..Kept(final, front)[k]];
    }
  }

  /** One more chunk of the step whose first one is kept. */
  lemma ReadsMerged(es: seq<Event>, e: Event, i: nat, r: Event, step: string)
    requires i < |es| && ReadsAs(es, i, r) && IsThinking(es[i], step) && IsThinking(e, step)
    requires !Thought(es[..i], step)
    ensures r.AssistantChunk? && ReadsAs(es + [e], i, Merge(r, e))
  {
    var all := es + [e];
    assert all[i] == es[i] && all[i + 1..] == es[i + 1..] + [e];
    ThoughtSnoc(es[i + 1..], e, step);
    TextSnoc(es, e, step);
    if !Thought(es[i + 1..], step) { OnlyText(es, i, step); }
    hide Thought, ThinkingText;
  }

  /** An event of another step, or of none. */
  lemma ReadsStill(es: seq<Event>, e: Event, i: nat, r: Event)
    requires i < |es| && ReadsAs(es, i, r)
    requires forall step :: !(IsThinking(es[i], step) && IsThinking(e, step))
    ensures ReadsAs(es + [e], i, r)
  {
    var all := es + [e];
    assert all[i] == es[i] && all[i + 1..] == es[i + 1..] + [e];
    if es[i].AssistantChunk? && es[i].thinking && es[i].stepId.Some? {
      var step := es[i].stepId.value;
      assert IsThinking(es[i], step);
      ThoughtSnoc(es[i + 1..], e, step);
      TextSnoc(es, e, step);
    }
    hide Thought, ThinkingText, IsThinking;
  }

  /** The text of a step with one chunk. */
  lemma OnlyText(es: seq<Event>, i: nat, step: string)
    requires i < |es| && IsThinking(es[i], step) && !Thought(es[..i], step) && !Thought(es[i + 1..], step)
    ensures ThinkingText(es, step) == OrElse(es[i].delta, "")
  {
    assert es[i].AssistantChunk?;
    hide Thought, IsThinking;
    var before, rest := es[..i], es[i + 1..];
    NoThoughtNoText(before, step);
    TextSnoc(before, es[i], step);
    assert "" + OrElse(es[i].delta, "") == OrElse(es[i].delta, "");
    NothingMore(before + [es[i]], rest, step);
    assert es == (before + [es[i]]) + rest;
  }

  lemma {:induction false} NothingMore(es: seq<Event>, rest: seq<Event>, step: string)
    requires !Thought(rest, step)
    ensures ThinkingText(es + rest, step) == ThinkingText(es, step)
  {
    hide IsThinking, ThinkingText;
    if rest == [] {
      assert es + rest == es;
    } else {
      var front, e := rest[..|rest| - 1], rest[|rest| - 1];
      assert rest == front + [e] && es + rest == (es + front) + [e];
      ThoughtSnoc(front, e, step);
      NothingMore(es, front, step);
      TextSnoc(es + front, e, step);
    }
  }

  lemma {:induction false} RunReadsAll(final: set<string>, es: seq<Event>)
    ensures RunReads(final, es, Run(final, es))
  {
    if es != [] {
      var front, e := es[..|es| - 1], es[|es| - 1];
      assert es == front + [e];
      RunReadsAll(final, front);
      RunKeepsOne(final, front);
      PushReads(final, front, Run(final, front), e);
    }
  }

  lemma PushReads(final: set<string>, es: seq<Event>, out: seq<Event>, e: Event)
    requires RunReads(final, es, out) && AtMostOneThinking(out)
    ensures RunReads(final, es + [e], Push(final, out, e))
  {
    hide Thought, ThinkingText, ReadsAs, Kept, AtMostOneThinking, IsThinking, ThinkingAt;
    var all, at := es + [e], Kept(final, es);
    KeptSnoc(final, es, e);
    NewReads(es, e);
    if e.AssistantChunk? && e.thinking && e.stepId.Some? {
      var step := e.stepId.value;
      ThoughtKept(final, es, out, step);
      if Thought(es, step) {
        var m := ThinkingAt(out, step).value;
        ThinkingIs(out, e, step, m);
        forall k | 0 <= k < |at| ensures ReadsAs(all, at[k], if k == m then Merge(out[k], e) else out[k]) {
          KeptReads(final, es, out, e, step, k, m);
        }
      } else {
        forall k | 0 <= k < |at| ensures ReadsAs(all, at[k], out[k]) {
          NotThought(es, e, at[k], step);
          ReadsStill(es, e, at[k], out[k]);
        }
      }
    } else {
      forall k | 0 <= k < |at| ensures ReadsAs(all, at[k], out[k]) {
        NotNamed(e);
        ReadsStill(es, e, at[k], out[k]);
      }
    }
  }

  lemma NotNamed(e: Event)
    requires !(e.AssistantChunk? && e.thinking && e.stepId.Some?)
    ensures forall step :: !IsThinking(e, step)
  {
  }

  lemma ThinkingIs(out: seq<Event>, e: Event, step: string, m: nat)
    requires m < |out| && IsThinking(out[m], step) && e.AssistantChunk? && e.thinking && e.stepId == Some(step)
    ensures out[m].AssistantChunk? && IsThinking(e, step)
  {
  }

  lemma NotThought(es: seq<Event>, e: Event, i: nat, step: string)
    requires i < |es| && !Thought(es, step) && e.AssistantChunk? && e.stepId == Some(step)
    ensures forall other :: !(IsThinking(es[i], other) && IsThinking(e, other))
  {
  }

  /** A kept chunk after one more of some step: the step's own chunk grows, the others read on. */
  lemma KeptReads(final: set<string>, es: seq<Event>, out: seq<Event>, e: Event, step: string, k: nat, m: nat)
    requires RunReads(final, es, out) && AtMostOneThinking(out) && k < |out| && m < |out|
    requires IsThinking(e, step) && ThinkingAt(out, step) == Some(m)
    ensures var i := Kept(final, es)[k];
      if k == m then out[m].AssistantChunk? && ReadsAs(es + [e], i, Merge(out[m], e)) else ReadsAs(es + [e], i, out[k])
  {
    hide Thought, ThinkingText, Kept, ThinkingAt;
    var i := Kept(final, es)[k];
    SameKind(es, i, out[k]);
    if k == m {
      KeptFirst(final, es, k, step);
      ReadsMerged(es, e, i, out[k], step);
    } else {
      ReadsStill(es, e, i, out[k]);
    }
  }

  /** The index is there exactly for the steps that have thought. */
  lemma ThoughtKept(final: set<string>, es: seq<Event>, out: seq<Event>, step: string)
    requires RunReads(final, es, out)
    ensures ThinkingAt(out, step).Some? <==> Thought(es, step)
  {
    hide ThinkingText, Kept, ReadsAs, IsThinking, ThinkingAt;
    if Thought(es, step) {
      var k := FirstThought(final, es, step);
      SameKind(es, Kept(final, es)[k], out[k]);
    }
    if ThinkingAt(out, step).Some? {
      var k := ThinkingAt(out, step).value;
      SameKind(es, Kept(final, es)[k], out[k]);
      assert IsThinking(es[Kept(final, es)[k]], step);
    }
  }

  lemma SameKind(es: seq<Event>, i: nat, r: Event)
    requires i < |es| && ReadsAs(es, i, r)
    ensures forall step :: IsThinking(r, step) <==> IsThinking(es[i], step)
    ensures r.AssistantChunk? <==> es[i].AssistantChunk?
  {
  }

  /**
   * For every log: what compaction leaves is exactly the events that stay, in log order, each as it was, but for
   * the first thinking chunk of a step that thought on, which holds the whole text.
   */
  lemma CompactReads(es: seq<Event>)
    ensures var at := Kept(Finalized(es), es);
      |Compact(es)| == |at| && forall k | 0 <= k < |at| :: ReadsAs(es, at[k], Compact(es)[k])
  {
    RunReadsAll(Finalized(es), es);
  }

  lemma NewReads(es: seq<Event>, e: Event)
    ensures ReadsAs(es + [e], |es|, e)
  {
    assert (es + [e])[|es| + 1..] == [];
  }

  // ---------- the views do not see compaction ----------

  /** A view whose step ignores the payloads. */
  ghost predicate Blind<S(!new)>(step: (S, Event) -> S) {
    forall s, e :: IsPayload(e) ==> step(s, e) == s
  }

  lemma {:induction false} FoldFacts<S(!new)>(step: (S, Event) -> S, init: S, es: seq<Event>)
    requires Blind(step)
    ensures Fold(step, init, es) == Fold(step, init, Facts(es))
  {
    if es != [] {
      var front, e := es[..|es| - 1], es[|es| - 1];
      FoldFacts(step, init, front);
      if IsPayload(e) {
        assert Facts(es) == Facts(front);
      } else {
        FoldSnoc(step, init, Facts(front), e);
      }
    }
  }

  lemma BlindViewsUnchanged<S(!new)>(step: (S, Event) -> S, init: S, es: seq<Event>)
    requires Blind(step)
    ensures Fold(step, init, Compact(es)) == Fold(step, init, es)
  {
    RunKeeps(Finalized(es), es, "");
    FoldFacts(step, init, Compact(es));
    FoldFacts(step, init, es);
  }

  /** The turn state, the phase, the todo list and both row tables read the same off the kept list. */
  lemma ViewsUnchanged(es: seq<Event>, pendingApprovals: nat, sending: bool)
    ensures TurnRunning(Compact(es)) == TurnRunning(es)
    ensures PhaseOf(Compact(es), pendingApprovals, sending) == PhaseOf(es, pendingApprovals, sending)
    ensures Fold(TodoStep, TodoState(map[], []), Compact(es)) == Fold(TodoStep, TodoState(map[], []), es)
    ensures Fold(ProcessStep, [], Compact(es)) == Fold(ProcessStep, [], es)
    ensures Fold(SubagentStep, [], Compact(es)) == Fold(SubagentStep, [], es)
  {
    BlindViewsUnchanged(OpenStep, 0, es);
    BlindViewsUnchanged(ProgressStep, Progress({}, "idle"), es);
    BlindViewsUnchanged(TodoStep, TodoState(map[], []), es);
    BlindViewsUnchanged(ProcessStep, [], es);
    BlindViewsUnchanged(SubagentStep, [], es);
  }
}
