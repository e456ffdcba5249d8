/** Facts the other modules share: strings as JavaScript reads them, sizes of sets, and accepted items in order. */
module Basics {

  /** The pattern class `\s`, which is also what `trim` removes. */
  predicate IsSpace(c: char) {
    c in " \t\n\r\U{0B}\U{0C}\U{A0}\U{FEFF}\U{1680}\U{2028}\U{2029}\U{202F}\U{205F}\U{3000}"
      || '\U{2000}' <= c <= '\U{200A}'
  }

  predicate StartsWith(s: string, prefix: string) {
    prefix <= s
  }

  lemma SubsetSize<T>(a: set<T>, b: set<T>)
    requires a <= b
    ensures |a| <= |b| && (|a| == |b| ==> a == b)
  {
    assert b == a + (b - a);
    assert |b| == |a| + |b - a|;
  }

  /** The items that were accepted, in order; `verdicts` covers the first of them. */
  function Chosen<T>(items: seq<T>, verdicts: seq<bool>): seq<T>
    requires |verdicts| <= |items|
  {
    if verdicts == [] then []
    else
      var n := |verdicts| - 1;
      Chosen(items, verdicts[..n]) + if verdicts[n] then [items[n]] else []
  }

  lemma ChosenSnoc<T>(items: seq<T>, verdicts: seq<bool>, verdict: bool)
    requires |verdicts| < |items|
    ensures Chosen(items, verdicts + [verdict]) == Chosen(items, verdicts) + if verdict then [items[|verdicts|]] else []
  {
    assert (verdicts + [verdict])[..|verdicts|] == verdicts;
  }

  /** Later arrivals change nothing of what was accepted. */
  lemma {:induction false} ChosenMore<T>(items: seq<T>, more: seq<T>, verdicts: seq<bool>)
    requires |verdicts| <= |items|
    ensures Chosen(items + more, verdicts) == Chosen(items, verdicts)
  {
    if verdicts != [] { ChosenMore(items, more, verdicts[..|verdicts| - 1]); }
  }
}
