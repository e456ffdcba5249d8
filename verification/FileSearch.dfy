/**
 * The bounded file search behind the `@` menu (src/web/project-files.ts:95-162)
 * over a finite tree. `lower` is the case folding and `compare` the locale order
 * of paths, a total preorder.
 */
module FileSearch {
  import opened Basics

  /** A directory entry; a folder that cannot be read has no children. */
  datatype Node =
    | File(name: string)
    | Dir(name: string, children: seq<Node>)
    | Link(name: string)
    | Special(name: string)

  datatype Match = Match(name: string, path: string, score: int)

  type Lower = string -> string
  type Compare = (string, string) -> int

  const MAX_SEARCH_ENTRIES: nat := 20000
  const MAX_SEARCH_RESULTS: int := 50
  const SKIPPED_DIRS: set<string> := {"node_modules"}

  predicate Includes(s: string, part: string) {
    StartsWith(s, part) || (s != "" && Includes(s[1..], part))
  }

  function Score(lower: Lower, path: string, name: string, needle: string): int {
    if needle == "" then 0
    else if StartsWith(lower(name), needle) then 3
    else if Includes(lower(name), needle) then 2
    else if Includes(lower(path), needle) then 1
    else -1
  }

  function Join(rel: string, name: string): string {
    if rel == "" then name else rel + "/" + name
  }

  predicate Hidden(name: string) {
    StartsWith(name, ".")
  }

  /** A folder whose entries are searched too. */
  predicate Walked(n: Node) {
    n.Dir? && !Hidden(n.name) && n.name !in SKIPPED_DIRS
  }

  // ---------- what the whole tree holds ----------

  /** Entries of a folder and of every folder walked below it. */
  function Entries(nodes: seq<Node>): nat {
    if nodes == [] then 0
    else 1 + (if Walked(nodes[0]) then Entries(nodes[0].children) else 0) + Entries(nodes[1..])
  }

  function Hit(lower: Lower, rel: string, n: Node, needle: string): multiset<Match> {
    if n.File? && !Hidden(n.name) then
      var path := Join(rel, n.name);
      var score := Score(lower, path, n.name, needle);
      if score >= 0 then multiset{Match(n.name, path, score)} else multiset{}
    else multiset{}
  }

  /** Every file the search may offer: visible, reached through walked folders only, and matching. */
  function Eligible(lower: Lower, rel: string, nodes: seq<Node>, needle: string): multiset<Match>
    decreases nodes
  {
    if nodes == [] then multiset{}
    else
      Hit(lower, rel, nodes[0], needle)
      + (if Walked(nodes[0]) then Eligible(lower, Join(rel, nodes[0].name), nodes[0].children, needle) else multiset{})
      + Eligible(lower, rel, nodes[1..], needle)
  }

  // ---------- order ----------

  function ByScoreThenPath(compare: Compare, a: Match, b: Match): int {
    if a.score != b.score then b.score - a.score
    else if |a.path| != |b.path| then |a.path| - |b.path|
    else compare(a.path, b.path)
  }

  ghost predicate Ordering(compare: Compare) {
    && (forall a, b :: compare(a, b) <= 0 || compare(b, a) <= 0)
    && (forall a, b, c :: compare(a, b) <= 0 && compare(b, c) <= 0 ==> compare(a, c) <= 0)
  }

  predicate Before(compare: Compare, a: Match, b: Match) {
    ByScoreThenPath(compare, a, b) <= 0
  }

  ghost predicate Sorted(compare: Compare, ms: seq<Match>) {
    forall i, j | 0 <= i < j < |ms| :: Before(compare, ms[i], ms[j])
  }

  /** After every element that does not come later: the sort is stable. */
  function Insert(compare: Compare, ms: seq<Match>, m: Match): seq<Match> {
    if ms == [] || Before(compare, ms[|ms| - 1], m) then ms + [m]
    else Insert(compare, ms[..|ms| - 1], m) + [ms[|ms| - 1]]
  }

  function Sort(compare: Compare, ms: seq<Match>): seq<Match> {
    if ms == [] then [] else Insert(compare, Sort(compare, ms[..|ms| - 1]), ms[|ms| - 1])
  }

  lemma {:induction false} InsertSorts(compare: Compare, ms: seq<Match>, m: Match)
    requires Ordering(compare) && Sorted(compare, ms)
    ensures Sorted(compare, Insert(compare, ms, m)) && multiset(Insert(compare, ms, m)) == multiset(ms) + multiset{m}
  {
    if ms != [] {
      var front, last := ms[..|ms| - 1], ms[|ms| - 1];
      assert ms == front + [last];
      if Before(compare, last, m) {
        forall i | 0 <= i < |ms| ensures Before(compare, ms[i], m) {
          if i < |front| { Follows(compare, ms[i], last, m); }
        }
      } else {
        InsertSorts(compare, front, m);
        var inserted := Insert(compare, front, m);
        forall i | 0 <= i < |inserted| ensures Before(compare, inserted[i], last) {
          assert inserted[i] in multiset(inserted);
          Comparable(compare, m, last);
          if inserted[i] != m { assert inserted[i] in front; }
        }
      }
    }
  }

  lemma Follows(compare: Compare, a: Match, b: Match, c: Match)
    requires Ordering(compare) && Before(compare, a, b) && Before(compare, b, c)
    ensures Before(compare, a, c)
  {
  }

  lemma Comparable(compare: Compare, a: Match, b: Match)
    requires Ordering(compare)
    ensures Before(compare, a, b) || Before(compare, b, a)
  {
  }

  lemma {:induction false} SortSorts(compare: Compare, ms: seq<Match>)
    requires Ordering(compare)
    ensures Sorted(compare, Sort(compare, ms)) && multiset(Sort(compare, ms)) == multiset(ms)
  {
    if ms != [] {
      var front, last := ms[..|ms| - 1], ms[|ms| - 1];
      assert ms == front + [last];
      SortSorts(compare, front);
      InsertSorts(compare, Sort(compare, front), last);
    }
  }

  ghost predicate NoTies(compare: Compare, all: multiset<Match>) {
    forall x, y | x in all && y in all && Before(compare, x, y) && Before(compare, y, x) :: x == y
  }

  lemma SameLast(compare: Compare, a: seq<Match>, b: seq<Match>)
    requires Sorted(compare, a) && Sorted(compare, b) && multiset(a) == multiset(b) && NoTies(compare, multiset(a))
    requires a != [] && b != []
    ensures a[|a| - 1] == b[|b| - 1]
  {
    var la, lb := a[|a| - 1], b[|b| - 1];
    assert la in multiset(b) && lb in multiset(a);
    var i :| 0 <= i < |a| && a[i] == lb;
    var j :| 0 <= j < |b| && b[j] == la;
    assert i < |a| - 1 ==> Before(compare, lb, la);
    assert j < |b| - 1 ==> Before(compare, la, lb);
  }

  lemma WithoutLast(compare: Compare, a: seq<Match>)
    requires a != []
    ensures multiset(a[..|a| - 1]) == multiset(a) - multiset{a[|a| - 1]}
    ensures Sorted(compare, a) ==> Sorted(compare, a[..|a| - 1])
  {
    assert a == a[..|a| - 1] + [a[|a| - 1]];
  }

  lemma SameSize(a: seq<Match>, b: seq<Match>)
    requires multiset(a) == multiset(b)
    ensures |a| == |b|
  {
    assert |multiset(a)| == |a| && |multiset(b)| == |b|;
  }

  /** When no two different files tie, there is only one ranking of them. */
  lemma {:induction false} RankingUnique(compare: Compare, a: seq<Match>, b: seq<Match>)
    requires Sorted(compare, a) && Sorted(compare, b) && multiset(a) == multiset(b) && NoTies(compare, multiset(a))
    ensures a == b
    decreases |a|
  {
    hide Sorted, NoTies;
    SameSize(a, b);
    if a != [] {
      var fa, fb := a[..|a| - 1], b[..|b| - 1];
      SameLast(compare, a, b);
      FrontsRank(compare, a, b);
      RankingUnique(compare, fa, fb);
      assert a == fa + [a[|a| - 1]] && b == fb + [b[|b| - 1]];
    }
  }

  lemma FrontsRank(compare: Compare, a: seq<Match>, b: seq<Match>)
    requires Sorted(compare, a) && Sorted(compare, b) && multiset(a) == multiset(b) && NoTies(compare, multiset(a))
    requires a != [] && b != [] && a[|a| - 1] == b[|b| - 1]
    ensures var fa, fb := a[..|a| - 1], b[..|b| - 1];
      Sorted(compare, fa) && Sorted(compare, fb) && multiset(fa) == multiset(fb) && NoTies(compare, multiset(fa))
  {
    hide Sorted, NoTies;
    WithoutLast(compare, a);
    WithoutLast(compare, b);
    NoTiesBelow(compare, multiset(a), a[|a| - 1]);
  }

  lemma NoTiesBelow(compare: Compare, all: multiset<Match>, m: Match)
    requires NoTies(compare, all)
    ensures NoTies(compare, all - multiset{m})
  {
  }

  // ---------- the search ----------

  datatype Folder = Folder(rel: string, children: seq<Node>)

  function QueueEntries(queue: seq<Folder>): nat {
    if queue == [] then 0 else QueueEntries(queue[..|queue| - 1]) + Entries(queue[|queue| - 1].children)
  }

  function QueueEligible(lower: Lower, queue: seq<Folder>, needle: string): multiset<Match> {
    if queue == [] then multiset{}
    else
      var last := queue[|queue| - 1];
      QueueEligible(lower, queue[..|queue| - 1], needle) + Eligible(lower, last.rel, last.children, needle)
  }

  lemma {:induction false} QueueShift(lower: Lower, queue: seq<Folder>, needle: string)
    requires queue != []
    ensures QueueEntries(queue) == Entries(queue[0].children) + QueueEntries(queue[1..])
    ensures QueueEligible(lower, queue, needle)
      == Eligible(lower, queue[0].rel, queue[0].children, needle) + QueueEligible(lower, queue[1..], needle)
  {
    hide Eligible, Entries;
    if |queue| > 1 {
      var front := queue[..|queue| - 1];
      QueueShift(lower, front, needle);
      assert front[1..] == queue[1..][..|queue| - 2];
    }
  }

  lemma QueuePush(lower: Lower, queue: seq<Folder>, f: Folder, needle: string)
    ensures QueueEntries(queue + [f]) == QueueEntries(queue) + Entries(f.children)
    ensures QueueEligible(lower, queue + [f], needle) == QueueEligible(lower, queue, needle)
      + Eligible(lower, f.rel, f.children, needle)
  {
    assert (queue + [f])[..|queue|] == queue;
  }

  function Capped(limit: int): nat {
    var atMost := if limit < MAX_SEARCH_RESULTS then limit else MAX_SEARCH_RESULTS;
    if atMost > 1 then atMost else 1
  }

  /** What has been found, and what the rest of this folder and the queued ones still hold. */
  ghost function Remaining(lower: Lower, needle: string, found: seq<Match>, folder: Folder,
                           queue: seq<Folder>): multiset<Match> {
    multiset(found) + (Eligible(lower, folder.rel, folder.children, needle) + QueueEligible(lower, queue, needle))
  }

  /** The state of the walk. */
  datatype Progress = Progress(found: seq<Match>, queue: seq<Folder>, visited: nat, truncated: bool)

  /** One entry: a hit is kept, a walked folder joins the queue, anything else is passed over. */
  method Visit(lower: Lower, needle: string, rel: string, dirent: Node, p: Progress) returns (r: Progress)
    requires p.visited < MAX_SEARCH_ENTRIES && !p.truncated
    ensures !r.truncated && r.visited == p.visited + 1
    ensures QueueEntries(r.queue) == QueueEntries(p.queue) + if Walked(dirent) then Entries(dirent.children) else 0
    ensures multiset(r.found) + QueueEligible(lower, r.queue, needle)
      == multiset(p.found) + QueueEligible(lower, p.queue, needle) + Hit(lower, rel, dirent, needle)
         + if Walked(dirent) then Eligible(lower, Join(rel, dirent.name), dirent.children, needle) else multiset{}
  {
    hide Eligible, Entries, QueueEligible, QueueEntries, Score;
    r := p.(visited := p.visited + 1);
    if dirent.Link? || Hidden(dirent.name) { return; }
    var entryPath := Join(rel, dirent.name);
    if dirent.Dir? {
      if dirent.name !in SKIPPED_DIRS {
        QueuePush(lower, p.queue, Folder(entryPath, dirent.children), needle);
        r := r.(queue := r.queue + [Folder(entryPath, dirent.children)]);
      }
      return;
    }
    if !dirent.File? { return; }
    var hit := Score(lower, entryPath, dirent.name, needle);
    if hit >= 0 {
      r := r.(found := r.found + [Match(dirent.name, entryPath, hit)]);
    }
  }

  /** One folder, entry by entry, until the budget is spent. */
  method VisitFolder(lower: Lower, needle: string, folder: Folder, p: Progress) returns (r: Progress)
    requires p.visited <= MAX_SEARCH_ENTRIES && !p.truncated
    ensures r.visited <= MAX_SEARCH_ENTRIES
    ensures !r.truncated ==>
      && r.visited + QueueEntries(r.queue) == p.visited + Entries(folder.children) + QueueEntries(p.queue)
      && multiset(r.found) + QueueEligible(lower, r.queue, needle) == Remaining(lower, needle, p.found, folder, p.queue)
      && (if folder.children == [] then r.queue == p.queue else r.visited > p.visited)
    ensures r.truncated ==> p.visited + Entries(folder.children) + QueueEntries(p.queue) > MAX_SEARCH_ENTRIES
    ensures multiset(r.found) <= Remaining(lower, needle, p.found, folder, p.queue)
  {
    hide QueueEligible, QueueEntries, Hit, Eligible, Remaining;
    r := p;
    assert Folder(folder.rel, folder.children) == folder;
    var rest := folder.children;
    while rest != []
      invariant p.visited <= r.visited <= MAX_SEARCH_ENTRIES && !r.truncated
      invariant r.visited + Entries(rest) + QueueEntries(r.queue) == p.visited + Entries(folder.children)
        + QueueEntries(p.queue)
      invariant Remaining(lower, needle, r.found, Folder(folder.rel, rest), r.queue) ==
        Remaining(lower, needle, p.found, folder, p.queue)
      invariant if |rest| == |folder.children| then r.queue == p.queue else r.visited > p.visited
      invariant |rest| <= |folder.children|
      decreases |rest|
    {
      if r.visited >= MAX_SEARCH_ENTRIES {
        FolderDone(lower, needle, r.found, Folder(folder.rel, rest), r.queue);
        r := r.(truncated := true);
        return;
      }
      var next := Visit(lower, needle, folder.rel, rest[0], r);
      EntryMoves(lower, needle, folder.rel, rest, r, next);
      rest, r := rest[1..], next;
    }
    FolderDone(lower, needle, r.found, Folder(folder.rel, rest), r.queue);
  }

  lemma FolderDone(lower: Lower, needle: string, found: seq<Match>, folder: Folder, queue: seq<Folder>)
    ensures multiset(found) <= Remaining(lower, needle, found, folder, queue)
    ensures folder.children == [] ==>
      Remaining(lower, needle, found, folder, queue) == multiset(found) + QueueEligible(lower, queue, needle)
  {
  }

  lemma EntryMoves(lower: Lower, needle: string, rel: string, rest: seq<Node>, before: Progress, after: Progress)
    requires rest != []
    requires multiset(after.found) + QueueEligible(lower, after.queue, needle)
      == multiset(before.found) + QueueEligible(lower, before.queue, needle) + Hit(lower, rel, rest[0], needle)
         + if Walked(rest[0]) then Eligible(lower, Join(rel, rest[0].name), rest[0].children, needle) else multiset{}
    ensures Remaining(lower, needle, after.found, Folder(rel, rest[1..]), after.queue)
         == Remaining(lower, needle, before.found, Folder(rel, rest), before.queue)
  {
    hide QueueEligible, Hit;
    var below := if Walked(rest[0]) then Eligible(lower, Join(rel, rest[0].name), rest[0].children, needle)
      else multiset{};
    var others := Eligible(lower, rel, rest[1..], needle);
    assert Eligible(lower, rel, rest, needle) == Hit(lower, rel, rest[0], needle) + below + others;
    assert multiset(after.found) + (others + QueueEligible(lower, after.queue, needle))
        == multiset(after.found) + QueueEligible(lower, after.queue, needle) + others;
  }

  /** The walk: what it found, in the order it found it. */
  method Walk(lower: Lower, tree: seq<Node>, needle: string) returns (found: seq<Match>, visited: nat, truncated: bool)
    ensures visited <= MAX_SEARCH_ENTRIES
    ensures truncated <==> Entries(tree) > MAX_SEARCH_ENTRIES
    ensures !truncated ==> visited == Entries(tree) && multiset(found) == Eligible(lower, "", tree, needle)
    ensures multiset(found) <= Eligible(lower, "", tree, needle)
  {
    hide Eligible, Entries, Hit;
    var p := Progress([], [Folder("", tree)], 0, false);
    QueuePush(lower, [], Folder("", tree), needle);
    assert [] + [Folder("", tree)] == [Folder("", tree)];
    while |p.queue| > 0
      invariant p.visited <= MAX_SEARCH_ENTRIES && !p.truncated
      invariant p.visited + QueueEntries(p.queue) == Entries(tree)
      invariant multiset(p.found) + QueueEligible(lower, p.queue, needle) == Eligible(lower, "", tree, needle)
      decreases MAX_SEARCH_ENTRIES - p.visited, |p.queue|
    {
      var folder := p.queue[0];
      QueueShift(lower, p.queue, needle);
      p := VisitFolder(lower, needle, folder, p.(queue := p.queue[1..]));
      if p.truncated { return p.found, p.visited, true; }
    }
    return p.found, p.visited, false;
  }

  /**
   * When the walk was not cut, the answer is the first `Capped(limit)` of all
   * eligible files in score-then-path order; when it was, it still offers only
   * eligible files, best first.
   */
  method SearchProjectFiles(lower: Lower, compare: Compare, tree: seq<Node>, needle: string, limit: int)
    returns (matches: seq<Match>, truncated: bool, ghost ranked: seq<Match>)
    requires Ordering(compare)
    ensures truncated <==> Entries(tree) > MAX_SEARCH_ENTRIES
    ensures Sorted(compare, ranked) && multiset(ranked) <= Eligible(lower, "", tree, needle)
    ensures !truncated ==> multiset(ranked) == Eligible(lower, "", tree, needle)
    ensures var most := if limit < 1 then 1 else if limit > 50 then 50 else limit;
      matches == ranked[..if most < |ranked| then most else |ranked|]
  {
    var found, visited;
    found, visited, truncated := Walk(lower, tree, needle);
    SortSorts(compare, found);
    var sorted := Sort(compare, found);
    ranked := sorted;
    matches := sorted[..if Capped(limit) < |sorted| then Capped(limit) else |sorted|];
  }

  // ---------- the answer, in words of the query ----------

  predicate HoldsAt(part: string, s: string, at: nat) {
    at + |part| <= |s| && s[at..at + |part|] == part
  }

  ghost predicate Occurs(part: string, s: string) {
    exists at: nat :: HoldsAt(part, s, at)
  }

  lemma {:induction false} IncludesMeans(s: string, part: string)
    ensures Includes(s, part) <==> Occurs(part, s)
  {
    if part <= s {
      assert HoldsAt(part, s, 0);
    } else {
      assert !HoldsAt(part, s, 0);
      if s != "" {
        var rest := s[1..];
        IncludesMeans(rest, part);
        if at: nat :| HoldsAt(part, rest, at) {
          assert s[at + 1..at + 1 + |part|] == rest[at..at + |part|];
          assert HoldsAt(part, s, at + 1);
        }
        if at: nat :| HoldsAt(part, s, at) {
          assert rest[at - 1..at - 1 + |part|] == s[at..at + |part|];
          assert HoldsAt(part, rest, at - 1);
        }
      }
    }
  }

  /** The names on the way to a file, none of them hidden, none of the folders one that is skipped. */
  ghost predicate FileAt(nodes: seq<Node>, route: seq<string>)
    decreases |route|
  {
    && route != [] && !("." <= route[0])
    && if |route| == 1 then exists k :: 0 <= k < |nodes| && nodes[k] == File(route[0])
       else
         && route[0] != "node_modules"
         && exists k :: 0 <= k < |nodes| && nodes[k].Dir? && nodes[k].name == route[0]
              && FileAt(nodes[k].children, route[1..])
  }

  /** The names with slashes between them, below a folder at `rel`. */
  function PathOf(rel: string, route: seq<string>): string
    decreases |route|
  {
    if route == [] then rel
    else PathOf(if rel == "" then route[0] else rel + "/" + route[0], route[1..])
  }

  /** How a file matches: its name starts with the query, holds it, or only its path does. */
  ghost predicate OfferedAs(lower: Lower, needle: string, m: Match) {
    if needle == "" then m.score == 0
    else if needle <= lower(m.name) then m.score == 3
    else if Occurs(needle, lower(m.name)) then m.score == 2
    else Occurs(needle, lower(m.path)) && m.score == 1
  }

  lemma ScoreMeans(lower: Lower, needle: string, m: Match)
    ensures OfferedAs(lower, needle, m) <==>
      m.score >= 0 && m.score == Score(lower, m.path, m.name, needle)
  {
    hide Occurs;
    IncludesMeans(lower(m.name), needle);
    IncludesMeans(lower(m.path), needle);
  }

  /** `route` leads to the file `m` and the file matches. */
  ghost predicate Found(lower: Lower, rel: string, nodes: seq<Node>, needle: string, m: Match, route: seq<string>) {
    && FileAt(nodes, route) && m.name == route[|route| - 1] && m.path == PathOf(rel, route)
    && OfferedAs(lower, needle, m)
  }

  lemma {:induction false} FileAtSplit(nodes: seq<Node>, route: seq<string>)
    requires nodes != []
    ensures FileAt(nodes, route) <==> FileAt([nodes[0]], route) || FileAt(nodes[1..], route)
  {
    var rest := nodes[1..];
    if FileAt(nodes, route) {
      if |route| == 1 {
        var k :| 0 <= k < |nodes| && nodes[k] == File(route[0]);
        if k > 0 { assert rest[k - 1] == nodes[k]; } else { assert [nodes[0]][0] == nodes[0]; }
      } else {
        var k :| 0 <= k < |nodes| && nodes[k].Dir? && nodes[k].name == route[0]
          && FileAt(nodes[k].children, route[1..]);
        if k > 0 { assert rest[k - 1] == nodes[k]; } else { assert [nodes[0]][0] == nodes[0]; }
      }
    }
    if FileAt([nodes[0]], route) {
      assert nodes[0] == [nodes[0]][0];
    }
    if FileAt(rest, route) {
      assert forall k | 0 <= k < |rest| :: rest[k] == nodes[k + 1];
    }
  }

  /** What one entry brings: itself, or what is below it. */
  lemma {:induction false} EntryFound(lower: Lower, rel: string, n: Node, needle: string, m: Match, route: seq<string>)
    ensures Found(lower, rel, [n], needle, m, route) <==>
      || (route == [n.name] && m in Hit(lower, rel, n, needle))
      || (Walked(n) && |route| > 1 && route[0] == n.name
          && Found(lower, Join(rel, n.name), n.children, needle, m, route[1..]))
  {
    hide OfferedAs, Score;
    ScoreMeans(lower, needle, m);
    assert [n][0] == n;
    if |route| == 1 {
      assert route == [route[0]];
      assert PathOf(rel, route) == Join(rel, route[0]);
    } else if |route| > 1 {
      assert PathOf(rel, route) == PathOf(Join(rel, route[0]), route[1..]);
      assert route[1..][|route| - 2] == route[|route| - 1];
    }
  }

  /**
   * For every tree and query, a file is eligible exactly when some route of visible names leads to it and the
   * query is empty or occurs in its folded name or path.
   */
  lemma {:induction false} EligibleMeans(lower: Lower, rel: string, nodes: seq<Node>, needle: string, m: Match)
    ensures m in Eligible(lower, rel, nodes, needle) <==>
      exists route: seq<string> :: Found(lower, rel, nodes, needle, m, route)
    decreases nodes
  {
    hide Found, Hit;
    if nodes == [] {
      NothingFound(lower, rel, needle, m);
    } else {
      var n, rest := nodes[0], nodes[1..];
      forall route: seq<string>
        ensures Found(lower, rel, nodes, needle, m, route) <==>
          Found(lower, rel, [n], needle, m, route) || Found(lower, rel, rest, needle, m, route)
      {
        FoundSplit(lower, rel, nodes, needle, m, route);
      }
      EligibleMeans(lower, rel, rest, needle, m);
      if Walked(n) { EligibleMeans(lower, Join(rel, n.name), n.children, needle, m); }
      EntryMeans(lower, rel, n, needle, m);
    }
  }

  lemma NothingFound(lower: Lower, rel: string, needle: string, m: Match)
    ensures !exists route: seq<string> :: Found(lower, rel, [], needle, m, route)
  {
  }

  lemma FoundSplit(lower: Lower, rel: string, nodes: seq<Node>, needle: string, m: Match, route: seq<string>)
    requires nodes != []
    ensures Found(lower, rel, nodes, needle, m, route) <==>
      Found(lower, rel, [nodes[0]], needle, m, route) || Found(lower, rel, nodes[1..], needle, m, route)
  {
    hide FileAt, OfferedAs, PathOf;
    FileAtSplit(nodes, route);
    assert route == [] ==> !FileAt(nodes, route) && !FileAt([nodes[0]], route) && !FileAt(nodes[1..], route) by {
      if route == [] { NoRoute(nodes); NoRoute([nodes[0]]); NoRoute(nodes[1..]); }
    }
  }

  lemma NoRoute(nodes: seq<Node>)
    ensures !FileAt(nodes, [])
  {
  }

  lemma EntryMeans(lower: Lower, rel: string, n: Node, needle: string, m: Match)
    ensures (exists route: seq<string> :: Found(lower, rel, [n], needle, m, route)) <==>
      || m in Hit(lower, rel, n, needle)
      || (Walked(n) && exists route: seq<string> :: Found(lower, Join(rel, n.name), n.children, needle, m, route))
  {
    hide Found, Hit;
    forall route: seq<string>
      ensures Found(lower, rel, [n], needle, m, route) <==>
        || (route == [n.name] && m in Hit(lower, rel, n, needle))
        || (Walked(n) && |route| > 1 && route[0] == n.name
            && Found(lower, Join(rel, n.name), n.children, needle, m, route[1..]))
    {
      EntryFound(lower, rel, n, needle, m, route);
    }
    if m in Hit(lower, rel, n, needle) { assert Found(lower, rel, [n], needle, m, [n.name]); }
    if below: seq<string> :| Walked(n) && Found(lower, Join(rel, n.name), n.children, needle, m, below) {
      FoundRoute(lower, Join(rel, n.name), n.children, needle, m, below);
      assert ([n.name] + below)[1..] == below;
      assert Found(lower, rel, [n], needle, m, [n.name] + below);
    }
  }

  lemma FoundRoute(lower: Lower, rel: string, nodes: seq<Node>, needle: string, m: Match, route: seq<string>)
    requires Found(lower, rel, nodes, needle, m, route)
    ensures route != []
  {
  }

  /**
   * In a ranking, files whose name starts with the query come before those whose name holds it, and those before
   * the rest; among files that match alike the shorter path comes first, then the one that compares first.
   */
  lemma RankingReads(lower: Lower, compare: Compare, needle: string, ranked: seq<Match>, i: nat, j: nat)
    requires Sorted(compare, ranked) && i < j < |ranked|
    requires OfferedAs(lower, needle, ranked[i]) && OfferedAs(lower, needle, ranked[j])
    ensures var a, b := ranked[i], ranked[j];
      && (needle <= lower(b.name) ==> needle <= lower(a.name))
      && (Occurs(needle, lower(b.name)) ==> Occurs(needle, lower(a.name)))
      && ((needle <= lower(a.name) <==> needle <= lower(b.name))
          && (Occurs(needle, lower(a.name)) <==> Occurs(needle, lower(b.name)))
          ==> |a.path| <= |b.path| && (|a.path| == |b.path| ==> compare(a.path, b.path) <= 0))
  {
    hide Occurs;
    assert Before(compare, ranked[i], ranked[j]);
    PrefixOccurs(needle, lower(ranked[i].name));
    PrefixOccurs(needle, lower(ranked[j].name));
  }

  lemma PrefixOccurs(part: string, s: string)
    ensures part <= s ==> Occurs(part, s)
  {
    if part <= s { assert HoldsAt(part, s, 0); }
  }
}
