/**
 * Extra folders granted to one conversation: merging lists
 * (src/web/folder-grants.ts:93-103) and recording them under optimistic
 * concurrency (src/web/server.ts:839-863, 2124-2137, 3035-3054). Two paths name
 * the same folder when `key` maps them to the same text.
 */
module Grants {
  import opened Basics
  import opened Events
  import opened SerialQueue

  datatype Access = Read | Write
  datatype Grant = Grant(path: string, access: Access)

  type Key = string -> string

  // ---------- merging ----------

  predicate SameFolder(key: Key, a: string, b: string) {
    key(a) == key(b)
  }

  function FindFolder(key: Key, merged: seq<Grant>, path: string): (at: Option<nat>)
    ensures at.Some? ==> at.value < |merged| && SameFolder(key, merged[at.value].path, path)
    ensures at.Some? ==> forall i | 0 <= i < at.value :: !SameFolder(key, merged[i].path, path)
    ensures at.None? <==> forall i | 0 <= i < |merged| :: !SameFolder(key, merged[i].path, path)
  {
    if merged == [] then None
    else
      var earlier := FindFolder(key, merged[..|merged| - 1], path);
      if earlier.Some? then earlier
      else if SameFolder(key, merged[|merged| - 1].path, path) then Some(|merged| - 1)
      else None
  }

  function MergeOne(key: Key, merged: seq<Grant>, root: Grant): seq<Grant> {
    match FindFolder(key, merged, root.path)
    case None => merged + [root]
    case Some(at) => if root.access == Write then merged[at := merged[at].(access := Write)] else merged
  }

  function MergeFrom(key: Key, merged: seq<Grant>, roots: seq<Grant>): seq<Grant> {
    if roots == [] then merged
    else MergeOne(key, MergeFrom(key, merged, roots[..|roots| - 1]), roots[|roots| - 1])
  }

  function Flatten(lists: seq<seq<Grant>>): seq<Grant> {
    if lists == [] then [] else Flatten(lists[..|lists| - 1]) + lists[|lists| - 1]
  }

  method FindIndex(key: Key, merged: seq<Grant>, path: string) returns (index: nat)
    ensures FindFolder(key, merged, path) == if index < |merged| then Some(index) else None
    ensures index <= |merged|
  {
    index := 0;
    while index < |merged| && key(merged[index].path) != key(path)
      invariant index <= |merged|
      invariant forall i | 0 <= i < index :: !SameFolder(key, merged[i].path, path)
    {
      index := index + 1;
    }
    assert index < |merged| ==> SameFolder(key, merged[index].path, path);
  }

  method MergeGrants(key: Key, lists: seq<seq<Grant>>) returns (merged: seq<Grant>)
    ensures merged == MergeFrom(key, [], Flatten(lists))
  {
    hide FindFolder, MergeFrom;
    merged := [];
    MergeNone(key, []);
    for l := 0 to |lists|
      invariant merged == MergeFrom(key, [], Flatten(lists[..l]))
    {
      var list := lists[l];
      ghost var before := Flatten(lists[..l]);
      assert before + list[..0] == before;
      for r := 0 to |list|
        invariant merged == MergeFrom(key, [], before + list[..r])
      {
        var root := list[r];
        var index := FindIndex(key, merged, root.path);
        assert before + list[..r + 1] == (before + list[..r]) + [root];
        MergeSnoc(key, [], before + list[..r], root);
        if index == |merged| {
          merged := merged + [root];
        } else if root.access == Write {
          merged := merged[index := Grant(merged[index].path, Write)];
        }
      }
      assert list[..|list|] == list && lists[..l + 1][..l] == lists[..l];
    }
    assert lists[..|lists|] == lists;
  }

  lemma MergeNone(key: Key, merged: seq<Grant>)
    ensures MergeFrom(key, merged, []) == merged
  {
  }

  lemma MergeSnoc(key: Key, merged: seq<Grant>, roots: seq<Grant>, root: Grant)
    ensures MergeFrom(key, merged, roots + [root]) == MergeOne(key, MergeFrom(key, merged, roots), root)
  {
    assert (roots + [root])[..|roots|] == roots;
  }

  ghost predicate OneEach(key: Key, grants: seq<Grant>) {
    forall i, j | 0 <= i < j < |grants| :: !SameFolder(key, grants[i].path, grants[j].path)
  }

  /** Some entry grants at least this much on this folder. */
  ghost predicate Covers(key: Key, grants: seq<Grant>, path: string, access: Access) {
    exists i | 0 <= i < |grants| ::
      SameFolder(key, grants[i].path, path) && (grants[i].access == Write || access == Read)
  }

  lemma MergeOneMeans(key: Key, merged: seq<Grant>, root: Grant)
    requires OneEach(key, merged)
    ensures var next := MergeOne(key, merged, root);
      && OneEach(key, next) && |merged| <= |next|
      && (forall i | 0 <= i < |merged| :: next[i].path == merged[i].path)
      && forall path, access ::
        Covers(key, next, path, access) <==> Covers(key, merged, path, access) || Covers(key, [root], path, access)
  {
    var next := MergeOne(key, merged, root);
    forall path, access
      ensures Covers(key, next, path, access)
        <==> Covers(key, merged, path, access) || Covers(key, [root], path, access)
    {
      if Covers(key, merged, path, access) {
        var i :| 0 <= i < |merged| && SameFolder(key, merged[i].path, path)
          && (merged[i].access == Write || access == Read);
        assert SameFolder(key, next[i].path, path);
      }
      if Covers(key, [root], path, access) {
        assert SameFolder(key, [root][0].path, path);
        var at := FindFolder(key, merged, root.path);
        var i := if at.Some? then at.value else |merged|;
        assert SameFolder(key, next[i].path, path);
      }
      if Covers(key, next, path, access) {
        var i :| 0 <= i < |next| && SameFolder(key, next[i].path, path) && (next[i].access == Write || access == Read);
        if i < |merged| && merged[i] == next[i] {
          assert SameFolder(key, merged[i].path, path);
        } else {
          assert SameFolder(key, [root][0].path, path);
        }
      }
    }
  }

  /**
   * The merged list has one entry per folder, and it grants exactly what the
   * given lists grant together: `write` wherever any of them says so.
   */
  lemma {:induction false} MergeMeans(key: Key, merged: seq<Grant>, roots: seq<Grant>)
    requires OneEach(key, merged)
    ensures var result := MergeFrom(key, merged, roots);
      && OneEach(key, result) && |merged| <= |result|
      && (forall i | 0 <= i < |merged| :: result[i].path == merged[i].path)
      && forall path, access ::
        Covers(key, result, path, access) <==> Covers(key, merged, path, access) || Covers(key, roots, path, access)
  {
    hide Covers, OneEach, MergeOne, SameFolder;
    if roots != [] {
      var front, root := roots[..|roots| - 1], roots[|roots| - 1];
      MergeMeans(key, merged, front);
      MergeOneMeans(key, MergeFrom(key, merged, front), root);
      assert roots == front + [root];
      forall path, access
        ensures Covers(key, roots, path, access)
          <==> Covers(key, front, path, access) || Covers(key, [root], path, access)
      {
        CoversSnoc(key, front, root, path, access);
      }
    } else {
      CoversNothing(key);
    }
  }

  /** Where the first entry of each folder stands. */
  function Firsts(key: Key, roots: seq<Grant>): (at: seq<nat>)
    ensures forall i | 0 <= i < |at| :: at[i] < |roots|
  {
    if roots == [] then []
    else
      var n := |roots| - 1;
      Firsts(key, roots[..n]) + if Mentions(key, roots[..n], roots[n].path) then [] else [n]
  }

  /** Some entry is about this folder. */
  predicate Mentions(key: Key, grants: seq<Grant>, path: string) {
    exists i | 0 <= i < |grants| :: SameFolder(key, grants[i].path, path)
  }

  lemma MentionsSnoc(key: Key, front: seq<Grant>, root: Grant, path: string)
    ensures Mentions(key, front + [root], path) <==> Mentions(key, front, path) || SameFolder(key, root.path, path)
  {
    var all := front + [root];
    if Mentions(key, front, path) {
      var i :| 0 <= i < |front| && SameFolder(key, front[i].path, path);
      assert SameFolder(key, all[i].path, path);
    }
    assert all[|front|] == root;
  }

  lemma MergeOneMentions(key: Key, merged: seq<Grant>, root: Grant, path: string)
    ensures Mentions(key, MergeOne(key, merged, root), path)
      <==> Mentions(key, merged, path) || SameFolder(key, root.path, path)
  {
    match FindFolder(key, merged, root.path) {
      case None => MentionsSnoc(key, merged, root, path);
      case Some(at) =>
        var next := MergeOne(key, merged, root);
        assert forall i | 0 <= i < |merged| :: next[i].path == merged[i].path;
        if SameFolder(key, root.path, path) { assert SameFolder(key, merged[at].path, path); }
    }
  }

  lemma MergeOnePaths(key: Key, merged: seq<Grant>, root: Grant)
    ensures var next := MergeOne(key, merged, root);
      if Mentions(key, merged, root.path)
        then |next| == |merged| && forall i | 0 <= i < |merged| :: next[i].path == merged[i].path
      else next == merged + [root]
  {
    assert FindFolder(key, merged, root.path).Some? <==> Mentions(key, merged, root.path);
  }

  /** The merged list holds the first entry's spelling of each folder, in the order the folders first appear. */
  lemma {:induction false} MergeKeepsFirsts(key: Key, roots: seq<Grant>)
    ensures var merged, at := MergeFrom(key, [], roots), Firsts(key, roots);
      && |merged| == |at| && (forall i | 0 <= i < |at| :: merged[i].path == roots[at[i]].path)
      && (forall path :: Mentions(key, merged, path) <==> Mentions(key, roots, path))
  {
    hide MergeOne, Mentions, SameFolder;
    if roots == [] {
      NothingMentioned(key, roots);
    } else {
      var front, root := roots[..|roots| - 1], roots[|roots| - 1];
      assert roots == front + [root];
      MergeKeepsFirsts(key, front);
      var merged := MergeFrom(key, [], front);
      MergeOnePaths(key, merged, root);
      assert Mentions(key, merged, root.path) <==> Mentions(key, front, root.path);
      forall path ensures Mentions(key, MergeOne(key, merged, root), path) <==> Mentions(key, roots, path) {
        MergeOneMentions(key, merged, root, path);
        MentionsSnoc(key, front, root, path);
      }
    }
  }

  lemma NothingMentioned(key: Key, roots: seq<Grant>)
    requires roots == []
    ensures MergeFrom(key, [], roots) == [] && Firsts(key, roots) == [] && forall path :: !Mentions(key, roots, path)
  {
  }

  lemma CoversNothing(key: Key)
    ensures forall path, access :: !Covers(key, [], path, access)
  {
  }

  lemma CoversSnoc(key: Key, front: seq<Grant>, root: Grant, path: string, access: Access)
    ensures Covers(key, front + [root], path, access)
      <==> Covers(key, front, path, access) || Covers(key, [root], path, access)
  {
    var all := front + [root];
    if Covers(key, front, path, access) {
      var i :| 0 <= i < |front| && SameFolder(key, front[i].path, path) && (front[i].access == Write || access == Read);
      assert SameFolder(key, all[i].path, path);
    }
    if Covers(key, [root], path, access) {
      assert SameFolder(key, [root][0].path, path);
      assert SameFolder(key, all[|front|].path, path);
    }
    if Covers(key, all, path, access) && !Covers(key, front, path, access) {
      var i :| 0 <= i < |all| && SameFolder(key, all[i].path, path) && (all[i].access == Write || access == Read);
      assert i < |front| ==> SameFolder(key, front[i].path, path);
      assert SameFolder(key, [root][0].path, path);
    }
  }

  // ---------- recording ----------

  /** One `session/grants` event. */
  datatype Listing = Listing(revision: nat, roots: seq<Grant>)

  /** A composer edit carries the revision it was based on; an approval adds one folder. */
  datatype Ask =
    | Edit(expected: nat, requested: seq<Grant>)
    | Approve(folder: Grant)

  /**
   * `recorded` is the log's grant events, each with what caused it; `current` is
   * what the running task read; `verdicts` says which of the settled tasks recorded.
   */
  datatype Entry = Entry(ask: Ask, listing: Listing)
  datatype World = World(queue: Queue, asks: seq<Ask>, current: Listing, recorded: seq<Entry>, verdicts: seq<bool>)

  function Latest(start: Listing, recorded: seq<Entry>): Listing {
    if recorded == [] then start else recorded[|recorded| - 1].listing
  }

  function Start(start: Listing): World {
    World(Empty, [], start, [], [])
  }

  /** What a task records, given what it read: nothing when the edit is stale. */
  function Derive(key: Key, ask: Ask, current: Listing): Option<seq<Grant>> {
    match ask
    case Edit(expected, requested) => if current.revision != expected then None else Some(MergeFrom(key, [], requested))
    case Approve(folder) => Some(MergeFrom(key, [], current.roots + [folder]))
  }

  /** `valid`: the folders of an edit passed validation, which takes time. */
  datatype Move = Submit(ask: Ask) | Starts(task: nat) | Record(task: nat, valid: bool) | Drop

  function Next(key: Key, start: Listing, w: World, m: Move): World {
    match m
    case Submit(ask) => w.(queue := Arrive(w.queue), asks := w.asks + [ask])
    case Starts(i) =>
      if !Ready(w.queue, i) then w
      else w.(queue := Begin(w.queue, i), current := Latest(start, w.recorded))
    case Record(i, valid) =>
      if !Is(w.queue, i, Running) || i >= |w.asks| then w
      else
        var done := w.(queue := Settle(w.queue, i));
        var roots := Derive(key, w.asks[i], w.current);
        if roots.None? || (w.asks[i].Edit? && !valid) then done.(verdicts := w.verdicts + [false])
        else done.(verdicts := w.verdicts + [true],
                   recorded := w.recorded + [Entry(w.asks[i], Listing(w.current.revision + 1, roots.value))])
    case Drop => if TailSettled(w.queue) then w.(queue := Forget(w.queue)) else w
  }

  function Run(key: Key, start: Listing, moves: seq<Move>): World {
    if moves == [] then Start(start)
    else Next(key, start, Run(key, start, moves[..|moves| - 1]), moves[|moves| - 1])
  }

  /** What each recorded list says, given the one it replaced. */
  ghost predicate Follows(key: Key, before: Listing, entry: Entry) {
    && entry.listing.revision == before.revision + 1
    && OneEach(key, entry.listing.roots)
    && match entry.ask
       case Edit(expected, requested) =>
         && expected == before.revision
         && forall path, access ::
           Covers(key, entry.listing.roots, path, access) <==> Covers(key, requested, path, access)
       case Approve(folder) =>
         forall path, access :: Covers(key, entry.listing.roots, path, access)
                           <==> Covers(key, before.roots, path, access) || Covers(key, [folder], path, access)
  }

  ghost predicate History(key: Key, start: Listing, recorded: seq<Entry>) {
    forall k | 0 <= k < |recorded| :: Follows(key, Latest(start, recorded[..k]), recorded[k])
  }

  function AsksOf(recorded: seq<Entry>): seq<Ask> {
    if recorded == [] then [] else AsksOf(recorded[..|recorded| - 1]) + [recorded[|recorded| - 1].ask]
  }

  lemma AsksSnoc(recorded: seq<Entry>, entry: Entry)
    ensures AsksOf(recorded + [entry]) == AsksOf(recorded) + [entry.ask]
  {
    assert (recorded + [entry])[..|recorded|] == recorded;
  }

  ghost predicate Inv(key: Key, start: Listing, w: World, front: nat) {
    && InLine(w.queue, front) && |w.asks| == |w.queue.tasks| && |w.verdicts| == front
    && AsksOf(w.recorded) == Chosen(w.asks, w.verdicts)
    && (Is(w.queue, front, Running) ==> w.current == Latest(start, w.recorded))
    && History(key, start, w.recorded)
  }

  lemma DeriveFollows(key: Key, ask: Ask, before: Listing, roots: seq<Grant>)
    requires Derive(key, ask, before) == Some(roots)
    ensures Follows(key, before, Entry(ask, Listing(before.revision + 1, roots)))
  {
    match ask {
      case Edit(expected, requested) => MergeMeans(key, [], requested);
      case Approve(folder) =>
        MergeMeans(key, [], before.roots + [folder]);
        forall path, access
          ensures Covers(key, before.roots + [folder], path, access)
            <==> Covers(key, before.roots, path, access) || Covers(key, [folder], path, access)
        {
          CoversSnoc(key, before.roots, folder, path, access);
        }
    }
  }

  lemma HistorySnoc(key: Key, start: Listing, recorded: seq<Entry>, entry: Entry)
    requires History(key, start, recorded) && Follows(key, Latest(start, recorded), entry)
    ensures History(key, start, recorded + [entry])
  {
    hide Follows;
    var all := recorded + [entry];
    forall k | 0 <= k < |all| ensures Follows(key, Latest(start, all[..k]), all[k]) {
      if k < |recorded| {
        assert all[..k] == recorded[..k];
      } else {
        assert all[..k] == recorded;
      }
    }
  }

  lemma NextKeeps(key: Key, start: Listing, w: World, m: Move, front: nat) returns (front': nat)
    requires Inv(key, start, w, front)
    ensures Inv(key, start, Next(key, start, w, m), front')
  {
    hide History, Follows, MergeFrom, Chosen, AsksOf;
    front' := front;
    match m {
      case Submit(ask) =>
        ArriveInLine(w.queue, front);
        ChosenMore(w.asks, [ask], w.verdicts);
      case Starts(i) => if Ready(w.queue, i) { BeginInLine(w.queue, front, i); }
      case Record(i, valid) =>
        if Is(w.queue, i, Running) && i < |w.asks| {
          SettleInLine(w.queue, front, i);
          front' := front + 1;
          var roots := Derive(key, w.asks[i], w.current);
          ChosenSnoc(w.asks, w.verdicts, roots.Some? && (w.asks[i].Approve? || valid));
          assert Chosen(w.asks, w.verdicts) + [] == Chosen(w.asks, w.verdicts);
          if roots.Some? {
            AsksSnoc(w.recorded, Entry(w.asks[i], Listing(w.current.revision + 1, roots.value)));
            DeriveFollows(key, w.asks[i], w.current, roots.value);
            HistorySnoc(key, start, w.recorded, Entry(w.asks[i], Listing(w.current.revision + 1, roots.value)));
          }
        }
      case Drop => if TailSettled(w.queue) { ForgetInLine(w.queue, front); }
    }
  }

  lemma {:induction false} RunKeeps(key: Key, start: Listing, moves: seq<Move>) returns (front: nat)
    ensures Inv(key, start, Run(key, start, moves), front)
  {
    if moves == [] {
      front := 0;
    } else {
      front := RunKeeps(key, start, moves[..|moves| - 1]);
      front := NextKeeps(key, start, Run(key, start, moves[..|moves| - 1]), moves[|moves| - 1], front);
    }
  }

  /**
   * In every interleaving of edits and approvals, each recorded list raises the
   * revision by one, an edit is recorded only over the very list it was based on,
   * and an approval keeps all that was granted and adds its folder; asks are
   * recorded in arrival order, every settled one that was not refused.
   */
  lemma EveryListFollows(key: Key, start: Listing, moves: seq<Move>)
    ensures var w := Run(key, start, moves);
      && History(key, start, w.recorded)
      && |w.verdicts| <= |w.asks| && AsksOf(w.recorded) == Chosen(w.asks, w.verdicts)
      && (forall i | 0 <= i < |w.asks| :: Is(w.queue, i, Settled) <==> i < |w.verdicts|)
  {
    var front := RunKeeps(key, start, moves);
  }

  /** The revision names the list: counting from the start, one per record. */
  lemma {:induction false} RevisionCounts(key: Key, start: Listing, recorded: seq<Entry>)
    requires History(key, start, recorded)
    ensures Latest(start, recorded).revision == start.revision + |recorded|
  {
    hide Covers, OneEach;
    if recorded != [] {
      var front := recorded[..|recorded| - 1];
      forall k | 0 <= k < |front| ensures Follows(key, Latest(start, front[..k]), front[k]) {
        assert front[..k] == recorded[..k] && front[k] == recorded[k];
      }
      RevisionCounts(key, start, front);
      assert Follows(key, Latest(start, front), recorded[|recorded| - 1]);
    }
  }

  /** The ask itself grants this much on the folder. */
  ghost predicate Gives(key: Key, ask: Ask, path: string, access: Access) {
    match ask
    case Edit(_, requested) => Covers(key, requested, path, access)
    case Approve(folder) => Covers(key, [folder], path, access)
  }

  /** An edit that leaves the folder out. */
  ghost predicate Drops(key: Key, ask: Ask, path: string, access: Access) {
    ask.Edit? && !Gives(key, ask, path, access)
  }

  /** Granted at the start (`i` is 0) or by record `i - 1`, and dropped by no edit after it. */
  ghost predicate GivenAt(key: Key, start: Listing, recorded: seq<Entry>, i: nat, path: string, access: Access) {
    && i <= |recorded|
    && (if i == 0 then Covers(key, start.roots, path, access) else Gives(key, recorded[i - 1].ask, path, access))
    && forall k | i <= k < |recorded| :: !Drops(key, recorded[k].ask, path, access)
  }

  ghost predicate StillGiven(key: Key, start: Listing, recorded: seq<Entry>, path: string, access: Access) {
    exists i: nat :: GivenAt(key, start, recorded, i, path, access)
  }

  lemma StillGivenSnoc(key: Key, start: Listing, recorded: seq<Entry>, entry: Entry, path: string, access: Access)
    ensures StillGiven(key, start, recorded + [entry], path, access) <==>
      || Gives(key, entry.ask, path, access)
      || (StillGiven(key, start, recorded, path, access) && !Drops(key, entry.ask, path, access))
  {
    hide Covers, Gives;
    var all := recorded + [entry];
    assert all[|recorded|] == entry && forall k | 0 <= k < |recorded| :: all[k] == recorded[k];
    if StillGiven(key, start, all, path, access) && !Gives(key, entry.ask, path, access) {
      var i: nat :| GivenAt(key, start, all, i, path, access);
      assert i <= |recorded| && !Drops(key, all[|recorded|].ask, path, access);
      assert forall k | i <= k < |recorded| :: !Drops(key, all[k].ask, path, access);
      assert GivenAt(key, start, recorded, i, path, access);
    }
    if StillGiven(key, start, recorded, path, access) && !Drops(key, entry.ask, path, access) {
      var i: nat :| GivenAt(key, start, recorded, i, path, access);
      assert GivenAt(key, start, all, i, path, access);
    }
    if Gives(key, entry.ask, path, access) {
      assert GivenAt(key, start, all, |all|, path, access);
    }
  }

  /** A folder is granted now if and only if something granted it and no edit has dropped it since. */
  lemma {:induction false} GrantedIff(key: Key, start: Listing, recorded: seq<Entry>, path: string, access: Access)
    requires History(key, start, recorded)
    ensures Covers(key, Latest(start, recorded).roots, path, access) <==> StillGiven(key, start, recorded, path, access)
  {
    hide Covers, OneEach;
    if recorded == [] {
      assert Covers(key, start.roots, path, access) ==> GivenAt(key, start, recorded, 0, path, access);
    } else {
      var front, last := recorded[..|recorded| - 1], recorded[|recorded| - 1];
      assert recorded == front + [last];
      forall k | 0 <= k < |front| ensures Follows(key, Latest(start, front[..k]), front[k]) {
        assert front[..k] == recorded[..k] && front[k] == recorded[k];
      }
      GrantedIff(key, start, front, path, access);
      StillGivenSnoc(key, start, front, last, path, access);
      assert Follows(key, Latest(start, front), last);
    }
  }

  /** In every run: what an approval recorded stays granted until an edit leaves that folder out. */
  lemma ApprovedStays(key: Key, start: Listing, moves: seq<Move>, at: nat)
    requires var r := Run(key, start, moves).recorded;
      && at < |r| && r[at].ask.Approve?
      && forall k | at < k < |r| :: !Drops(key, r[k].ask, r[at].ask.folder.path, r[at].ask.folder.access)
    ensures var r := Run(key, start, moves).recorded;
      Covers(key, Latest(start, r).roots, r[at].ask.folder.path, r[at].ask.folder.access)
  {
    EveryListFollows(key, start, moves);
    var r := Run(key, start, moves).recorded;
    var folder := r[at].ask.folder;
    assert SameFolder(key, [folder][0].path, folder.path);
    hide Follows, History, Run, SameFolder;
    assert Gives(key, r[at].ask, folder.path, folder.access);
    assert GivenAt(key, start, r, at + 1, folder.path, folder.access);
    GrantedIff(key, start, r, folder.path, folder.access);
  }

  /**
   * In every run, a task that ends records its ask exactly when that is an approval, or an edit whose folders are
   * valid and which was based on the list as it then is; the list it recorded over stays in the log.
   */
  lemma RecordsExactly(key: Key, start: Listing, moves: seq<Move>, i: nat, valid: bool)
    requires var w := Run(key, start, moves); i < |w.asks| && Is(w.queue, i, Running)
    ensures var w, w' := Run(key, start, moves), Run(key, start, moves + [Record(i, valid)]);
      var ask := w.asks[i];
      && Is(w'.queue, i, Settled)
      && if ask.Approve? || (valid && ask.expected == start.revision + |w.recorded|) then
           |w'.recorded| == |w.recorded| + 1 && w'.recorded[..|w.recorded|] == w.recorded
           && w'.recorded[|w.recorded|].ask == ask
         else w'.recorded == w.recorded
  {
    hide History, Follows, MergeFrom, Chosen, AsksOf;
    var front := RunKeeps(key, start, moves);
    var w := Run(key, start, moves);
    assert (moves + [Record(i, valid)])[..|moves|] == moves;
    RevisionCounts(key, start, w.recorded);
  }

  /** In every run: while a request is unsettled one is running, or one may start and then runs. */
  lemma SomeRequestMoves(key: Key, start: Listing, moves: seq<Move>, i: nat)
    requires i < |Run(key, start, moves).asks| && !Is(Run(key, start, moves).queue, i, Settled)
    ensures var w := Run(key, start, moves);
      exists j: nat :: j < |w.asks|
        && (Is(w.queue, j, Running) || Is(Run(key, start, moves + [Starts(j)]).queue, j, Running))
  {
    hide History, Follows, MergeFrom, Chosen, AsksOf;
    var front := RunKeeps(key, start, moves);
    var w := Run(key, start, moves);
    InLineMeans(w.queue, front);
    assert (moves + [Starts(front)])[..|moves|] == moves;
    assert Is(w.queue, front, Running) || Is(Run(key, start, moves + [Starts(front)]).queue, front, Running);
  }
}
