/**
 * Configured providers and the global default pair: repairing a selection
 * (src/web/provider-store.ts:48-64, src/web/server.ts:646-664), naming a new
 * provider (provider-store.ts:185-188, server.ts:6098-6100), and the serialized
 * store transactions (server.ts:2229-2273).
 */
module Providers {
  import opened Basics
  import opened Events
  import opened SerialQueue
  import D = Defaults

  /** A configured provider; `rest` stands for the fields no rule here reads. */
  datatype Provider = Provider(id: string, models: seq<string>, enabled: bool, rest: string)

  /** A provider the host injects; one without a model list has none. */
  datatype Injected = Injected(name: string, models: seq<string>)

  // ---------- repairing the selected pair ----------

  function FindProvider(providers: seq<Provider>, id: string): (p: Option<Provider>)
    ensures p.Some? ==> p.value in providers && p.value.id == id
    ensures p.None? <==> forall q | q in providers :: q.id != id
  {
    if providers == [] then None
    else if providers[0].id == id then Some(providers[0])
    else FindProvider(providers[1..], id)
  }

  function FindInjected(injected: seq<Injected>, name: string): (p: Option<Injected>)
    ensures p.Some? ==> p.value in injected && p.value.name == name
    ensures p.None? <==> forall q | q in injected :: q.name != name
  {
    if injected == [] then None
    else if injected[0].name == name then Some(injected[0])
    else FindInjected(injected[1..], name)
  }

  predicate Offers(p: Provider) {
    p.enabled && p.models != []
  }

  function PreferredPair(providers: seq<Provider>, level: Option<string>): D.Record {
    if providers == [] then D.Blank
    else if Offers(providers[0]) then D.Record(Some(providers[0].id), Some(providers[0].models[0]), level)
    else PreferredPair(providers[1..], level)
  }

  method PreferredDefaults(providers: seq<Provider>, level: Option<string>) returns (r: D.Record)
    ensures r == PreferredPair(providers, level)
  {
    for i := 0 to |providers|
      invariant PreferredPair(providers, level) == PreferredPair(providers[i..], level)
    {
      assert providers[i..][1..] == providers[i + 1..];
      if !providers[i].enabled { continue; }
      if |providers[i].models| > 0 {
        return D.Record(Some(providers[i].id), Some(providers[i].models[0]), level);
      }
    }
    r := D.Blank;
  }

  /** The selected pair names a provider that is enabled and advertises the model. */
  predicate Selected(providers: seq<Provider>, r: D.Record) {
    && r.provider.Some? && r.model.Some?
    && var p := FindProvider(providers, r.provider.value);
       p.Some? && p.value.enabled && r.model.value in p.value.models
  }

  function Repair(defaults: D.Record, providers: seq<Provider>): D.Record {
    if Selected(providers, defaults) then defaults else PreferredPair(providers, defaults.thinkingLevel)
  }

  function FirstInjected(injected: seq<Injected>, level: Option<string>): Option<D.Record> {
    if injected == [] then None
    else if injected[0].models != [] then Some(D.Record(Some(injected[0].name), Some(injected[0].models[0]), level))
    else FirstInjected(injected[1..], level)
  }

  predicate SelectedInjected(injected: seq<Injected>, r: D.Record) {
    && r.provider.Some? && r.model.Some?
    && var p := FindInjected(injected, r.provider.value);
       p.Some? && r.model.value in p.value.models
  }

  /** Injected providers come first; a disk selection counts only when none of them has a model. */
  function RepairGlobal(injected: seq<Injected>, candidate: D.Record, providers: seq<Provider>): D.Record {
    if SelectedInjected(injected, candidate) then candidate
    else
      var first := FirstInjected(injected, candidate.thinkingLevel);
      if first.Some? then first.value else Repair(candidate, providers)
  }

  method RepairGlobalDefaults(injected: seq<Injected>, candidate: D.Record, providers: seq<Provider>)
    returns (r: D.Record)
    ensures r == RepairGlobal(injected, candidate, providers)
  {
    if |injected| > 0 {
      if SelectedInjected(injected, candidate) { return candidate; }
      for i := 0 to |injected|
        invariant FirstInjected(injected, candidate.thinkingLevel) ==
          FirstInjected(injected[i..], candidate.thinkingLevel)
      {
        assert injected[i..][1..] == injected[i + 1..];
        if |injected[i].models| > 0 {
          return D.Record(Some(injected[i].name), Some(injected[i].models[0]), candidate.thinkingLevel);
        }
      }
    }
    if Selected(providers, candidate) { return candidate; }
    r := PreferredDefaults(providers, candidate.thinkingLevel);
  }

  /** Somebody who may be asked advertises the pair. */
  ghost predicate Advertised(injected: seq<Injected>, providers: seq<Provider>, r: D.Record) {
    && r.provider.Some? && r.model.Some?
    && ((exists p | p in injected :: p.name == r.provider.value && r.model.value in p.models)
     || (exists p | p in providers :: p.enabled && p.id == r.provider.value && r.model.value in p.models))
  }

  /** Nobody advertises any model. */
  ghost predicate NothingOffered(injected: seq<Injected>, providers: seq<Provider>) {
    (forall p | p in injected :: p.models == []) && (forall p | p in providers :: !Offers(p))
  }

  lemma {:induction false} PreferredMeans(providers: seq<Provider>, level: Option<string>)
    ensures var r := PreferredPair(providers, level);
      if forall p | p in providers :: !Offers(p) then r == D.Blank
        else Advertised([], providers, r) && r.thinkingLevel == level
  {
    if providers != [] {
      if Offers(providers[0]) {
        assert providers[0] in providers;
      } else {
        PreferredMeans(providers[1..], level);
        assert forall p | p in providers :: p == providers[0] || p in providers[1..];
      }
    }
  }

  lemma {:induction false} FirstInjectedMeans(injected: seq<Injected>, level: Option<string>)
    ensures var r := FirstInjected(injected, level);
      if r.None? then forall p | p in injected :: p.models == []
      else Advertised(injected, [], r.value) && r.value.thinkingLevel == level
  {
    if injected != [] {
      if injected[0].models != [] {
        assert injected[0] in injected;
      } else {
        FirstInjectedMeans(injected[1..], level);
        assert forall p | p in injected :: p == injected[0] || p in injected[1..];
      }
    }
  }

  /**
   * A repaired selection is blank exactly when nobody advertises a model;
   * otherwise somebody advertises it and the thinking level is kept.
   */
  lemma RepairGlobalMeans(injected: seq<Injected>, candidate: D.Record, providers: seq<Provider>)
    ensures var r := RepairGlobal(injected, candidate, providers);
      if NothingOffered(injected, providers) then r == D.Blank
      else Advertised(injected, providers, r) && r.thinkingLevel == candidate.thinkingLevel
  {
    FirstInjectedMeans(injected, candidate.thinkingLevel);
    PreferredMeans(providers, candidate.thinkingLevel);
    if SelectedInjected(injected, candidate) {
      assert FindInjected(injected, candidate.provider.value).value in injected;
    } else if FirstInjected(injected, candidate.thinkingLevel).None? && Selected(providers, candidate) {
      assert FindProvider(providers, candidate.provider.value).value in providers;
    }
  }

  /** Repairing twice changes nothing more, although two providers may share an id. */
  lemma RepairGlobalIdempotent(injected: seq<Injected>, candidate: D.Record, providers: seq<Provider>)
    ensures var r := RepairGlobal(injected, candidate, providers); RepairGlobal(injected, r, providers) == r
  {
    FirstInjectedMeans(injected, candidate.thinkingLevel);
    PreferredMeans(providers, candidate.thinkingLevel);
    if forall p | p in providers :: !Offers(p) {
      PreferredMeans(providers, None);
      if injected == [] {
      } else if FirstInjected(injected, candidate.thinkingLevel).None? {
        FirstInjectedMeans(injected, None);
      }
    }
  }

  /** The first configured provider with this id. */
  ghost predicate IsFirst(providers: seq<Provider>, i: nat, id: string) {
    i < |providers| && providers[i].id == id && forall j | 0 <= j < i :: providers[j].id != id
  }

  ghost predicate IsFirstInjected(injected: seq<Injected>, i: nat, name: string) {
    i < |injected| && injected[i].name == name && forall j | 0 <= j < i :: injected[j].name != name
  }

  /** The selection names a model its provider, the first of that id, is enabled for and advertises. */
  ghost predicate StillOffered(providers: seq<Provider>, provider: string, model: string) {
    exists i: nat :: IsFirst(providers, i, provider) && providers[i].enabled && model in providers[i].models
  }

  ghost predicate StillInjected(injected: seq<Injected>, provider: string, model: string) {
    exists i: nat :: IsFirstInjected(injected, i, provider) && model in injected[i].models
  }

  /** The first injected provider that has a model. */
  ghost predicate FirstSource(injected: seq<Injected>, i: nat) {
    i < |injected| && injected[i].models != [] && forall j | 0 <= j < i :: injected[j].models == []
  }

  /** The first configured provider that is enabled and has a model. */
  ghost predicate FirstUsable(providers: seq<Provider>, i: nat) {
    && i < |providers| && providers[i].enabled && providers[i].models != []
    && forall j | 0 <= j < i :: !providers[j].enabled || providers[j].models == []
  }

  lemma {:induction false} FindIsFirst(providers: seq<Provider>, id: string)
    ensures var p := FindProvider(providers, id);
      p.Some? ==> exists i: nat :: IsFirst(providers, i, id) && p == Some(providers[i])
  {
    if providers != [] {
      if providers[0].id == id {
        assert IsFirst(providers, 0, id);
      } else {
        FindIsFirst(providers[1..], id);
        if FindProvider(providers[1..], id).Some? {
          var i: nat :| IsFirst(providers[1..], i, id) && FindProvider(providers[1..], id) == Some(providers[1..][i]);
          assert forall j | 0 < j <= i :: providers[j] == providers[1..][j - 1];
          assert IsFirst(providers, i + 1, id);
        }
      }
    }
  }

  lemma {:induction false} FindInjectedIsFirst(injected: seq<Injected>, name: string)
    ensures var p := FindInjected(injected, name);
      p.Some? ==> exists i: nat :: IsFirstInjected(injected, i, name) && p == Some(injected[i])
  {
    if injected != [] {
      if injected[0].name == name {
        assert IsFirstInjected(injected, 0, name);
      } else {
        FindInjectedIsFirst(injected[1..], name);
        if FindInjected(injected[1..], name).Some? {
          var i: nat :| IsFirstInjected(injected[1..], i, name)
            && FindInjected(injected[1..], name) == Some(injected[1..][i]);
          assert forall j | 0 < j <= i :: injected[j] == injected[1..][j - 1];
          assert IsFirstInjected(injected, i + 1, name);
        }
      }
    }
  }

  lemma {:induction false} PreferredIs(providers: seq<Provider>, level: Option<string>)
    ensures var r := PreferredPair(providers, level);
      || (exists i: nat ::
          FirstUsable(providers, i) && r == D.Record(Some(providers[i].id), Some(providers[i].models[0]), level))
      || (r == D.Record(None, None, None) && forall i: nat :: !FirstUsable(providers, i))
  {
    if providers != [] {
      if Offers(providers[0]) {
        assert FirstUsable(providers, 0);
      } else {
        var rest := providers[1..];
        PreferredIs(rest, level);
        assert forall j | 0 < j < |providers| :: providers[j] == rest[j - 1];
        if i: nat :| FirstUsable(rest, i) {
          assert FirstUsable(providers, i + 1);
        }
        forall i: nat | FirstUsable(providers, i) ensures i > 0 && FirstUsable(rest, i - 1) {
          assert forall j | 0 <= j < i - 1 :: rest[j] == providers[j + 1];
        }
      }
    }
  }

  lemma {:induction false} FirstInjectedIs(injected: seq<Injected>, level: Option<string>)
    ensures var r := FirstInjected(injected, level);
      || (exists i: nat ::
          FirstSource(injected, i) && r == Some(D.Record(Some(injected[i].name), Some(injected[i].models[0]), level)))
      || (r == None && forall i: nat :: !FirstSource(injected, i))
  {
    if injected != [] {
      if injected[0].models != [] {
        assert FirstSource(injected, 0);
      } else {
        var rest := injected[1..];
        FirstInjectedIs(rest, level);
        assert forall j | 0 < j < |injected| :: injected[j] == rest[j - 1];
        if i: nat :| FirstSource(rest, i) {
          assert FirstSource(injected, i + 1);
        }
        forall i: nat | FirstSource(injected, i) ensures i > 0 && FirstSource(rest, i - 1) {
          assert forall j | 0 <= j < i - 1 :: rest[j] == injected[j + 1];
        }
      }
    }
  }

  /**
   * A valid selection is kept: an injected provider's, and a configured one's when no
   * injected provider has a model. Otherwise the first injected provider with a model
   * gives its first one, else the first enabled configured one does, else there is none.
   */
  lemma RepairGlobalExactly(injected: seq<Injected>, candidate: D.Record, providers: seq<Provider>)
    ensures var r := RepairGlobal(injected, candidate, providers);
      var pair := candidate.provider.Some? && candidate.model.Some?;
      if pair && StillInjected(injected, candidate.provider.value, candidate.model.value) then r == candidate
      else if exists i: nat :: FirstSource(injected, i) then
        exists i: nat :: FirstSource(injected, i)
          && r == D.Record(Some(injected[i].name), Some(injected[i].models[0]), candidate.thinkingLevel)
      else if pair && StillOffered(providers, candidate.provider.value, candidate.model.value) then r == candidate
      else if exists i: nat :: FirstUsable(providers, i) then
        exists i: nat :: FirstUsable(providers, i)
          && r == D.Record(Some(providers[i].id), Some(providers[i].models[0]), candidate.thinkingLevel)
      else r == D.Record(None, None, None)
  {
    FirstInjectedIs(injected, candidate.thinkingLevel);
    PreferredIs(providers, candidate.thinkingLevel);
    if candidate.provider.Some? && candidate.model.Some? {
      OfferedIs(injected, providers, candidate.provider.value, candidate.model.value);
    }
  }

  lemma OfferedIs(injected: seq<Injected>, providers: seq<Provider>, id: string, model: string)
    ensures StillInjected(injected, id, model) <==>
      var q := FindInjected(injected, id); q.Some? && model in q.value.models
    ensures StillOffered(providers, id, model) <==>
      var p := FindProvider(providers, id); p.Some? && p.value.enabled && model in p.value.models
  {
    FindIsFirst(providers, id);
    FindInjectedIsFirst(injected, id);
  }

  // ---------- store transactions ----------

  datatype Store = Store(defaults: D.Record, providers: seq<Provider>)

  /** The host process: what is in memory, what is on disk, and the startup override. */
  datatype Host = Host(list: seq<Provider>, durable: D.Record, override: Option<(string, string)>, live: D.Record,
                       disk: Store)

  /** A mutation reads the store and answers with a new one, or refuses. */
  datatype Tx = Tx(derive: Store -> Option<Store>, clears: bool)

  /** An override holds while a configured provider of that id, or else an injected one, advertises its model. */
  predicate StillValid(injected: seq<Injected>, providers: seq<Provider>, override: (string, string)) {
    match FindProvider(providers, override.0)
    case Some(p) => p.enabled && override.1 in p.models
    case None =>
      var q := FindInjected(injected, override.0);
      q.Some? && override.1 in q.value.models
  }

  function Commit(injected: seq<Injected>, h: Host, next: Store, clears: bool): Host {
    var repaired := RepairGlobal(injected, next.defaults, next.providers);
    var override := if clears || h.override.None? || !StillValid(injected, next.providers, h.override.value)
      then None else h.override;
    var live := if override.None? then repaired
      else D.Record(Some(override.value.0), Some(override.value.1), repaired.thinkingLevel);
    Host(next.providers, repaired, override, live, Store(repaired, next.providers))
  }

  /** The server's variables around `mutateProviderStore`. */
  class ProviderRegistry {
    const injected: seq<Injected>
    var list: seq<Provider>
    var durableDefaults: D.Record
    var runtimeModelOverride: Option<(string, string)>
    var defaults: D.Record
    var disk: Store

    ghost function Value(): Host
      reads this
    {
      Host(list, durableDefaults, runtimeModelOverride, defaults, disk)
    }

    constructor (injected: seq<Injected>, stored: Store)
      ensures this.injected == injected
      ensures var d := RepairGlobal(injected, stored.defaults, stored.providers);
        Value() == Host(stored.providers, d, None, d, stored)
    {
      this.injected := injected;
      var repaired := RepairGlobalDefaults(injected, stored.defaults, stored.providers);
      list, durableDefaults, defaults, disk := stored.providers, repaired, repaired, stored;
      runtimeModelOverride := None;
    }

    /** The part of a transaction after its derivation; `written` says whether the file was saved. */
    method Publish(derived: Store, clears: bool, written: bool)
      modifies this
      ensures Value() == if written then Commit(injected, old(Value()), derived, clears) else old(Value())
    {
      var repaired := RepairGlobalDefaults(injected, derived.defaults, derived.providers);
      if !written { return; }
      disk := Store(repaired, derived.providers);
      list := derived.providers;
      durableDefaults := repaired;
      if clears {
        runtimeModelOverride := None;
      }
      if runtimeModelOverride.Some? {
        var override := runtimeModelOverride.value;
        var selected := FindProvider(list, override.0);
        var validConfigured := selected.Some? && selected.value.enabled && override.1 in selected.value.models;
        var found := FindInjected(injected, override.0);
        var validInjected := selected.None? && found.Some? && override.1 in found.value.models;
        if !validConfigured && !validInjected {
          runtimeModelOverride := None;
        }
      }
      if runtimeModelOverride.None? {
        defaults := durableDefaults;
      } else {
        defaults := D.Record(Some(runtimeModelOverride.value.0), Some(runtimeModelOverride.value.1),
                             durableDefaults.thinkingLevel);
      }
    }
  }

  function InMemory(h: Host): Store {
    Store(h.durable, h.list)
  }

  /** `read` is what the running transaction read; `verdicts` says which of the settled ones committed. */
  datatype World = World(queue: Queue, txs: seq<Tx>, read: Store, host: Host, verdicts: seq<bool>)

  datatype Move = Submit(tx: Tx) | Reads(task: nat) | Writes(task: nat, written: bool)

  function Start(h: Host): World {
    World(Empty, [], InMemory(h), h, [])
  }

  function Next(injected: seq<Injected>, w: World, m: Move): World {
    match m
    case Submit(tx) => w.(queue := Arrive(w.queue), txs := w.txs + [tx])
    case Reads(i) => if !Ready(w.queue, i) then w else w.(queue := Begin(w.queue, i), read := InMemory(w.host))
    case Writes(i, written) =>
      if !Is(w.queue, i, Running) || i >= |w.txs| then w
      else
        var tx := w.txs[i];
        var derived := tx.derive(w.read);
        var released := w.(queue := Settle(w.queue, i));
        if derived.None? || !written then released.(verdicts := w.verdicts + [false])
        else released.(host := Commit(injected, w.host, derived.value, tx.clears), verdicts := w.verdicts + [true])
  }

  function Run(injected: seq<Injected>, h: Host, moves: seq<Move>): World {
    if moves == [] then Start(h)
    else Next(injected, Run(injected, h, moves[..|moves| - 1]), moves[|moves| - 1])
  }

  /** The committed transactions carried out one after the other, each on its predecessor's result. */
  function Serial(injected: seq<Injected>, h: Host, done: seq<Tx>): Host {
    if done == [] then h
    else
      var before, tx := Serial(injected, h, done[..|done| - 1]), done[|done| - 1];
      match tx.derive(InMemory(before))
      case Some(next) => Commit(injected, before, next, tx.clears)
      case None => before
  }

  ghost predicate Inv(injected: seq<Injected>, h: Host, w: World, front: nat) {
    && InLine(w.queue, front) && |w.txs| == |w.queue.tasks| && |w.verdicts| == front
    && (Is(w.queue, front, Running) ==> w.read == InMemory(w.host))
    && w.host == Serial(injected, h, Chosen(w.txs, w.verdicts))
    && (true in w.verdicts ==> Settled(injected, w.host))
  }

  /** Memory and disk agree, and the default in use is blank or somebody advertises it. */
  ghost predicate Settled(injected: seq<Injected>, h: Host) {
    && h.disk == InMemory(h)
    && h.durable == RepairGlobal(injected, h.durable, h.list)
    && (h.live == D.Blank || Advertised(injected, h.list, h.live))
    && h.live.thinkingLevel == h.durable.thinkingLevel
  }

  lemma CommitSettles(injected: seq<Injected>, h: Host, next: Store, clears: bool)
    ensures Settled(injected, Commit(injected, h, next, clears))
  {
    hide RepairGlobal, D.Blank;
    RepairGlobalMeans(injected, next.defaults, next.providers);
    RepairGlobalIdempotent(injected, next.defaults, next.providers);
    var done := Commit(injected, h, next, clears);
    if done.override.Some? {
      var o := done.override.value;
      assert StillValid(injected, next.providers, o);
      var p, q := FindProvider(next.providers, o.0), FindInjected(injected, o.0);
      assert p.Some? ==> p.value in next.providers;
      assert p.None? ==> q.value in injected;
    }
  }

  /**
   * A commit writes the repaired store and publishes it. The startup override stays
   * exactly when it was not cleared and the configured provider of its id, or with none
   * of that id an injected one, still advertises its model; the default in use is then
   * its pair at the durable level, and the durable default otherwise.
   */
  lemma CommitExactly(injected: seq<Injected>, h: Host, next: Store, clears: bool)
    ensures var done := Commit(injected, h, next, clears);
      var repaired := RepairGlobal(injected, next.defaults, next.providers);
      && done.disk == Store(repaired, next.providers) && done.durable == repaired && done.list == next.providers
      && (done.override.Some? <==>
            && h.override.Some? && !clears
            && var (id, model) := h.override.value;
               StillOffered(next.providers, id, model)
               || ((forall p | p in next.providers :: p.id != id) && StillInjected(injected, id, model)))
      && (done.override.Some? ==>
            && done.override == h.override
            && done.live == D.Record(Some(h.override.value.0), Some(h.override.value.1), repaired.thinkingLevel))
      && (done.override.None? ==> done.live == repaired)
  {
    hide RepairGlobal;
    if h.override.Some? {
      var (id, model) := h.override.value;
      OfferedIs(injected, next.providers, id, model);
      assert FindProvider(next.providers, id).None? ==> !StillOffered(next.providers, id, model);
    }
  }

  lemma SerialSnoc(injected: seq<Injected>, h: Host, done: seq<Tx>, tx: Tx, next: Store)
    requires tx.derive(InMemory(Serial(injected, h, done))) == Some(next)
    ensures Serial(injected, h, done + [tx]) == Commit(injected, Serial(injected, h, done), next, tx.clears)
  {
    assert (done + [tx])[..|done|] == done;
  }

  lemma NextKeeps(injected: seq<Injected>, h: Host, w: World, m: Move, front: nat) returns (front': nat)
    requires Inv(injected, h, w, front)
    ensures Inv(injected, h, Next(injected, w, m), front')
  {
    hide Serial, Settled, Commit, Chosen;
    front' := front;
    match m {
      case Submit(tx) =>
        ArriveInLine(w.queue, front);
        ChosenMore(w.txs, [tx], w.verdicts);
      case Reads(i) => if Ready(w.queue, i) { BeginInLine(w.queue, front, i); }
      case Writes(i, written) =>
        if Is(w.queue, i, Running) && i < |w.txs| {
          SettleInLine(w.queue, front, i);
          front' := front + 1;
          var derived := w.txs[i].derive(w.read);
          if derived.Some? && written {
            CommitSettles(injected, w.host, derived.value, w.txs[i].clears);
            ChosenSnoc(w.txs, w.verdicts, true);
            SerialSnoc(injected, h, Chosen(w.txs, w.verdicts), w.txs[i], derived.value);
          } else {
            ChosenSnoc(w.txs, w.verdicts, false);
            assert Chosen(w.txs, w.verdicts) + [] == Chosen(w.txs, w.verdicts);
          }
        }
    }
  }

  lemma {:induction false} RunKeeps(injected: seq<Injected>, h: Host, moves: seq<Move>) returns (front: nat)
    ensures Inv(injected, h, Run(injected, h, moves), front)
  {
    if moves == [] {
      front := 0;
    } else {
      front := RunKeeps(injected, h, moves[..|moves| - 1]);
      front := NextKeeps(injected, h, Run(injected, h, moves[..|moves| - 1]), moves[|moves| - 1], front);
    }
  }

  /**
   * However requests, derivations and file writes interleave, transactions settle
   * in arrival order, and the host is where the committed ones among those
   * settled, one after the other, would have put it; from the first commit on,
   * memory is what was written and the default in use is blank or advertised.
   */
  lemma TransactionsAreSerial(injected: seq<Injected>, h: Host, moves: seq<Move>)
    ensures var w := Run(injected, h, moves);
      && |w.verdicts| <= |w.txs| == |w.queue.tasks|
      && (forall i | 0 <= i < |w.txs| :: Is(w.queue, i, Phase.Settled) <==> i < |w.verdicts|)
      && w.host == Serial(injected, h, Chosen(w.txs, w.verdicts))
      && (true in w.verdicts ==> Settled(injected, w.host))
  {
    var front := RunKeeps(injected, h, moves);
  }

  /**
   * In every run the transaction that runs is the first unsettled one. It commits exactly
   * when its file was written and its derivation, on what the host holds at that moment,
   * gave a store; anything else leaves the host as it was.
   */
  lemma SettlesOnTheHost(injected: seq<Injected>, h: Host, moves: seq<Move>, i: nat, written: bool)
    requires Is(Run(injected, h, moves).queue, i, Running)
    ensures var w := Run(injected, h, moves);
      i == |w.verdicts| < |w.txs|
      && var w', derived := Next(injected, w, Writes(i, written)), w.txs[i].derive(InMemory(w.host));
         && w'.verdicts == w.verdicts + [written && derived.Some?]
         && w'.host == if written && derived.Some?
              then Commit(injected, w.host, derived.value, w.txs[i].clears) else w.host
  {
    var front := RunKeeps(injected, h, moves);
    hide Commit, Serial, Settled;
  }

  /** In every run: while a transaction is unsettled one is running, or one may start and then runs. */
  lemma SomeTransactionMoves(injected: seq<Injected>, h: Host, moves: seq<Move>, i: nat)
    requires i < |Run(injected, h, moves).txs| && !Is(Run(injected, h, moves).queue, i, Phase.Settled)
    ensures var w := Run(injected, h, moves);
      exists j: nat :: j < |w.txs|
        && (Is(w.queue, j, Running) || Is(Run(injected, h, moves + [Reads(j)]).queue, j, Running))
  {
    hide Commit, Serial, Chosen, Settled;
    var front := RunKeeps(injected, h, moves);
    var w := Run(injected, h, moves);
    InLineMeans(w.queue, front);
    assert (moves + [Reads(front)])[..|moves|] == moves;
    assert Is(w.queue, front, Running) || Is(Run(injected, h, moves + [Reads(front)]).queue, front, Running);
  }

  // ---------- naming a new provider ----------

  function Digits(n: nat): (s: string)
    ensures |s| > 0
  {
    if n < 10 then [('0' as int + n) as char] else Digits(n / 10) + [('0' as int + n % 10) as char]
  }

  lemma {:induction false} DigitsInjective(m: nat, n: nat)
    requires Digits(m) == Digits(n)
    ensures m == n
  {
    var a, b := Digits(m), Digits(n);
    assert a[|a| - 1] == b[|b| - 1];
    if m >= 10 && n >= 10 {
      assert a[..|a| - 1] == Digits(m / 10) && b[..|b| - 1] == Digits(n / 10);
      DigitsInjective(m / 10, n / 10);
    }
  }

  function Bumped(base: string, n: nat): string {
    base + "-" + Digits(n)
  }

  lemma BumpedInjective(base: string, m: nat, n: nat)
    requires m != n
    ensures Bumped(base, m) != Bumped(base, n) && Bumped(base, m) != base
  {
    if Bumped(base, m) == Bumped(base, n) {
      assert Bumped(base, m)[|base| + 1..] == Digits(m) && Bumped(base, n)[|base| + 1..] == Digits(n);
      DigitsInjective(m, n);
    }
  }

  function Ids(providers: seq<Provider>): set<string> {
    set p | p in providers :: p.id
  }

  lemma {:induction false} IdsCount(providers: seq<Provider>)
    ensures |Ids(providers)| <= |providers|
  {
    if providers != [] {
      var front, last := providers[..|providers| - 1], providers[|providers| - 1];
      IdsCount(front);
      assert Ids(providers) == Ids(front) + {last.id};
    }
  }

  /** The bumped names from 2 up to `n`. */
  ghost function Tried(base: string, n: nat): set<string> {
    set k | 2 <= k < n :: Bumped(base, k)
  }

  lemma {:induction false} TriedCount(base: string, n: nat)
    requires n >= 2
    ensures |Tried(base, n)| == n - 2
  {
    if n > 2 {
      TriedCount(base, n - 1);
      assert Tried(base, n) == Tried(base, n - 1) + {Bumped(base, n - 1)};
      forall k | 2 <= k < n - 1 ensures Bumped(base, k) != Bumped(base, n - 1) { BumpedInjective(base, k, n - 1); }
    }
  }

  /** As many names as providers cannot all be taken: the loop ends on the first free one. */
  method FreshId(base: string, providers: seq<Provider>) returns (id: string, bump: nat)
    ensures id !in Ids(providers)
    ensures 2 <= bump <= |providers| + 2
    ensures if base !in Ids(providers) then id == base
      else id == Bumped(base, bump - 1) && Tried(base, bump - 1) <= Ids(providers)
  {
    id, bump := base, 2;
    IdsCount(providers);
    while exists p | p in providers :: p.id == id
      invariant 2 <= bump
      invariant if bump == 2 then id == base else base in Ids(providers) && id == Bumped(base, bump - 1)
      invariant bump > 2 ==> Tried(base, bump - 1) <= Ids(providers)
      decreases |providers| + 2 - bump
    {
      assert id in Ids(providers);
      Pigeonhole(base, bump, providers);
      id := Bumped(base, bump);
      bump := bump + 1;
      assert bump > 3 ==> Tried(base, bump - 1) == Tried(base, bump - 2) + {Bumped(base, bump - 2)};
    }
    assert forall p | p in providers :: p.id != id;
    BumpBound(base, bump, providers);
  }

  lemma Pigeonhole(base: string, bump: nat, providers: seq<Provider>)
    requires 2 <= bump && base in Ids(providers)
    requires bump > 2 ==> Tried(base, bump - 1) <= Ids(providers) && Bumped(base, bump - 1) in Ids(providers)
    ensures bump - 1 <= |providers|
  {
    IdsCount(providers);
    TriedCount(base, bump);
    var taken := Tried(base, bump) + {base};
    assert base !in Tried(base, bump) by {
      forall k | 2 <= k < bump ensures Bumped(base, k) != base { BumpedInjective(base, k, k + 1); }
    }
    assert taken <= Ids(providers);
    SubsetSize(taken, Ids(providers));
  }

  lemma BumpBound(base: string, bump: nat, providers: seq<Provider>)
    requires 2 <= bump
    requires bump > 2 ==> base in Ids(providers) && Tried(base, bump - 1) <= Ids(providers)
    ensures bump <= |providers| + 2
  {
    if bump > 2 {
      IdsCount(providers);
      TriedCount(base, bump - 1);
      var taken := Tried(base, bump - 1) + {base};
      assert base !in Tried(base, bump - 1) by {
        forall k | 2 <= k < bump ensures Bumped(base, k) != base { BumpedInjective(base, k, k + 1); }
      }
      SubsetSize(taken, Ids(providers));
    }
  }
}
