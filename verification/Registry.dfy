/**
 * Dependency wake-up (src/kernel/registry.ts:102-170, src/kernel/store.ts:33-64):
 * providing a service starts every waiting plugin it completes, and a starting
 * plugin may provide services and mount plugins in turn. Plugin bodies are
 * scripts; services are only added here.
 */
module Registry {
  import opened Basics

  datatype Plugin = Plugin(inject: set<string>, script: seq<Action>)

  /** What a body does: `Set` provides a service, `Mount` mounts a plugin, `Try` catches whatever its part throws. */
  datatype Action =
    | Set(name: string)
    | Mount(plugin: Plugin)
    | Throw
    | Try(part: seq<Action>)
    | IfProvided(name: string, yes: seq<Action>, no: seq<Action>)

  function ActionSize(a: Action): (n: nat)
    ensures n > 0
  {
    match a
    case Set(_) => 2
    case Mount(p) => 5 + Size(p.script)
    case Throw => 1
    case Try(part) => 2 + Size(part)
    case IfProvided(_, yes, no) => 2 + Size(yes) + Size(no)
  }

  function Size(script: seq<Action>): nat {
    if script == [] then 0 else ActionSize(script[0]) + Size(script[1..])
  }

  /** Every service name a script may provide, at any depth. */
  function ActionNames(a: Action): set<string> {
    match a
    case Set(name) => {name}
    case Mount(p) => Names(p.script)
    case Throw => {}
    case Try(part) => Names(part)
    case IfProvided(_, yes, no) => Names(yes) + Names(no)
  }

  function Names(script: seq<Action>): set<string> {
    if script == [] then {} else ActionNames(script[0]) + Names(script[1..])
  }

  datatype State = Pending | Loading | Active | Failed

  /** A mounted plugin; `entered` while the kernel's entry set holds it. */
  datatype Fiber = Fiber(plugin: Plugin, state: State, entered: bool)

  datatype Store = Store(services: set<string>, fibers: seq<Fiber>)

  // ---------- what a state says ----------

  predicate Entered(plugin: Plugin, k: Store) {
    exists i | 0 <= i < |k.fibers| :: k.fibers[i].plugin == plugin
  }

  /** What an action that was begun has done at the least, whether or not it threw. */
  predicate Attempted(a: Action, k: Store) {
    match a
    case Set(name) => name in k.services
    case Mount(plugin) => Entered(plugin, k)
    case Throw => true
    case Try(part) => Tried(part, k)
    case IfProvided(name, yes, no) => Tried(no, k) || (name in k.services && Tried(yes, k))
  }

  predicate Tried(script: seq<Action>, k: Store) {
    script == [] || Attempted(script[0], k)
  }

  /** What an action that ended normally has done. */
  predicate Did(a: Action, k: Store) {
    match a
    case Set(name) => name in k.services
    case Mount(plugin) => Entered(plugin, k)
    case Throw => false
    case Try(part) => Tried(part, k)
    case IfProvided(name, yes, no) => Carried(no, k) || (name in k.services && Carried(yes, k))
  }

  predicate Carried(script: seq<Action>, k: Store) {
    script == [] || (Did(script[0], k) && Carried(script[1..], k))
  }

  predicate Satisfied(k: Store, i: nat)
    requires i < |k.fibers|
  {
    k.fibers[i].plugin.inject <= k.services
  }

  /** Waiting although nothing is missing. */
  predicate Stuck(k: Store, i: nat)
    requires i < |k.fibers|
  {
    k.fibers[i].entered && k.fibers[i].state.Pending? && Satisfied(k, i)
  }

  function StuckSet(k: Store): set<nat> {
    set i | 0 <= i < |k.fibers| && Stuck(k, i)
  }

  /** No mounted plugin is left waiting with all it needs in the store. */
  predicate Complete(k: Store) {
    forall i | 0 <= i < |k.fibers| :: !Stuck(k, i)
  }

  /** Only a plugin whose needs are met has left `pending`; an active one has done what its body says. */
  ghost predicate Settled(k: Store) {
    forall i | 0 <= i < |k.fibers| ::
      && (!k.fibers[i].state.Pending? ==> Satisfied(k, i))
      && (k.fibers[i].state.Active? ==> Carried(k.fibers[i].plugin.script, k))
  }

  /** How a state may have moved on: nothing is withdrawn, and without a new service nobody new is stuck. */
  ghost predicate Later(a: Store, b: Store) {
    && a.services <= b.services && |a.fibers| <= |b.fibers|
    && (forall i | 0 <= i < |a.fibers| ::
          && b.fibers[i].plugin == a.fibers[i].plugin
          && (b.fibers[i].state.Pending? ==> a.fibers[i].state.Pending?)
          && (b.fibers[i].entered ==> a.fibers[i].entered))
    && (a.services == b.services ==> StuckSet(b) <= StuckSet(a))
  }

  lemma LaterTransitive(a: Store, b: Store, c: Store)
    requires Later(a, b) && Later(b, c)
    ensures Later(a, c)
  {
    hide Stuck;
  }

  lemma LaterReflexive(a: Store)
    ensures Later(a, a)
  {
  }

  /** A fiber leaves `pending`, or changes among the other states, or leaves the entries. */
  lemma LaterMark(a: Store, i: nat, f: Fiber)
    requires i < |a.fibers| && f.plugin == a.fibers[i].plugin && !f.state.Pending?
      && (f.entered ==> a.fibers[i].entered)
    ensures var b := a.(fibers := a.fibers[i := f]); Later(a, b) && StuckSet(b) == StuckSet(a) - {i}
  {
    var b := a.(fibers := a.fibers[i := f]);
    assert forall j | 0 <= j < |a.fibers| && j != i :: Stuck(b, j) == Stuck(a, j);
  }

  /** The termination measure never rises: services not provided yet, then plugins woken but not run. */
  lemma MeasureFalls(universe: set<string>, a: Store, b: Store)
    requires Later(a, b) && b.services <= universe
    ensures a.services == b.services || |universe - b.services| < |universe - a.services|
    ensures a.services == b.services ==> StuckSet(b) <= StuckSet(a) && |StuckSet(b)| <= |StuckSet(a)|
  {
    hide StuckSet;
    if a.services == b.services {
      SubsetSize(StuckSet(b), StuckSet(a));
    } else {
      SubsetSize(universe - b.services, universe - a.services);
      var x :| x in b.services && x !in a.services;
      assert x in universe - a.services;
    }
  }

  /** Fibers that had left `pending` are untouched, but for the named ones. */
  ghost predicate Undisturbed(a: Store, b: Store, but: set<nat>) {
    |a.fibers| <= |b.fibers|
    && forall i | 0 <= i < |a.fibers| && !a.fibers[i].state.Pending? && i !in but :: b.fibers[i] == a.fibers[i]
  }

  lemma UndisturbedTransitive(a: Store, b: Store, c: Store, but: set<nat>)
    requires Undisturbed(a, b, but) && Undisturbed(b, c, but)
    ensures Undisturbed(a, c, but)
  {
  }

  /** The fibers waiting now, in the order they were mounted. */
  function PendingEntries(fibers: seq<Fiber>): (waiting: seq<nat>)
    ensures forall i: nat :: i in waiting <==> i < |fibers| && fibers[i].entered && fibers[i].state.Pending?
    ensures forall j | 0 <= j < |waiting| :: waiting[j] < |fibers|
  {
    if fibers == [] then []
    else
      var last := |fibers| - 1;
      PendingEntries(fibers[..last]) + if fibers[last].entered && fibers[last].state.Pending? then [last] else []
  }

  // ---------- what ran ----------

  /** A body begins, its plugin is activated, or an action begins; `depth` counts what is running around it. */
  datatype Entry =
    | Begins(depth: nat, fiber: nat, provided: set<string>)
    | Activates(depth: nat, fiber: nat)
    | Acts(depth: nat, action: Action, provided: set<string>)

  /** No body ever began while one of its needs was missing. */
  ghost predicate BegunInTime(ran: seq<Entry>, k: Store) {
    forall n | 0 <= n < |ran| && ran[n].Begins? ::
      ran[n].fiber < |k.fibers| && k.fibers[ran[n].fiber].plugin.inject <= ran[n].provided <= k.services
  }

  /** The two ways a body comes to throw: its author's throw, and providing a name that is taken. */
  predicate Throws(x: Entry) {
    x.Acts? && (x.action.Throw? || (x.action.Set? && x.action.name in x.provided))
  }

  /** Whatever was thrown came from the last thing that ran. */
  predicate Blamed(ran: seq<Entry>) {
    ran != [] && Throws(ran[|ran| - 1])
  }

  ghost predicate From(ran: seq<Entry>, depth: nat) {
    forall j | 0 <= j < |ran| :: ran[j].depth >= depth
  }

  /** The actions begun at this depth, in order. */
  function ActsAt(ran: seq<Entry>, depth: nat): seq<Action> {
    if ran == [] then []
    else
      var x := ran[|ran| - 1];
      ActsAt(ran[..|ran| - 1], depth) + if x.Acts? && x.depth == depth then [x.action] else []
  }

  /** The plugins whose bodies began at this depth, in order. */
  function BegunAt(ran: seq<Entry>, depth: nat): seq<nat> {
    if ran == [] then []
    else
      var x := ran[|ran| - 1];
      BegunAt(ran[..|ran| - 1], depth) + if x.Begins? && x.depth == depth then [x.fiber] else []
  }

  /** The names provided, or found taken. */
  function NamesSet(ran: seq<Entry>): set<string> {
    if ran == [] then {}
    else
      var x := ran[|ran| - 1];
      NamesSet(ran[..|ran| - 1]) + if x.Acts? && x.action.Set? then {x.action.name} else {}
  }

  function MountedIn(ran: seq<Entry>): seq<Plugin> {
    if ran == [] then []
    else
      var x := ran[|ran| - 1];
      MountedIn(ran[..|ran| - 1]) + if x.Acts? && x.action.Mount? then [x.action.plugin] else []
  }

  lemma RanSnoc(ran: seq<Entry>, x: Entry, depth: nat)
    ensures ActsAt(ran + [x], depth) ==
      ActsAt(ran, depth) + if x.Acts? && x.depth == depth then [x.action] else []
    ensures BegunAt(ran + [x], depth) ==
      BegunAt(ran, depth) + if x.Begins? && x.depth == depth then [x.fiber] else []
    ensures NamesSet(ran + [x]) == NamesSet(ran) + if x.Acts? && x.action.Set? then {x.action.name} else {}
    ensures MountedIn(ran + [x]) == MountedIn(ran) + if x.Acts? && x.action.Mount? then [x.action.plugin] else []
  {
    assert (ran + [x])[..|ran|] == ran;
  }

  lemma NoneRan(depth: nat)
    ensures ActsAt([], depth) == [] && BegunAt([], depth) == [] && NamesSet([]) == {} && MountedIn([]) == []
  {
  }

  lemma {:induction false} RanAppend(a: seq<Entry>, b: seq<Entry>, depth: nat)
    ensures ActsAt(a + b, depth) == ActsAt(a, depth) + ActsAt(b, depth)
    ensures BegunAt(a + b, depth) == BegunAt(a, depth) + BegunAt(b, depth)
    ensures NamesSet(a + b) == NamesSet(a) + NamesSet(b)
    ensures MountedIn(a + b) == MountedIn(a) + MountedIn(b)
    decreases |b|
  {
    hide ActsAt, BegunAt, NamesSet, MountedIn;
    if b == [] {
      assert a + b == a;
      NoneRan(depth);
    } else {
      var front, x := b[..|b| - 1], b[|b| - 1];
      RanAppend(a, front, depth);
      RanSnoc(a + front, x, depth);
      RanSnoc(front, x, depth);
      assert a + b == (a + front) + [x] && b == front + [x];
    }
  }

  /** What runs deeper leaves nothing at this depth. */
  lemma {:induction false} NothingAt(ran: seq<Entry>, depth: nat)
    requires From(ran, depth + 1)
    ensures ActsAt(ran, depth) == [] && BegunAt(ran, depth) == []
  {
    if ran != [] { NothingAt(ran[..|ran| - 1], depth); }
  }

  lemma OneRan(x: Entry, depth: nat)
    ensures ActsAt([x], depth) == if x.Acts? && x.depth == depth then [x.action] else []
    ensures BegunAt([x], depth) == if x.Begins? && x.depth == depth then [x.fiber] else []
    ensures NamesSet([x]) == if x.Acts? && x.action.Set? then {x.action.name} else {}
    ensures MountedIn([x]) == if x.Acts? && x.action.Mount? then [x.action.plugin] else []
    ensures ActsAt([], depth) == [] && BegunAt([], depth) == [] && NamesSet([]) == {} && MountedIn([]) == []
  {
    assert [x][..0] == [];
  }

  function Plugins(fibers: seq<Fiber>): seq<Plugin> {
    seq(|fibers|, i requires 0 <= i < |fibers| => fibers[i].plugin)
  }

  /** Services and plugins are the old ones and those the run provided and mounted, in order. */
  ghost predicate Tally(a: Store, ran: seq<Entry>, b: Store) {
    b.services == a.services + NamesSet(ran) && Plugins(b.fibers) == Plugins(a.fibers) + MountedIn(ran)
  }

  lemma TallyAppend(a: Store, r: seq<Entry>, b: Store, q: seq<Entry>, c: Store)
    requires Tally(a, r, b) && Tally(b, q, c)
    ensures Tally(a, r + q, c)
  {
    RanAppend(r, q, 0);
    assert (Plugins(a.fibers) + MountedIn(r)) + MountedIn(q) == Plugins(a.fibers) + (MountedIn(r) + MountedIn(q));
  }

  lemma TallyNothing(a: Store)
    ensures Tally(a, [], a)
  {
  }

  /** A script run at this depth: its actions in order, all of them unless one threw. */
  ghost predicate BodyRan(ran: seq<Entry>, depth: nat, script: seq<Action>, thrown: bool) {
    && From(ran, depth) && BegunAt(ran, depth) == []
    && ActsAt(ran, depth) <= script && (!thrown ==> ActsAt(ran, depth) == script) && (thrown ==> Blamed(ran))
  }

  predicate Waits(k: Store, i: nat) {
    i < |k.fibers| && k.fibers[i].entered && k.fibers[i].state.Pending?
  }

  /**
   * A wake: of those waiting when it began some are run, each once and in the order they were mounted;
   * nobody is passed over whose needs were met already, unless an earlier one threw.
   */
  ghost predicate Woke(ran: seq<Entry>, depth: nat, k: Store, thrown: bool) {
    var order := BegunAt(ran, depth);
    && From(ran, depth) && ActsAt(ran, depth) == [] && (thrown ==> Blamed(ran))
    && (forall j | 0 <= j < |order| :: Waits(k, order[j]))
    && (forall i, j | 0 <= i < j < |order| :: order[i] < order[j])
    && forall i: nat | Waits(k, i) && Satisfied(k, i) ::
         (thrown ==> order != [] && i <= order[|order| - 1]) ==> i in order
  }

  /** The body, then the activation and the wake it sets off; a body that throws ends it. */
  ghost predicate StartedAs(ran: seq<Entry>, depth: nat, i: nat, provided: set<string>, script: seq<Action>,
                            active: bool, thrown: bool, body: seq<Entry>, wake: seq<Entry>, k: Store)
  {
    && BodyRan(body, depth + 1, script, !active)
    && if active then
         && ran == ([Begins(depth, i, provided)] + body) + ([Activates(depth, i)] + wake)
         && Woke(wake, depth + 1, k, thrown) && k.services == provided + NamesSet(body)
       else ran == [Begins(depth, i, provided)] + body && thrown
  }

  ghost predicate Started(ran: seq<Entry>, depth: nat, i: nat, provided: set<string>, script: seq<Action>,
                          active: bool, thrown: bool)
  {
    exists body, wake, k :: StartedAs(ran, depth, i, provided, script, active, thrown, body, wake, k)
  }

  /** A part whose throw, if any, was caught. */
  ghost predicate PartRan(ran: seq<Entry>, depth: nat, part: seq<Action>) {
    BodyRan(ran, depth, part, true) || BodyRan(ran, depth, part, false)
  }

  /** The plugin entered first since then is active now. */
  predicate EnteredActive(a: Store, b: Store) {
    |a.fibers| < |b.fibers| && b.fibers[|a.fibers|].state.Active?
  }

  /** What an action sets off. */
  ghost predicate Acted(ran: seq<Entry>, depth: nat, a: Action, k: Store, active: bool, thrown: bool) {
    && ran != [] && ran[0] == Acts(depth, a, k.services) && From(ran[1..], depth + 1) && (thrown ==> Blamed(ran))
    && match a
       case Set(name) =>
         if name in k.services then thrown && ran[1..] == []
         else Woke(ran[1..], depth + 1, k.(services := k.services + {name}), thrown)
       case Mount(plugin) =>
         if plugin.inject <= k.services
         then Started(ran[1..], depth + 1, |k.fibers|, k.services, plugin.script, active, thrown)
         else ran[1..] == [] && !thrown
       case Throw => thrown && ran[1..] == []
       case Try(part) => !thrown && PartRan(ran[1..], depth + 1, part)
       case IfProvided(name, yes, no) =>
         BodyRan(ran[1..], depth + 1, if name in k.services then yes else no, thrown)
  }

  ghost predicate NamesKnown(fibers: seq<Fiber>, universe: set<string>) {
    forall i | 0 <= i < |fibers| :: Names(fibers[i].plugin.script) <= universe
  }

  lemma MissingStillPends(k: Store, i: nat)
    requires Settled(k) && i < |k.fibers| && !Satisfied(k, i)
    ensures k.fibers[i].state.Pending?
  {
  }

  lemma UndisturbedReflexive(a: Store, but: set<nat>)
    ensures Undisturbed(a, a, but)
  {
  }

  /** Marking one fiber keeps everything said of a state. */
  lemma MarkKeeps(k: Store, begun: seq<Entry>, universe: set<string>, i: nat, f: Fiber)
    requires Settled(k) && NamesKnown(k.fibers, universe) && BegunInTime(begun, k)
    requires i < |k.fibers| && Satisfied(k, i) && f.plugin == k.fibers[i].plugin && !f.state.Pending?
    requires f.entered ==> k.fibers[i].entered
    requires f.state.Active? ==> Carried(f.plugin.script, k)
    ensures var k' := k.(fibers := k.fibers[i := f]);
      && Settled(k') && NamesKnown(k'.fibers, universe) && BegunInTime(begun, k')
      && Later(k, k') && Undisturbed(k, k', {i}) && StuckSet(k') == StuckSet(k) - {i}
  {
    hide Names, Carried, Later, StuckSet;
    LaterMark(k, i, f);
    CarriedStays(k, k.(fibers := k.fibers[i := f]));
  }

  /** Services and fibers are only added. */
  ghost predicate Grown(k: Store, k': Store) {
    && k.services <= k'.services && |k.fibers| <= |k'.fibers|
    && forall i | 0 <= i < |k.fibers| :: k'.fibers[i].plugin == k.fibers[i].plugin
  }

  lemma EnteredStays(k: Store, k': Store, plugin: Plugin)
    requires Grown(k, k') && Entered(plugin, k)
    ensures Entered(plugin, k')
  {
    var i :| 0 <= i < |k.fibers| && k.fibers[i].plugin == plugin;
    assert k'.fibers[i].plugin == plugin;
  }

  lemma {:induction false} AttemptedStays(k: Store, k': Store, a: Action)
    requires Grown(k, k') && Attempted(a, k)
    ensures Attempted(a, k')
    decreases a
  {
    match a {
      case Mount(plugin) => EnteredStays(k, k', plugin);
      case Try(part) => if part != [] { AttemptedStays(k, k', part[0]); }
      case IfProvided(name, yes, no) =>
        if Tried(no, k) {
          if no != [] { AttemptedStays(k, k', no[0]); }
        } else if yes != [] {
          AttemptedStays(k, k', yes[0]);
        }
      case _ =>
    }
  }

  lemma TriedStays(k: Store, k': Store, script: seq<Action>)
    requires Later(k, k') && Tried(script, k)
    ensures Tried(script, k')
  {
    if script != [] { AttemptedStays(k, k', script[0]); }
  }

  lemma {:induction false} DidStays(k: Store, k': Store, a: Action)
    requires Grown(k, k') && Did(a, k)
    ensures Did(a, k')
    decreases a
  {
    match a {
      case Mount(plugin) => EnteredStays(k, k', plugin);
      case Try(part) => if part != [] { AttemptedStays(k, k', part[0]); }
      case IfProvided(name, yes, no) =>
        if Carried(no, k) { ScriptStays(k, k', no); } else { ScriptStays(k, k', yes); }
      case _ =>
    }
  }

  lemma {:induction false} ScriptStays(k: Store, k': Store, script: seq<Action>)
    requires Grown(k, k') && Carried(script, k)
    ensures Carried(script, k')
    decreases script
  {
    if script != [] {
      DidStays(k, k', script[0]);
      ScriptStays(k, k', script[1..]);
    }
  }

  /** What was carried out stays so. */
  lemma CarriedStays(k: Store, k': Store)
    requires Grown(k, k')
    ensures forall script | Carried(script, k) :: Carried(script, k')
  {
    hide Carried;
    forall script | Carried(script, k) ensures Carried(script, k') {
      ScriptStays(k, k', script);
    }
  }

  lemma BeginKeeps(begun: seq<Entry>, k: Store, i: nat, depth: nat)
    requires BegunInTime(begun, k) && i < |k.fibers| && Satisfied(k, i)
    ensures BegunInTime(begun + [Begins(depth, i, k.services)], k)
  {
  }

  lemma LogKeeps(begun: seq<Entry>, k: Store, x: Entry)
    requires BegunInTime(begun, k) && !x.Begins?
    ensures BegunInTime(begun + [x], k)
  {
  }

  /** One more stretch after `a`, in which only fiber `i` may have been disturbed. */
  lemma Chain(start: Store, a: Store, b: Store, i: nat, but: set<nat>)
    requires Later(start, a) && Later(a, b) && Undisturbed(start, a, {i}) && Undisturbed(a, b, but) && but <= {i}
    ensures Later(start, b) && Undisturbed(start, b, {i})
  {
    LaterTransitive(start, a, b);
    hide Later;
  }

  lemma StillThere(a: Store, b: Store, i: nat)
    requires Undisturbed(a, b, {}) && i < |a.fibers| && !a.fibers[i].state.Pending?
    ensures i < |b.fibers| && b.fibers[i] == a.fibers[i]
  {
  }

  lemma ServicesGrow(a: Store, b: Store)
    requires Later(a, b)
    ensures a.services <= b.services && |a.fibers| <= |b.fibers| && Grown(a, b)
    ensures forall i | 0 <= i < |a.fibers| :: b.fibers[i].plugin == a.fibers[i].plugin
  {
  }

  /** All of these are missing something. */
  predicate NoneMet(k: Store, waiting: seq<nat>) {
    forall j | 0 <= j < |waiting| :: waiting[j] < |k.fibers| && !Satisfied(k, waiting[j])
  }

  lemma NoneMetStep(k: Store)
    ensures NoneMet(k, [])
    ensures forall i: nat, some | i < |k.fibers| && !Satisfied(k, i) && NoneMet(k, some) :: NoneMet(k, some + [i])
  {
  }

  /** All of a snapshot is missing something and nothing changed: nobody is stuck. */
  lemma NoneStuck(k: Store, waiting: seq<nat>)
    requires waiting == PendingEntries(k.fibers) && NoneMet(k, waiting)
    ensures Complete(k)
  {
    forall i | 0 <= i < |k.fibers| ensures !Stuck(k, i) {
      if k.fibers[i].entered && k.fibers[i].state.Pending? {
        assert i in waiting;
      }
    }
  }

  /** What a snapshot holds was waiting, so it was stuck if what it needs was already there. */
  lemma SnapshotStuck(k: Store, i: nat)
    requires i in PendingEntries(k.fibers)
    ensures i < |k.fibers| && k.fibers[i].state.Pending? && (Satisfied(k, i) ==> i in StuckSet(k))
  {
  }

  lemma AddKeeps(k: Store, begun: seq<Entry>, name: string)
    requires Settled(k) && BegunInTime(begun, k) && name !in k.services
    ensures var k' := k.(services := k.services + {name});
      Settled(k') && BegunInTime(begun, k') && Later(k, k') && Undisturbed(k, k', {})
  {
    hide Carried, Later;
    CarriedStays(k, k.(services := k.services + {name}));
    hide StuckSet;
    AddLater(k, name);
  }

  lemma AddLater(k: Store, name: string)
    requires name !in k.services
    ensures Later(k, k.(services := k.services + {name}))
  {
  }

  lemma EnterKeeps(k: Store, begun: seq<Entry>, universe: set<string>, plugin: Plugin)
    requires Settled(k) && NamesKnown(k.fibers, universe) && BegunInTime(begun, k) && Names(plugin.script) <= universe
    ensures var k' := k.(fibers := k.fibers + [Fiber(plugin, Pending, true)]);
      && Settled(k') && NamesKnown(k'.fibers, universe) && BegunInTime(begun, k')
      && Undisturbed(k, k', {}) && StuckSet(k') - {|k.fibers|} == StuckSet(k)
      && (Complete(k) && !Satisfied(k', |k.fibers|) ==> Complete(k'))
  {
    hide Carried, Names;
    CarriedStays(k, k.(fibers := k.fibers + [Fiber(plugin, Pending, true)]));
    var k' := k.(fibers := k.fibers + [Fiber(plugin, Pending, true)]);
    assert forall i | 0 <= i < |k.fibers| :: Stuck(k', i) == Stuck(k, i);
  }

  /** Entering and trying to start a plugin leaves nobody newly stuck. */
  lemma EnterLater(k: Store, entered: Store, after: Store)
    requires |entered.fibers| == |k.fibers| + 1 && entered.fibers[..|k.fibers|] == k.fibers
      && entered.services == k.services
    requires StuckSet(entered) - {|k.fibers|} == StuckSet(k) && Later(entered, after)
      && Undisturbed(entered, after, {|k.fibers|})
    requires after.fibers[|k.fibers|].state.Pending? ==> after == entered && !Satisfied(entered, |k.fibers|)
    ensures Later(k, after) && Undisturbed(k, after, {})
  {
    assert forall i | 0 <= i < |k.fibers| :: entered.fibers[i] == k.fibers[i];
    assert |k.fibers| !in StuckSet(after);
  }

  // ---------- what a run leaves, piece by piece ----------

  lemma ActedAt(ran: seq<Entry>, depth: nat, a: Action, k: Store, active: bool, thrown: bool)
    requires Acted(ran, depth, a, k, active, thrown)
    ensures ActsAt(ran, depth) == [a] && BegunAt(ran, depth) == [] && From(ran, depth) && (thrown ==> Blamed(ran))
  {
    hide Started, Woke, BodyRan, ActsAt, BegunAt;
    assert ran == [ran[0]] + ran[1..];
    RanAppend([ran[0]], ran[1..], depth);
    NothingAt(ran[1..], depth);
    OneRan(ran[0], depth);
    assert [a] + [] == [a];
    forall j | 0 <= j < |ran| ensures ran[j].depth >= depth {
      if j > 0 { assert ran[1..][j - 1] == ran[j]; }
    }
  }

  lemma BlamedAppend(a: seq<Entry>, b: seq<Entry>)
    requires Blamed(b)
    ensures Blamed(a + b)
  {
    assert (a + b)[|a + b| - 1] == b[|b| - 1];
  }

  lemma StartedAt(ran: seq<Entry>, depth: nat, i: nat, provided: set<string>, script: seq<Action>, active: bool,
                  thrown: bool)
    requires Started(ran, depth, i, provided, script, active, thrown)
    ensures ActsAt(ran, depth) == [] && BegunAt(ran, depth) == [i] && From(ran, depth) && (thrown ==> Blamed(ran))
  {
    hide Woke, Blamed, BodyRan, From;
    var body, wake, k :| StartedAs(ran, depth, i, provided, script, active, thrown, body, wake, k);
    var head := [Begins(depth, i, provided)] + body;
    HeadAt(depth, i, provided, script, body, !active);
    if active {
      var tail := [Activates(depth, i)] + wake;
      TailAt(depth, i, wake, k, thrown);
      RanAppend(head, tail, depth);
      FromAppend(head, tail, depth);
      if thrown { BlamedAppend(head, tail); }
    }
  }

  lemma HeadAt(depth: nat, i: nat, provided: set<string>, script: seq<Action>, body: seq<Entry>, threw: bool)
    requires BodyRan(body, depth + 1, script, threw)
    ensures var head := [Begins(depth, i, provided)] + body;
      && ActsAt(head, depth) == [] && BegunAt(head, depth) == [i] && From(head, depth) && (threw ==> Blamed(head))
  {
    hide Blamed, ActsAt, BegunAt;
    OneRan(Begins(depth, i, provided), depth);
    RanAppend([Begins(depth, i, provided)], body, depth);
    NothingAt(body, depth);
    assert [i] + [] == [i];
    if threw { BlamedAppend([Begins(depth, i, provided)], body); }
  }

  lemma TailAt(depth: nat, i: nat, wake: seq<Entry>, k: Store, thrown: bool)
    requires Woke(wake, depth + 1, k, thrown)
    ensures var tail := [Activates(depth, i)] + wake;
      && ActsAt(tail, depth) == [] && BegunAt(tail, depth) == [] && From(tail, depth) && (thrown ==> Blamed(tail))
  {
    hide Blamed, Woke, ActsAt, BegunAt;
    WokeBounds(wake, depth + 1, k, thrown);
    OneRan(Activates(depth, i), depth);
    RanAppend([Activates(depth, i)], wake, depth);
    NothingAt(wake, depth);
    if thrown { BlamedAppend([Activates(depth, i)], wake); }
  }

  lemma FromAppend(a: seq<Entry>, b: seq<Entry>, depth: nat)
    requires From(a, depth) && From(b, depth)
    ensures From(a + b, depth)
  {
  }

  lemma WokeBounds(wake: seq<Entry>, depth: nat, k: Store, thrown: bool)
    requires Woke(wake, depth, k, thrown)
    ensures From(wake, depth) && ActsAt(wake, depth) == [] && (thrown ==> Blamed(wake))
  {
  }

  lemma BodyNone(depth: nat)
    ensures BodyRan([], depth, [], false)
  {
  }

  lemma BodyThrew(ran: seq<Entry>, depth: nat, script: seq<Action>)
    requires script != [] && ActsAt(ran, depth) == [script[0]] && BegunAt(ran, depth) == [] && From(ran, depth)
    requires Blamed(ran)
    ensures BodyRan(ran, depth, script, true)
  {
  }

  lemma BodyMore(first: seq<Entry>, rest: seq<Entry>, depth: nat, script: seq<Action>, thrown: bool)
    requires script != [] && ActsAt(first, depth) == [script[0]] && BegunAt(first, depth) == [] && From(first, depth)
    requires BodyRan(rest, depth, script[1..], thrown)
    ensures BodyRan(first + rest, depth, script, thrown)
  {
    RanAppend(first, rest, depth);
    if thrown { BlamedAppend(first, rest); }
    assert script == [script[0]] + script[1..];
    assert ActsAt(first + rest, depth) == [script[0]] + ActsAt(rest, depth);
  }

  /** The order so far, by what of the snapshot has been tried. */
  ghost predicate OrderSo(order: seq<nat>, start: Store, tried: seq<nat>) {
    && (forall j | 0 <= j < |order| :: order[j] in tried)
    && (forall i, j | 0 <= i < j < |order| :: order[i] < order[j])
    && forall j | 0 <= j < |tried| && tried[j] < |start.fibers| && Satisfied(start, tried[j]) :: tried[j] in order
  }

  /** Of a snapshot, the first `k` have been tried. */
  ghost predicate Waking(ran: seq<Entry>, depth: nat, start: Store, waiting: seq<nat>, k: nat)
    requires k <= |waiting|
  {
    From(ran, depth) && ActsAt(ran, depth) == [] && OrderSo(BegunAt(ran, depth), start, waiting[..k])
  }

  lemma OrderStep(order: seq<nat>, start: Store, tried: seq<nat>, i: nat)
    requires OrderSo(order, start, tried) && forall j | 0 <= j < |tried| :: tried[j] < i
    ensures OrderSo(order + [i], start, tried + [i])
    ensures i < |start.fibers| && !Satisfied(start, i) ==> OrderSo(order, start, tried + [i])
  {
    hide Satisfied;
    var longer := order + [i];
    assert longer[|order|] == i;
    forall j | 0 <= j < |order| ensures order[j] < i && order[j] in tried + [i] && longer[j] in tried + [i] {
      assert order[j] in tried;
    }
    forall j | 0 <= j < |tried| && tried[j] < |start.fibers| && Satisfied(start, tried[j]) ensures tried[j] in longer {
      assert tried[j] in order;
    }
  }

  lemma WakingStep(ran: seq<Entry>, more: seq<Entry>, depth: nat, start: Store, waiting: seq<nat>, k: nat)
    requires k < |waiting| && Waking(ran, depth, start, waiting, k)
    requires forall i, j | 0 <= i < j < |waiting| :: waiting[i] < waiting[j]
    requires From(more, depth) && ActsAt(more, depth) == []
    requires BegunAt(more, depth) == [waiting[k]]
          || (BegunAt(more, depth) == [] && waiting[k] < |start.fibers| && !Satisfied(start, waiting[k]))
    ensures Waking(ran + more, depth, start, waiting, k + 1)
  {
    hide Satisfied, From, OrderSo, ActsAt, BegunAt;
    RanAppend(ran, more, depth);
    FromAppend(ran, more, depth);
    assert waiting[..k + 1] == waiting[..k] + [waiting[k]];
    OrderStep(BegunAt(ran, depth), start, waiting[..k], waiting[k]);
    if BegunAt(more, depth) == [] { assert BegunAt(ran + more, depth) == BegunAt(ran, depth); }
  }

  lemma {:induction false} PendingSorted(fibers: seq<Fiber>)
    ensures forall i, j | 0 <= i < j < |PendingEntries(fibers)| :: PendingEntries(fibers)[i] < PendingEntries(fibers)[j]
  {
    if fibers != [] { PendingSorted(fibers[..|fibers| - 1]); }
  }

  /** The whole snapshot was tried, or the run stopped where it threw. */
  lemma WakingDone(ran: seq<Entry>, depth: nat, start: Store, waiting: seq<nat>, k: nat, thrown: bool)
    requires waiting == PendingEntries(start.fibers) && k <= |waiting| && Waking(ran, depth, start, waiting, k)
    requires if thrown then Blamed(ran) && BegunAt(ran, depth) != [] else k == |waiting|
    ensures Woke(ran, depth, start, thrown)
  {
    hide Satisfied, Blamed, ActsAt, BegunAt, From, PendingEntries;
    PendingSorted(start.fibers);
    PendingWaits(start);
    var order := BegunAt(ran, depth);
    forall j | 0 <= j < |order| ensures Waits(start, order[j]) {
      assert order[j] in waiting[..k] && order[j] in waiting;
    }
    forall i: nat | Waits(start, i) && Satisfied(start, i)
      && (thrown ==> order != [] && i <= order[|order| - 1])
      ensures i in order
    {
      assert i in waiting;
      var j :| 0 <= j < |waiting| && waiting[j] == i;
      if thrown { LastTried(order, start, waiting, k, j); }
      assert waiting[..k][j] == i;
    }
  }

  lemma PendingWaits(k: Store)
    ensures forall i: nat :: i in PendingEntries(k.fibers) <==> Waits(k, i)
  {
  }

  lemma LastTried(order: seq<nat>, start: Store, waiting: seq<nat>, k: nat, j: nat)
    requires k <= |waiting| && j < |waiting| && order != [] && OrderSo(order, start, waiting[..k])
    requires forall a, b | 0 <= a < b < |waiting| :: waiting[a] < waiting[b]
    requires waiting[j] <= order[|order| - 1]
    ensures j < k
  {
    assert order[|order| - 1] in waiting[..k];
    var l :| 0 <= l < k && waiting[l] == order[|order| - 1];
  }

  lemma SamePlugins(a: Store, ran: seq<Entry>, b: Store, c: Store)
    requires Tally(a, ran, b) && c.services == b.services && Plugins(c.fibers) == Plugins(b.fibers)
    ensures Tally(a, ran, c)
  {
  }

  lemma MarkPlugins(fibers: seq<Fiber>, i: nat, f: Fiber)
    requires i < |fibers| && f.plugin == fibers[i].plugin
    ensures Plugins(fibers[i := f]) == Plugins(fibers)
  {
  }

  /** An entry that neither provides nor mounts. */
  lemma TallyMark(a: Store, x: Entry, ran: seq<Entry>, b: Store)
    requires Tally(a, ran, b) && !x.Acts?
    ensures Tally(a, [x] + ran, b) && Tally(a, ran + [x], b)
  {
    RanAppend([x], ran, 0);
    RanAppend(ran, [x], 0);
    OneRan(x, 0);
    assert [] + MountedIn(ran) == MountedIn(ran) == MountedIn(ran) + [];
  }

  lemma TallyAct(a: Store, x: Entry, mid: Store, ran: seq<Entry>, b: Store)
    requires Tally(mid, ran, b) && x.Acts?
    requires mid.services == if x.action.Set? then a.services + {x.action.name} else a.services
    requires Plugins(mid.fibers) ==
      if x.action.Mount? then Plugins(a.fibers) + [x.action.plugin] else Plugins(a.fibers)
    ensures Tally(a, [x] + ran, b)
  {
    hide Plugins, MountedIn, NamesSet;
    RanAppend([x], ran, 0);
    OneRan(x, 0);
    var more := if x.action.Mount? then [x.action.plugin] else [];
    assert Plugins(a.fibers) + (more + MountedIn(ran)) == (Plugins(a.fibers) + more) + MountedIn(ran);
  }

  lemma MountTally(a: Store, x: Entry, plugin: Plugin, ran: seq<Entry>, b: Store)
    requires x.Acts? && x.action == Mount(plugin)
    requires Tally(Store(a.services, a.fibers + [Fiber(plugin, Pending, true)]), ran, b)
    ensures Tally(a, [x] + ran, b)
  {
    EnterPlugins(a.fibers, Fiber(plugin, Pending, true));
    TallyAct(a, x, Store(a.services, a.fibers + [Fiber(plugin, Pending, true)]), ran, b);
  }

  lemma EnteredIs(a: Store, b: Store)
    requires |a.fibers| < |b.fibers|
    ensures EnteredActive(a, b) == b.fibers[|a.fibers|].state.Active?
  {
  }

  lemma EnterPlugins(fibers: seq<Fiber>, f: Fiber)
    ensures Plugins(fibers + [f]) == Plugins(fibers) + [f.plugin]
  {
  }

  class Kernel {
    var services: set<string>
    var fibers: seq<Fiber>
    ghost var history: seq<Entry>
    ghost var universe: set<string>

    ghost function Value(): Store
      reads this
    {
      Store(services, fibers)
    }

    ghost predicate Valid()
      reads this
    {
      services <= universe && Settled(Value()) && NamesKnown(fibers, universe) && BegunInTime(history, Value())
    }

    constructor ()
      ensures Valid() && Complete(Value()) && services == {} && fibers == [] && history == []
    {
      services, fibers, history, universe := {}, [], [], {};
    }

    /** Try to run a plugin: leave it waiting while something is missing, pass on what its body throws. */
    method Start(i: nat, ghost depth: nat) returns (thrown: bool, ghost ran: seq<Entry>)
      requires Valid() && i < |fibers|
      modifies `services, `fibers, `history
      ensures Valid() && Later(old(Value()), Value()) && Undisturbed(old(Value()), Value(), {i}) && i < |fibers|
      ensures history == old(history) + ran && Tally(old(Value()), ran, Value())
      ensures !old(Satisfied(Value(), i)) ==> !thrown && ran == [] && Value() == old(Value())
      ensures old(Satisfied(Value(), i)) ==>
        Started(ran, depth, i, old(services), old(fibers[i].plugin.script), fibers[i].state.Active?, thrown)
      ensures old(Satisfied(Value(), i)) ==> Tried(old(fibers[i].plugin.script), Value())
      ensures old(Satisfied(Value(), i))
        ==> fibers[i].state.Active? || (thrown && fibers[i].state.Failed? && !fibers[i].entered)
      ensures old(Satisfied(Value(), i)) && !thrown ==> Complete(Value()) && fibers[i].state.Active?
      decreases |universe - services|, |StuckSet(Value()) - {i}|,
        if Satisfied(Value(), i) then 4 + Size(fibers[i].plugin.script) else 0
    {
      hide Settled, Later, Undisturbed, BegunInTime, StuckSet, Complete, NamesKnown, Tried, Carried, Started, BodyRan;
      hide Woke, Tally, Plugins, From, Blamed, NamesSet, PendingEntries, Grown, Names;
      ghost var start, before := Value(), history;
      var fiber := fibers[i];
      if !(fiber.plugin.inject <= services) {
        MissingStillPends(start, i);
        fibers := fibers[i := fiber.(state := Pending)];
        assert fibers == start.fibers;
        LaterReflexive(start);
        UndisturbedReflexive(start, {i});
        TallyNothing(start);
        return false, [];
      }
      MarkKeeps(start, history, universe, i, fiber.(state := Loading));
      MarkPlugins(fibers, i, fiber.(state := Loading));
      fibers := fibers[i := fiber.(state := Loading)];
      BeginKeeps(history, Value(), i, depth);
      ghost var begin := Begins(depth, i, services);
      history := history + [begin];
      ghost var marked := Value();
      KnownNames(fibers, universe, i);
      ghost var body;
      thrown, body := RunBody(fiber.plugin.script, depth + 1);
      ghost var done := Value();
      BodyTally(start, marked, begin, body, done);
      Chain(start, marked, done, i, {});
      StillThere(marked, done, i);
      ServicesGrow(start, done);
      ran := [begin] + body;
      assert history == before + ran;
      if thrown {
        FailKeeps(start, done, history, universe, i, ran, fiber.plugin.script);
        fibers := fibers[i := fibers[i].(state := Failed, entered := false)];
        StartFailed(ran, depth, i, start.services, fiber.plugin.script, body);
        return;
      }
      BodyServices(marked, body, done);
      FlushAllowed(universe, start, marked, done, done, i);
      ghost var wake, k;
      thrown, wake, k := Activated(i, depth);
      StartActive(depth, i, start.services, fiber.plugin.script, body, wake, k, thrown);
      TallyAppend(start, ran, done, [Activates(depth, i)] + wake, Value());
      ghost var tail := [Activates(depth, i)] + wake;
      assert before + (ran + tail) == (before + ran) + tail;
      ran := ran + tail;
      Chain(start, done, Value(), i, {i});
      TriedStays(done, Value(), fiber.plugin.script);
    }

    /** Its body is done: the plugin is active, and whoever waited for what it provided gets another try. */
    method Activated(i: nat, ghost depth: nat) returns (thrown: bool, ghost wake: seq<Entry>, ghost k: Store)
      requires Valid() && i < |fibers| && Satisfied(Value(), i) && Carried(fibers[i].plugin.script, Value())
      modifies `services, `fibers, `history
      ensures Valid() && Later(old(Value()), Value()) && Undisturbed(old(Value()), Value(), {i})
      ensures i < |fibers| && fibers[i] == old(fibers[i]).(state := Active)
      ensures history == old(history) + ([Activates(depth, i)] + wake)
      ensures Tally(old(Value()), [Activates(depth, i)] + wake, Value())
      ensures Woke(wake, depth + 1, k, thrown)
      ensures k == Store(old(services), old(fibers)[i := old(fibers[i]).(state := Active)])
      ensures !thrown ==> Complete(Value())
      decreases |universe - services|, |StuckSet(Value()) - {i}|, 2
    {
      hide Settled, Later, Undisturbed, BegunInTime, StuckSet, Complete, NamesKnown, Carried, Woke, Tally, Plugins;
      ghost var start := Value();
      MarkKeeps(start, history, universe, i, fibers[i].(state := Active));
      MarkPlugins(fibers, i, fibers[i].(state := Active));
      fibers := fibers[i := fibers[i].(state := Active)];
      k := Value();
      LogKeeps(history, k, Activates(depth, i));
      history := history + [Activates(depth, i)];
      TallyNothing(start);
      SamePlugins(start, [], start, k);
      thrown, wake := FlushPending(depth + 1);
      TallyFrom(start, k, wake, Value());
      TallyMark(start, Activates(depth, i), wake, Value());
      assert old(history) + ([Activates(depth, i)] + wake) == (old(history) + [Activates(depth, i)]) + wake;
      Chain(start, k, Value(), i, {});
      StillThere(k, Value(), i);
    }

    /** Re-try every waiting entry of a snapshot, whether or not a nested wake has already run it. */
    method FlushPending(ghost depth: nat) returns (thrown: bool, ghost ran: seq<Entry>)
      requires Valid()
      modifies `services, `fibers, `history
      ensures Valid() && Later(old(Value()), Value()) && Undisturbed(old(Value()), Value(), {})
      ensures history == old(history) + ran && Tally(old(Value()), ran, Value())
      ensures Woke(ran, depth, old(Value()), thrown)
      ensures !thrown ==> Complete(Value())
      decreases |universe - services|, |StuckSet(Value())|, 1
    {
      hide Settled, Later, Undisturbed, BegunInTime, StuckSet, Complete, NamesKnown, PendingEntries, Tally, Started;
      hide Woke, Waking, Blamed, Satisfied, NoneMet, Plugins, ActsAt, BegunAt, From, Tried, Carried;
      ghost var start := Value();
      var waiting := PendingEntries(fibers);
      PendingSorted(fibers);
      LaterReflexive(start);
      UndisturbedReflexive(start, {});
      TallyNothing(start);
      ran := [];
      WakingNone(depth, start, waiting);
      assert [] <= waiting && waiting[..0] == [];
      NoneMetStep(start);
      for k := 0 to |waiting|
        invariant Valid() && Later(start, Value()) && Undisturbed(start, Value(), {})
        invariant history == old(history) + ran && Tally(start, ran, Value())
        invariant Waking(ran, depth, start, waiting, k)
        invariant Complete(Value()) || (Value() == start && NoneMet(start, waiting[..k]))
      {
        ghost var before := Value();
        var i := waiting[k];
        SnapshotStuck(start, i);
        ServicesGrow(start, before);
        StartAllowed(universe, start, before, i);
        ghost var more;
        thrown, more := Start(i, depth);
        LaterTransitive(start, before, Value());
        RestartUndisturbed(start, before, Value(), i);
        TallyAppend(start, ran, before, more, Value());
        WakingTried(ran, more, depth, start, before, Value(), waiting, k, thrown);
        assert old(history) + (ran + more) == (old(history) + ran) + more;
        ran := ran + more;
        if thrown { return; }
        assert waiting[..k + 1] == waiting[..k] + [i];
      }
      assert waiting[..|waiting|] == waiting;
      if Value() == start && NoneMet(start, waiting) { NoneStuck(start, waiting); }
      WakingDone(ran, depth, start, waiting, |waiting|, false);
      return false, ran;
    }

    /** `services.set`, and the wake it broadcasts. */
    method Provide(name: string, ghost depth: nat) returns (thrown: bool, ghost ran: seq<Entry>)
      requires Valid() && name in universe
      modifies `services, `fibers, `history
      ensures Valid() && Later(old(Value()), Value()) && Undisturbed(old(Value()), Value(), {})
      ensures history == old(history) + ran
      ensures Tally(Store(old(services) + {name}, old(fibers)), ran, Value())
      ensures name in old(services) ==> thrown && ran == [] && Value() == old(Value())
      ensures name !in old(services) ==> Woke(ran, depth, Store(old(services) + {name}, old(fibers)), thrown)
      ensures name in services && (!thrown ==> Complete(Value()))
      decreases |universe - services|, |StuckSet(Value())|, 2
    {
      hide Settled, Later, Undisturbed, BegunInTime, StuckSet, Complete, Tally, Woke;
      ghost var start := Value();
      if name in services {
        LaterReflexive(start);
        UndisturbedReflexive(start, {});
        TallyNothing(start);
        assert start.services + {name} == start.services;
        return true, [];
      }
      AddKeeps(start, history, name);
      services := services + {name};
      ghost var added := Value();
      MeasureFalls(universe, start, added);
      thrown, ran := FlushPending(depth);
      LaterTransitive(start, added, Value());
      UndisturbedTransitive(start, added, Value(), {});
      ServicesGrow(added, Value());
    }

    /** `plugin`: enter it and try to start it. */
    method Enter(plugin: Plugin, ghost depth: nat) returns (thrown: bool, i: nat, ghost ran: seq<Entry>)
      requires Valid() && Names(plugin.script) <= universe
      modifies `services, `fibers, `history
      ensures Valid() && Later(old(Value()), Value()) && Undisturbed(old(Value()), Value(), {})
      ensures history == old(history) + ran
      ensures Tally(Store(old(services), old(fibers) + [Fiber(plugin, Pending, true)]), ran, Value())
      ensures i == |old(fibers)| < |fibers| && fibers[i].plugin == plugin
      ensures plugin.inject <= old(services) ==>
        Started(ran, depth, i, old(services), plugin.script, fibers[i].state.Active?, thrown)
      ensures plugin.inject <= old(services) && !thrown ==> fibers[i].state.Active? && Complete(Value())
      ensures !(plugin.inject <= old(services)) ==>
        !thrown && ran == [] && services == old(services) && fibers == old(fibers) + [Fiber(plugin, Pending, true)]
      ensures old(Complete(Value())) && !thrown ==> Complete(Value())
      decreases |universe - services|, |StuckSet(Value())|, 5 + Size(plugin.script)
    {
      hide Settled, Later, Undisturbed, BegunInTime, StuckSet, Complete, NamesKnown, Tally, Started;
      ghost var start := Value();
      i := |fibers|;
      EnterKeeps(start, history, universe, plugin);
      fibers := fibers + [Fiber(plugin, Pending, true)];
      ghost var entered := Value();
      thrown, ran := Start(i, depth);
      ServicesGrow(entered, Value());
      EnterLater(start, entered, Value());
    }

    method RunAction(a: Action, ghost depth: nat) returns (thrown: bool, ghost ran: seq<Entry>)
      requires Valid() && ActionNames(a) <= universe
      modifies `services, `fibers, `history
      ensures Valid() && Later(old(Value()), Value()) && Undisturbed(old(Value()), Value(), {})
      ensures history == old(history) + ran && Tally(old(Value()), ran, Value())
      ensures Acted(ran, depth, a, old(Value()), EnteredActive(old(Value()), Value()), thrown)
      ensures Attempted(a, Value()) && (!thrown ==> Did(a, Value()))
      decreases |universe - services|, |StuckSet(Value())|, 1 + ActionSize(a)
    {
      hide Settled, Later, Undisturbed, BegunInTime, StuckSet, Complete, NamesKnown, Tally, Started, Woke, BodyRan;
      hide From, Acted, Blamed, PartRan, EnteredActive, Plugins, Attempted, Did, Tried, Carried, Entered, Grown;
      ghost var start := Value();
      ghost var act := Acts(depth, a, services);
      LogKeeps(history, start, act);
      history := history + [act];
      ghost var more: seq<Entry>, after := [], start;
      match a {
        case Set(name) =>
          thrown, more := Provide(name, depth + 1);
          after := Value();
          TallyAct(start, act, Store(start.services + {name}, start.fibers), more, after);
          SetSaid(name, after);
          SetActed(act, more, depth, name, start, EnteredActive(start, after), thrown);
        case Mount(plugin) =>
          var i;
          thrown, i, more := Enter(plugin, depth + 1);
          after := Value();
          MountTally(start, act, plugin, more, after);
          EnteredIs(start, after);
          MountSaid(plugin, after, i);
          MountActed(act, more, depth, plugin, start, EnteredActive(start, after), thrown);
        case Throw =>
          after := start;
          LaterReflexive(start);
          UndisturbedReflexive(start, {});
          TallyNothing(start);
          TallyAct(start, act, start, [], after);
          PartSaid(a, start, after, true);
          PartActed(act, more, depth, a, start, EnteredActive(start, after), true);
          thrown := true;
        case Try(part) =>
          thrown, more := RunBody(part, depth + 1);
          after := Value();
          ServicesGrow(start, after);
          ghost var threw := thrown;
          TallyAct(start, act, start, more, after);
          PartSaid(a, start, after, threw);
          PartActed(act, more, depth, a, start, EnteredActive(start, after), threw);
          thrown := false;
        case IfProvided(name, yes, no) =>
          thrown, more := RunBody(if name in services then yes else no, depth + 1);
          after := Value();
          ServicesGrow(start, after);
          TallyAct(start, act, start, more, after);
          PartSaid(a, start, after, thrown);
          PartActed(act, more, depth, a, start, EnteredActive(start, after), thrown);
      }
      ran := [act] + more;
      assert old(history) + ran == (old(history) + [act]) + more;
    }

    /** One body, action by action; a throw ends it unless a `Try` catches it. */
    method RunBody(script: seq<Action>, ghost depth: nat) returns (thrown: bool, ghost ran: seq<Entry>)
      requires Valid() && Names(script) <= universe
      modifies `services, `fibers, `history
      ensures Valid() && Later(old(Value()), Value()) && Undisturbed(old(Value()), Value(), {})
      ensures history == old(history) + ran && Tally(old(Value()), ran, Value())
      ensures BodyRan(ran, depth, script, thrown)
      ensures Tried(script, Value()) && (!thrown ==> Carried(script, Value()))
      decreases |universe - services|, |StuckSet(Value())|, 2 + Size(script)
    {
      hide Settled, Later, Undisturbed, BegunInTime, StuckSet, Complete, NamesKnown, ActionNames, ActionSize, Did;
      hide Attempted, Grown, Tally, Acted, BodyRan, Blamed, From;
      ghost var start := Value();
      if script == [] {
        LaterReflexive(start);
        UndisturbedReflexive(start, {});
        TallyNothing(start);
        BodyNone(depth);
        return false, [];
      }
      thrown, ran := RunAction(script[0], depth);
      ghost var mid, first := Value(), ran;
      ActedAt(first, depth, script[0], start, EnteredActive(start, mid), thrown);
      if thrown {
        BodyThrew(ran, depth, script);
        return;
      }
      MeasureFalls(universe, start, mid);
      ghost var rest;
      thrown, rest := RunBody(script[1..], depth);
      BodyMore(first, rest, depth, script, thrown);
      TallyAppend(start, first, mid, rest, Value());
      assert old(history) + (first + rest) == (old(history) + first) + rest;
      ran := first + rest;
      LaterTransitive(start, mid, Value());
      UndisturbedTransitive(start, mid, Value(), {});
      ServicesGrow(mid, Value());
      AttemptedStays(mid, Value(), script[0]);
      if !thrown { DidStays(mid, Value(), script[0]); }
    }

    /** Provide a service from outside any plugin. */
    method SetService(name: string) returns (thrown: bool, ghost ran: seq<Entry>)
      requires Valid()
      modifies this
      ensures Valid() && Later(old(Value()), Value())
      ensures history == old(history) + ran && Tally(Store(old(services) + {name}, old(fibers)), ran, Value())
      ensures name in services && (name in old(services) ==> thrown && ran == [] && Value() == old(Value()))
      ensures name !in old(services) ==> Woke(ran, 0, Store(old(services) + {name}, old(fibers)), thrown)
      ensures !thrown ==> Complete(Value())
    {
      universe := universe + {name};
      thrown, ran := Provide(name, 0);
    }

    /** Mount a plugin from outside any plugin. */
    method MountPlugin(plugin: Plugin) returns (thrown: bool, i: nat, ghost ran: seq<Entry>)
      requires Valid()
      modifies this
      ensures Valid() && Later(old(Value()), Value())
      ensures history == old(history) + ran
      ensures Tally(Store(old(services), old(fibers) + [Fiber(plugin, Pending, true)]), ran, Value())
      ensures i == |old(fibers)| < |fibers| && fibers[i].plugin == plugin
      ensures plugin.inject <= old(services) ==>
        Started(ran, 0, i, old(services), plugin.script, fibers[i].state.Active?, thrown)
      ensures plugin.inject <= old(services) && !thrown ==> fibers[i].state.Active? && Complete(Value())
      ensures !(plugin.inject <= old(services)) ==>
        !thrown && ran == [] && services == old(services) && fibers == old(fibers) + [Fiber(plugin, Pending, true)]
      ensures old(Complete(Value())) && !thrown ==> Complete(Value())
    {
      universe := universe + Names(plugin.script);
      thrown, i, ran := Enter(plugin, 0);
    }
  }

  lemma WakingNone(depth: nat, start: Store, waiting: seq<nat>)
    ensures Waking([], depth, start, waiting, 0)
  {
  }

  lemma TallyFrom(start: Store, marked: Store, body: seq<Entry>, done: Store)
    requires Tally(marked, body, done) && marked.services == start.services
    requires Plugins(marked.fibers) == Plugins(start.fibers)
    ensures Tally(start, body, done)
  {
  }

  lemma BodyServices(marked: Store, body: seq<Entry>, done: Store)
    requires Tally(marked, body, done)
    ensures done.services == marked.services + NamesSet(body)
  {
  }

  /** A try in its turn begins the plugin, or it was waiting for something from the start. */
  lemma TriedInTurn(start: Store, before: Store, i: nat, more: seq<Entry>, depth: nat, after: Store, thrown: bool)
    requires i < |start.fibers| && i < |before.fibers| && before.fibers[i].plugin == start.fibers[i].plugin
    requires start.services <= before.services && i < |after.fibers|
    requires !Satisfied(before, i) ==> more == [] && !thrown
    requires Satisfied(before, i) ==> Started(more, depth, i, before.services, before.fibers[i].plugin.script,
                                              after.fibers[i].state.Active?, thrown)
    ensures From(more, depth) && ActsAt(more, depth) == [] && (thrown ==> Blamed(more) && BegunAt(more, depth) == [i])
    ensures BegunAt(more, depth) == [i] || (BegunAt(more, depth) == [] && !Satisfied(start, i))
  {
    hide Started, Blamed;
    if Satisfied(before, i) {
      StartedAt(more, depth, i, before.services, before.fibers[i].plugin.script, after.fibers[i].state.Active?, thrown);
    }
  }

  /** One more of the snapshot has been tried. */
  lemma WakingTried(ran: seq<Entry>, more: seq<Entry>, depth: nat, start: Store, before: Store, after: Store,
                    waiting: seq<nat>, k: nat, thrown: bool)
    requires k < |waiting| && waiting == PendingEntries(start.fibers) && Waking(ran, depth, start, waiting, k)
    requires var i := waiting[k];
      && i < |start.fibers| && i < |before.fibers| && before.fibers[i].plugin == start.fibers[i].plugin
      && start.services <= before.services && i < |after.fibers|
      && (!Satisfied(before, i) ==> more == [] && !thrown)
      && (Satisfied(before, i) ==>
            Started(more, depth, i, before.services, before.fibers[i].plugin.script, after.fibers[i].state.Active?,
                    thrown))
    ensures Waking(ran + more, depth, start, waiting, k + 1)
    ensures thrown ==> Woke(ran + more, depth, start, true)
  {
    PendingSorted(start.fibers);
    hide Started, Blamed, Satisfied, Waking, Woke, PendingEntries;
    TriedInTurn(start, before, waiting[k], more, depth, after, thrown);
    WakingStep(ran, more, depth, start, waiting, k);
    if thrown {
      BlamedAppend(ran, more);
      RanAppend(ran, more, depth);
      WakingDone(ran + more, depth, start, waiting, k + 1, true);
    }
  }

  /** The body threw: the plugin has failed and leaves the entries. */
  lemma FailKeeps(start: Store, done: Store, begun: seq<Entry>, universe: set<string>, i: nat, ran: seq<Entry>,
                  script: seq<Action>)
    requires Settled(done) && NamesKnown(done.fibers, universe) && BegunInTime(begun, done)
    requires i < |done.fibers| && Satisfied(done, i) && Tally(start, ran, done) && Tried(script, done)
    requires Later(start, done) && Undisturbed(start, done, {i})
    ensures var failed := done.(fibers := done.fibers[i := done.fibers[i].(state := Failed, entered := false)]);
      && Settled(failed) && NamesKnown(failed.fibers, universe) && BegunInTime(begun, failed)
      && Later(start, failed) && Undisturbed(start, failed, {i}) && Tally(start, ran, failed) && Tried(script, failed)
  {
    hide Settled, NamesKnown, BegunInTime, Tally, Tried, Later, Undisturbed, Plugins, StuckSet, Satisfied;
    var f := done.fibers[i].(state := Failed, entered := false);
    var failed := done.(fibers := done.fibers[i := f]);
    MarkKeeps(done, begun, universe, i, f);
    MarkPlugins(done.fibers, i, f);
    SamePlugins(start, ran, done, failed);
    Chain(start, done, failed, i, {i});
    TriedStays(done, failed, script);
  }

  lemma StartFailed(ran: seq<Entry>, depth: nat, i: nat, provided: set<string>, script: seq<Action>, body: seq<Entry>)
    requires BodyRan(body, depth + 1, script, true) && ran == [Begins(depth, i, provided)] + body
    ensures Started(ran, depth, i, provided, script, false, true)
  {
    hide BodyRan;
    assert StartedAs(ran, depth, i, provided, script, false, true, body, [], Store({}, []));
  }

  lemma StartActive(depth: nat, i: nat, provided: set<string>, script: seq<Action>, body: seq<Entry>,
                    wake: seq<Entry>, k: Store, thrown: bool)
    requires BodyRan(body, depth + 1, script, false)
    requires Woke(wake, depth + 1, k, thrown) && k.services == provided + NamesSet(body)
    ensures Started(([Begins(depth, i, provided)] + body) + ([Activates(depth, i)] + wake), depth, i, provided, script,
                    true, thrown)
  {
    hide BodyRan, Woke;
    var ran := ([Begins(depth, i, provided)] + body) + ([Activates(depth, i)] + wake);
    assert StartedAs(ran, depth, i, provided, script, true, thrown, body, wake, k);
  }

  lemma BodyTally(start: Store, marked: Store, begin: Entry, body: seq<Entry>, done: Store)
    requires Tally(marked, body, done) && marked.services == start.services && begin.Begins?
    requires Plugins(marked.fibers) == Plugins(start.fibers)
    ensures Tally(start, [begin] + body, done)
  {
    TallyFrom(start, marked, body, done);
    TallyMark(start, begin, body, done);
  }

  lemma SetSaid(name: string, k: Store)
    requires name in k.services
    ensures Attempted(Set(name), k) && Did(Set(name), k)
  {
  }

  lemma MountSaid(plugin: Plugin, k: Store, i: nat)
    requires i < |k.fibers| && k.fibers[i].plugin == plugin
    ensures Attempted(Mount(plugin), k) && Did(Mount(plugin), k)
  {
  }

  lemma PartSaid(a: Action, before: Store, k: Store, threw: bool)
    requires a.Throw? || a.Try? || a.IfProvided?
    requires before.services <= k.services && (a.Throw? ==> threw)
    requires a.Try? ==> Tried(a.part, k)
    requires a.IfProvided? ==>
      var chosen := if a.name in before.services then a.yes else a.no;
      Tried(chosen, k) && (!threw ==> Carried(chosen, k))
    ensures Attempted(a, k) && (!threw || a.Try? ==> Did(a, k))
  {
    hide Tried, Carried;
  }

  lemma SetActed(act: Entry, more: seq<Entry>, depth: nat, name: string, k: Store, active: bool, thrown: bool)
    requires act == Acts(depth, Set(name), k.services)
    requires name in k.services ==> thrown && more == []
    requires name !in k.services ==> Woke(more, depth + 1, Store(k.services + {name}, k.fibers), thrown)
    ensures Acted([act] + more, depth, Set(name), k, active, thrown)
  {
    assert ([act] + more)[1..] == more;
    if name !in k.services {
      WokeBounds(more, depth + 1, Store(k.services + {name}, k.fibers), thrown);
      hide Woke;
      if thrown { BlamedAppend([act], more); }
    }
  }

  lemma MountActed(act: Entry, more: seq<Entry>, depth: nat, plugin: Plugin, k: Store, active: bool, thrown: bool)
    requires act == Acts(depth, Mount(plugin), k.services)
    requires if plugin.inject <= k.services
      then Started(more, depth + 1, |k.fibers|, k.services, plugin.script, active, thrown)
      else more == [] && !thrown
    ensures Acted([act] + more, depth, Mount(plugin), k, active, thrown)
  {
    assert ([act] + more)[1..] == more;
    if plugin.inject <= k.services {
      StartedAt(more, depth + 1, |k.fibers|, k.services, plugin.script, active, thrown);
      hide Started;
      if thrown { BlamedAppend([act], more); }
    }
  }

  lemma PartActed(act: Entry, more: seq<Entry>, depth: nat, a: Action, k: Store, active: bool, threw: bool)
    requires act == Acts(depth, a, k.services) && (a.Throw? || a.Try? || a.IfProvided?)
    requires a.Throw? ==> more == [] && threw
    requires a.Try? ==> BodyRan(more, depth + 1, a.part, threw)
    requires a.IfProvided? ==> BodyRan(more, depth + 1, if a.name in k.services then a.yes else a.no, threw)
    ensures Acted([act] + more, depth, a, k, active, threw && !a.Try?)
  {
    assert ([act] + more)[1..] == more;
    if a.IfProvided? && threw { BlamedAppend([act], more); }
  }

  lemma KnownNames(fibers: seq<Fiber>, universe: set<string>, i: nat)
    requires NamesKnown(fibers, universe) && i < |fibers|
    ensures Names(fibers[i].plugin.script) <= universe
  {
  }

  /** After its body, a started plugin's flush is below the start in the measure. */
  lemma FlushAllowed(universe: set<string>, start: Store, marked: Store, ran: Store, active: Store, i: nat)
    requires Later(marked, ran) && Later(ran, active) && StuckSet(marked) == StuckSet(start) - {i}
    requires marked.services == start.services && active.services <= universe
    ensures |universe - active.services| < |universe - start.services|
         || (active.services == start.services && |StuckSet(active)| <= |StuckSet(start) - {i}|)
  {
    LaterTransitive(marked, ran, active);
    MeasureFalls(universe, marked, active);
  }

  /** Starting an entry of a snapshot is below the flush in the measure, even when it has run already. */
  lemma StartAllowed(universe: set<string>, start: Store, before: Store, i: nat)
    requires Later(start, before) && before.services <= universe && i < |start.fibers|
    requires Satisfied(start, i) ==> i in StuckSet(start)
    ensures i < |before.fibers|
    ensures |universe - before.services| < |universe - start.services|
         || (before.services == start.services
             && (if Satisfied(before, i) then |StuckSet(before) - {i}| < |StuckSet(start)|
                 else |StuckSet(before) - {i}| <= |StuckSet(start)|))
  {
    MeasureFalls(universe, start, before);
    if before.services == start.services {
      SubsetSize(StuckSet(before) - {i}, StuckSet(before));
      if Satisfied(before, i) {
        SubsetSize(StuckSet(before) - {i}, StuckSet(start) - {i});
      }
    }
  }

  /** An entry of the snapshot was waiting when it was taken, so running it disturbs nothing that was not. */
  lemma RestartUndisturbed(start: Store, before: Store, after: Store, i: nat)
    requires Undisturbed(start, before, {}) && Undisturbed(before, after, {i})
    requires i < |start.fibers| && start.fibers[i].state.Pending?
    ensures Undisturbed(start, after, {})
  {
  }
}
