/** Loading, invoking and unloading plugins from many threads (swarm-plugin/host.rs). Each
    registry or map access, each lock acquisition and each plugin callback is one step. */
module PluginHosts {
  import opened Wrappers

  type PluginId = nat
  type Instance = nat
  type Thread = nat

  datatype PluginState = Discovered | Loading | Active | Unloading | Unloaded | Failed

  // Where a thread stands inside `load`, `invoke`, `unload` or `health_check_all`.
  datatype Pc =
    | Idle
    | LoadRegistered(p: PluginId)
    | LoadRunning(p: PluginId)
    | LoadActivated(p: PluginId)
    | InvokeChecked(p: PluginId)
    | InvokeWaiting(p: PluginId, i: Instance)
    | InvokeLocked(p: PluginId, i: Instance)
    | InvokeRechecked(p: PluginId, i: Instance)
    | InvokeRunning(p: PluginId, i: Instance)
    | UnloadCloned(p: PluginId, i: Instance)
    | UnloadWaiting(p: PluginId, i: Instance)
    | UnloadLocked(p: PluginId, i: Instance)
    | UnloadRunning(p: PluginId, i: Instance)
    | UnloadRemoved(p: PluginId, i: Instance)
    | HealthWaiting(p: PluginId, i: Instance)
    | HealthRunning(p: PluginId, i: Instance)
  {
    predicate IsLoading() {
      LoadRegistered? || LoadRunning? || LoadActivated?
    }

    // Holds a clone of the instance's shared pointer.
    predicate HasInstance() {
      !Idle? && !IsLoading() && !InvokeChecked?
    }

    predicate HoldsLock() {
      InvokeLocked? || InvokeRechecked? || InvokeRunning?
      || UnloadLocked? || UnloadRunning? || UnloadRemoved? || HealthRunning?
    }

    // Has announced the unload.
    predicate HasMarked() {
      UnloadWaiting? || UnloadLocked? || UnloadRunning? || UnloadRemoved?
    }

    predicate InAction() {
      InvokeRechecked? || InvokeRunning?
    }
  }

  // `made` names the plugin of every instance ever inserted; `unloadBegun` counts how often
  // `on_unload` has begun on each plugin.
  datatype Host = Host(
    registry: map<PluginId, PluginState>,
    instances: map<PluginId, Instance>,
    locks: map<Instance, Thread>,
    pcs: map<Thread, Pc>,
    made: map<Instance, PluginId>,
    unloadBegun: multiset<PluginId>)

  datatype Action =
    | BeginLoad(p: PluginId)      // prepare the registry slot and register
    | MarkLoading
    | LoadSucceeds
    | LoadFails
    | InsertInstance(i: Instance)
    | BeginInvoke(p: PluginId)    // first look at the registry
    | CloneForInvoke
    | Recheck
    | EnterAction
    | LeaveAction
    | BeginUnload(p: PluginId)
    | MarkUnloading
    | EnterUnload
    | LeaveUnload                 // `on_unload` returned, Ok or Err: remove the instance
    | FinishUnload
    | BeginHealthCheck(p: PluginId)
    | LeaveHealthCheck
    | Lock

  predicate CanRegister(h: Host, p: PluginId) {
    p !in h.registry || h.registry[p].Failed?
  }

  // One loader per plugin id; everything else is unrestricted.
  ghost predicate Enabled(h: Host, t: Thread, a: Action) {
    t in h.pcs && var pc := h.pcs[t];
    match a
    case BeginLoad(p) => pc.Idle? && forall u | u in h.pcs :: !(h.pcs[u].IsLoading() && h.pcs[u].p == p)
    case MarkLoading => pc.LoadRegistered?
    case LoadSucceeds => pc.LoadRunning?
    case LoadFails => pc.LoadRunning?
    case InsertInstance(i) => pc.LoadActivated? && i !in h.made
    case BeginInvoke(_) => pc.Idle?
    case CloneForInvoke => pc.InvokeChecked?
    case Recheck => pc.InvokeLocked?
    case EnterAction => pc.InvokeRechecked?
    case LeaveAction => pc.InvokeRunning?
    case BeginUnload(_) => pc.Idle?
    case MarkUnloading => pc.UnloadCloned?
    case EnterUnload => pc.UnloadLocked?
    case LeaveUnload => pc.UnloadRunning?
    case FinishUnload => pc.UnloadRemoved?
    case BeginHealthCheck(_) => pc.Idle?
    case LeaveHealthCheck => pc.HealthRunning?
    case Lock => (pc.InvokeWaiting? || pc.UnloadWaiting? || pc.HealthWaiting?) && pc.i !in h.locks
  }

  predicate SeesActive(h: Host, p: PluginId) {
    p in h.registry && h.registry[p].Active?
  }

  function Goto(h: Host, t: Thread, pc: Pc): Host {
    h.(pcs := h.pcs[t := pc])
  }

  function SetState(h: Host, p: PluginId, s: PluginState): Host {
    h.(registry := h.registry[p := s])
  }

  function Unlock(h: Host, i: Instance): Host {
    h.(locks := h.locks - {i})
  }

  ghost function Do(h: Host, t: Thread, a: Action): Host
    requires Enabled(h, t, a)
  {
    var pc := h.pcs[t];
    match a
    case BeginLoad(p) => if CanRegister(h, p) then SetState(Goto(h, t, LoadRegistered(p)), p, Discovered) else h
    case MarkLoading => SetState(Goto(h, t, LoadRunning(pc.p)), pc.p, Loading)
    case LoadSucceeds => SetState(Goto(h, t, LoadActivated(pc.p)), pc.p, Active)
    case LoadFails => SetState(Goto(h, t, Idle), pc.p, Failed)
    case InsertInstance(i) =>
      Goto(h, t, Idle).(instances := h.instances[pc.p := i], made := h.made[i := pc.p])
    case BeginInvoke(p) => if SeesActive(h, p) then Goto(h, t, InvokeChecked(p)) else h
    case CloneForInvoke =>
      Goto(h, t, if pc.p in h.instances then InvokeWaiting(pc.p, h.instances[pc.p]) else Idle)
    case Recheck =>
      if SeesActive(h, pc.p) then Goto(h, t, InvokeRechecked(pc.p, pc.i)) else Unlock(Goto(h, t, Idle), pc.i)
    case EnterAction => Goto(h, t, InvokeRunning(pc.p, pc.i))
    case LeaveAction => Unlock(Goto(h, t, Idle), pc.i)
    case BeginUnload(p) => if p in h.instances then Goto(h, t, UnloadCloned(p, h.instances[p])) else h
    case MarkUnloading =>
      if pc.p in h.registry then SetState(Goto(h, t, UnloadWaiting(pc.p, pc.i)), pc.p, Unloading) else Goto(h, t, Idle)
    case EnterUnload => Goto(h, t, UnloadRunning(pc.p, pc.i)).(unloadBegun := h.unloadBegun + multiset{pc.p})
    case LeaveUnload => Goto(h, t, UnloadRemoved(pc.p, pc.i)).(instances := h.instances - {pc.p})
    case FinishUnload => Unlock(SetState(Goto(h, t, Idle), pc.p, Unloaded), pc.i)
    case BeginHealthCheck(p) => if p in h.instances then Goto(h, t, HealthWaiting(p, h.instances[p])) else h
    case LeaveHealthCheck => Unlock(Goto(h, t, Idle), pc.i)
    case Lock =>
      Goto(h, t, match pc
                 case InvokeWaiting(p, i) => InvokeLocked(p, i)
                 case UnloadWaiting(p, i) => UnloadLocked(p, i)
                 case _ => HealthRunning(pc.p, pc.i)).(locks := h.locks[pc.i := t])
  }

  // ---- The invariant ----

  // Each plugin gets at most one instance, and only from a completed load.
  ghost predicate OneInstance(h: Host) {
    && (forall i, j | i in h.made && j in h.made && h.made[i] == h.made[j] :: i == j)
    && (forall p | p in h.instances :: h.instances[p] in h.made && h.made[h.instances[p]] == p)
    && (forall i | i in h.made :: Serving(h, h.made[i]))
    && (forall t | t in h.pcs && h.pcs[t].HasInstance() :: h.pcs[t].i in h.made && h.made[h.pcs[t].i] == h.pcs[t].p)
  }

  predicate Serving(h: Host, p: PluginId) {
    p in h.registry && (h.registry[p].Active? || h.registry[p].Unloading? || h.registry[p].Unloaded?)
  }

  predicate Retired(h: Host, p: PluginId) {
    p in h.registry && (h.registry[p].Unloading? || h.registry[p].Unloaded?)
  }

  // A loader is alone on its plugin and finds the state it left.
  ghost predicate LoadersAlone(h: Host) {
    && (forall t | t in h.pcs && h.pcs[t].IsLoading() :: LoadingStateOf(h, h.pcs[t]))
    && (forall t, u | t in h.pcs && u in h.pcs && h.pcs[t].IsLoading() && h.pcs[u].IsLoading()
                      && h.pcs[t].p == h.pcs[u].p :: t == u)
  }

  ghost predicate LoadingStateOf(h: Host, pc: Pc)
    requires pc.IsLoading()
  {
    && pc.p in h.registry
    && (pc.LoadRegistered? ==> h.registry[pc.p].Discovered?)
    && (pc.LoadRunning? ==> h.registry[pc.p].Loading?)
    && (pc.LoadActivated? ==> h.registry[pc.p].Active?)
    && (forall i | i in h.made :: h.made[i] != pc.p)
  }

  // A lock is held by exactly the thread whose position says so.
  ghost predicate LocksHeld(h: Host) {
    && (forall t | t in h.pcs && h.pcs[t].HoldsLock() :: h.pcs[t].i in h.locks && h.locks[h.pcs[t].i] == t)
    && (forall i | i in h.locks :: h.locks[i] in h.pcs && h.pcs[h.locks[i]].HoldsLock() && h.pcs[h.locks[i]].i == i)
  }

  // Once an unload is announced the plugin is retired; no action runs once `on_unload` has begun.
  ghost predicate UnloadsFinal(h: Host) {
    && (forall t | t in h.pcs :: MeetsUnload(h, h.pcs[t]))
    && (forall p | p in h.unloadBegun :: Retired(h, p))
  }

  predicate MeetsUnload(h: Host, pc: Pc) {
    && (pc.HasMarked() ==> Retired(h, pc.p))
    && (pc.UnloadRunning? || pc.UnloadRemoved? ==> pc.p in h.unloadBegun)
    && (pc.InAction() ==> pc.p !in h.unloadBegun)
  }

  ghost predicate Inv(h: Host) {
    OneInstance(h) && LoadersAlone(h) && LocksHeld(h) && UnloadsFinal(h)
  }

  // ---- Frames: one thread moves, and each part of the invariant follows from what it touches ----

  predicate OfLoad(a: Action) {
    a.BeginLoad? || a.MarkLoading? || a.LoadSucceeds? || a.LoadFails? || a.InsertInstance?
  }

  predicate Unlocks(a: Action) {
    a.Recheck? || a.LeaveAction? || a.FinishUnload? || a.LeaveHealthCheck?
  }

  ghost predicate Moves(h: Host, h': Host, t: Thread) {
    t in h.pcs && h'.pcs.Keys == h.pcs.Keys && forall u | u in h.pcs && u != t :: h'.pcs[u] == h.pcs[u]
  }

  predicate Points(h: Host, pc: Pc) {
    pc.HasInstance() ==> pc.i in h.made && h.made[pc.i] == pc.p
  }

  lemma InstanceFrame(h: Host, h': Host, t: Thread)
    requires OneInstance(h) && Moves(h, h', t) && h'.made == h.made && Points(h, h'.pcs[t])
    requires h'.instances.Keys <= h.instances.Keys && forall p | p in h'.instances :: h'.instances[p] == h.instances[p]
    requires forall p | Serving(h, p) :: Serving(h', p)
    ensures OneInstance(h')
  {
  }

  lemma LoaderFrame(h: Host, h': Host, t: Thread)
    requires LoadersAlone(h) && Moves(h, h', t) && h'.made == h.made && !h'.pcs[t].IsLoading()
    requires forall p | p in h.registry && !Serving(h, p) :: p in h'.registry && h'.registry[p] == h.registry[p]
    requires forall p | Serving(h, p) && (forall i | i in h.made :: h.made[i] != p) ::
               p in h'.registry && h'.registry[p] == h.registry[p]
    ensures LoadersAlone(h')
  {
  }

  lemma LockFrame(h: Host, h': Host, t: Thread)
    requires LocksHeld(h) && Moves(h, h', t) && h'.locks == h.locks
    requires h'.pcs[t].HoldsLock() <==> h.pcs[t].HoldsLock()
    requires h'.pcs[t].HoldsLock() ==> h'.pcs[t].i == h.pcs[t].i
    ensures LocksHeld(h')
  {
  }

  lemma UnloadFrame(h: Host, h': Host, t: Thread)
    requires UnloadsFinal(h) && Moves(h, h', t) && h'.unloadBegun == h.unloadBegun && MeetsUnload(h', h'.pcs[t])
    requires forall p | Retired(h, p) :: Retired(h', p)
    ensures UnloadsFinal(h')
  {
    forall u | u in h'.pcs ensures MeetsUnload(h', h'.pcs[u]) {
      assert u != t ==> MeetsUnload(h, h.pcs[u]);
    }
  }

  lemma AnyStepMoves(h: Host, t: Thread, a: Action)
    requires Enabled(h, t, a)
    ensures Moves(h, Do(h, t, a), t)
  {
    if OfLoad(a) {
      assert Moves(h, Do(h, t, a), t);
    }
  }

  // ---- Steps of a load ----

  lemma LoadKeepsInstances(h: Host, t: Thread, a: Action)
    requires OneInstance(h) && LoadersAlone(h) && Enabled(h, t, a) && OfLoad(a)
    ensures OneInstance(Do(h, t, a))
  {
  }

  lemma BeginLoadKeepsLoaders(h: Host, t: Thread, p: PluginId)
    requires OneInstance(h) && LoadersAlone(h) && Enabled(h, t, BeginLoad(p))
    ensures LoadersAlone(Do(h, t, BeginLoad(p)))
  {
  }

  lemma LoadKeepsLoaders(h: Host, t: Thread, a: Action)
    requires LoadersAlone(h) && Enabled(h, t, a) && OfLoad(a) && !a.BeginLoad?
    ensures LoadersAlone(Do(h, t, a))
  {
  }

  lemma LoadKeepsUnloads(h: Host, t: Thread, a: Action)
    requires LoadersAlone(h) && UnloadsFinal(h) && Enabled(h, t, a) && OfLoad(a)
    ensures UnloadsFinal(Do(h, t, a))
  {
    AnyStepMoves(h, t, a);
    LoadTouchesNoRetired(h, t, a);
    hide UnloadsFinal, Moves, Retired, LoadersAlone;
    UnloadFrame(h, Do(h, t, a), t);
  }

  lemma LoadTouchesNoRetired(h: Host, t: Thread, a: Action)
    requires LoadersAlone(h) && Enabled(h, t, a) && OfLoad(a)
    ensures forall p | Retired(h, p) :: Retired(Do(h, t, a), p)
  {
    assert h.pcs[t].IsLoading() ==> LoadingStateOf(h, h.pcs[t]);
  }

  // ---- All other steps ----

  lemma ServeKeepsInstances(h: Host, t: Thread, a: Action)
    requires OneInstance(h) && Enabled(h, t, a) && !OfLoad(a)
    ensures OneInstance(Do(h, t, a))
  {
    AnyStepMoves(h, t, a);
    ServeKeepsServing(h, t, a);
    ServeLeavesInstances(h, t, a);
    ServePointsRight(h, t, a);
    hide Do, Enabled, OneInstance, Moves, Serving, Points;
    InstanceFrame(h, Do(h, t, a), t);
  }

  lemma ServeLeavesInstances(h: Host, t: Thread, a: Action)
    requires Enabled(h, t, a) && !OfLoad(a)
    ensures var h' := Do(h, t, a);
            && h'.made == h.made && t in h'.pcs && !h'.pcs[t].IsLoading()
            && h'.instances == if a.LeaveUnload? then h.instances - {h.pcs[t].p} else h.instances
  {
    if OfUnload(a) {
      assert Do(h, t, a).made == h.made;
    }
  }

  lemma ServePointsRight(h: Host, t: Thread, a: Action)
    requires OneInstance(h) && Enabled(h, t, a) && !OfLoad(a)
    ensures t in Do(h, t, a).pcs && Points(h, Do(h, t, a).pcs[t])
  {
    assert Points(h, h.pcs[t]);
    assert forall p | p in h.instances :: h.instances[p] in h.made && h.made[h.instances[p]] == p;
    hide OneInstance;
  }

  lemma ServeKeepsServing(h: Host, t: Thread, a: Action)
    requires OneInstance(h) && Enabled(h, t, a) && !OfLoad(a)
    ensures forall p | Serving(h, p) :: Serving(Do(h, t, a), p)
    ensures forall p | p in h.registry && !Serving(h, p) :: p in Do(h, t, a).registry && Do(h, t, a).registry[p] == h.registry[p]
    ensures forall p | p in h.registry && (forall i | i in h.made :: h.made[i] != p) ::
              p in Do(h, t, a).registry && Do(h, t, a).registry[p] == h.registry[p]
  {
    assert Points(h, h.pcs[t]);
    assert h.pcs[t].HasInstance() ==> Serving(h, h.made[h.pcs[t].i]);
    hide OneInstance;
  }

  lemma ServeKeepsLoaders(h: Host, t: Thread, a: Action)
    requires OneInstance(h) && LoadersAlone(h) && Enabled(h, t, a) && !OfLoad(a)
    ensures LoadersAlone(Do(h, t, a))
  {
    AnyStepMoves(h, t, a);
    ServeKeepsServing(h, t, a);
    ServeLeavesInstances(h, t, a);
    hide Do, Enabled, OneInstance, LoadersAlone, Moves, Serving, Points;
    LoaderFrame(h, Do(h, t, a), t);
  }

  lemma UnlockKeepsLocks(h: Host, t: Thread, a: Action)
    requires LocksHeld(h) && Enabled(h, t, a) && Unlocks(a)
    ensures LocksHeld(Do(h, t, a))
  {
    hide Do, Enabled, LocksHeld, Moves;
    UnlockLetsGo(h, t, a);
    if Do(h, t, a).pcs[t].HoldsLock() {
      LockFrame(h, Do(h, t, a), t);
    } else {
      UnlockFrame(h, Do(h, t, a), t);
    }
  }

  lemma UnlockFrame(h: Host, h': Host, t: Thread)
    requires LocksHeld(h) && Moves(h, h', t) && h.pcs[t].HoldsLock()
    requires h'.locks == h.locks - {h.pcs[t].i} && !h'.pcs[t].HoldsLock()
    ensures LocksHeld(h')
  {
  }

  lemma UnlockLetsGo(h: Host, t: Thread, a: Action)
    requires Enabled(h, t, a) && Unlocks(a)
    ensures var h' := Do(h, t, a);
            && Moves(h, h', t) && t in h.pcs && t in h'.pcs
            && if h'.pcs[t].HoldsLock() then h'.locks == h.locks && h'.pcs[t].i == h.pcs[t].i
               else h'.locks == h.locks - {h.pcs[t].i}
    ensures h.pcs[t].HoldsLock()
  {
  }

  lemma LockKeepsLocks(h: Host, t: Thread)
    requires LocksHeld(h) && Enabled(h, t, Lock)
    ensures LocksHeld(Do(h, t, Lock))
  {
  }

  lemma RestKeepsLocks(h: Host, t: Thread, a: Action)
    requires LocksHeld(h) && Enabled(h, t, a) && !Unlocks(a) && !a.Lock?
    ensures LocksHeld(Do(h, t, a))
  {
    AnyStepMoves(h, t, a);
    RestLeavesLocks(h, t, a);
    hide Do, Enabled, LocksHeld, Moves;
    LockFrame(h, Do(h, t, a), t);
  }

  lemma RestLeavesLocks(h: Host, t: Thread, a: Action)
    requires Enabled(h, t, a) && !Unlocks(a) && !a.Lock?
    ensures var h' := Do(h, t, a);
            && h'.locks == h.locks && t in h'.pcs && (h'.pcs[t].HoldsLock() <==> h.pcs[t].HoldsLock())
            && (h.pcs[t].HoldsLock() ==> h'.pcs[t].i == h.pcs[t].i)
  {
    if OfLoad(a) {
      assert !h.pcs[t].HoldsLock();
    }
  }

  // `on_unload` begins under the instance lock, so no action of that plugin can be under way.
  lemma EnterUnloadKeepsUnloads(h: Host, t: Thread)
    requires OneInstance(h) && LocksHeld(h) && UnloadsFinal(h) && Enabled(h, t, EnterUnload)
    ensures UnloadsFinal(Do(h, t, EnterUnload))
  {
    var h' := Do(h, t, EnterUnload);
    var pc := h.pcs[t];
    assert MeetsUnload(h, pc) && Points(h, pc);
    forall u | u in h'.pcs ensures MeetsUnload(h', h'.pcs[u]) {
      if u != t && h.pcs[u].InAction() {
        OneHolderPerPlugin(h, t, u);
      }
      assert MeetsUnload(h, h.pcs[u]);
    }
  }

  lemma OneHolderPerPlugin(h: Host, t: Thread, u: Thread)
    requires OneInstance(h) && LocksHeld(h) && t in h.pcs && u in h.pcs && h.pcs[t].HoldsLock() && h.pcs[u].HoldsLock()
    ensures h.pcs[t].p == h.pcs[u].p ==> t == u
  {
    assert Points(h, h.pcs[t]) && Points(h, h.pcs[u]);
  }

  lemma ServeKeepsUnloads(h: Host, t: Thread, a: Action)
    requires UnloadsFinal(h) && Enabled(h, t, a) && !OfLoad(a) && !a.EnterUnload?
    ensures UnloadsFinal(Do(h, t, a))
  {
    AnyStepMoves(h, t, a);
    ServeMeetsUnload(h, t, a);
    hide Do, Enabled, UnloadsFinal, Moves, MeetsUnload, Retired;
    UnloadFrame(h, Do(h, t, a), t);
  }

  lemma ServeMeetsUnload(h: Host, t: Thread, a: Action)
    requires UnloadsFinal(h) && Enabled(h, t, a) && !OfLoad(a) && !a.EnterUnload?
    ensures var h' := Do(h, t, a);
            && h'.unloadBegun == h.unloadBegun && t in h'.pcs && MeetsUnload(h', h'.pcs[t])
            && forall p | Retired(h, p) :: Retired(h', p)
  {
    UnloadsMet(h, t);
    ServeKeepsRetired(h, t, a);
    ServeBeginsNone(h, t, a);
    hide UnloadsFinal;
  }

  lemma ServeBeginsNone(h: Host, t: Thread, a: Action)
    requires Enabled(h, t, a) && !OfLoad(a) && !a.EnterUnload?
    ensures Do(h, t, a).unloadBegun == h.unloadBegun
  {
  }

  lemma ServeKeepsRetired(h: Host, t: Thread, a: Action)
    requires Enabled(h, t, a) && !OfLoad(a)
    ensures forall p | Retired(h, p) :: Retired(Do(h, t, a), p)
  {
  }

  lemma UnloadsMet(h: Host, t: Thread)
    requires UnloadsFinal(h) && t in h.pcs
    ensures MeetsUnload(h, h.pcs[t]) && forall p | p in h.unloadBegun :: Retired(h, p)
  {
  }

  lemma StepKeepsInv(h: Host, t: Thread, a: Action)
    requires Inv(h) && Enabled(h, t, a)
    ensures Inv(Do(h, t, a))
  {
    hide Enabled, Do, OneInstance, LoadersAlone, LocksHeld, UnloadsFinal;
    if Unlocks(a) {
      UnlockKeepsLocks(h, t, a);
    } else if a.Lock? {
      LockKeepsLocks(h, t);
    } else {
      RestKeepsLocks(h, t, a);
    }
    if OfLoad(a) {
      LoadKeepsInstances(h, t, a);
      if a.BeginLoad? {
        BeginLoadKeepsLoaders(h, t, a.p);
      } else {
        LoadKeepsLoaders(h, t, a);
      }
      LoadKeepsUnloads(h, t, a);
    } else {
      ServeKeepsInstances(h, t, a);
      ServeKeepsLoaders(h, t, a);
      if a.EnterUnload? {
        EnterUnloadKeepsUnloads(h, t);
      } else {
        ServeKeepsUnloads(h, t, a);
      }
    }
  }

  // ---- Main results, over every interleaving ----

  datatype Step = Step(thread: Thread, action: Action)

  ghost predicate Runs(h: Host, steps: seq<Step>)
    decreases |steps|
  {
    steps == []
    || (Enabled(h, steps[0].thread, steps[0].action) && Runs(Do(h, steps[0].thread, steps[0].action), steps[1..]))
  }

  ghost function After(h: Host, steps: seq<Step>): Host
    requires Runs(h, steps)
    decreases |steps|
  {
    if steps == [] then h else After(Do(h, steps[0].thread, steps[0].action), steps[1..])
  }

  lemma {:induction false} RunKeepsInv(h: Host, steps: seq<Step>)
    requires Inv(h) && Runs(h, steps)
    ensures Inv(After(h, steps))
    decreases |steps|
  {
    hide Inv, Enabled, Do;
    if steps != [] {
      StepKeepsInv(h, steps[0].thread, steps[0].action);
      RunKeepsInv(Do(h, steps[0].thread, steps[0].action), steps[1..]);
    }
  }

  // An empty host with any number of idle threads.
  ghost predicate Initial(h: Host) {
    h.registry == map[] && h.instances == map[] && h.locks == map[] && h.made == map[] && h.unloadBegun == multiset{}
    && forall t | t in h.pcs :: h.pcs[t].Idle?
  }

  lemma InitialInv(h: Host)
    requires Initial(h)
    ensures Inv(h)
  {
  }

  // In no reachable state does a plugin action overlap `on_unload` of the same plugin, and
  // none is about to run or running once some `on_unload` of it has begun.
  lemma ActionsNeverMeetUnload(h: Host, steps: seq<Step>, t: Thread, u: Thread)
    requires Initial(h) && Runs(h, steps)
    ensures var s := After(h, steps);
            && (t in s.pcs && s.pcs[t].InvokeRunning? ==> s.pcs[t].p !in s.unloadBegun)
            && !(&& t in s.pcs && s.pcs[t].InvokeRunning?
                 && u in s.pcs && s.pcs[u].UnloadRunning? && s.pcs[u].p == s.pcs[t].p)
  {
    InitialInv(h);
    RunKeepsInv(h, steps);
    hide Runs, After, LoadersAlone, OneInstance, LocksHeld;
  }

  // Leaving the active state is final: no later step of any thread makes the plugin active again.
  lemma {:induction false} RetiredForGood(h: Host, steps: seq<Step>, p: PluginId)
    requires Inv(h) && Runs(h, steps) && Retired(h, p)
    ensures Retired(After(h, steps), p)
    decreases |steps|
  {
    hide Inv, Enabled, Do;
    if steps != [] {
      StepKeepsInv(h, steps[0].thread, steps[0].action);
      StepKeepsRetired(h, steps[0].thread, steps[0].action, p);
      RetiredForGood(Do(h, steps[0].thread, steps[0].action), steps[1..], p);
    }
  }

  lemma StepKeepsRetired(h: Host, t: Thread, a: Action, p: PluginId)
    requires Inv(h) && Enabled(h, t, a) && Retired(h, p)
    ensures Retired(Do(h, t, a), p)
  {
    hide OneInstance, LocksHeld;
  }

  // ---- What a health check meets ----

  lemma {:induction false} RunsAppend(h: Host, xs: seq<Step>, ys: seq<Step>)
    requires Runs(h, xs) && Runs(After(h, xs), ys)
    ensures Runs(h, xs + ys) && After(h, xs + ys) == After(After(h, xs), ys)
    decreases |xs|
  {
    hide Enabled, Do;
    if xs == [] {
      assert xs + ys == ys;
    } else {
      assert (xs + ys)[1..] == xs[1..] + ys;
      RunsAppend(Do(h, xs[0].thread, xs[0].action), xs[1..], ys);
    }
  }

  lemma OneStep(h: Host, t: Thread, a: Action)
    requires Enabled(h, t, a)
    ensures Runs(h, [Step(t, a)]) && After(h, [Step(t, a)]) == Do(h, t, a)
  {
    hide Enabled, Do;
    assert [Step(t, a)][1..] == [];
  }

  // The run goes on with one more step.
  lemma OneMore(h: Host, steps: seq<Step>, t: Thread, a: Action)
    requires Runs(h, steps) && Enabled(After(h, steps), t, a)
    ensures Runs(h, steps + [Step(t, a)]) && After(h, steps + [Step(t, a)]) == Do(After(h, steps), t, a)
  {
    hide Enabled, Do;
    OneStep(After(h, steps), t, a);
    RunsAppend(h, steps, [Step(t, a)]);
  }

  // Some step of the run announces the unload of `p`.
  ghost predicate Announced(h: Host, steps: seq<Step>, p: PluginId)
    requires Runs(h, steps)
    decreases |steps|
  {
    steps != [] && (Announces(h, steps[0].thread, steps[0].action, p)
                    || Announced(Do(h, steps[0].thread, steps[0].action), steps[1..], p))
  }

  ghost predicate Announces(h: Host, t: Thread, a: Action, p: PluginId) {
    Enabled(h, t, a) && a.MarkUnloading? && h.pcs[t].p == p
  }

  lemma LoadRetiresNone(h: Host, t: Thread, a: Action, p: PluginId)
    requires Enabled(h, t, a) && OfLoad(a) && (h.pcs[t].IsLoading() ==> !Retired(h, h.pcs[t].p))
    ensures Retired(Do(h, t, a), p) <==> Retired(h, p)
  {
  }

  lemma ServeRetiresIff(h: Host, t: Thread, a: Action, p: PluginId)
    requires Enabled(h, t, a) && !OfLoad(a)
    requires h.pcs[t].HasMarked() ==> Retired(h, h.pcs[t].p)
    requires h.pcs[t].HasInstance() ==> h.pcs[t].p in h.registry
    ensures Retired(Do(h, t, a), p) <==> (Retired(h, p) || Announces(h, t, a, p))
  {
  }

  lemma WhereItStands(h: Host, t: Thread)
    requires Inv(h) && t in h.pcs
    ensures h.pcs[t].IsLoading() ==> !Retired(h, h.pcs[t].p)
    ensures h.pcs[t].HasMarked() ==> Retired(h, h.pcs[t].p)
    ensures h.pcs[t].HasInstance() ==> h.pcs[t].p in h.registry
  {
    hide LocksHeld;
    assert MeetsUnload(h, h.pcs[t]) && Points(h, h.pcs[t]);
    assert h.pcs[t].IsLoading() ==> LoadingStateOf(h, h.pcs[t]);
  }

  lemma RetiresIffAnnounces(h: Host, t: Thread, a: Action, p: PluginId)
    requires Inv(h) && Enabled(h, t, a)
    ensures Retired(Do(h, t, a), p) <==> (Retired(h, p) || Announces(h, t, a, p))
  {
    hide Inv, Do, Retired;
    WhereItStands(h, t);
    if OfLoad(a) {
      LoadRetiresNone(h, t, a, p);
    } else {
      ServeRetiresIff(h, t, a, p);
    }
  }

  lemma {:induction false} RetiredIffAnnounced(h: Host, steps: seq<Step>, p: PluginId)
    requires Inv(h) && Runs(h, steps)
    ensures Retired(After(h, steps), p) <==> (Retired(h, p) || Announced(h, steps, p))
    decreases |steps|
  {
    hide Inv, Enabled, Do, Retired, Announces;
    if steps != [] {
      StepKeepsInv(h, steps[0].thread, steps[0].action);
      RetiresIffAnnounces(h, steps[0].thread, steps[0].action, p);
      RetiredIffAnnounced(Do(h, steps[0].thread, steps[0].action), steps[1..], p);
    }
  }

  // At the end of any run, a health check under way meets an active plugin exactly when no unload of
  // it has been announced in that run; otherwise it meets one that is unloading or unloaded.
  lemma HealthCheckMeetsActiveIff(h: Host, steps: seq<Step>, t: Thread)
    requires Initial(h) && Runs(h, steps)
    requires t in After(h, steps).pcs && After(h, steps).pcs[t].HealthRunning?
    ensures var (s, p) := (After(h, steps), After(h, steps).pcs[t].p);
            && p in s.registry
            && (s.registry[p].Active? <==> !Announced(h, steps, p))
            && (s.registry[p].Active? || s.registry[p].Unloading? || s.registry[p].Unloaded?)
  {
    InitialInv(h);
    RunKeepsInv(h, steps);
    RetiredIffAnnounced(h, steps, After(h, steps).pcs[t].p);
    InstanceIsServing(After(h, steps), t);
    hide Inv, Runs, After, Announced;
  }

  lemma InstanceIsServing(h: Host, t: Thread)
    requires Inv(h) && t in h.pcs && h.pcs[t].HasInstance()
    ensures Serving(h, h.pcs[t].p)
  {
    hide LoadersAlone, LocksHeld, UnloadsFinal;
    assert Points(h, h.pcs[t]);
  }

  // An idle host with one active plugin.
  ghost predicate Loaded(h: Host, p: PluginId, i: Instance) {
    && p in h.registry && h.registry[p].Active? && p in h.instances && h.instances[p] == i && i !in h.locks
    && forall t | t in h.pcs :: h.pcs[t].Idle?
  }

  lemma CanLoad(h: Host, t: Thread) returns (steps: seq<Step>)
    requires Initial(h) && t in h.pcs
    ensures Runs(h, steps) && Loaded(After(h, steps), 0, 0) && After(h, steps).pcs == h.pcs
  {
    hide Runs, After;
    OneStep(h, t, BeginLoad(0));
    steps := [Step(t, BeginLoad(0))];
    OneMore(h, steps, t, MarkLoading);
    steps := steps + [Step(t, MarkLoading)];
    OneMore(h, steps, t, LoadSucceeds);
    steps := steps + [Step(t, LoadSucceeds)];
    OneMore(h, steps, t, InsertInstance(0));
    steps := steps + [Step(t, InsertInstance(0))];
    var s := After(h, steps);
    assert s.pcs == h.pcs[t := Idle] == h.pcs;
  }

  // A thread takes its clone, another one unloads the plugin to the end, and only then does the
  // first one get the lock: the check runs although `on_unload` has returned.
  lemma CheckCanMeetUnloaded(h: Host, p: PluginId, i: Instance, t: Thread, u: Thread) returns (steps: seq<Step>)
    requires Loaded(h, p, i) && t in h.pcs && u in h.pcs && t != u
    ensures Runs(h, steps)
    ensures var s := After(h, steps);
            t in s.pcs && s.pcs[t] == HealthRunning(p, i) && p in s.registry && s.registry[p].Unloaded? && p in s.unloadBegun
  {
    hide Runs, After;
    OneStep(h, t, BeginHealthCheck(p));
    steps := [Step(t, BeginHealthCheck(p))];
    var s1 := After(h, steps);
    assert s1 == h.(pcs := h.pcs[t := HealthWaiting(p, i)]);
    var whole := UnloadsAlone(s1, p, i, u);
    RunsAppend(h, steps, whole);
    steps := steps + whole;
    OneMore(h, steps, t, Lock);
    steps := steps + [Step(t, Lock)];
  }

  // An idle thread announces the unload...
  lemma CanAnnounce(h: Host, p: PluginId, i: Instance, u: Thread) returns (steps: seq<Step>)
    requires u in h.pcs && h.pcs[u].Idle? && p in h.registry && p in h.instances && h.instances[p] == i
    ensures Runs(h, steps)
    ensures After(h, steps) == h.(registry := h.registry[p := Unloading], pcs := h.pcs[u := UnloadWaiting(p, i)])
  {
    hide Runs, After;
    OneStep(h, u, BeginUnload(p));
    steps := [Step(u, BeginUnload(p))];
    OneMore(h, steps, u, MarkUnloading);
    steps := steps + [Step(u, MarkUnloading)];
    assert h.pcs[u := UnloadCloned(p, i)][u := UnloadWaiting(p, i)] == h.pcs[u := UnloadWaiting(p, i)];
  }

  // ...gets the lock and begins `on_unload`...
  lemma CanEnter(h: Host, p: PluginId, i: Instance, u: Thread) returns (steps: seq<Step>)
    requires u in h.pcs && h.pcs[u] == UnloadWaiting(p, i) && i !in h.locks
    ensures Runs(h, steps) && steps == [Step(u, Lock), Step(u, EnterUnload)]
    ensures After(h, steps) == h.(locks := h.locks[i := u], pcs := h.pcs[u := UnloadRunning(p, i)], unloadBegun := h.unloadBegun + multiset{p})
  {
    hide Runs, After;
    OneStep(h, u, Lock);
    steps := [Step(u, Lock)];
    OneMore(h, steps, u, EnterUnload);
    steps := steps + [Step(u, EnterUnload)];
    assert h.pcs[u := UnloadLocked(p, i)][u := UnloadRunning(p, i)] == h.pcs[u := UnloadRunning(p, i)];
  }

  // ...and comes to its end.
  lemma CanFinish(h: Host, p: PluginId, i: Instance, u: Thread) returns (steps: seq<Step>)
    requires u in h.pcs && h.pcs[u] == UnloadRunning(p, i)
    ensures Runs(h, steps)
    ensures After(h, steps) == h.(registry := h.registry[p := Unloaded], instances := h.instances - {p}, locks := h.locks - {i},
                                  pcs := h.pcs[u := Idle])
  {
    hide Runs, After;
    OneStep(h, u, LeaveUnload);
    steps := [Step(u, LeaveUnload)];
    OneMore(h, steps, u, FinishUnload);
    steps := steps + [Step(u, FinishUnload)];
    assert h.pcs[u := UnloadRemoved(p, i)][u := Idle] == h.pcs[u := Idle];
  }

  lemma UnloadsAlone(h: Host, p: PluginId, i: Instance, u: Thread) returns (steps: seq<Step>)
    requires u in h.pcs && h.pcs[u].Idle? && p in h.registry && p in h.instances && h.instances[p] == i && i !in h.locks
    ensures Runs(h, steps)
    ensures var s := After(h, steps);
            && s.pcs == h.pcs && i !in s.locks && s.unloadBegun == h.unloadBegun + multiset{p}
            && p in s.registry && s.registry[p].Unloaded?
  {
    hide Runs, After;
    var announce := CanAnnounce(h, p, i, u);
    var s1 := After(h, announce);
    var enter := CanEnter(s1, p, i, u);
    var finish := CanFinish(After(s1, enter), p, i, u);
    RunsAppend(s1, enter, finish);
    RunsAppend(h, announce, enter + finish);
    steps := announce + (enter + finish);
    assert After(h, steps).pcs == h.pcs;
  }

  // The other order: the check holds the lock while the unload is announced.
  lemma CheckCanMeetUnloading(h: Host, p: PluginId, i: Instance, t: Thread, u: Thread) returns (steps: seq<Step>)
    requires Loaded(h, p, i) && t in h.pcs && u in h.pcs && t != u
    ensures Runs(h, steps)
    ensures var s := After(h, steps);
            t in s.pcs && s.pcs[t] == HealthRunning(p, i) && p in s.registry && s.registry[p].Unloading?
  {
    hide Runs, After;
    OneStep(h, t, BeginHealthCheck(p));
    steps := [Step(t, BeginHealthCheck(p))];
    OneMore(h, steps, t, Lock);
    steps := steps + [Step(t, Lock)];
    var announce := CanAnnounce(After(h, steps), p, i, u);
    RunsAppend(h, steps, announce);
    steps := steps + announce;
  }

  // ---- One thread alone ----

  // What a single thread keeps: an instance belongs to an active plugin, except while that very
  // thread unloads it.
  ghost predicate Alone(h: Host, t: Thread) {
    && h.pcs.Keys == {t}
    && (forall p | p in h.instances :: p in h.registry && (h.registry[p].Active? || (h.pcs[t].HasMarked() && h.pcs[t].p == p)))
    && (h.pcs[t].UnloadRemoved? ==> h.pcs[t].p !in h.instances)
    && (h.pcs[t].HealthWaiting? || h.pcs[t].HealthRunning? ==>
          h.pcs[t].p in h.registry && h.registry[h.pcs[t].p].Active?)
  }

  // A plugin being loaded has no instance yet.
  predicate NotYetServed(h: Host, pc: Pc) {
    pc.IsLoading() ==> pc.p !in h.instances && (pc.LoadActivated? ==> pc.p in h.registry && h.registry[pc.p].Active?)
  }

  lemma LoaderIsNotServed(h: Host, t: Thread)
    requires OneInstance(h) && LoadersAlone(h) && t in h.pcs
    ensures NotYetServed(h, h.pcs[t])
  {
    assert h.pcs[t].IsLoading() ==> LoadingStateOf(h, h.pcs[t]);
    assert forall p | p in h.instances :: h.instances[p] in h.made && h.made[h.instances[p]] == p;
  }

  lemma LoadKeepsAlone(h: Host, t: Thread, a: Action)
    requires Alone(h, t) && NotYetServed(h, h.pcs[t]) && Enabled(h, t, a) && OfLoad(a)
    ensures Alone(Do(h, t, a), t)
  {
  }

  predicate OfUnload(a: Action) {
    a.BeginUnload? || a.MarkUnloading? || a.EnterUnload? || a.LeaveUnload? || a.FinishUnload?
  }

  lemma UnloadKeepsAlone(h: Host, t: Thread, a: Action)
    requires Alone(h, t) && Enabled(h, t, a) && OfUnload(a)
    ensures Alone(Do(h, t, a), t)
  {
  }

  lemma RestKeepsAlone(h: Host, t: Thread, a: Action)
    requires Alone(h, t) && Enabled(h, t, a) && !OfLoad(a) && !OfUnload(a)
    ensures Alone(Do(h, t, a), t)
  {
  }

  lemma StepKeepsAlone(h: Host, t: Thread, u: Thread, a: Action)
    requires Inv(h) && Alone(h, t) && Enabled(h, u, a)
    ensures Alone(Do(h, u, a), t)
  {
    hide OneInstance, LoadersAlone, LocksHeld, UnloadsFinal, Do, Alone;
    IsTheThread(h, t, u, a);
    if OfLoad(a) {
      LoaderIsNotServed(h, t);
      LoadKeepsAlone(h, t, a);
    } else {
      if OfUnload(a) {
        UnloadKeepsAlone(h, t, a);
      } else {
        RestKeepsAlone(h, t, a);
      }
    }
  }

  lemma IsTheThread(h: Host, t: Thread, u: Thread, a: Action)
    requires Alone(h, t) && Enabled(h, u, a)
    ensures u == t
  {
  }

  lemma {:induction false} RunKeepsAlone(h: Host, t: Thread, steps: seq<Step>)
    requires Inv(h) && Alone(h, t) && Runs(h, steps)
    ensures Alone(After(h, steps), t)
    decreases |steps|
  {
    hide Inv, Enabled, Do, Alone;
    if steps != [] {
      StepKeepsInv(h, steps[0].thread, steps[0].action);
      StepKeepsAlone(h, t, steps[0].thread, steps[0].action);
      RunKeepsAlone(Do(h, steps[0].thread, steps[0].action), t, steps[1..]);
    }
  }

  // A health check under way at the end of the run meets an active plugin.
  ghost predicate ChecksMeetActive(h: Host, steps: seq<Step>)
    requires Runs(h, steps)
  {
    var s := After(h, steps);
    forall t | t in s.pcs && s.pcs[t].HealthRunning? :: s.pcs[t].p in s.registry && s.registry[s.pcs[t].p].Active?
  }

  // Health checks are sure to meet only active plugins exactly when there is at most one thread.
  lemma HealthChecksMeetOnlyActiveIff(h: Host)
    requires Initial(h)
    ensures (forall steps | Runs(h, steps) :: ChecksMeetActive(h, steps)) <==> |h.pcs.Keys| <= 1
  {
    if |h.pcs.Keys| <= 1 {
      forall steps | Runs(h, steps) ensures ChecksMeetActive(h, steps) {
        SingleThreadMeetsActive(h, steps);
      }
    } else {
      var t :| t in h.pcs;
      var u := AnotherThread(h, t);
      var load := CanLoad(h, t);
      var check := CheckCanMeetUnloaded(After(h, load), 0, 0, t, u);
      RunsAppend(h, load, check);
      assert !ChecksMeetActive(h, load + check);
    }
  }

  lemma AnotherThread(h: Host, t: Thread) returns (u: Thread)
    requires |h.pcs.Keys| > 1 && t in h.pcs
    ensures u in h.pcs && u != t
  {
    assert |h.pcs.Keys - {t}| == |h.pcs.Keys| - 1;
    u :| u in h.pcs.Keys - {t};
  }

  lemma SingleThreadMeetsActive(h: Host, steps: seq<Step>)
    requires Initial(h) && Runs(h, steps) && |h.pcs.Keys| <= 1
    ensures ChecksMeetActive(h, steps)
  {
    InitialInv(h);
    if t :| t in h.pcs {
      OnlyThread(h, t);
      RunKeepsAlone(h, t, steps);
      hide Runs, After;
    } else {
      NobodyRuns(h, steps);
    }
  }

  lemma OnlyThread(h: Host, t: Thread)
    requires t in h.pcs && |h.pcs.Keys| <= 1
    ensures h.pcs.Keys == {t}
  {
    assert |h.pcs.Keys - {t}| == |h.pcs.Keys| - 1;
    assert h.pcs.Keys - {t} == {};
  }

  lemma NobodyRuns(h: Host, steps: seq<Step>)
    requires Runs(h, steps) && h.pcs == map[]
    ensures After(h, steps) == h
  {
    hide Do;
  }
}
