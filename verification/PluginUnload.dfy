/** How often `on_unload` of a plugin begins (swarm-plugin/host.rs). It is documented to be called
    once; `unload` takes its clone of the instance before it announces anything, so two calls that
    overlap both go through with it. */
module PluginUnloads {
  import opened Wrappers
  import opened PluginHosts

  // Has its clone for the unload of `p`, but has not begun `on_unload`.
  predicate IsPending(pc: Pc, p: PluginId) {
    (pc.UnloadCloned? || pc.UnloadWaiting? || pc.UnloadLocked?) && pc.p == p
  }

  // Has announced the unload of `p`, but has not begun `on_unload`.
  predicate IsDue(pc: Pc, p: PluginId) {
    (pc.UnloadWaiting? || pc.UnloadLocked?) && pc.p == p
  }

  predicate InUnload(pc: Pc, p: PluginId) {
    (pc.UnloadCloned? || pc.HasMarked()) && pc.p == p
  }

  function Pending(h: Host, p: PluginId): set<Thread> {
    set t | t in h.pcs && IsPending(h.pcs[t], p)
  }

  function Due(h: Host, p: PluginId): set<Thread> {
    set t | t in h.pcs && IsDue(h.pcs[t], p)
  }

  // The times `on_unload` has begun and the times it is still going to.
  function Total(h: Host, p: PluginId): nat {
    h.unloadBegun[p] + |Pending(h, p)|
  }

  // ---- Conservation ----

  // An unload call that finds the instance.
  predicate Calls(h: Host, a: Action, p: PluginId) {
    a == BeginUnload(p) && p in h.instances
  }

  // How often the unload of `p` is announced in a run.
  ghost function Announcements(h: Host, steps: seq<Step>, p: PluginId): nat
    requires Runs(h, steps)
    decreases |steps|
  {
    if steps == [] then 0
    else (if Announces(h, steps[0].thread, steps[0].action, p) then 1 else 0)
         + Announcements(Do(h, steps[0].thread, steps[0].action), steps[1..], p)
  }

  lemma PendingFrame(h: Host, h': Host, t: Thread, p: PluginId)
    requires Moves(h, h', t)
    ensures Pending(h', p) == if IsPending(h'.pcs[t], p) then Pending(h, p) + {t} else Pending(h, p) - {t}
    ensures Due(h', p) == if IsDue(h'.pcs[t], p) then Due(h, p) + {t} else Due(h, p) - {t}
  {
  }

  lemma PendingStep(h: Host, t: Thread, a: Action, p: PluginId)
    requires Enabled(h, t, a) && (h.pcs[t].HasInstance() ==> h.pcs[t].p in h.registry)
    ensures var h' := Do(h, t, a);
            t in h'.pcs && if a.EnterUnload? && h.pcs[t].p == p then
              IsPending(h.pcs[t], p) && !IsPending(h'.pcs[t], p) && h'.unloadBegun[p] == h.unloadBegun[p] + 1
            else
              && h'.unloadBegun[p] == h.unloadBegun[p]
              && (IsPending(h'.pcs[t], p) <==> IsPending(h.pcs[t], p) || Calls(h, a, p))
    ensures Calls(h, a, p) ==> !IsPending(h.pcs[t], p)
  {
    hide Do;
    if OfUnload(a) {
      UnloadPendingStep(h, t, a, p);
    } else {
      OtherStep(h, t, a, p);
    }
  }

  // Every other step is made by a thread outside of unload calls.
  lemma OtherStep(h: Host, t: Thread, a: Action, p: PluginId)
    requires Enabled(h, t, a) && !OfUnload(a)
    ensures var h' := Do(h, t, a);
            && t in h'.pcs && h'.unloadBegun == h.unloadBegun
            && (InUnload(h'.pcs[t], p) ==> a.Lock? && h'.pcs[t] == UnloadLocked(h.pcs[t].p, h.pcs[t].i) && h.pcs[t].UnloadWaiting?)
            && (InUnload(h.pcs[t], p) ==> a.Lock? && h'.pcs[t].UnloadLocked? && h'.pcs[t].p == p && h.pcs[t].UnloadWaiting?)
  {
    hide InUnload;
    if OfLoad(a) {
      LoadIsOutside(h, t, a, p);
    } else {
      ServeIsOutside(h, t, a, p);
    }
  }

  lemma LoadIsOutside(h: Host, t: Thread, a: Action, p: PluginId)
    requires Enabled(h, t, a) && OfLoad(a)
    ensures var h' := Do(h, t, a);
            t in h'.pcs && h'.unloadBegun == h.unloadBegun && !InUnload(h.pcs[t], p) && !InUnload(h'.pcs[t], p)
  {
  }

  lemma ServeIsOutside(h: Host, t: Thread, a: Action, p: PluginId)
    requires Enabled(h, t, a) && !OfLoad(a) && !OfUnload(a)
    ensures var h' := Do(h, t, a);
            && t in h'.pcs && h'.unloadBegun == h.unloadBegun
            && (InUnload(h'.pcs[t], p) ==> a.Lock? && h'.pcs[t] == UnloadLocked(h.pcs[t].p, h.pcs[t].i) && h.pcs[t].UnloadWaiting?)
            && (InUnload(h.pcs[t], p) ==> a.Lock? && h'.pcs[t].UnloadLocked? && h'.pcs[t].p == p && h.pcs[t].UnloadWaiting?)
  {
  }

  lemma UnloadPendingStep(h: Host, t: Thread, a: Action, p: PluginId)
    requires Enabled(h, t, a) && OfUnload(a) && (h.pcs[t].HasInstance() ==> h.pcs[t].p in h.registry)
    ensures var h' := Do(h, t, a);
            t in h'.pcs && if a.EnterUnload? && h.pcs[t].p == p then
              IsPending(h.pcs[t], p) && !IsPending(h'.pcs[t], p) && h'.unloadBegun[p] == h.unloadBegun[p] + 1
            else
              && h'.unloadBegun[p] == h.unloadBegun[p]
              && (IsPending(h'.pcs[t], p) <==> IsPending(h.pcs[t], p) || Calls(h, a, p))
    ensures Calls(h, a, p) ==> !IsPending(h.pcs[t], p)
  {
  }

  lemma UnloadDueStep(h: Host, t: Thread, a: Action, p: PluginId)
    requires Enabled(h, t, a) && OfUnload(a) && (h.pcs[t].HasInstance() ==> h.pcs[t].p in h.registry)
    ensures t in Do(h, t, a).pcs && if a.EnterUnload? && h.pcs[t].p == p then
              IsDue(h.pcs[t], p) && !IsDue(Do(h, t, a).pcs[t], p) && !Announces(h, t, a, p)
            else
              IsDue(Do(h, t, a).pcs[t], p) <==> IsDue(h.pcs[t], p) || Announces(h, t, a, p)
    ensures Announces(h, t, a, p) ==> !IsDue(h.pcs[t], p)
  {
  }

  lemma DueStep(h: Host, t: Thread, a: Action, p: PluginId)
    requires Enabled(h, t, a) && (h.pcs[t].HasInstance() ==> h.pcs[t].p in h.registry)
    ensures t in Do(h, t, a).pcs && if a.EnterUnload? && h.pcs[t].p == p then
              IsDue(h.pcs[t], p) && !IsDue(Do(h, t, a).pcs[t], p) && !Announces(h, t, a, p)
            else
              IsDue(Do(h, t, a).pcs[t], p) <==> IsDue(h.pcs[t], p) || Announces(h, t, a, p)
    ensures Announces(h, t, a, p) ==> !IsDue(h.pcs[t], p)
  {
    hide Do;
    if OfUnload(a) {
      UnloadDueStep(h, t, a, p);
    } else {
      OtherStep(h, t, a, p);
    }
  }

  // The total grows by one with every unload call that finds the instance, and not otherwise;
  // beginnings and announcements balance.
  lemma StepBalances(h: Host, t: Thread, a: Action, p: PluginId)
    requires Inv(h) && Enabled(h, t, a)
    ensures Total(Do(h, t, a), p) == Total(h, p) + if Calls(h, a, p) then 1 else 0
    ensures Do(h, t, a).unloadBegun[p] + |Due(Do(h, t, a), p)|
         == h.unloadBegun[p] + |Due(h, p)| + if Announces(h, t, a, p) then 1 else 0
  {
    hide Inv, Do, Enabled, Announces, IsPending, IsDue;
    AnyStepMoves(h, t, a);
    WhereItStands(h, t);
    PendingStep(h, t, a, p);
    DueStep(h, t, a, p);
    PendingFrame(h, Do(h, t, a), t, p);
  }

  lemma {:induction false} BeginningsBalance(h: Host, steps: seq<Step>, p: PluginId)
    requires Inv(h) && Runs(h, steps)
    ensures After(h, steps).unloadBegun[p] + |Due(After(h, steps), p)|
         == h.unloadBegun[p] + |Due(h, p)| + Announcements(h, steps, p)
    decreases |steps|
  {
    hide Inv, Do, Enabled, Announces, Due;
    if steps != [] {
      StepKeepsInv(h, steps[0].thread, steps[0].action);
      StepBalances(h, steps[0].thread, steps[0].action, p);
      BeginningsBalance(Do(h, steps[0].thread, steps[0].action), steps[1..], p);
    }
  }

  // In every run `on_unload` has begun exactly as often as its unload was announced, less the
  // announcements that are still waiting for the lock or have just got it.
  lemma BeginsAsAnnounced(h: Host, steps: seq<Step>, p: PluginId)
    requires Initial(h) && Runs(h, steps)
    ensures After(h, steps).unloadBegun[p] == Announcements(h, steps, p) - |Due(After(h, steps), p)|
  {
    InitialInv(h);
    assert Due(h, p) == {};
    hide Inv, Runs, After;
    BeginningsBalance(h, steps, p);
  }

  // ---- Overlapping calls ----

  // Two unload calls on `p` are under way.
  ghost predicate Overlap(h: Host, p: PluginId) {
    exists t, u | t in h.pcs && u in h.pcs && t != u :: InUnload(h.pcs[t], p) && InUnload(h.pcs[u], p)
  }

  ghost predicate Overlapped(h: Host, steps: seq<Step>, p: PluginId)
    requires Runs(h, steps)
    decreases |steps|
  {
    Overlap(h, p) || (steps != [] && Overlapped(Do(h, steps[0].thread, steps[0].action), steps[1..], p))
  }

  // While the instance is in the map, an `on_unload` that has begun is still running.
  ghost predicate StillRunning(h: Host, p: PluginId) {
    p in h.instances && p in h.unloadBegun ==> exists t | t in h.pcs :: h.pcs[t].UnloadRunning? && h.pcs[t].p == p
  }

  lemma StepKeepsStillRunning(h: Host, t: Thread, a: Action, p: PluginId)
    requires Inv(h) && StillRunning(h, p) && Enabled(h, t, a)
    ensures StillRunning(Do(h, t, a), p)
  {
    AnyStepMoves(h, t, a);
    InstancesAndBeginnings(h, t, a, p);
    var h' := Do(h, t, a);
    hide Inv, Do, Enabled;
    if p in h'.instances && p in h'.unloadBegun {
      if a.EnterUnload? && h.pcs[t].p == p {
        assert h'.pcs[t].UnloadRunning?;
      } else {
        var u :| u in h.pcs && h.pcs[u].UnloadRunning? && h.pcs[u].p == p;
        assert h'.pcs[u] == h.pcs[u];
      }
    }
  }

  lemma InstancesAndBeginnings(h: Host, t: Thread, a: Action, p: PluginId)
    requires Inv(h) && Enabled(h, t, a)
    ensures var h' := Do(h, t, a);
            && (p in h'.instances && p in h'.unloadBegun ==>
                  || (a.EnterUnload? && h.pcs[t].p == p && h'.pcs[t] == UnloadRunning(p, h.pcs[t].i))
                  || (p in h.instances && p in h.unloadBegun))
            && (p in h'.instances && h.pcs[t].UnloadRunning? ==> h.pcs[t].p != p)
  {
    hide Inv;
    WhereItStands(h, t);
    BegunIsRetired(h, p);
  }

  lemma BegunIsRetired(h: Host, p: PluginId)
    requires Inv(h)
    ensures p in h.unloadBegun ==> Retired(h, p)
  {
  }

  lemma OverlapCounts(h: Host, p: PluginId)
    requires Inv(h) && Overlap(h, p)
    ensures Total(h, p) >= 2
  {
    hide Inv;
    var t, u :| t in h.pcs && u in h.pcs && t != u && InUnload(h.pcs[t], p) && InUnload(h.pcs[u], p);
    NotBothBegun(h, p, t, u);
    AtLeast(Pending(h, p), t, u);
  }

  lemma AtLeast<T>(s: set<T>, t: T, u: T)
    requires t != u
    ensures t in s || u in s ==> |s| >= 1
    ensures t in s && u in s ==> |s| >= 2
  {
    CardinalityMonotone({t, u} * s, s);
    assert t in s && u in s ==> {t, u} * s == {t, u};
    assert t in s ==> t in {t, u} * s;
  }

  lemma CardinalityMonotone<T>(a: set<T>, b: set<T>)
    requires a <= b
    ensures |a| <= |b|
  {
    assert b == a + (b - a);
  }

  // Of two threads in unload calls one at least is still to begin; the other may have begun.
  lemma NotBothBegun(h: Host, p: PluginId, t: Thread, u: Thread)
    requires Inv(h) && t in h.pcs && u in h.pcs && t != u && InUnload(h.pcs[t], p) && InUnload(h.pcs[u], p)
    ensures IsPending(h.pcs[t], p) || IsPending(h.pcs[u], p)
    ensures !IsPending(h.pcs[t], p) || !IsPending(h.pcs[u], p) ==> p in h.unloadBegun
  {
    hide LoadersAlone;
    UnloadsMet(h, t);
    UnloadsMet(h, u);
    if h.pcs[t].HoldsLock() && h.pcs[u].HoldsLock() {
      OneHolderPerPlugin(h, t, u);
    }
  }

  lemma SecondCallOverlaps(h: Host, t: Thread, p: PluginId)
    requires StillRunning(h, p) && Enabled(h, t, BeginUnload(p)) && p in h.instances && Total(h, p) >= 1
    ensures Overlap(Do(h, t, BeginUnload(p)), p)
  {
    var u;
    if Pending(h, p) != {} {
      u :| u in Pending(h, p);
    } else {
      u :| u in h.pcs && h.pcs[u].UnloadRunning? && h.pcs[u].p == p;
    }
    var h' := Do(h, t, BeginUnload(p));
    assert InUnload(h'.pcs[u], p) && InUnload(h'.pcs[t], p) && t != u;
  }

  lemma {:induction false} TotalTellsOverlap(h: Host, steps: seq<Step>, p: PluginId)
    requires Inv(h) && StillRunning(h, p) && Runs(h, steps)
    ensures Total(After(h, steps), p) >= 2 <==> (Total(h, p) >= 2 || Overlapped(h, steps, p))
    decreases |steps|
  {
    hide Inv, Do, Enabled, StillRunning, Total, Overlap;
    if Overlap(h, p) {
      OverlapCounts(h, p);
    }
    if steps != [] {
      var (t, a) := (steps[0].thread, steps[0].action);
      var h' := Do(h, t, a);
      StepKeepsInv(h, t, a);
      StepKeepsStillRunning(h, t, a, p);
      StepBalances(h, t, a, p);
      if Calls(h, a, p) && Total(h, p) >= 1 {
        SecondCallOverlaps(h, t, p);
      }
      TotalTellsOverlap(h', steps[1..], p);
    }
  }

  // ---- What is pending comes to begin ----

  // No further unload call on `p` is made.
  predicate Quiet(steps: seq<Step>, p: PluginId) {
    forall s | s in steps :: s.action != BeginUnload(p)
  }

  lemma {:induction false} QuietKeepsTotal(h: Host, steps: seq<Step>, p: PluginId)
    requires Inv(h) && Runs(h, steps) && Quiet(steps, p)
    ensures Total(After(h, steps), p) == Total(h, p)
    decreases |steps|
  {
    hide Inv, Do, Enabled, Total;
    if steps != [] {
      StepKeepsInv(h, steps[0].thread, steps[0].action);
      assert steps[0] in steps && forall s | s in steps[1..] :: s in steps;
      StepBalances(h, steps[0].thread, steps[0].action, p);
      QuietKeepsTotal(Do(h, steps[0].thread, steps[0].action), steps[1..], p);
    }
  }

  // The way from holding the lock to giving it back.
  function NextOf(pc: Pc): Action
    requires pc.HoldsLock()
  {
    match pc
    case InvokeLocked(_, _) => Recheck
    case InvokeRechecked(_, _) => EnterAction
    case InvokeRunning(_, _) => LeaveAction
    case UnloadLocked(_, _) => EnterUnload
    case UnloadRunning(_, _) => LeaveUnload
    case UnloadRemoved(_, _) => FinishUnload
    case _ => LeaveHealthCheck
  }

  function StepsToGo(pc: Pc): nat {
    if pc.InvokeLocked? || pc.UnloadLocked? then 3
    else if pc.InvokeRechecked? || pc.UnloadRunning? then 2
    else if pc.HoldsLock() then 1
    else 0
  }

  lemma HolderStep(h: Host, t: Thread)
    requires t in h.pcs && h.pcs[t].HoldsLock()
    ensures var a := NextOf(h.pcs[t]);
            && Enabled(h, t, a) && !a.BeginUnload? && Moves(h, Do(h, t, a), t)
            && var (pc, i) := (Do(h, t, a).pcs[t], h.pcs[t].i);
               if pc.HoldsLock() then pc.i == i && StepsToGo(pc) < StepsToGo(h.pcs[t])
               else pc.Idle? && i !in Do(h, t, a).locks
  {
    AnyStepMoves(h, t, NextOf(h.pcs[t]));
    hide Moves;
    if h.pcs[t].HasMarked() {
      UnloaderStep(h, t);
    }
  }

  lemma UnloaderStep(h: Host, t: Thread)
    requires t in h.pcs && h.pcs[t].HoldsLock() && h.pcs[t].HasMarked()
    ensures var a := NextOf(h.pcs[t]);
            && Enabled(h, t, a) && !a.BeginUnload?
            && var (pc, i) := (Do(h, t, a).pcs[t], h.pcs[t].i);
               if pc.HoldsLock() then pc.i == i && StepsToGo(pc) < StepsToGo(h.pcs[t])
               else pc.Idle? && i !in Do(h, t, a).locks
  {
  }

  // Whoever holds a lock can go on and give it back.
  lemma {:induction false} HolderFinishes(h: Host, t: Thread, p: PluginId) returns (steps: seq<Step>)
    requires t in h.pcs && h.pcs[t].HoldsLock()
    ensures Runs(h, steps) && Quiet(steps, p)
    ensures Moves(h, After(h, steps), t) && After(h, steps).pcs[t].Idle? && h.pcs[t].i !in After(h, steps).locks
    decreases StepsToGo(h.pcs[t])
  {
    hide Do, Enabled, Runs, After;
    HolderStep(h, t);
    var a := NextOf(h.pcs[t]);
    OneStep(h, t, a);
    steps := [Step(t, a)];
    if Do(h, t, a).pcs[t].HoldsLock() {
      var rest := HolderFinishes(Do(h, t, a), t, p);
      RunsAppend(h, steps, rest);
      steps := steps + rest;
    }
  }

  // The last pending one after another, every unload call with a clone gets to begin.
  lemma {:induction false} PendingBegins(h: Host, p: PluginId) returns (steps: seq<Step>)
    requires Inv(h)
    ensures Runs(h, steps) && Quiet(steps, p)
    ensures After(h, steps).unloadBegun[p] == Total(h, p)
    decreases |Pending(h, p)|
  {
    hide Inv, Runs, After;
    if Pending(h, p) == {} {
      steps := [];
      NoStep(h);
    } else {
      var t :| t in Pending(h, p);
      steps := OneBegins(h, p, t);
      RunKeepsInv(h, steps);
      QuietKeepsTotal(h, steps, p);
      CardinalityLess(Pending(After(h, steps), p), Pending(h, p), t);
      var rest := PendingBegins(After(h, steps), p);
      RunsAppend(h, steps, rest);
      steps := steps + rest;
    }
  }

  lemma NoStep(h: Host)
    ensures Runs(h, []) && After(h, []) == h
  {
  }

  lemma CardinalityLess<T>(a: set<T>, b: set<T>, x: T)
    requires a <= b - {x} && x in b
    ensures |a| < |b|
  {
    CardinalityMonotone(a, b - {x});
  }

  // A pending unload call announces itself if it has not yet, waits for the lock if somebody has it,
  // and begins.
  lemma OneBegins(h: Host, p: PluginId, t: Thread) returns (steps: seq<Step>)
    requires Inv(h) && t in Pending(h, p)
    ensures Runs(h, steps) && Quiet(steps, p) && Pending(After(h, steps), p) <= Pending(h, p) - {t}
  {
    hide Inv, Runs, After, Do, Enabled;
    var announce := GetsToWait(h, p, t);
    var s1 := After(h, announce);
    RunKeepsInv(h, announce);
    var lock := GetsLock(s1, p, t);
    var s2 := After(s1, lock);
    Enters(s2, p, t);
    OneStep(s2, t, EnterUnload);
    RunsAppend(s1, lock, [Step(t, EnterUnload)]);
    RunsAppend(h, announce, lock + [Step(t, EnterUnload)]);
    steps := announce + (lock + [Step(t, EnterUnload)]);
  }

  lemma Enters(h: Host, p: PluginId, t: Thread)
    requires t in h.pcs && h.pcs[t].UnloadLocked? && h.pcs[t].p == p
    ensures Enabled(h, t, EnterUnload) && Pending(Do(h, t, EnterUnload), p) <= Pending(h, p) - {t}
  {
  }

  lemma GetsToWait(h: Host, p: PluginId, t: Thread) returns (steps: seq<Step>)
    requires Inv(h) && t in Pending(h, p)
    ensures Runs(h, steps) && Quiet(steps, p) && Pending(After(h, steps), p) <= Pending(h, p)
    ensures t in After(h, steps).pcs && IsDue(After(h, steps).pcs[t], p)
  {
    WhereItStands(h, t);
    hide Inv, Runs, After;
    if h.pcs[t].UnloadCloned? {
      OneStep(h, t, MarkUnloading);
      steps := [Step(t, MarkUnloading)];
    } else {
      NoStep(h);
      steps := [];
    }
  }

  lemma GetsLock(h: Host, p: PluginId, t: Thread) returns (steps: seq<Step>)
    requires Inv(h) && t in h.pcs && IsDue(h.pcs[t], p)
    ensures Runs(h, steps) && Quiet(steps, p) && Pending(After(h, steps), p) <= Pending(h, p)
    ensures t in After(h, steps).pcs && After(h, steps).pcs[t].UnloadLocked? && After(h, steps).pcs[t].p == p
  {
    hide Inv, Runs, After;
    NoStep(h);
    steps := [];
    if h.pcs[t].UnloadWaiting? {
      var i := h.pcs[t].i;
      if i in h.locks {
        LockHasHolder(h, i);
        steps := HolderFinishes(h, h.locks[i], p);
      }
      OneMore(h, steps, t, Lock);
      steps := steps + [Step(t, Lock)];
    }
  }

  lemma LockHasHolder(h: Host, i: Instance)
    requires Inv(h) && i in h.locks
    ensures h.locks[i] in h.pcs && h.pcs[h.locks[i]].HoldsLock() && h.pcs[h.locks[i]].i == i
  {
  }

  // ---- Main results ----

  lemma StartsEmpty(h: Host, p: PluginId)
    requires Initial(h)
    ensures Inv(h) && StillRunning(h, p) && Total(h, p) == 0
  {
    InitialInv(h);
    assert Pending(h, p) == {};
  }

  // After any run, `on_unload` of a plugin can come to begin a second time, without any further
  // unload call on it, exactly when two unload calls on it overlapped somewhere in the run.
  lemma SecondUnloadIff(h: Host, steps: seq<Step>, p: PluginId)
    requires Initial(h) && Runs(h, steps)
    ensures (exists more :: && Runs(After(h, steps), more) && Quiet(more, p)
                            && After(After(h, steps), more).unloadBegun[p] >= 2)
       <==> Overlapped(h, steps, p)
  {
    StartsEmpty(h, p);
    RunKeepsInv(h, steps);
    TotalTellsOverlap(h, steps, p);
    var s := After(h, steps);
    hide Inv, Initial, Runs, After, Overlapped, Pending;
    forall more | Runs(s, more) && Quiet(more, p) && After(s, more).unloadBegun[p] >= 2 ensures Overlapped(h, steps, p) {
      QuietKeepsTotal(s, more, p);
    }
    if Overlapped(h, steps, p) {
      var more := PendingBegins(s, p);
    }
  }

  // So in runs without such an overlap it begins at most once.
  lemma BeginsOnceWithoutOverlap(h: Host, steps: seq<Step>, p: PluginId)
    requires Initial(h) && Runs(h, steps) && !Overlapped(h, steps, p)
    ensures After(h, steps).unloadBegun[p] <= 1
  {
    StartsEmpty(h, p);
    TotalTellsOverlap(h, steps, p);
  }

  lemma {:induction false} NoOverlapAlone(h: Host, steps: seq<Step>, p: PluginId)
    requires Runs(h, steps) && |h.pcs.Keys| <= 1
    ensures !Overlapped(h, steps, p)
    decreases |steps|
  {
    if Overlap(h, p) {
      var t, u :| t in h.pcs && u in h.pcs && t != u && InUnload(h.pcs[t], p) && InUnload(h.pcs[u], p);
      AtLeast(h.pcs.Keys, t, u);
    }
    if steps != [] {
      AnyStepMoves(h, steps[0].thread, steps[0].action);
      hide Do, Enabled, Overlap;
      NoOverlapAlone(Do(h, steps[0].thread, steps[0].action), steps[1..], p);
    }
  }

  // `on_unload` is called once, as documented, in every run exactly when there is at most one thread.
  lemma UnloadsOnceIff(h: Host)
    requires Initial(h)
    ensures (forall steps, p: PluginId | Runs(h, steps) :: After(h, steps).unloadBegun[p] <= 1) <==> |h.pcs.Keys| <= 1
  {
    hide Runs, After, Initial, Overlapped;
    if |h.pcs.Keys| <= 1 {
      forall steps, p: PluginId | Runs(h, steps) ensures After(h, steps).unloadBegun[p] <= 1 {
        NoOverlapAlone(h, steps, p);
        BeginsOnceWithoutOverlap(h, steps, p);
      }
    } else {
      var t :| t in h.pcs;
      var u := AnotherThread(h, t);
      var load := CanLoad(h, t);
      var first, again := UnloadCanBeginTwice(After(h, load), 0, 0, t, u);
      RunsAppend(h, load, first + again);
      assert After(h, load + (first + again)).unloadBegun[0] >= 2;
    }
  }

  // The first thread takes its clone, the second one unloads the plugin to the end, and then the
  // first one goes on: the plugin turns from unloaded to unloading, and `on_unload` begins again.
  lemma UnloadCanBeginTwice(h: Host, p: PluginId, i: Instance, t: Thread, u: Thread) returns (first: seq<Step>, again: seq<Step>)
    requires Loaded(h, p, i) && t in h.pcs && u in h.pcs && t != u
    ensures Runs(h, first) && p in After(h, first).registry && After(h, first).registry[p].Unloaded?
    ensures After(h, first).unloadBegun[p] == h.unloadBegun[p] + 1
    ensures Runs(After(h, first), again) && Quiet(again, p) && Runs(h, first + again)
    ensures var s := After(h, first + again);
            && t in s.pcs && s.pcs[t] == UnloadRunning(p, i) && p in s.registry && s.registry[p].Unloading?
            && s.unloadBegun[p] == h.unloadBegun[p] + 2
  {
    hide Runs, After, Loaded;
    first := UnloadsInBetween(h, p, i, t, u);
    again := BeginsAgain(After(h, first), p, i, t);
    RunsAppend(h, first, again);
  }

  lemma UnloadsInBetween(h: Host, p: PluginId, i: Instance, t: Thread, u: Thread) returns (steps: seq<Step>)
    requires Loaded(h, p, i) && t in h.pcs && u in h.pcs && t != u
    ensures Runs(h, steps)
    ensures var s := After(h, steps);
            && p in s.registry && s.registry[p].Unloaded? && t in s.pcs && s.pcs[t] == UnloadCloned(p, i)
            && i !in s.locks && s.unloadBegun[p] == h.unloadBegun[p] + 1
  {
    hide Runs, After;
    OneStep(h, t, BeginUnload(p));
    steps := [Step(t, BeginUnload(p))];
    var whole := UnloadsAlone(After(h, steps), p, i, u);
    RunsAppend(h, steps, whole);
    steps := steps + whole;
  }

  lemma BeginsAgain(h: Host, p: PluginId, i: Instance, t: Thread) returns (steps: seq<Step>)
    requires p in h.registry && t in h.pcs && h.pcs[t] == UnloadCloned(p, i) && i !in h.locks
    ensures Runs(h, steps) && Quiet(steps, p)
    ensures var s := After(h, steps);
            && t in s.pcs && s.pcs[t] == UnloadRunning(p, i) && p in s.registry && s.registry[p].Unloading?
            && s.unloadBegun[p] == h.unloadBegun[p] + 1
  {
    hide Runs, After;
    OneStep(h, t, MarkUnloading);
    steps := [Step(t, MarkUnloading)];
    var enter := CanEnter(After(h, steps), p, i, t);
    RunsAppend(h, steps, enter);
    steps := steps + enter;
  }

  // ---- Unloaded is not the end either ----

  // The map entry is gone when an unload is over.
  ghost predicate Gone(h: Host, p: PluginId) {
    && (p in h.registry && h.registry[p].Unloaded? ==> p !in h.instances)
    && forall t | t in h.pcs && h.pcs[t].UnloadRemoved? && h.pcs[t].p == p :: p !in h.instances
  }

  lemma LoadKeepsGone(h: Host, t: Thread, a: Action, p: PluginId)
    requires Gone(h, p) && Enabled(h, t, a) && OfLoad(a) && (a.InsertInstance? && h.pcs[t].p == p ==> LoadedNow(h, p))
    ensures Gone(Do(h, t, a), p)
  {
  }

  // `p` is active, and no thread has come to remove it.
  ghost predicate LoadedNow(h: Host, p: PluginId) {
    && p in h.registry && h.registry[p].Active?
    && forall t | t in h.pcs :: !(h.pcs[t].UnloadRemoved? && h.pcs[t].p == p)
  }

  lemma InsertsWhenLoaded(h: Host, t: Thread)
    requires Inv(h) && t in h.pcs && h.pcs[t].LoadActivated?
    ensures LoadedNow(h, h.pcs[t].p)
  {
    hide OneInstance, LocksHeld;
    assert LoadingStateOf(h, h.pcs[t]);
    forall u | u in h.pcs ensures MeetsUnload(h, h.pcs[u]) {
      UnloadsMet(h, u);
    }
  }

  lemma ServeKeepsGone(h: Host, t: Thread, a: Action, p: PluginId)
    requires Gone(h, p) && Enabled(h, t, a) && !OfLoad(a)
    ensures Gone(Do(h, t, a), p)
  {
  }

  lemma StepKeepsGone(h: Host, t: Thread, a: Action, p: PluginId)
    requires Inv(h) && Gone(h, p) && Enabled(h, t, a)
    ensures Gone(Do(h, t, a), p)
  {
    hide Inv, Gone, LoadedNow, Do;
    if OfLoad(a) {
      if a.InsertInstance? {
        InsertsWhenLoaded(h, t);
      }
      LoadKeepsGone(h, t, a, p);
    } else {
      ServeKeepsGone(h, t, a, p);
    }
  }

  lemma {:induction false} RunKeepsGone(h: Host, steps: seq<Step>, p: PluginId)
    requires Inv(h) && Gone(h, p) && Runs(h, steps)
    ensures Gone(After(h, steps), p)
    decreases |steps|
  {
    hide Inv, Gone, Do, Enabled;
    if steps != [] {
      StepKeepsInv(h, steps[0].thread, steps[0].action);
      StepKeepsGone(h, steps[0].thread, steps[0].action, p);
      RunKeepsGone(Do(h, steps[0].thread, steps[0].action), steps[1..], p);
    }
  }

  // Unloaded, and nobody has a clone with which to announce another unload.
  ghost predicate Over(h: Host, p: PluginId) {
    && p in h.registry && h.registry[p].Unloaded? && p !in h.instances
    && forall t | t in h.pcs :: !(h.pcs[t].UnloadCloned? && h.pcs[t].p == p)
  }

  lemma LoadKeepsOver(h: Host, t: Thread, a: Action, p: PluginId)
    requires Over(h, p) && Enabled(h, t, a) && OfLoad(a) && (h.pcs[t].IsLoading() ==> h.pcs[t].p != p)
    ensures Over(Do(h, t, a), p)
  {
  }

  lemma ServeKeepsOver(h: Host, t: Thread, a: Action, p: PluginId)
    requires Over(h, p) && Enabled(h, t, a) && !OfLoad(a)
    ensures Over(Do(h, t, a), p)
  {
  }

  lemma StepKeepsOver(h: Host, t: Thread, a: Action, p: PluginId)
    requires Inv(h) && Over(h, p) && Enabled(h, t, a)
    ensures Over(Do(h, t, a), p)
  {
    WhereItStands(h, t);
    assert Retired(h, p);
    hide Inv, Over, Do;
    if OfLoad(a) {
      LoadKeepsOver(h, t, a, p);
    } else {
      ServeKeepsOver(h, t, a, p);
    }
  }

  lemma {:induction false} RunKeepsOver(h: Host, steps: seq<Step>, p: PluginId)
    requires Inv(h) && Over(h, p) && Runs(h, steps)
    ensures Over(After(h, steps), p)
    decreases |steps|
  {
    hide Inv, Over, Do, Enabled;
    if steps != [] {
      StepKeepsInv(h, steps[0].thread, steps[0].action);
      StepKeepsOver(h, steps[0].thread, steps[0].action, p);
      RunKeepsOver(Do(h, steps[0].thread, steps[0].action), steps[1..], p);
    }
  }

  ghost predicate StaysUnloaded(h: Host, p: PluginId) {
    forall more | Runs(h, more) :: p in After(h, more).registry && After(h, more).registry[p].Unloaded?
  }

  lemma StartsGone(h: Host, p: PluginId)
    requires Initial(h)
    ensures Gone(h, p)
  {
  }

  lemma GoneIsOver(h: Host, p: PluginId)
    requires Gone(h, p) && p in h.registry && h.registry[p].Unloaded?
    requires forall t | t in h.pcs :: !(h.pcs[t].UnloadCloned? && h.pcs[t].p == p)
    ensures Over(h, p)
  {
  }

  lemma OverIsUnloaded(h: Host, p: PluginId)
    requires Over(h, p)
    ensures p in h.registry && h.registry[p].Unloaded?
  {
  }

  lemma GoesBack(h: Host, t: Thread, p: PluginId)
    requires p in h.registry && t in h.pcs && h.pcs[t].UnloadCloned? && h.pcs[t].p == p
    ensures Enabled(h, t, MarkUnloading)
    ensures p in Do(h, t, MarkUnloading).registry && Do(h, t, MarkUnloading).registry[p].Unloading?
  {
  }

  // In a reachable state an unloaded plugin stays unloaded, whatever happens, exactly when no thread
  // is left that cloned its instance for an unload and has not announced it.
  lemma UnloadedForGoodIff(h: Host, steps: seq<Step>, p: PluginId)
    requires Initial(h) && Runs(h, steps)
    requires p in After(h, steps).registry && After(h, steps).registry[p].Unloaded?
    ensures var s := After(h, steps);
            StaysUnloaded(s, p) <==> forall t | t in s.pcs :: !(s.pcs[t].UnloadCloned? && s.pcs[t].p == p)
  {
    hide Inv, Initial, Runs, After, Do, Enabled, Gone, Over;
    InitialInv(h);
    StartsGone(h, p);
    RunKeepsInv(h, steps);
    RunKeepsGone(h, steps, p);
    var s := After(h, steps);
    if t :| t in s.pcs && s.pcs[t].UnloadCloned? && s.pcs[t].p == p {
      GoesBack(s, t, p);
      OneStep(s, t, MarkUnloading);
      assert !StaysUnloaded(s, p);
    } else {
      GoneIsOver(s, p);
      OverStays(s, p);
    }
  }

  lemma OverStays(h: Host, p: PluginId)
    requires Inv(h) && Over(h, p)
    ensures StaysUnloaded(h, p)
  {
    hide Inv, Runs, After, Over;
    forall more | Runs(h, more) ensures p in After(h, more).registry && After(h, more).registry[p].Unloaded? {
      RunKeepsOver(h, more, p);
      OverIsUnloaded(After(h, more), p);
    }
  }
}
