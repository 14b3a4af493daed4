/** What single calls of the plugin host achieve (swarm-plugin/host.rs), told from the state a plugin
    is in: when an invocation is served and when it is refused, and when a load is taken up. */
module PluginCalls {
  import opened Wrappers
  import opened PluginHosts

  ghost predicate IsActive(h: Host, p: PluginId) {
    p in h.registry && h.registry[p] == Active
  }

  // An invocation on an active, loaded plugin whose lock is free runs the action, and leaves everything
  // as it was.
  lemma InvocationIsServed(h: Host, t: Thread, p: PluginId, i: Instance) returns (before: seq<Step>)
    requires t in h.pcs && h.pcs[t] == Idle && IsActive(h, p) && p in h.instances && h.instances[p] == i && i !in h.locks
    ensures Runs(h, before) && After(h, before).pcs == h.pcs[t := InvokeRunning(p, i)]
    ensures i in After(h, before).locks && After(h, before).locks[i] == t
    ensures Enabled(After(h, before), t, LeaveAction) && Do(After(h, before), t, LeaveAction) == h
  {
    hide Runs, After, Do, Enabled;
    var looked := GetsToLock(h, t, p, i);
    RunsOnceLocked(After(h, looked), t, p, i);
    RunsAppend(h, looked, [Step(t, Recheck), Step(t, EnterAction)]);
    before := looked + [Step(t, Recheck), Step(t, EnterAction)];
    var s := After(h, before);
    assert s.pcs == h.pcs[t := InvokeRunning(p, i)];
    assert s == h.(pcs := h.pcs[t := InvokeRunning(p, i)], locks := h.locks[i := t]);
    LeavesAsItWas(h, t, p, i);
  }

  lemma LeavesAsItWas(h: Host, t: Thread, p: PluginId, i: Instance)
    requires t in h.pcs && h.pcs[t] == Idle && i !in h.locks
    ensures var s := h.(pcs := h.pcs[t := InvokeRunning(p, i)], locks := h.locks[i := t]);
            Enabled(s, t, LeaveAction) && Do(s, t, LeaveAction) == h
  {
    assert h.pcs[t := InvokeRunning(p, i)][t := Idle] == h.pcs && h.locks[i := t] - {i} == h.locks;
  }

  lemma GetsToLock(h: Host, t: Thread, p: PluginId, i: Instance) returns (steps: seq<Step>)
    requires t in h.pcs && h.pcs[t] == Idle && IsActive(h, p) && p in h.instances && h.instances[p] == i && i !in h.locks
    ensures Runs(h, steps)
    ensures After(h, steps) == h.(pcs := h.pcs[t := InvokeLocked(p, i)], locks := h.locks[i := t])
  {
    hide Runs, After;
    OneStep(h, t, BeginInvoke(p));
    steps := [Step(t, BeginInvoke(p))];
    OneMore(h, steps, t, CloneForInvoke);
    steps := steps + [Step(t, CloneForInvoke)];
    OneMore(h, steps, t, Lock);
    steps := steps + [Step(t, Lock)];
    assert h.pcs[t := InvokeChecked(p)][t := InvokeWaiting(p, i)][t := InvokeLocked(p, i)] == h.pcs[t := InvokeLocked(p, i)];
  }

  lemma RunsOnceLocked(h: Host, t: Thread, p: PluginId, i: Instance)
    requires t in h.pcs && h.pcs[t] == InvokeLocked(p, i) && IsActive(h, p)
    ensures Runs(h, [Step(t, Recheck), Step(t, EnterAction)])
    ensures After(h, [Step(t, Recheck), Step(t, EnterAction)]) == h.(pcs := h.pcs[t := InvokeRunning(p, i)])
  {
    hide Runs, After;
    OneStep(h, t, Recheck);
    OneMore(h, [Step(t, Recheck)], t, EnterAction);
    assert [Step(t, Recheck)] + [Step(t, EnterAction)] == [Step(t, Recheck), Step(t, EnterAction)];
    assert h.pcs[t := InvokeRechecked(p, i)][t := InvokeRunning(p, i)] == h.pcs[t := InvokeRunning(p, i)];
  }

  // Both looks at the registry let an invocation pass exactly if the plugin is active at that moment;
  // a refused one holds nothing any more.
  lemma InvocationPassesIff(h: Host, t: Thread, a: Action)
    requires Enabled(h, t, a) && (a.BeginInvoke? || a.Recheck?)
    ensures var (p, pc') := (if a.BeginInvoke? then a.p else h.pcs[t].p, Do(h, t, a).pcs[t]);
            && (pc' == (if a.BeginInvoke? then InvokeChecked(p) else InvokeRechecked(p, h.pcs[t].i)) <==> IsActive(h, p))
            && (!IsActive(h, p) ==> pc' == Idle && (a.Recheck? ==> h.pcs[t].i !in Do(h, t, a).locks))
            && Do(h, t, a).registry == h.registry
  {
  }

  // A load is taken up exactly for a plugin that is not known or whose load has failed, so neither an
  // active one nor one that has been unloaded can be loaded again under its id.
  lemma LoadIsTakenUpIff(h: Host, t: Thread, p: PluginId)
    requires Enabled(h, t, BeginLoad(p))
    ensures var h' := Do(h, t, BeginLoad(p));
            if p !in h.registry || h.registry[p] == Failed then
              h' == h.(pcs := h.pcs[t := LoadRegistered(p)], registry := h.registry[p := Discovered])
            else h' == h
  {
  }

  // A failed load leaves no instance, and the plugin can be loaded once more.
  lemma FailedLoadCanBeRepeated(h: Host, t: Thread, p: PluginId) returns (steps: seq<Step>)
    requires t in h.pcs && h.pcs[t] == Idle && p !in h.registry && p !in h.instances
    requires forall u | u in h.pcs :: !(h.pcs[u].IsLoading() && h.pcs[u].p == p)
    ensures Runs(h, steps)
    ensures var s := After(h, steps);
            && s == h.(registry := h.registry[p := Failed]) && Enabled(s, t, BeginLoad(p))
            && Do(s, t, BeginLoad(p)).pcs[t] == LoadRegistered(p)
  {
    hide Runs, After;
    OneStep(h, t, BeginLoad(p));
    steps := [Step(t, BeginLoad(p))];
    OneMore(h, steps, t, MarkLoading);
    steps := steps + [Step(t, MarkLoading)];
    OneMore(h, steps, t, LoadFails);
    steps := steps + [Step(t, LoadFails)];
    var s := After(h, steps);
    assert s.pcs == h.pcs;
    assert s.registry == h.registry[p := Failed];
  }

  // A health check and an unload are taken up exactly for a plugin with an instance, whatever its state.
  lemma InstanceIsAskedForIff(h: Host, t: Thread, p: PluginId)
    requires t in h.pcs && h.pcs[t] == Idle
    ensures Enabled(h, t, BeginUnload(p)) && Enabled(h, t, BeginHealthCheck(p))
    ensures if p in h.instances then
              && Do(h, t, BeginUnload(p)) == h.(pcs := h.pcs[t := UnloadCloned(p, h.instances[p])])
              && Do(h, t, BeginHealthCheck(p)) == h.(pcs := h.pcs[t := HealthWaiting(p, h.instances[p])])
            else Do(h, t, BeginUnload(p)) == h && Do(h, t, BeginHealthCheck(p)) == h
  {
  }
}
