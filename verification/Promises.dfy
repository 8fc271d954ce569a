/** What the application can promise to keep every run orderly: that no process of an outdated
    group binds the port again, or that no process enters its event loop while a kill of its group
    is pending. Each is enough. */
module Promises {
  import opened Protocol
  import opened Accounting
  import opened Service
  import opened PendingKills

  /** Ready in the current version and in its event loop, or nobody has updated yet. */
  ghost predicate Serves(s: Sys, w: Pid) {
    Ready(s, w, s.st.version) && (s.procs[w].live || s.st.version == 0)
  }

  ghost predicate Attended(s: Sys) { s.started ==> exists w :: Serves(s, w) }

  /** Orderly so far, and somebody in an event loop serves. */
  ghost predicate Steady(s: Sys) { Orderliness(s) && Attended(s) }

  /** A bump by a process that no pending kill will hit. */
  ghost predicate SafeBump(s: Sys, step: Step)
    requires Enabled(s, step)
  {
    BumpStep(s, step) ==> !Doomed(s, s.procs[step.p].gid)
  }

  lemma ServerOutlives(s: Sys, p: Pid, w: Pid)
    requires Steady(s) && s.started && Enabled(s, Decrement(p)) && Serves(s, w)
    ensures s.workers[s.procs[p].gid] == 1 ==> s.procs[w].gid != s.procs[p].gid
  {
    LastWorkerLeaves(s, p);
    assert OneHistory(s, s.procs[p]) && OneHistory(s, s.procs[w]);
    assert s.procs[w].live && Working(s.procs[w]);
  }

  lemma BumperServes(s: Sys, p: Pid)
    requires Steady(s) && s.started && Enabled(s, MonitorRecord(p)) && BumpStep(s, MonitorRecord(p))
    requires !Doomed(s, s.procs[p].gid)
    ensures Ready(s, p, s.st.version + 1) && s.procs[p].live
  {
    assert OneHistory(s, s.procs[p]);
  }

  lemma LiveKept(s: Sys, step: Step, w: Pid)
    requires Enabled(s, step) && w in s.procs && s.procs[w].live
    ensures w in Apply(s, step).procs && Apply(s, step).procs[w].live
  {
  }

  lemma ServerStays(s: Sys, step: Step, w: Pid, v: int)
    requires Ready(s, w, v) && ProcShape(s, s.procs[w]) && (s.procs[w].live || v == 0)
    requires Enabled(s, step) && Allowed(Basic, s, step) && !step.BindFirst?
    requires v == Apply(s, step).st.version >= s.st.version
    requires step.Decrement? ==> s.procs[step.p].gid != s.procs[w].gid || s.workers[s.procs[w].gid] != 1
    ensures Serves(Apply(s, step), w)
  {
    ReadyKept(s, step, w, v);
    if s.procs[w].live { LiveKept(s, step, w); }
  }

  /** Who serves after the step. */
  lemma NextServer(s: Sys, step: Step) returns (w: Pid)
    requires Steady(s) && s.started && Enabled(s, step) && Allowed(Basic, s, step) && SafeBump(s, step)
    ensures !Breaks(s, step) && Serves(Apply(s, step), w)
  {
    hide Apply, ProcShape, OneHistory;
    w :| Serves(s, w);
    ServedMeansTaken(s);
    VersionMoves(s, step);
    var v := s.st.version;
    if BumpStep(s, step) {
      w, v := step.p, v + 1;
      BumperServes(s, w);
    } else if step.Decrement? {
      ServerOutlives(s, step.p, w);
    }
    ServerStays(s, step, w, v);
  }

  lemma SteadyStep(s: Sys, step: Step)
    requires Steady(s) && Enabled(s, step) && Allowed(Basic, s, step) && SafeBump(s, step)
    ensures Allowed(Orderly, s, step) && Steady(Apply(s, step))
  {
    if s.started {
      var w := NextServer(s, step);
      OrderlyStep(s, step);
    } else {
      if Breaks(s, step) { BreakIsAfterStart(s, step); }
      OrderlyStep(s, step);
      if step.BindFirst? {
        FirstBindOpens(s, step.p);
        assert Serves(Apply(s, step), step.p);
      } else {
        VersionMoves(s, step);
      }
    }
  }

  // ---------------------------------------------------------------- nobody returns

  /** A group with an outdated record has none that waits for the next version. */
  ghost predicate OutdatedGroupsEnd(s: Sys) {
    forall p, q :: HasRecord(s, p) && HasRecord(s, q) ==> NotBoth(s, p, q)
  }

  ghost predicate NotBoth(s: Sys, p: Pid, q: Pid)
    requires HasRecord(s, p) && HasRecord(s, q)
  {
    s.procs[p].gid == s.procs[q].gid && VersionOf(s, p) < s.st.version ==> VersionOf(s, q) <= s.st.version
  }

  lemma NotBothAt(s: Sys, step: Step, p: Pid, q: Pid)
    requires OutdatedGroupsEnd(s) && Enabled(s, step) && Allowed(NoReturn, s, step) && !step.BindFirst?
    requires forall q :: q in s.procs ==> ProcShape(s, s.procs[q]) && OneHistory(s, s.procs[q])
    requires HasRecord(Apply(s, step), p) && HasRecord(Apply(s, step), q)
    ensures NotBoth(Apply(s, step), p, q)
  {
    var s' := Apply(s, step);
    VersionMoves(s, step);
    if step.Inherit? && (p == step.p || q == step.p) {
      if q == step.p && p != q {
        RecordStays(s, step, p);
        if s.procs[p].gid == s.procs[q].gid { assert !OutdatedGroup(s, s.procs[q].gid); }
      }
    } else {
      RecordStays(s, step, p);
      RecordStays(s, step, q);
      assert NotBoth(s, Origin(step, p), Origin(step, q));
    }
  }

  lemma OutdatedKept(s: Sys, step: Step)
    requires Orderliness(s) && OutdatedGroupsEnd(s) && Enabled(s, step) && Allowed(NoReturn, s, step)
    ensures OutdatedGroupsEnd(Apply(s, step))
  {
    var s' := Apply(s, step);
    if step.BindFirst? {
      FirstBindOpens(s, step.p);
    } else {
      forall p, q | HasRecord(s', p) && HasRecord(s', q) ensures NotBoth(s', p, q) { NotBothAt(s, step, p, q); }
    }
  }

  lemma NoReturnBumpsSafely(s: Sys, step: Step)
    requires Orderliness(s) && OutdatedGroupsEnd(s) && Enabled(s, step)
    ensures SafeBump(s, step)
  {
    if BumpStep(s, step) {
      forall q | q in s.procs && s.procs[q].gid == s.procs[step.p].gid ensures s.procs[q].phase != Leaving(true) {
        assert OneHistory(s, s.procs[q]);
        if HasRecord(s, q) { assert NotBoth(s, q, step.p); }
      }
    }
  }

  lemma {:induction false} NoReturnIsOrderly(s: Sys, steps: seq<Step>)
    requires Steady(s) && OutdatedGroupsEnd(s) && Legal(NoReturn, s, steps)
    ensures Legal(Orderly, s, steps) && Steady(Exec(s, steps))
    decreases |steps|
  {
    if steps != [] {
      if Enabled(s, steps[0]) {
        NoReturnBumpsSafely(s, steps[0]);
        SteadyStep(s, steps[0]);
        OutdatedKept(s, steps[0]);
      }
      NoReturnIsOrderly(Next(s, steps[0]), steps[1..]);
    }
  }

  // ---------------------------------------------------------------- nobody starts in a doomed group

  lemma {:induction false} PatientIsOrderly(s: Sys, steps: seq<Step>)
    requires Steady(s) && WorkersAreSafe(s) && Legal(Patient, s, steps)
    ensures Legal(Orderly, s, steps) && Steady(Exec(s, steps)) && StartsSafely(s, steps)
    decreases |steps|
  {
    if steps != [] {
      var step := steps[0];
      if Enabled(s, step) {
        SteadyStep(s, step);
        WorkersStaySafe(s, step);
      }
      PatientIsOrderly(Next(s, step), steps[1..]);
    }
  }

  // ---------------------------------------------------------------- the promises

  lemma InitialSteady()
    ensures Steady(INITIAL) && OutdatedGroupsEnd(INITIAL) && WorkersAreSafe(INITIAL)
  {
    InitialOrder();
  }

  /** Either promise of the application keeps every run orderly, hence in service throughout. */
  lemma PromisesSuffice(steps: seq<Step>)
    requires Legal(NoReturn, INITIAL, steps) || Legal(Patient, INITIAL, steps)
    ensures Legal(Orderly, INITIAL, steps)
  {
    InitialSteady();
    if Legal(NoReturn, INITIAL, steps) {
      NoReturnIsOrderly(INITIAL, steps);
    } else {
      PatientIsOrderly(INITIAL, steps);
    }
  }
}
