/** The descriptor lock in updates by one successor at a time: no kill ever hits a holder, so the
    lock is free or held by exactly one process in every reachable state. */
module Locking {
  import opened Protocol
  import opened Accounting
  import opened Service
  import opened PendingKills
  import opened Promises
  import opened Generations

  /** A process that enters its event loop in a doomed group is outdated; until it has run its state
      handler it may monitor, but then it has not asked for the lock. */
  ghost predicate Harmless(s: Sys, pr: Proc) {
    && (!pr.live ==> !pr.checked)
    && (Working(pr) && Doomed(s, pr.gid) ==>
          pr.rec.Some? && pr.rec.value.flags.version < s.st.version && (Monitors(pr) ==> !pr.checked && !pr.rec.value.flags.locked))
  }

  ghost predicate AllHarmless(s: Sys) { forall p :: p in s.procs ==> Harmless(s, s.procs[p]) }

  ghost predicate Shaped(s: Sys) { forall q :: q in s.procs ==> ProcShape(s, s.procs[q]) && OneHistory(s, s.procs[q]) }

  /** A record of a doomed group is outdated, like that of the process that is about to kill. */
  lemma DoomedIsOutdated(s: Sys, p: Pid)
    requires Shaped(s) && Coherent(s) && HasRecord(s, p) && Doomed(s, s.procs[p].gid)
    ensures VersionOf(s, p) < s.st.version
  {
    var q :| q in s.procs && s.procs[q].gid == s.procs[p].gid && s.procs[q].phase == Leaving(true);
    assert OneHistory(s, s.procs[q]) && OneHistory(s, s.procs[p]);
    assert SameGeneration(s, q, p);
  }

  lemma DoomIsKept(s: Sys, step: Step, p: Pid)
    requires Inv(s) && Shaped(s) && Enabled(s, step) && p in Apply(s, step).procs && Working(Apply(s, step).procs[p])
    requires Doomed(Apply(s, step), Apply(s, step).procs[p].gid)
    requires Allowed(Basic, s, step)
    ensures p in s.procs && s.procs[p].gid == Apply(s, step).procs[p].gid && Doomed(s, s.procs[p].gid)
  {
    hide Inv, Count, Where, AddressTaken;
    var g := Apply(s, step).procs[p].gid;
    assert p in s.procs && s.procs[p].gid == g && (Working(s.procs[p]) || (step.Activate? && p == step.p));
    if step.Decrement? && s.procs[step.p].gid == g && s.workers[g] == 1 {
      NoWorkInDoomed(s, step.p, p);
    } else {
      NoNewDoom(s, step, g);
    }
  }

  ghost predicate Checks(s: Sys, p: Pid) { p in s.procs && !s.procs[p].live ==> !s.procs[p].checked }

  lemma ChecksKept(s: Sys, step: Step, p: Pid)
    requires Enabled(s, step) && Checks(s, Origin(step, p))
    ensures Checks(Apply(s, step), p)
  {
    hide Count, Where, AddressTaken, Detectable;
  }

  /** The record is outdated, and if it monitors, the process has neither run its state handler in
      this call nor the lock. */
  ghost predicate Spent(s: Sys, p: Pid) {
    && HasRecord(s, p) && VersionOf(s, p) < s.st.version
    && (Monitors(s.procs[p]) ==> !s.procs[p].checked && !s.procs[p].rec.value.flags.locked)
  }

  /** An outdated process that monitors unchecked quits before it can lock. */
  lemma HandlerSpends(s: Sys, step: Step, p: Pid)
    requires Enabled(s, step) && ChangesFlags(step) && Spent(s, p)
    ensures Spent(Apply(s, step), p)
  {
    hide Count, Where, AddressTaken;
  }

  lemma HandshakeKeepsSpent(s: Sys, step: Step, p: Pid)
    requires Enabled(s, step) && Handshakes(step) && !step.BindFirst? && Spent(s, p) && ProcShape(s, s.procs[p])
    ensures Spent(Apply(s, step), p)
  {
    hide Count, Where, AddressTaken;
  }

  lemma OtherStepKeepsSpent(s: Sys, step: Step, p: Pid)
    requires Enabled(s, step) && Allowed(Basic, s, step) && !Handshakes(step) && !ChangesFlags(step) && Spent(s, p)
    ensures Spent(Apply(s, step), p)
  {
    hide Count, Where, AddressTaken, Detectable;
  }

  lemma StillHarmless(s: Sys, step: Step, p: Pid)
    requires Enabled(s, step) && Allowed(Basic, s, step) && !step.BindFirst? && Spent(s, p) && ProcShape(s, s.procs[p])
    ensures Spent(Apply(s, step), p)
  {
    hide Apply, Enabled;
    if Handshakes(step) {
      HandshakeKeepsSpent(s, step, p);
    } else if ChangesFlags(step) {
      HandlerSpends(s, step, p);
    } else {
      OtherStepKeepsSpent(s, step, p);
    }
  }

  lemma HarmlessAt(s: Sys, step: Step, p: Pid)
    requires Inv(s) && Shaped(s) && Coherent(s) && s.started && AllHarmless(s)
    requires Enabled(s, step) && Allowed(OneSuccessor, s, step) && !step.BindFirst?
    requires p in Apply(s, step).procs
    ensures Harmless(Apply(s, step), Apply(s, step).procs[p])
  {
    hide Apply, Doomed, Inv, Coherent;
    var s' := Apply(s, step);
    var p0 := Origin(step, p);
    if p0 in s.procs { assert Harmless(s, s.procs[p0]); }
    ChecksKept(s, step, p);
    if Working(s'.procs[p]) && Doomed(s', s'.procs[p].gid) {
      DoomIsKept(s, step, p);
      assert Harmless(s, s.procs[p]) && ProcShape(s, s.procs[p]) && OneHistory(s, s.procs[p]);
      WasHarmless(s, step, p);
      DoomedIsOutdated(s, p);
      StillHarmless(s, step, p);
    }
  }

  /** A process that is about to work in a doomed group was harmless already, or not yet live. */
  lemma WasHarmless(s: Sys, step: Step, p: Pid)
    requires Enabled(s, step) && Allowed(Basic, s, step) && p in s.procs && Doomed(s, s.procs[p].gid)
    requires Working(Apply(s, step).procs[p]) && Harmless(s, s.procs[p]) && ProcShape(s, s.procs[p]) && OneHistory(s, s.procs[p])
    ensures HasRecord(s, p)
    ensures Monitors(s.procs[p]) ==> !s.procs[p].checked && !s.procs[p].rec.value.flags.locked
  {
    hide Count, Where, AddressTaken, Detectable;
  }

  lemma NothingToHarm(s: Sys, step: Step)
    requires Orderliness(s) && Enabled(s, step) && AllHarmless(s) && (step.BindFirst? || !s.started)
    ensures AllHarmless(Apply(s, step))
  {
    hide Inv;
    var s' := Apply(s, step);
    if step.BindFirst? { FirstBindOpens(s, step.p); }
    forall p | p in s'.procs ensures Harmless(s', s'.procs[p]) {
      var p0 := Origin(step, p);
      if p0 in s.procs { assert Harmless(s, s.procs[p0]) && OneHistory(s, s.procs[p0]); }
    }
  }

  lemma HarmlessStep(s: Sys, step: Step)
    requires Steady(s) && (s.started ==> Coherent(s)) && AllHarmless(s)
    requires Enabled(s, step) && Allowed(OneSuccessor, s, step)
    ensures AllHarmless(Apply(s, step))
  {
    if step.BindFirst? || !s.started {
      NothingToHarm(s, step);
    } else {
      var s' := Apply(s, step);
      forall p | p in s'.procs ensures Harmless(s', s'.procs[p]) { HarmlessAt(s, step, p); }
    }
  }

  /** Who could take the lock in a doomed group would have been through its state handler, and quit. */
  lemma NobodyLocksDoomed(s: Sys, step: Step)
    requires AllHarmless(s)
    ensures !LocksDoomed(s, step)
  {
    if Enabled(s, step) && step.Lock? {
      assert Harmless(s, s.procs[step.p]);
    }
  }

  lemma {:induction false} SuccessorsLockSafely(s: Sys, steps: seq<Step>)
    requires Steady(s) && (s.started ==> Coherent(s)) && AllHarmless(s) && Legal(OneSuccessor, s, steps)
    ensures LocksSafely(s, steps) && ClosesUnlocked(s, steps)
    decreases |steps|
  {
    if steps != [] {
      NobodyLocksDoomed(s, steps[0]);
      if Enabled(s, steps[0]) {
        CoherenceStep(s, steps[0]);
        HarmlessStep(s, steps[0]);
      }
      SuccessorsLockSafely(Next(s, steps[0]), steps[1..]);
    }
  }

  /** Lock safety of updates by one successor at a time, while the application keeps the port open:
      in every reachable state, whichever pending kills come first, the lock is free or one process
      holds it. No assumption is made on when the lock is asked for, nor on how long a kill is
      delayed. */
  lemma OneHolder(steps: seq<Step>)
    requires Legal(OneSuccessor, INITIAL, steps)
    ensures LockThroughout(INITIAL, steps)
    ensures var s := Exec(INITIAL, steps);
            && OneUnit(s)
            && forall p :: p in s.procs && Locked(s.procs[p]) ==> Monitors(s.procs[p]) && s.procs[p].phase.Running?
  {
    InitialSteady();
    SuccessorsLockSafely(INITIAL, steps);
    LockSafetyIff(steps);
    LastState(INITIAL, steps);
    LockSafety(steps);
  }
}
