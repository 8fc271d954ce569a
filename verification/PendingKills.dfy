/** Whom a delayed group kill can hit, exactly: a process that is at work, and a process that holds
    the descriptor lock. Nothing is assumed about the application but what is said. */
module PendingKills {
  import opened Protocol
  import opened Accounting
  import opened Service

  // ---------------------------------------------------------------- processes at work

  /** A process that works is hit by no pending kill. */
  ghost predicate WorkersAreSafe(s: Sys) {
    forall p :: p in s.procs && Working(s.procs[p]) ==> !Doomed(s, s.procs[p].gid)
  }

  /** No process enters its event loop while a kill of its group is pending. */
  ghost predicate StartsSafely(s: Sys, steps: seq<Step>)
    decreases |steps|
  {
    steps == [] || (!StartsDoomed(s, steps[0]) && StartsSafely(Next(s, steps[0]), steps[1..]))
  }

  ghost predicate StartsDoomed(s: Sys, step: Step) {
    Enabled(s, step) && step.Activate? && Doomed(s, s.procs[step.p].gid)
  }

  ghost predicate WorkersSafeThroughout(s: Sys, steps: seq<Step>)
    decreases |steps|
  {
    WorkersAreSafe(s) && (steps == [] || WorkersSafeThroughout(Next(s, steps[0]), steps[1..]))
  }

  lemma NoWorkInDoomed(s: Sys, p: Pid, q: Pid)
    requires Inv(s) && Enabled(s, Decrement(p)) && s.workers[s.procs[p].gid] == 1
    requires q in s.procs && s.procs[q].gid == s.procs[p].gid && q != p
    ensures !Working(s.procs[q])
  {
    LastWorkerLeaves(s, p);
  }

  lemma SafeAt(s: Sys, step: Step, p: Pid)
    requires Inv(s) && WorkersAreSafe(s) && Enabled(s, step) && !StartsDoomed(s, step)
    requires p in Apply(s, step).procs && Working(Apply(s, step).procs[p])
    ensures !Doomed(Apply(s, step), Apply(s, step).procs[p].gid)
  {
    hide Inv, Count, Where, AddressTaken;
    var s', g := Apply(s, step), Apply(s, step).procs[p].gid;
    assert p in s.procs && s.procs[p].gid == g && (Working(s.procs[p]) || (step.Activate? && p == step.p));
    if step.Decrement? && s.procs[step.p].gid == g && s.workers[g] == 1 {
      NoWorkInDoomed(s, step.p, p);
    } else if Doomed(s', g) {
      NoNewDoom(s, step, g);
    }
  }

  lemma WorkersStaySafe(s: Sys, step: Step)
    requires Inv(s) && WorkersAreSafe(s) && Enabled(s, step) && !StartsDoomed(s, step)
    ensures WorkersAreSafe(Apply(s, step))
  {
    var s' := Apply(s, step);
    forall p | p in s'.procs && Working(s'.procs[p]) ensures !Doomed(s', s'.procs[p].gid) { SafeAt(s, step, p); }
  }

  lemma DoomedStart(s: Sys, step: Step)
    requires StartsDoomed(s, step)
    ensures !WorkersAreSafe(Apply(s, step))
  {
    var s', g := Apply(s, step), s.procs[step.p].gid;
    var q :| q in s.procs && s.procs[q].gid == g && s.procs[q].phase == Leaving(true);
    assert s'.procs[q] == s.procs[q] && Working(s'.procs[step.p]) && s'.procs[step.p].gid == g;
  }

  lemma {:induction false} WorkersSafeIff(s: Sys, steps: seq<Step>)
    requires Inv(s) && WorkersAreSafe(s)
    ensures WorkersSafeThroughout(s, steps) <==> StartsSafely(s, steps)
    decreases |steps|
  {
    if steps != [] {
      if StartsDoomed(s, steps[0]) {
        DoomedStart(s, steps[0]);
      } else {
        if Enabled(s, steps[0]) {
          StepKeeps(s, steps[0]);
          WorkersStaySafe(s, steps[0]);
        }
        WorkersSafeIff(Next(s, steps[0]), steps[1..]);
      }
    }
  }

  /** The exact condition of safe group termination: in every state of a run no pending kill can hit
      a process at work if and only if no process enters its event loop in a doomed group. */
  lemma KillsHitNoWorkerIff(steps: seq<Step>)
    ensures WorkersSafeThroughout(INITIAL, steps) <==> StartsSafely(INITIAL, steps)
  {
    InitialInv();
    WorkersSafeIff(INITIAL, steps);
  }

  // ---------------------------------------------------------------- the holder of the lock

  ghost predicate OneUnit(s: Sys) { s.fdSem + Count(s.procs, Locked) == 1 }

  /** Whichever of the pending kills come first, the lock is free or held. */
  ghost predicate LockSurvives(s: Sys) { forall kills :: Kills(kills) ==> OneUnit(Exec(s, kills)) }

  ghost predicate LockThroughout(s: Sys, steps: seq<Step>)
    decreases |steps|
  {
    LockSurvives(s) && (steps == [] || LockThroughout(Next(s, steps[0]), steps[1..]))
  }

  /** The lock is taken by a process of a doomed group. */
  ghost predicate LocksDoomed(s: Sys, step: Step) {
    Enabled(s, step) && step.Lock? && s.fdSem > 0 && Doomed(s, s.procs[step.p].gid)
  }

  ghost predicate LocksSafely(s: Sys, steps: seq<Step>)
    decreases |steps|
  {
    steps == [] || (!LocksDoomed(s, steps[0]) && LocksSafely(Next(s, steps[0]), steps[1..]))
  }

  /** A bound socket is closed only while it is unlocked. */
  ghost predicate ClosesUnlocked(s: Sys, steps: seq<Step>)
    decreases |steps|
  {
    steps == [] || (!ClosesLocked(s, steps[0]) && ClosesUnlocked(Next(s, steps[0]), steps[1..]))
  }

  ghost predicate ClosesLocked(s: Sys, step: Step) { Enabled(s, step) && step.CloseBound? && Locked(s.procs[step.p]) }

  ghost predicate HoldersAreSafe(s: Sys) {
    forall p :: p in s.procs && Locked(s.procs[p]) ==> !Doomed(s, s.procs[p].gid)
  }

  lemma HolderWorks(s: Sys, p: Pid)
    requires Shape(s) && p in s.procs && Locked(s.procs[p])
    ensures Working(s.procs[p])
  {
    assert ProcShape(s, s.procs[p]);
  }

  lemma HolderSafeAt(s: Sys, step: Step, p: Pid)
    requires Inv(s) && HoldersAreSafe(s) && Enabled(s, step) && !LocksDoomed(s, step)
    requires p in Apply(s, step).procs && Locked(Apply(s, step).procs[p])
    ensures !Doomed(Apply(s, step), Apply(s, step).procs[p].gid)
  {
    WasHolder(s, step, p);
    hide Apply, Enabled, ProcShape, LockBalance, Ledger, WorkersExact;
    var s', g := Apply(s, step), Apply(s, step).procs[p].gid;
    if step.Decrement? && s.procs[step.p].gid == g && s.workers[g] == 1 {
      HolderWorks(s, p);
      NoWorkInDoomed(s, step.p, p);
    } else if Doomed(s', g) {
      NoNewDoom(s, step, g);
    }
  }

  lemma HandshakeMakesNoHolder(s: Sys, step: Step, p: Pid)
    requires Shape(s) && Enabled(s, step) && Handshakes(step) && p in Apply(s, step).procs && Locked(Apply(s, step).procs[p])
    ensures p in s.procs && s.procs[p].gid == Apply(s, step).procs[p].gid && Locked(s.procs[p])
  {
    hide Count, Where, AddressTaken;
    assert p in s.procs && ProcShape(s, s.procs[p]);
  }

  lemma OtherStepMakesHolder(s: Sys, step: Step, p: Pid)
    requires Shape(s) && Enabled(s, step) && !Handshakes(step) && p in Apply(s, step).procs && Locked(Apply(s, step).procs[p])
    ensures p in s.procs && s.procs[p].gid == Apply(s, step).procs[p].gid
    ensures Locked(s.procs[p]) || (step == Lock(p) && s.fdSem > 0)
    ensures step.Decrement? ==> p != step.p
  {
    hide Count, Where, AddressTaken, Open;
    var p0 := Origin(step, p);
    if p0 in s.procs { assert ProcShape(s, s.procs[p0]); }
  }

  /** A holder held the lock before, or has just taken it. */
  lemma WasHolder(s: Sys, step: Step, p: Pid)
    requires Shape(s) && Enabled(s, step) && p in Apply(s, step).procs && Locked(Apply(s, step).procs[p])
    ensures p in s.procs && s.procs[p].gid == Apply(s, step).procs[p].gid
    ensures Locked(s.procs[p]) || (step == Lock(p) && s.fdSem > 0)
    ensures step.Decrement? ==> p != step.p
  {
    hide Apply, Enabled;
    if Handshakes(step) { HandshakeMakesNoHolder(s, step, p); } else { OtherStepMakesHolder(s, step, p); }
  }

  lemma NoHolderInDoomed(s: Sys, p: Pid)
    requires HoldersAreSafe(s) && Enabled(s, KillGroup(p))
    ensures Count(s.procs, LockedIn(s.procs[p].gid)) == 0
  {
    var g := s.procs[p].gid;
    assert Doomed(s, g);
    assert Where(s.procs, LockedIn(g)) == {};
  }

  /** Safe: every unit of the lock is accounted for, and no pending kill hits its holder. */
  ghost predicate LockSafe(s: Sys) { Inv(s) && s.lost == 0 && HoldersAreSafe(s) }

  lemma LockSafeStep(s: Sys, step: Step)
    requires LockSafe(s) && Enabled(s, step) && !LocksDoomed(s, step) && !ClosesLocked(s, step)
    ensures LockSafe(Apply(s, step))
  {
    StepKeeps(s, step);
    var s' := Apply(s, step);
    if step.KillGroup? { NoHolderInDoomed(s, step.p); }
    forall p | p in s'.procs && Locked(s'.procs[p]) ensures !Doomed(s', s'.procs[p].gid) { HolderSafeAt(s, step, p); }
  }

  lemma {:induction false} SafeThroughKills(s: Sys, kills: seq<Step>)
    requires LockSafe(s) && Kills(kills)
    ensures OneUnit(Exec(s, kills))
    decreases |kills|
  {
    if kills != [] {
      assert forall i :: 0 <= i < |kills| - 1 ==> kills[1..][i] == kills[i + 1];
      if Enabled(s, kills[0]) { LockSafeStep(s, kills[0]); }
      SafeThroughKills(Next(s, kills[0]), kills[1..]);
    }
  }

  /** A kill that hits a holder takes the lock along. */
  lemma KillTakesTheLock(s: Sys, p: Pid)
    requires Inv(s) && p in s.procs && Locked(s.procs[p]) && Doomed(s, s.procs[p].gid)
    ensures !LockSurvives(s)
  {
    var g := s.procs[p].gid;
    var q :| q in s.procs && s.procs[q].gid == g && s.procs[q].phase == Leaving(true);
    var kill := KillGroup(q);
    StepKeeps(s, kill);
    assert p in Where(s.procs, LockedIn(g));
    assert Exec(Next(s, kill), [kill][1..]) == Next(s, kill);
    assert Kills([kill]) && !OneUnit(Exec(s, [kill]));
  }

  lemma TakenInDoomed(s: Sys, step: Step)
    requires Inv(s) && LocksDoomed(s, step)
    ensures !LockSurvives(Apply(s, step))
  {
    var s', g := Apply(s, step), s.procs[step.p].gid;
    StepKeeps(s, step);
    var q :| q in s.procs && s.procs[q].gid == g && s.procs[q].phase == Leaving(true);
    assert q in s'.procs && s'.procs[q].gid == g && s'.procs[q].phase == Leaving(true);
    KillTakesTheLock(s', step.p);
  }

  lemma {:induction false} LockIff(s: Sys, steps: seq<Step>)
    requires LockSafe(s) && ClosesUnlocked(s, steps)
    ensures LocksSafely(s, steps) <==> LockThroughout(s, steps)
    decreases |steps|
  {
    forall kills | Kills(kills) ensures OneUnit(Exec(s, kills)) { SafeThroughKills(s, kills); }
    if steps != [] {
      if LocksDoomed(s, steps[0]) {
        TakenInDoomed(s, steps[0]);
      } else {
        if Enabled(s, steps[0]) { LockSafeStep(s, steps[0]); }
        LockIff(Next(s, steps[0]), steps[1..]);
      }
    }
  }

  /** The exact condition of lock safety, for all runs in which a bound socket is closed only while
      it is unlocked: in every state, whichever pending kills come first, the lock is free or held
      by one process, if and only if no process of a doomed group ever takes it. */
  lemma LockSafetyIff(steps: seq<Step>)
    requires ClosesUnlocked(INITIAL, steps)
    ensures LocksSafely(INITIAL, steps) <==> LockThroughout(INITIAL, steps)
  {
    InitialInv();
    LockIff(INITIAL, steps);
  }

  lemma {:induction false} SafeStartsLockSafely(s: Sys, steps: seq<Step>)
    requires Inv(s) && WorkersAreSafe(s) && StartsSafely(s, steps)
    ensures LocksSafely(s, steps)
    decreases |steps|
  {
    if steps != [] {
      if Enabled(s, steps[0]) {
        StepKeeps(s, steps[0]);
        WorkersStaySafe(s, steps[0]);
      }
      SafeStartsLockSafely(Next(s, steps[0]), steps[1..]);
    }
  }

  /** One promise is enough: no process enters its event loop while a kill of its group is pending. */
  lemma PatientLockSafety(steps: seq<Step>)
    requires ClosesUnlocked(INITIAL, steps) && StartsSafely(INITIAL, steps)
    ensures LockThroughout(INITIAL, steps) && OneUnit(Exec(INITIAL, steps))
  {
    InitialInv();
    SafeStartsLockSafely(INITIAL, steps);
    LockSafetyIff(steps);
    LastState(INITIAL, steps);
  }

  lemma {:induction false} LastState(s: Sys, steps: seq<Step>)
    requires LockThroughout(s, steps)
    ensures OneUnit(Exec(s, steps))
    decreases |steps|
  {
    if steps == [] {
      assert Kills([]) && OneUnit(Exec(s, []));
    } else {
      LastState(Next(s, steps[0]), steps[1..]);
    }
  }
}
