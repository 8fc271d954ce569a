/** What every step keeps, in every run: the descriptor lock, the transfer ledger, and the
    worker counters. Nothing is assumed about the application beyond what `Enabled` says. */
module Accounting {
  import opened Steps
  import opened Protocol

  /** Whoever is alive and holds the lock monitors and is in its event loop; a process whose
      detection succeeded has nothing open; records exist only after a completed `bind`. */
  ghost predicate Shape(s: Sys) {
    forall p :: p in s.procs ==> ProcShape(s, s.procs[p])
  }

  ghost predicate ProcShape(s: Sys, pr: Proc) {
    && pr.gid in s.workers
    && (pr.rec.Some? ==> pr.request.Bound?)
    && (Passed(pr) ==> pr.live && (pr.rec.Some? ==> !Monitors(pr) && Open(pr.rec.value) == 0))
    && (Locked(pr) ==> Monitors(pr) && pr.live)
    && (Flagged(pr) ==> pr.live)
  }

  /** One unit of the lock: free, held by one living record, or lost. */
  ghost predicate LockBalance(s: Sys) {
    s.fdSem >= 0 && s.fdSem + Count(s.procs, Locked) + s.lost == 1
  }

  ghost predicate Ledger(s: Sys) {
    s.st.transfer == Count(s.procs, Flagged) - s.deficit - s.stray
  }

  ghost predicate HasMember(s: Sys, g: Gid) {
    exists p :: p in s.procs && s.procs[p].gid == g && Alive(s.procs[p])
  }

  ghost predicate WorkersExact(s: Sys) {
    forall g :: g in s.workers && HasMember(s, g) ==> s.workers[g] == Count(s.procs, WorksIn(g))
  }

  ghost predicate Inv(s: Sys) {
    Shape(s) && LockBalance(s) && Ledger(s) && WorkersExact(s)
  }

  /** The counted properties look at these parts of a process only. */
  predicate SameParts(a: Proc, b: Proc) {
    a.gid == b.gid && a.live == b.live && a.phase == b.phase && a.rec == b.rec
  }

  /** The process whose counted properties a step may change. */
  function Actor(step: Step): Pid {
    match step
    case Fork(_, c) => c
    case AcceptRequest(o, _) => o
    case Answer(o, _) => o
    case HangUp(o, _) => o
    case _ => step.p
  }

  ghost predicate OnlyChanges(procs: map<Pid, Proc>, procs': map<Pid, Proc>, p: Pid) {
    && procs'.Keys == procs.Keys + {p}
    && forall q :: q in procs && q != p ==> SameParts(procs[q], procs'[q])
  }

  lemma StepIsLocal(s: Sys, step: Step)
    requires Enabled(s, step) && !step.KillGroup?
    ensures OnlyChanges(s.procs, Apply(s, step).procs, Actor(step))
  {
    hide AddressTaken, Count, Where, Detectable, Kill;
  }

  lemma SetChange(a: set<Pid>, b: set<Pid>, p: Pid)
    requires forall q :: q != p ==> (q in a <==> q in b)
    ensures |b| == |a| + (if p in b then 1 else 0) - (if p in a then 1 else 0)
    ensures p in a ==> |a| >= 1
  {
    assert a - {p} == b - {p};
    assert |a - {p}| == |a| - (if p in a then 1 else 0);
    assert |b - {p}| == |b| - (if p in b then 1 else 0);
  }

  lemma CountChange(procs: map<Pid, Proc>, procs': map<Pid, Proc>, p: Pid, P: Proc -> bool)
    requires OnlyChanges(procs, procs', p)
    requires forall q :: q in procs && q != p ==> P(procs'[q]) == P(procs[q])
    ensures Count(procs', P)
         == Count(procs, P) + (if P(procs'[p]) then 1 else 0) - (if p in procs && P(procs[p]) then 1 else 0)
    ensures p in procs && P(procs[p]) ==> Count(procs, P) >= 1
  {
    var a, b := Where(procs, P), Where(procs', P);
    forall q | q != p ensures q in a <==> q in b { }
    SetChange(a, b, p);
  }

  /** The steps of a handshake; all others leave requests alone. */
  predicate Handshakes(step: Step) {
    step.BindFirst? || step.Inherit? || step.Answer? || step.AcceptRequest? || step.Connect? || step.HangUp?
  }

  lemma HandshakeKeepsShape(s: Sys, step: Step, p: Pid)
    requires Shape(s) && Enabled(s, step) && Handshakes(step) && p in Apply(s, step).procs
    ensures ProcShape(Apply(s, step), Apply(s, step).procs[p])
  {
    hide AddressTaken, Unlock, Monitor;
    assert p in s.procs && ProcShape(s, s.procs[p]);
  }

  /** The steps that change the flags of a record, and those that change what it has open. */
  predicate ChangesFlags(step: Step) { step.MonitorRecord? || step.Lock? || step.Release? }

  predicate ChangesOpen(step: Step) { step.AcceptClient? || step.CloseClient? || step.CloseBound? }

  lemma FlagsKeepShape(s: Sys, step: Step, p: Pid)
    requires Shape(s) && Enabled(s, step) && ChangesFlags(step) && p in Apply(s, step).procs
    ensures ProcShape(Apply(s, step), Apply(s, step).procs[p])
  {
    assert p in s.procs && ProcShape(s, s.procs[p]);
  }

  lemma OpenKeepsShape(s: Sys, step: Step, p: Pid)
    requires Shape(s) && Enabled(s, step) && ChangesOpen(step) && p in Apply(s, step).procs
    ensures ProcShape(Apply(s, step), Apply(s, step).procs[p])
  {
    assert p in s.procs && ProcShape(s, s.procs[p]);
  }

  lemma OtherStepKeepsShape(s: Sys, step: Step, p: Pid)
    requires Shape(s) && Enabled(s, step) && !Handshakes(step) && !ChangesFlags(step) && !ChangesOpen(step) && p in Apply(s, step).procs
    ensures ProcShape(Apply(s, step), Apply(s, step).procs[p])
  {
    var p0 := Origin(step, p);
    if p0 in s.procs { assert ProcShape(s, s.procs[p0]); }
  }

  /** Where a process comes from: a forked child is a copy of its parent. */
  function Origin(step: Step, p: Pid): Pid {
    if step.Fork? && p == step.c then step.p else p
  }

  lemma ShapeKept(s: Sys, step: Step)
    requires Shape(s) && Enabled(s, step)
    ensures Shape(Apply(s, step))
  {
    var s' := Apply(s, step);
    forall p | p in s'.procs ensures ProcShape(s', s'.procs[p]) {
      if Handshakes(step) {
        HandshakeKeepsShape(s, step, p);
      } else if ChangesFlags(step) {
        FlagsKeepShape(s, step, p);
      } else if ChangesOpen(step) {
        OpenKeepsShape(s, step, p);
      } else {
        OtherStepKeepsShape(s, step, p);
      }
    }
  }

  lemma KillLosesItsLocks(s: Sys, p: Pid)
    requires Enabled(s, KillGroup(p))
    ensures Count(Kill(s, p), Locked) + Count(s.procs, LockedIn(s.procs[p].gid)) == Count(s.procs, Locked)
  {
    hide AddressTaken, Detectable;
    var g := s.procs[p].gid;
    var all, a, b := Where(s.procs, Locked), Where(Kill(s, p), Locked), Where(s.procs, LockedIn(g));
    forall q ensures q in b <==> q in all && s.procs[q].gid == g { }
    forall q ensures q in a <==> q in all && s.procs[q].gid != g { }
    assert all == a + b && a !! b;
  }

  lemma NoLockBeforeFirstBind(s: Sys)
    requires Shape(s) && !AddressTaken(s)
    ensures Count(s.procs, Locked) == 0
  {
    forall p | p in s.procs ensures !Locked(s.procs[p]) {
      assert !Holds(s.procs[p]);
    }
    assert Where(s.procs, Locked) == {};
  }

  lemma LockKept(s: Sys, step: Step)
    requires Shape(s) && LockBalance(s) && Enabled(s, step)
    ensures LockBalance(Apply(s, step))
  {
    hide Where, Count;
    if step.KillGroup? {
      KillLosesItsLocks(s, step.p);
    } else {
      var s' := Apply(s, step);
      StepIsLocal(s, step);
      CountChange(s.procs, s'.procs, Actor(step), Locked);
      if step.BindFirst? {
        NoLockBeforeFirstBind(s);
      }
    }
  }

  lemma LedgerKept(s: Sys, step: Step)
    requires Shape(s) && Ledger(s) && Enabled(s, step)
    ensures Ledger(Apply(s, step))
  {
    if step.KillGroup? {
      assert Where(Kill(s, step.p), Flagged) == Where(s.procs, Flagged);
    } else {
      StepIsLocal(s, step);
      CountChange(s.procs, Apply(s, step).procs, Actor(step), Flagged);
    }
  }

  lemma MemberWas(s: Sys, step: Step, g: Gid)
    requires Enabled(s, step) && g in s.workers && HasMember(Apply(s, step), g)
    requires Shape(s)
    ensures HasMember(s, g)
  {
    var s' := Apply(s, step);
    var q :| q in s'.procs && s'.procs[q].gid == g && Alive(s'.procs[q]);
    var q0 := Origin(step, q);
    assert q0 in s.procs && s.procs[q0].gid == g && Alive(s.procs[q0]);
  }

  lemma WorkerMoves(s: Sys, step: Step, g: Gid)
    requires Enabled(s, step) && !step.KillGroup? && Shape(s) && g in s.workers
    ensures var p, s' := Actor(step), Apply(s, step);
            && p in s'.procs && g in s'.workers
            && s'.workers[g] == s.workers[g] + (if WorksIn(g)(s'.procs[p]) then 1 else 0)
                                             - (if p in s.procs && WorksIn(g)(s.procs[p]) then 1 else 0)
  {
    hide Kill;
    var p := Origin(step, Actor(step));
    if p in s.procs { assert ProcShape(s, s.procs[p]); }
  }

  lemma GroupCountKept(s: Sys, step: Step, g: Gid)
    requires Shape(s) && WorkersExact(s) && Enabled(s, step) && !step.KillGroup?
    requires HasMember(Apply(s, step), g) && g in s.workers
    ensures Apply(s, step).workers[g] == Count(Apply(s, step).procs, WorksIn(g))
  {
    MemberWas(s, step, g);
    WorkerMoves(s, step, g);
    StepIsLocal(s, step);
    CountChange(s.procs, Apply(s, step).procs, Actor(step), WorksIn(g));
  }

  lemma WorkersKept(s: Sys, step: Step)
    requires Shape(s) && WorkersExact(s) && Enabled(s, step)
    ensures WorkersExact(Apply(s, step))
  {
    var s' := Apply(s, step);
    forall g | g in s'.workers && HasMember(s', g) ensures s'.workers[g] == Count(s'.procs, WorksIn(g)) {
      if step.KillGroup? {
        KillEndsOneGroup(s, step.p, g);
      } else if g in s.workers {
        GroupCountKept(s, step, g);
      } else {
        assert Where(s'.procs, WorksIn(g)) == {};
      }
    }
  }

  lemma KillEndsOneGroup(s: Sys, p: Pid, g: Gid)
    requires Enabled(s, KillGroup(p)) && HasMember(Apply(s, KillGroup(p)), g)
    ensures HasMember(s, g) && Count(Kill(s, p), WorksIn(g)) == Count(s.procs, WorksIn(g))
  {
    hide AddressTaken, Respond;
    assert Where(Kill(s, p), WorksIn(g)) == Where(s.procs, WorksIn(g));
  }

  // ---------------------------------------------------------------- over whole runs

  lemma StepKeeps(s: Sys, step: Step)
    requires Inv(s) && Enabled(s, step)
    ensures Inv(Apply(s, step))
  {
    ShapeKept(s, step);
    LockKept(s, step);
    LedgerKept(s, step);
    WorkersKept(s, step);
  }

  lemma {:induction false} RunKeeps(s: Sys, steps: seq<Step>)
    requires Inv(s)
    ensures Inv(Exec(s, steps))
    decreases |steps|
  {
    if steps != [] {
      if Enabled(s, steps[0]) { StepKeeps(s, steps[0]); }
      RunKeeps(Next(s, steps[0]), steps[1..]);
    }
  }

  lemma InitialInv()
    ensures Inv(INITIAL)
  {
    assert Where(INITIAL.procs, Locked) == {} == Where(INITIAL.procs, Flagged);
  }

  /** Units of the descriptor lock that a step makes unrecoverable: closing a bound socket while
      holding the lock, or killing a group one of whose processes holds it. */
  ghost function Losses(s: Sys, step: Step): nat {
    if !Enabled(s, step) then 0 else
    match step
    case CloseBound(p) => if Locked(s.procs[p]) then 1 else 0
    case KillGroup(p) => Count(s.procs, LockedIn(s.procs[p].gid))
    case _ => 0
  }

  /** Losses since the semaphore was last created. */
  ghost function LossesIn(s: Sys, steps: seq<Step>, before: nat): nat
    decreases |steps|
  {
    if steps == [] then before
    else LossesIn(Next(s, steps[0]), steps[1..],
                  if steps[0].BindFirst? && Enabled(s, steps[0]) then 0 else before + Losses(s, steps[0]))
  }

  lemma {:induction false} LossesAreLost(s: Sys, steps: seq<Step>)
    ensures Exec(s, steps).lost == LossesIn(s, steps, s.lost)
    decreases |steps|
  {
    if steps != [] {
      LossesAreLost(Next(s, steps[0]), steps[1..]);
    }
  }

  /** Lock safety of every run: never two holders, a holder monitors (so it has neither quit nor
      terminated), and the lock can always be taken again exactly when no step lost it. */
  lemma LockSafety(steps: seq<Step>)
    ensures var s := Exec(INITIAL, steps);
            && 0 <= s.fdSem <= 1
            && Count(s.procs, Locked) <= 1 - s.fdSem
            && (forall p :: p in s.procs && Locked(s.procs[p]) ==> Monitors(s.procs[p]) && s.procs[p].phase.Running?)
            && (s.fdSem + Count(s.procs, Locked) == 1 <==> LossesIn(INITIAL, steps, 0) == 0)
  {
    InitialInv();
    RunKeeps(INITIAL, steps);
    LossesAreLost(INITIAL, steps);
  }

  /** While a living process holds the lock, its semaphore is down: nobody else can take it, and
      nobody but the holder gives it back. */
  lemma HeldMeansDown(steps: seq<Step>, p: Pid)
    requires var s := Exec(INITIAL, steps); p in s.procs && Locked(s.procs[p])
    ensures Exec(INITIAL, steps).fdSem == 0
    ensures forall q :: q in Exec(INITIAL, steps).procs && q != p ==> !Locked(Exec(INITIAL, steps).procs[q])
  {
    LockSafety(steps);
    var s := Exec(INITIAL, steps);
    var holders := Where(s.procs, Locked);
    assert p in holders;
    assert |holders - {p}| == |holders| - 1;
    forall q | q in s.procs && q != p ensures !Locked(s.procs[q]) {
      assert q !in holders - {p};
    }
  }

  /** The last worker to leave sees zero exactly when every other process of the group that
      entered an event loop has passed detection and decremented, or is gone. */
  lemma LastWorkerLeaves(s: Sys, p: Pid)
    requires Inv(s) && Enabled(s, Decrement(p))
    ensures Apply(s, Decrement(p)).procs[p].phase == Leaving(true)
       <==> forall q :: q in s.procs && q != p && s.procs[q].gid == s.procs[p].gid ==> !Working(s.procs[q])
  {
    var g := s.procs[p].gid;
    var w := Where(s.procs, WorksIn(g));
    assert p in w && HasMember(s, g);
    if |w| == 1 {
      assert |w - {p}| == 0;
      forall q | q in s.procs && q != p && s.procs[q].gid == g ensures !Working(s.procs[q]) {
        assert q !in w - {p};
      }
    }
    if forall q :: q in s.procs && q != p && s.procs[q].gid == g ==> !Working(s.procs[q]) {
      assert w == {p};
    }
  }

  lemma LiveStaysLiveOnce(s: Sys, step: Step, q: Pid)
    requires q in s.procs && Enabled(s, step)
    ensures q in Apply(s, step).procs && Apply(s, step).procs[q].gid == s.procs[q].gid
    ensures s.procs[q].live && !Working(s.procs[q]) ==>
            Apply(s, step).procs[q].live && !Working(Apply(s, step).procs[q])
  {
    hide Count, Detectable;
  }

  lemma {:induction false} LiveStaysLive(s: Sys, steps: seq<Step>, q: Pid)
    requires q in s.procs
    ensures q in Exec(s, steps).procs && Exec(s, steps).procs[q].gid == s.procs[q].gid
    ensures s.procs[q].live && !Working(s.procs[q]) ==>
            Exec(s, steps).procs[q].live && !Working(Exec(s, steps).procs[q])
    decreases |steps|
  {
    if steps != [] {
      if Enabled(s, steps[0]) { LiveStaysLiveOnce(s, steps[0], q); }
      LiveStaysLive(Next(s, steps[0]), steps[1..], q);
    }
  }

  /** Safe group termination, and its exact limit. `p` is the last worker of its group and kills
      the group after any further run. A process of the group that is then still in an event
      loop had not entered one when the counter reached zero; every process that had, had
      passed detection: nothing monitored, no open connection. */
  lemma GroupKillIsSafe(s: Sys, p: Pid, steps: seq<Step>)
    requires Inv(s) && Enabled(s, Decrement(p)) && Apply(s, Decrement(p)).procs[p].phase == Leaving(true)
    ensures var s1 := Apply(s, Decrement(p));
            var s2 := Exec(s1, steps);
            && (forall q :: q in s2.procs && s2.procs[q].gid == s.procs[p].gid && Working(s2.procs[q])
                  ==> q !in s1.procs || !s1.procs[q].live)
            && (forall q :: q in s1.procs && s1.procs[q].gid == s.procs[p].gid && s1.procs[q].live
                            && Alive(s1.procs[q])
                  ==> Passed(s1.procs[q])
                      && (HasRecord(s1, q) ==> !Monitors(s1.procs[q]) && Open(s1.procs[q].rec.value) == 0))
  {
    hide AddressTaken, FirstBind, LockBalance, Ledger;
    LastWorkerLeaves(s, p);
    var s1 := Apply(s, Decrement(p));
    var s2 := Exec(s1, steps);
    StepKeeps(s, Decrement(p));
    forall q | q in s2.procs && s2.procs[q].gid == s.procs[p].gid && Working(s2.procs[q])
      ensures q !in s1.procs || !s1.procs[q].live
    {
      if q in s1.procs && s1.procs[q].live {
        LiveStaysLive(s1, steps, q);
      }
    }
  }
}
